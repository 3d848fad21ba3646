/** What a client can conclude from the messages it was sent: the settings it follows after one
    get_status are the radio's, the last control_revoked tells whether rx can be claimed, and the
    requested rate it was last told is the one requested then. */
module ControlEvents {
  import opened Basics
  import opened ControlPlane
  import opened ControlInvariants
  import Radio
  import VitaSender
  import AuthMachine
  import ControlAuth

  // ---- A client that reads its messages -----------------------------------------------

  datatype Known = Unknown | Known(view: View)

  function Noted(v: View, r: Reading): View {
    match r
    case GainIs(g) => v.(gain := g)
    case AgcIs(on) => v.(agc := on)
    case PpmIs(p) => v.(ppm := p)
    case ModeIs(d) => v.(mode := d)
    case BiasIs(_) => v
  }

  /** get_status gives all settings; each event, and each answer to get_control, one of them. */
  function Update(k: Known, m: Message): Known {
    match m
    case StatusIs(v) => Known(v)
    case ControlIs(r) => if k.Known? then Known(Noted(k.view, r)) else k
    case FrequencyChanged(f) => if k.Known? then Known(k.view.(freq := f)) else k
    case SampleRateChanged(q, a) => if k.Known? then Known(k.view.(rateRequested := q, rate := a)) else k
    case GainChanged(g) => if k.Known? then Known(k.view.(gain := g)) else k
    case AgcChanged(on) => if k.Known? then Known(k.view.(agc := on)) else k
    case PpmChanged(p) => if k.Known? then Known(k.view.(ppm := p)) else k
    case ModeChanged(d) => if k.Known? then Known(k.view.(mode := d)) else k
    case _ => k
  }

  function Track(log: seq<Message>): Known {
    if log == [] then Unknown else Update(Track(log[..|log| - 1]), log[|log| - 1])
  }

  datatype Rights = Untold | Told(free: bool)

  function Hear(r: Rights, m: Message): Rights {
    if m.ControlRevoked? then Told(m.free) else r
  }

  function Rumour(log: seq<Message>): Rights {
    if log == [] then Untold else Hear(Rumour(log[..|log| - 1]), log[|log| - 1])
  }

  lemma OneMore(log: seq<Message>, m: Message)
    ensures Track(log + [m]) == Update(Track(log), m)
    ensures Rumour(log + [m]) == Hear(Rumour(log), m)
    ensures LastAsk(log + [m]) == if m.StatusIs? then Asked(m.view.rateRequested)
                                  else if m.SampleRateChanged? then Asked(m.requested) else LastAsk(log)
  {
    assert (log + [m])[..|log|] == log;
  }

  // ---- The mirror ---------------------------------------------------------------------

  /** All settings but the requested rate. */
  function Settings(v: View): View { v.(rateRequested := 0) }

  /** What a connection knows is so. */
  predicate Right(t: Session, i: int, k: Known, r: Rights, a: Ask, radio: Radio.State, owner: int) {
    && (k.Known? ==> Settings(k.view) == Settings(ViewOf(radio)))
    && (r.Told? ==> (r.free <==> owner == -1 || owner == i))
    && (!t.live || t.phase == AwaitHello ==> k.Unknown? && r.Untold? && a.NoAsk?)
  }

  predicate RightAt(w: World, i: nat)
    requires WellSized(w) && i < MAX_SESSIONS
  {
    Right(w.sessions[i], i, Track(w.logs[i]), Rumour(w.logs[i]), LastAsk(w.logs[i]), w.radio, w.owner)
  }

  ghost predicate Mirror(w: World) {
    WellSized(w) && forall i :: 0 <= i < MAX_SESSIONS ==> RightAt(w, i)
  }

  predicate Quiet(m: Message) {
    m.Done? || m.Error? || m.Opened? || m.BiasChanged? || m.StreamState? || m.CapabilitiesChanged?
  }

  lemma QuietMirror(w: World, s: nat, skip: int, m: Message)
    requires WellSized(w) && s < MAX_SESSIONS && Quiet(m)
    ensures Mirror(w) ==> Mirror(Reply(w, s, m)) && Mirror(Broadcast(w, skip, m))
  {
    hide Track, Rumour, LastAsk;
    if Mirror(w) {
      forall i | 0 <= i < MAX_SESSIONS
        ensures RightAt(Reply(w, s, m), i) && RightAt(Broadcast(w, skip, m), i)
      {
        assert RightAt(w, i);
        OneMore(w.logs[i], m);
      }
    }
  }

  lemma StatusMirror(w: World, s: nat)
    requires Mirror(w) && s < MAX_SESSIONS && w.sessions[s].live && w.sessions[s].phase != AwaitHello
    ensures Mirror(Reply(w, s, StatusIs(ViewOf(w.radio))))
    ensures Track(Reply(w, s, StatusIs(ViewOf(w.radio))).logs[s]) == Known(ViewOf(w.radio))
  {
    hide Track, Rumour, LastAsk;
    OneMore(w.logs[s], StatusIs(ViewOf(w.radio)));
    forall i | 0 <= i < MAX_SESSIONS
      ensures RightAt(Reply(w, s, StatusIs(ViewOf(w.radio))), i)
    {
      assert RightAt(w, i);
    }
  }

  lemma ReadingMirror(w: World, s: nat, c: Control)
    requires Mirror(w) && s < MAX_SESSIONS
    ensures Mirror(Reply(w, s, ControlIs(Read(w.radio, c))))
  {
    hide Track, Rumour, LastAsk;
    OneMore(w.logs[s], ControlIs(Read(w.radio, c)));
    forall i | 0 <= i < MAX_SESSIONS
      ensures RightAt(Reply(w, s, ControlIs(Read(w.radio, c))), i)
    {
      assert RightAt(w, i);
    }
  }

  lemma GetControlMirror(w: World, s: nat, to: Address, name: Arg<Option<Control>>)
    requires Mirror(w) && s < MAX_SESSIONS
    ensures Mirror(DoGetControl(w, s, to, name))
  {
    hide Mirror, Reply;
    MirrorSized(w);
    ErrorMirror(w, s);
    if name.Value? && name.value.Some? {
      ReadingMirror(w, s, name.value.value);
    }
  }

  /** An event that says what changed, sent to all, keeps every client right. */
  lemma AnnounceMirror(w: World, r: Radio.State, m: Message)
    requires Mirror(w) && !m.ControlRevoked? && !m.StatusIs?
    requires Settings(Update(Known(ViewOf(w.radio)), m).view) == Settings(ViewOf(r))
    ensures Mirror(Broadcast(w.(radio := r), -1, m))
  {
    hide Track, Rumour, LastAsk;
    forall i | 0 <= i < MAX_SESSIONS
      ensures RightAt(Broadcast(w.(radio := r), -1, m), i)
    {
      assert RightAt(w, i);
      OneMore(w.logs[i], m);
    }
  }

  /** Ownership changes hands between `s` and nobody, and all others hear of it. */
  lemma RevokeMirror(w: World, s: nat, owner: int, w': World)
    requires Mirror(w) && s < MAX_SESSIONS && WellSized(w') && (w.owner == s || w.owner == -1)
    requires owner == s || owner == -1
    requires forall i :: 0 <= i < MAX_SESSIONS && i != s ==> w'.sessions[i] == w.sessions[i]
    requires !w'.sessions[s].live || w'.sessions[s].phase == AwaitHello ==>
               !w.sessions[s].live || w.sessions[s].phase == AwaitHello
    requires w'.radio == w.radio && w'.logs == w.logs && w'.owner == owner
    ensures Mirror(Broadcast(w', s, ControlRevoked(owner == -1)))
  {
    hide Track, Rumour, LastAsk;
    var m := ControlRevoked(owner == -1);
    var r := Broadcast(w', s, m);
    forall i | 0 <= i < MAX_SESSIONS
      ensures RightAt(r, i)
    {
      assert RightAt(w, i);
      OneMore(w.logs[i], m);
    }
  }

  /** Fields a client does not see. */
  predicate SameSeen(a: World, b: World)
    requires WellSized(a) && WellSized(b)
  {
    && a.logs == b.logs && Settings(ViewOf(a.radio)) == Settings(ViewOf(b.radio)) && a.owner == b.owner
    && forall i :: 0 <= i < MAX_SESSIONS ==>
         (!b.sessions[i].live || b.sessions[i].phase == AwaitHello ==>
            !a.sessions[i].live || a.sessions[i].phase == AwaitHello)
  }

  lemma SeenDecides(a: World, b: World)
    requires WellSized(a) && WellSized(b) && SameSeen(a, b)
    ensures Mirror(a) ==> Mirror(b)
  {
    hide Track, Rumour, LastAsk;
    if Mirror(a) {
      forall i | 0 <= i < MAX_SESSIONS
        ensures RightAt(b, i)
      {
        assert RightAt(a, i);
      }
    }
  }

  // ---- Handlers -----------------------------------------------------------------------

  lemma FrequencyMirror(w: World, s: nat, to: Address, hz: Arg<nat>, env: Env)
    requires Mirror(w) && s < MAX_SESSIONS
    ensures Mirror(DoSetFrequency(w, s, to, hz, env))
  {
    hide Mirror, Reply, Broadcast;
    MirrorSized(w);
    if to == Rx(false) && !OwnedByOther(w, s) && hz.Value? && hz.value >= 1 && Radio.InBand(w.radio.mode, hz.value)
       && env.freqApplied != 0 {
      var r := Radio.SetFrequency(w.radio, env.freqApplied);
      ReplyRadio(w, s, Done, r);
      QuietMirror(w, s, -1, Done);
      AnnounceMirror(Reply(w, s, Done), r, FrequencyChanged(env.freqApplied));
    } else {
      ErrorMirror(w, s);
    }
  }

  lemma MirrorSized(w: World)
    ensures Mirror(w) ==> WellSized(w)
  {
  }

  lemma ErrorMirror(w: World, s: nat)
    requires WellSized(w) && s < MAX_SESSIONS
    ensures forall c :: Mirror(w) ==> Mirror(Reply(w, s, Error(c)))
  {
    hide Mirror, Reply;
    forall c
      ensures Mirror(w) ==> Mirror(Reply(w, s, Error(c)))
    {
      QuietMirror(w, s, -1, Error(c));
    }
  }

  lemma ReplyRadio(w: World, s: nat, m: Message, r: Radio.State)
    requires WellSized(w) && s < MAX_SESSIONS
    ensures Reply(w.(radio := r), s, m) == Reply(w, s, m).(radio := r)
  {
  }

  lemma RateMirror(w: World, s: nat, to: Address, sps: Arg<nat>, env: Env)
    requires Mirror(w) && s < MAX_SESSIONS
    ensures Mirror(DoSetSampleRate(w, s, to, sps, env))
  {
    hide Mirror, Reply, Broadcast, Radio.Rates;
    MirrorSized(w);
    ErrorMirror(w, s);
    if sps.Value? {
      var r := Radio.SetSampleRate(w.radio, sps.value, env.rateApplied);
      ReplyRadio(w, s, Done, r);
      QuietMirror(w, s, -1, Done);
      if env.rateApplied != 0 {
        AnnounceMirror(Reply(w, s, Done), r, SampleRateChanged(sps.value, env.rateApplied));
      } else {
        SeenDecides(w, w.(radio := r));
        ErrorMirror(w.(radio := r), s);
      }
    }
  }

  lemma SideEffectsMirror(w: World, env: Env)
    requires Mirror(w)
    ensures Mirror(ModeSideEffects(w, env))
  {
    hide Mirror, Broadcast, VitaSender.ContextAll, VitaSender.SetFormat, Radio.Rates, Radio.PreferredRate;
    MirrorSized(w);
    if env.freqApplied != 0 {
      AnnounceMirror(w, Radio.SetFrequency(w.radio, env.freqApplied), FrequencyChanged(env.freqApplied));
    }
    var w1 := Retune(w, env);
    var want := Radio.PreferredRate(w1.radio.mode);
    var r := Radio.SetSampleRate(w1.radio, want, env.rateApplied);
    SeenDecides(w1, w1.(radio := w1.radio.(rateRequested := want)));
    if env.rateApplied != 0 {
      AnnounceMirror(w1, r, SampleRateChanged(want, env.rateApplied));
    }
    SeenDecides(Rerate(w1, env), ModeSideEffects(w, env));
  }

  lemma ModeMirror(w: World, s: nat, mode: Radio.Mode, env: Env)
    requires Mirror(w) && s < MAX_SESSIONS
    ensures Mirror(DoDirectSampling(w, s, mode, env))
  {
    hide Mirror, Broadcast, Reply, ModeSideEffects, Radio.Rates;
    MirrorSized(w);
    ErrorMirror(w, s);
    QuietMirror(w, s, -1, Done);
    if mode != w.radio.mode && !w.sessions[s].streamOpen && env.modeOk {
      var r := w.radio.(mode := mode);
      ReplyRadio(w, s, Done, r);
      AnnounceMirror(Reply(w, s, Done), r, ModeChanged(mode));
      var w1 := Broadcast(Reply(w.(radio := r), s, Done), -1, ModeChanged(mode));
      SideEffectsMirror(w1, env);
      QuietMirror(ModeSideEffects(w1, env), s, -1, CapabilitiesChanged);
    }
  }

  /** One setting changes, the client is answered and everybody is told. */
  lemma SetMirror(w: World, s: nat, r: Radio.State, m: Message)
    requires Mirror(w) && s < MAX_SESSIONS && !m.ControlRevoked? && !m.StatusIs?
    requires Settings(Update(Known(ViewOf(w.radio)), m).view) == Settings(ViewOf(r))
    ensures Mirror(Broadcast(Reply(w.(radio := r), s, Done), -1, m))
    ensures Mirror(Broadcast(SendContexts(Reply(w.(radio := r), s, Done)), -1, m))
  {
    hide Mirror, Reply, Broadcast, VitaSender.ContextAll;
    MirrorSized(w);
    ReplyRadio(w, s, Done, r);
    QuietMirror(w, s, -1, Done);
    AnnounceMirror(Reply(w, s, Done), r, m);
    var a := Reply(w.(radio := r), s, Done);
    BroadcastSlots(a, SendContexts(a).slots, m);
    SeenDecides(Broadcast(a, -1, m), Broadcast(SendContexts(a), -1, m));
  }

  lemma BroadcastSlots(w: World, slots: seq<VitaSender.Slot>, m: Message)
    requires WellSized(w) && |slots| == |w.slots|
    ensures Broadcast(w.(slots := slots), -1, m) == Broadcast(w, -1, m).(slots := slots)
  {
    assert forall i :: 0 <= i < MAX_SESSIONS ==> (Hears(w.(slots := slots), i, -1) <==> Hears(w, i, -1));
  }

  lemma SettingMirror(w: World, s: nat, setting: Setting, env: Env)
    requires Mirror(w) && s < MAX_SESSIONS
    ensures Mirror(DoSetting(w, s, setting, env))
  {
    hide Mirror, Broadcast, Reply, DoDirectSampling, SendContexts, Radio.Rates;
    MirrorSized(w);
    ErrorMirror(w, s);
    QuietMirror(w, s, -1, Done);
    match setting
    case RfGain(_) => SetMirror(w, s, w.radio.(gain := env.gainApplied), GainChanged(env.gainApplied));
    case Agc(on) => if on.Value? { SetMirror(w, s, w.radio.(agc := on.value), AgcChanged(on.value)); }
    case BiasTee(v) => if v.Value? { SetMirror(w, s, w.radio.(bias := v.value > 0.0), BiasChanged(v.value > 0.0)); }
    case Ppm(p) =>
      if p.Value? {
        var r := if env.ppmOk then w.radio.(ppm := p.value) else w.radio;
        SetMirror(w, s, r, PpmChanged(r.ppm));
      }
    case DirectSampling(to) => if to.Value? && to.value.Value? { ModeMirror(w, s, to.value.value, env); }
    case _ =>
  }

  // ---- Streams and connections --------------------------------------------------------

  lemma OpenMirror(w: World, s: nat, to: Address, problem: Arg<Code>)
    requires Mirror(w) && s < MAX_SESSIONS
    ensures Mirror(DoOpenStream(w, s, to, problem))
  {
    hide Mirror, Broadcast, Reply;
    MirrorSized(w);
    ErrorMirror(w, s);
    if to == Rx(false) && !w.sessions[s].streamOpen && MayClaim(w, s) {
      if problem.Value? {
        var w1 := Release(Claim(w, s), s);
        assert w1 == Broadcast(w.(owner := -1, sessions := w1.sessions), s, ControlRevoked(true));
        RevokeMirror(w, s, -1, w.(owner := -1, sessions := w1.sessions));
        QuietMirror(w1, s, -1, Error(problem.value));
      } else {
        var w' := DoOpenStream(w, s, to, problem);
        ReplyLogs(w'.(logs := w.logs), w, s, Opened(w.radio.rate, w.radio.mode));
        OpenedMirror(w, s, w');
      }
    }
  }

  lemma ReplyLogs(a: World, b: World, s: nat, m: Message)
    requires WellSized(a) && WellSized(b) && s < MAX_SESSIONS && a.logs == b.logs
    ensures Reply(a, s, m) == a.(logs := Reply(b, s, m).logs)
  {
  }

  lemma OpenedMirror(w: World, s: nat, w': World)
    requires Mirror(w) && s < MAX_SESSIONS && WellSized(w') && MayClaim(w, s) && w'.owner == s
    requires w'.radio == w.radio && w'.sessions == w.sessions[s := w'.sessions[s]]
    requires w'.sessions[s].phase == StreamOpen && w'.sessions[s].live == w.sessions[s].live
    requires var m := Opened(w.radio.rate, w.radio.mode);
             w' == Broadcast(Reply(w, s, m).(owner := s, sessions := w'.sessions, counter := w'.counter), s,
                 ControlRevoked(false))
    ensures Mirror(w')
  {
    hide Broadcast, Reply, RightAt;
    var m := Opened(w.radio.rate, w.radio.mode);
    QuietMirror(w, s, -1, m);
    var v := Reply(w, s, m);
    RevokeMirror(v, s, s, v.(owner := s, sessions := w'.sessions, counter := w'.counter));
  }

  lemma StartMirror(w: World, s: nat, id: StreamRef, env: Env)
    requires Mirror(w) && s < MAX_SESSIONS && w.sessions[s].phase != AwaitHello
    ensures Mirror(DoStartRx(w, s, id, env))
  {
    hide Mirror, Reply, VitaSender.Add, VitaSender.Free;
    MirrorSized(w);
    var w' := DoStartRx(w, s, id, env);
    var w0 := w'.(logs := w.logs);
    SeenDecides(w, w0);
    RepliesMirror(w0, s, StreamState(true));
  }

  /** Zero, one or two quiet replies. */
  lemma RepliesMirror(w: World, s: nat, m: Message)
    requires Mirror(w) && s < MAX_SESSIONS && Quiet(m)
    ensures Mirror(Reply(w, s, Done)) && Mirror(Reply(Reply(w, s, Done), s, m))
    ensures forall c :: Mirror(Reply(w, s, Error(c)))
  {
    hide Mirror, Reply;
    MirrorSized(w);
    QuietMirror(w, s, -1, Done);
    QuietMirror(Reply(w, s, Done), s, -1, m);
    ErrorMirror(w, s);
  }

  lemma StopMirror(w: World, s: nat, id: StreamRef)
    requires Mirror(w) && s < MAX_SESSIONS && w.sessions[s].phase != AwaitHello
    ensures Mirror(DoStopRx(w, s, id))
  {
    hide Mirror, Reply, VitaSender.Remove;
    MirrorSized(w);
    var w0 := DoStopRx(w, s, id).(logs := w.logs);
    SeenDecides(w, w0);
    RepliesMirror(w0, s, StreamState(false));
  }

  /** cp_rx_release. */
  lemma ReleaseMirror(w: World, s: nat)
    requires Mirror(w) && s < MAX_SESSIONS
    ensures Mirror(Release(w, s))
  {
    hide Mirror, Broadcast;
    MirrorSized(w);
    var w1 := w.(owner := if w.owner == s then -1 else w.owner,
                 sessions := w.sessions[s := w.sessions[s].(ownsRx := false)]);
    if w.owner == s {
      RevokeMirror(w, s, -1, w1);
    } else {
      SeenDecides(w, w1);
    }
  }

  lemma CloseMirror(w: World, s: nat, id: StreamRef)
    requires Mirror(w) && s < MAX_SESSIONS && w.sessions[s].phase != AwaitHello
    ensures Mirror(DoCloseStream(w, s, id))
  {
    hide Mirror, Reply, Release, DropToken;
    MirrorSized(w);
    ErrorMirror(w, s);
    if Names(w.sessions[s], id) {
      var w2 := Closed(w, s);
      DropSeen(w, s);
      SeenDecides(w, w2);
      ReleaseMirror(w2, s);
      RepliesMirror(Release(w2, s), s, StreamState(false));
    }
  }

  /** The stream gone, before control is released. */
  function Closed(w: World, s: nat): (r: World)
    requires WellSized(w) && s < MAX_SESSIONS
    ensures WellSized(r)
  {
    var w1 := DropToken(w, s);
    w1.(radio := if w.sessions[s].phase == Streaming then Radio.Stop(w1.radio) else w1.radio,
        sessions := w1.sessions[s := w1.sessions[s].(streamOpen := false, phase := Idle, streamId := 0)])
  }

  lemma DropSeen(w: World, s: nat)
    requires WellSized(w) && s < MAX_SESSIONS
    ensures var v := DropToken(w, s);
            && v.logs == w.logs && v.owner == w.owner && v.radio == w.radio
            && v.sessions == w.sessions[s := w.sessions[s].(token := v.sessions[s].token)]
  {
  }

  lemma HelloMirror(w: World, s: nat, problem: Arg<Code>, env: Env)
    requires Mirror(w) && s < MAX_SESSIONS
    ensures Mirror(DoHello(w, s, problem, env))
  {
    hide Mirror, Reply;
    MirrorSized(w);
    ErrorMirror(w, s);
    var w' := DoHello(w, s, problem, env);
    if !problem.Value? {
      SeenDecides(w, w'.(logs := w.logs));
      QuietMirror(w'.(logs := w.logs), s, -1, Done);
    }
  }

  lemma AuthenticateMirror(w: World, s: nat, claim: Arg<AuthMachine.Claim>, env: Env)
    requires Mirror(w) && s < MAX_SESSIONS
    ensures Mirror(DoAuthenticate(w, s, claim, env))
  {
    hide Mirror, Reply, AuthMachine.Passes, AuthMachine.Attempt;
    MirrorSized(w);
    var w0 := DoAuthenticate(w, s, claim, env).(logs := w.logs);
    SeenDecides(w, w0);
    RepliesMirror(w0, s, Done);
  }

  lemma ConnectMirror(w: World)
    requires Mirror(w)
    ensures Mirror(DoConnect(w))
  {
    hide FirstFree;
    var w' := DoConnect(w);
    forall i | 0 <= i < MAX_SESSIONS
      ensures RightAt(w', i)
    {
      assert RightAt(w, i);
    }
  }

  lemma ForgetMirror(w: World, s: nat)
    requires Mirror(w) && s < MAX_SESSIONS
    ensures Mirror(w.(sessions := w.sessions[s := FREE_SESSION], logs := w.logs[s := []]))
  {
    var w' := w.(sessions := w.sessions[s := FREE_SESSION], logs := w.logs[s := []]);
    forall i | 0 <= i < MAX_SESSIONS
      ensures RightAt(w', i)
    {
      assert RightAt(w, i);
    }
  }

  lemma DestroyMirror(w: World, s: nat, biasOk: bool)
    requires Mirror(w) && s < MAX_SESSIONS
    ensures Mirror(DoDestroy(w, s, biasOk))
  {
    hide Mirror, Broadcast, Release, DropToken;
    MirrorSized(w);
    DropSeen(w, s);
    var w1 := DropToken(w, s);
    SeenDecides(w, w1);
    var v := w1.(radio := Radio.Stop(w1.radio));
    SeenDecides(w1, v);
    QuietMirror(v, s, s, StreamState(false));
    var w2 := if w.sessions[s].phase == Streaming then Broadcast(v, s, StreamState(false)) else w1;
    ReleaseMirror(w2, s);
    var w3 := Release(w2, s);
    SeenDecides(w3, w3.(radio := w3.radio.(bias := false)));
    ForgetMirror(w3, s);
    ForgetMirror(w3.(radio := w3.radio.(bias := false)), s);
  }

  // ---- One step -----------------------------------------------------------------------

  lemma ControlMirror(w: World, s: nat, to: Address, setting: Setting, env: Env)
    requires Mirror(w) && s < MAX_SESSIONS
    ensures Mirror(DoSetControl(w, s, to, setting, env))
  {
    hide Mirror, Reply, DoSetting, Radio.Rates;
    MirrorSized(w);
    ErrorMirror(w, s);
    if to == Rx(false) && !OwnedByOther(w, s) {
      SettingMirror(w, s, setting, env);
    }
  }

  lemma DispatchMirror(w: World, s: nat, q: Request, env: Env)
    requires Mirror(w) && s < MAX_SESSIONS && w.sessions[s].live
    requires w.sessions[s].phase != AwaitHello || q.Hello? || q.Garbage? || q.NotARequest?
    ensures Mirror(Dispatch(w, s, q, env))
  {
    hide Mirror, Reply, DoHello, DoAuthenticate, DoSetFrequency, DoSetSampleRate, DoSetControl, DoGetControl,
      DoOpenStream, DoStartRx, DoStopRx, DoCloseStream;
    MirrorSized(w);
    ErrorMirror(w, s);
    QuietMirror(w, s, -1, Done);
    match q
    case Hello(problem) => HelloMirror(w, s, problem, env);
    case Authenticate(claim) => AuthenticateMirror(w, s, claim, env);
    case GetStatus => StatusMirror(w, s);
    case GetControl(to, name) => GetControlMirror(w, s, to, name);
    case SetFrequency(to, hz) => FrequencyMirror(w, s, to, hz, env);
    case SetSampleRate(to, sps) => RateMirror(w, s, to, sps, env);
    case SetControl(to, setting) => ControlMirror(w, s, to, setting, env);
    case OpenStream(to, problem) => OpenMirror(w, s, to, problem);
    case StartRx(id) => StartMirror(w, s, id, env);
    case StopRx(id) => StopMirror(w, s, id);
    case CloseStream(id) => CloseMirror(w, s, id);
    case _ =>
  }

  lemma StepMirror(w: World, e: Step)
    requires Mirror(w) && Possible(w, e)
    ensures Mirror(Next(w, e))
  {
    hide Mirror, Reply, Dispatch, DoDestroy, DoConnect, VitaSender.Callback;
    MirrorSized(w);
    match e
    case Connect => ConnectMirror(w);
    case Disconnect(s, biasOk) => DestroyMirror(w, s, biasOk);
    case Usb(buf) => SeenDecides(w, Next(w, e));
    case Command(s, q, env) =>
      ErrorMirror(w, s);
      if !TooEarly(w.sessions[s], q) && !Locked(w.cfg, w.sessions[s], q) {
        DispatchMirror(w, s, q, env);
      }
      var w1 := Handle(w, s, q, env).(clock := env.now);
      SeenDecides(Handle(w, s, q, env), w1);
      if w1.sessions[s].auth.closing {
        DestroyMirror(w1, s, env.biasOk);
      }
  }

  // ---- The requested rate -------------------------------------------------------------

  predicate NewMode(w: World, s: nat, setting: Setting, env: Env)
    requires WellSized(w) && s < MAX_SESSIONS
  {
    && setting.DirectSampling? && setting.to.Value? && setting.to.value.Value?
    && setting.to.value.value != w.radio.mode && !w.sessions[s].streamOpen && env.modeOk
  }

  /** The command comes to set a rate. */
  predicate SetsRate(w: World, s: nat, q: Request, env: Env)
    requires WellSized(w) && s < MAX_SESSIONS
  {
    match q
    case SetSampleRate(to, sps) =>
      && to == Rx(false) && !OwnedByOther(w, s)
      && w.sessions[s].phase != Streaming && w.sessions[s].phase != StreamOpen
      && sps.Value? && sps.value in Radio.Rates(w.radio.mode)
    case SetControl(to, setting) =>
      && to == Rx(false) && !OwnedByOther(w, s) && NewMode(w, s, setting, env)
      && w.radio.rateRequested !in Radio.Rates(setting.to.value.value)
    case _ => false
  }

  function Wanted(w: World, s: nat, q: Request, env: Env): nat
    requires WellSized(w) && s < MAX_SESSIONS && SetsRate(w, s, q, env)
  {
    if q.SetSampleRate? then q.sps.value else Radio.PreferredRate(q.setting.to.value.value)
  }

  /** The command gets past the hello-first rule and the authentication gate. */
  predicate Admitted(w: World, e: Step)
    requires WellSized(w)
  {
    && e.Command? && e.s < MAX_SESSIONS
    && !TooEarly(w.sessions[e.s], e.request) && !Locked(w.cfg, w.sessions[e.s], e.request)
  }

  /** The device refuses a rate, and the daemon keeps the request without telling anybody. */
  predicate SilentRate(w: World, e: Step)
    requires WellSized(w)
  {
    && Admitted(w, e) && e.env.rateApplied == 0 && SetsRate(w, e.s, e.request, e.env)
    && Wanted(w, e.s, e.request, e.env) != w.radio.rateRequested
  }

  /** Connection `i` is told the requested rate: it asks for the status, or a rate is taken. */
  predicate Refreshes(w: World, e: Step, i: nat)
    requires WellSized(w) && i < MAX_SESSIONS
  {
    && Admitted(w, e)
    && ((e.request.GetStatus? && e.s == i)
        || (SetsRate(w, e.s, e.request, e.env) && e.env.rateApplied != 0 && Hears(w, i, -1)))
  }

  lemma StatusAsks(w: World, s: nat)
    requires WellSized(w) && s < MAX_SESSIONS
    ensures var m := StatusIs(ViewOf(w.radio));
            Asks(Reply(w, s, m).logs) == Asks(w.logs)[s := Asked(w.radio.rateRequested)]
  {
    hide LastAsk;
    OneMore(w.logs[s], StatusIs(ViewOf(w.radio)));
  }

  lemma EventAsks(w: World, requested: nat, actual: nat)
    requires WellSized(w)
    ensures forall i :: 0 <= i < MAX_SESSIONS ==>
              Asks(Broadcast(w, -1, SampleRateChanged(requested, actual)).logs)[i] ==
                if Hears(w, i, -1) then Asked(requested) else Asks(w.logs)[i]
  {
    hide LastAsk;
    var v := Broadcast(w, -1, SampleRateChanged(requested, actual));
    forall i | 0 <= i < MAX_SESSIONS
      ensures Asks(v.logs)[i] == if Hears(w, i, -1) then Asked(requested) else Asks(w.logs)[i]
    {
      OneMore(w.logs[i], SampleRateChanged(requested, actual));
    }
  }

  /** What a handler tells about the requested rate, and what it makes of it. */
  ghost predicate Consistent(w: World, s: nat, q: Request, env: Env, w': World)
    requires WellSized(w) && WellSized(w') && s < MAX_SESSIONS
  {
    && w'.radio.rateRequested == (if SetsRate(w, s, q, env) then Wanted(w, s, q, env) else w.radio.rateRequested)
    && forall i :: 0 <= i < MAX_SESSIONS ==>
         Asks(w'.logs)[i] ==
           if q.GetStatus? && i == s then Asked(w.radio.rateRequested)
           else if SetsRate(w, s, q, env) && env.rateApplied != 0 && Hears(w, i, -1) then Asked(Wanted(w, s, q, env))
           else Asks(w.logs)[i]
  }

  lemma RateAsks(w: World, s: nat, to: Address, sps: Arg<nat>, env: Env)
    requires WellSized(w) && s < MAX_SESSIONS
    ensures Consistent(w, s, SetSampleRate(to, sps), env, DoSetSampleRate(w, s, to, sps, env))
  {
    hide Reply, Broadcast, Offers, Asks, Radio.Rates;
    if SetsRate(w, s, SetSampleRate(to, sps), env) {
      var w1 := Reply(w.(radio := Radio.SetSampleRate(w.radio, sps.value, env.rateApplied)), s, Done);
      EventAsks(w1, sps.value, env.rateApplied);
    }
  }

  lemma ModeAsks(w: World, s: nat, to: Address, setting: Setting, env: Env)
    requires WellSized(w) && s < MAX_SESSIONS && NewMode(w, s, setting, env) && to == Rx(false) && !OwnedByOther(w, s)
    ensures Consistent(w, s, SetControl(to, setting), env, DoDirectSampling(w, s, setting.to.value.value, env))
  {
    hide Reply, Broadcast, Offers, Asks, Radio.Rates, Radio.PreferredRate, VitaSender.ContextAll, VitaSender.SetFormat;
    var mode := setting.to.value.value;
    var w1 := Broadcast(Reply(w.(radio := w.radio.(mode := mode)), s, Done), -1, ModeChanged(mode));
    var w2 := Retune(w1, env);
    var want := Radio.PreferredRate(mode);
    EventAsks(w2.(radio := Radio.SetSampleRate(w2.radio, want, env.rateApplied)), want, env.rateApplied);
  }

  lemma SettingAsks(w: World, s: nat, to: Address, setting: Setting, env: Env)
    requires WellSized(w) && s < MAX_SESSIONS && to == Rx(false) && !OwnedByOther(w, s)
    ensures Consistent(w, s, SetControl(to, setting), env, DoSetting(w, s, setting, env))
  {
    hide Radio.Rates, Asks;
    if setting.DirectSampling? {
      hide Reply, DoDirectSampling, OnlyTouches;
      if NewMode(w, s, setting, env) {
        ModeAsks(w, s, to, setting, env);
      } else if setting.to.Value? && setting.to.value.Value? {
        SameModeAsks(w, s, setting.to.value.value, env);
      }
    } else {
      hide DoSetting;
      PlainSetting(w, s, setting, env);
    }
  }

  lemma ControlAsks(w: World, s: nat, to: Address, setting: Setting, env: Env)
    requires WellSized(w) && s < MAX_SESSIONS
    ensures Consistent(w, s, SetControl(to, setting), env, DoSetControl(w, s, to, setting, env))
  {
    hide Reply, Asks, Radio.Rates, DoSetting;
    if to == Rx(false) && !OwnedByOther(w, s) {
      SettingAsks(w, s, to, setting, env);
    }
  }

  lemma SameModeAsks(w: World, s: nat, mode: Radio.Mode, env: Env)
    requires WellSized(w) && s < MAX_SESSIONS
    ensures mode == w.radio.mode || w.sessions[s].streamOpen || !env.modeOk ==>
              var w' := DoDirectSampling(w, s, mode, env);
              Asks(w'.logs) == Asks(w.logs) && w'.radio == w.radio
  {
    hide Reply, Asks, Offers, ModeSideEffects;
  }

  predicate SameAsks(w: World, w': World) {
    Asks(w'.logs) == Asks(w.logs) && w'.radio.rateRequested == w.radio.rateRequested
  }

  lemma EntryAsks(w: World, s: nat, problem: Arg<Code>, claim: Arg<AuthMachine.Claim>, env: Env)
    requires WellSized(w) && s < MAX_SESSIONS
    ensures SameAsks(w, DoHello(w, s, problem, env)) && SameAsks(w, DoAuthenticate(w, s, claim, env))
  {
    hide Reply, Asks, Offers, Attempted, Passed, OnlyTouches;
  }

  lemma TuneAsks(w: World, s: nat, to: Address, hz: Arg<nat>, env: Env)
    requires WellSized(w) && s < MAX_SESSIONS
    ensures SameAsks(w, DoSetFrequency(w, s, to, hz, env))
  {
    hide Reply, Broadcast, Asks, Offers, OnlyTouches;
  }

  lemma ReadAsks(w: World, s: nat, to: Address, name: Arg<Option<Control>>)
    requires WellSized(w) && s < MAX_SESSIONS
    ensures SameAsks(w, DoGetControl(w, s, to, name))
  {
    hide Reply, Asks, Offers, OnlyTouches;
  }

  lemma OpenAsks(w: World, s: nat, to: Address, problem: Arg<Code>)
    requires WellSized(w) && s < MAX_SESSIONS
    ensures SameAsks(w, DoOpenStream(w, s, to, problem))
  {
    hide Reply, Broadcast, Asks, Offers, OnlyTouches, NextId;
  }

  lemma QuietAsks(w: World, s: nat, q: Request, env: Env)
    requires WellSized(w) && s < MAX_SESSIONS
    requires !q.GetStatus? && !q.SetSampleRate? && !q.SetControl?
    ensures SameAsks(w, Dispatch(w, s, q, env))
  {
    hide Reply, Broadcast, Asks, Offers, DoSetSampleRate, DoSetControl, DoStartRx, DoStopRx, DoCloseStream,
      DoHello, DoAuthenticate, DoSetFrequency, DoOpenStream, DoGetControl, OnlyTouches, NextId;
    match q
    case Hello(problem) => EntryAsks(w, s, problem, Missing, env);
    case Authenticate(claim) => EntryAsks(w, s, Missing, claim, env);
    case SetFrequency(to, hz) => TuneAsks(w, s, to, hz, env);
    case GetControl(to, name) => ReadAsks(w, s, to, name);
    case OpenStream(to, problem) => OpenAsks(w, s, to, problem);
    case StartRx(id) => StartAsks(w, s, id, env);
    case StopRx(id) => StopAsks(w, s, id);
    case CloseStream(id) => CloseAsks(w, s, id);
    case _ =>
  }

  lemma StartAsks(w: World, s: nat, id: StreamRef, env: Env)
    requires WellSized(w) && s < MAX_SESSIONS
    ensures SameAsks(w, DoStartRx(w, s, id, env))
  {
    hide Reply, Asks, Offers, VitaSender.Add, VitaSender.Free, VitaSender.Remove;
  }

  lemma StopAsks(w: World, s: nat, id: StreamRef)
    requires WellSized(w) && s < MAX_SESSIONS
    ensures SameAsks(w, DoStopRx(w, s, id))
  {
    hide Reply, Asks, Offers, VitaSender.Remove;
  }

  lemma CloseAsks(w: World, s: nat, id: StreamRef)
    requires WellSized(w) && s < MAX_SESSIONS
    ensures SameAsks(w, DoCloseStream(w, s, id))
  {
    hide Reply, Broadcast, Asks, Offers, VitaSender.Remove;
  }

  lemma DispatchAsks(w: World, s: nat, q: Request, env: Env)
    requires WellSized(w) && s < MAX_SESSIONS
    ensures Consistent(w, s, q, env, Dispatch(w, s, q, env))
  {
    hide Reply, Asks, Offers, DoHello, DoAuthenticate, DoSetFrequency, DoSetSampleRate, DoSetControl, DoGetControl,
      DoOpenStream, DoStartRx, DoStopRx, DoCloseStream, Radio.Rates;
    match q
    case GetStatus => StatusAsks(w, s);
    case SetSampleRate(to, sps) => RateAsks(w, s, to, sps, env);
    case SetControl(to, setting) => ControlAsks(w, s, to, setting, env);
    case _ => QuietAsks(w, s, q, env);
  }

  // ---- One step -----------------------------------------------------------------------

  /** What connection `i` was last told of the requested rate is so. */
  predicate AskRight(w: World, i: nat)
    requires WellSized(w) && i < MAX_SESSIONS
  {
    Asks(w.logs)[i].Asked? ==> Asks(w.logs)[i].rate == w.radio.rateRequested
  }

  lemma AsksForget(logs: seq<seq<Message>>, s: nat, i: nat)
    requires s < |logs| && i < |logs|
    ensures Asks(logs[s := []])[i] == if i == s then NoAsk else Asks(logs)[i]
  {
    hide LastAsk;
    Silence();
    assert logs[s := []][i] == if i == s then [] else logs[i];
  }

  lemma Silence()
    ensures LastAsk([]) == NoAsk
  {
  }

  lemma LeaveAsks(w: World, s: nat, biasOk: bool)
    requires WellSized(w) && s < MAX_SESSIONS
    ensures var w' := DoDestroy(w, s, biasOk);
            && w'.radio.rateRequested == w.radio.rateRequested
            && forall i :: 0 <= i < MAX_SESSIONS ==> Asks(w'.logs)[i] == if i == s then NoAsk else Asks(w.logs)[i]
  {
    hide Reply, Broadcast, Offers, Asks, VitaSender.Remove;
    var w1 := DropToken(w, s);
    var w2 := if w.sessions[s].phase == Streaming
              then Broadcast(w1.(radio := Radio.Stop(w1.radio)), s, StreamState(false)) else w1;
    var w3 := Release(w2, s);
    var logs := DoDestroy(w, s, biasOk).logs;
    assert logs == w3.logs[s := []] && Asks(w3.logs) == Asks(w.logs);
    forall i | 0 <= i < MAX_SESSIONS
      ensures Asks(logs)[i] == if i == s then NoAsk else Asks(w.logs)[i]
    {
      AsksForget(w3.logs, s, i);
    }
  }

  lemma JoinAsks(w: World)
    requires WellSized(w)
    ensures var w' := DoConnect(w);
            && w'.radio == w.radio
            && forall i :: 0 <= i < MAX_SESSIONS ==> Asks(w'.logs)[i] == NoAsk || Asks(w'.logs)[i] == Asks(w.logs)[i]
  {
    hide Asks, FirstFree;
    var k := FirstFree(w.sessions);
    forall i | 0 <= i < MAX_SESSIONS && k >= 0
      ensures Asks(w.logs[k := []])[i] == if i == k then NoAsk else Asks(w.logs)[i]
    {
      AsksForget(w.logs, k, i);
    }
  }

  /** Every step: who is told the requested rate is told the right one, who is not keeps what it was
      told, and the request changes under a connection's eyes only in silence. */
  lemma StepAsks(w: World, e: Step, i: nat)
    requires Mirror(w) && NoneClosing(w) && Possible(w, e) && i < MAX_SESSIONS
    ensures var a, w' := Asks(w.logs)[i], Next(w, e);
            var a' := Asks(w'.logs)[i];
            if Refreshes(w, e, i) then a' == Asked(w'.radio.rateRequested)
            else
              && (a' == a || (a' == NoAsk && !SilentRate(w, e)))
              && (a'.Asked? ==> (w'.radio.rateRequested != w.radio.rateRequested <==> SilentRate(w, e)))
  {
    hide Track, Rumour, LastAsk, Asks, Handle, DoDestroy, DoConnect, VitaSender.Callback, SetsRate, Wanted;
    assert RightAt(w, i) && Asks(w.logs)[i] == LastAsk(w.logs[i]) by { AsksAt(w.logs, i); }
    match e
    case Connect => JoinAsks(w);
    case Disconnect(s, biasOk) => LeaveAsks(w, s, biasOk);
    case Usb(_) =>
    case Command(s, q, env) =>
      HandleAsks(w, e);
      RateKinds(w, s, q, env);
      var w1 := Handle(w, s, q, env).(clock := env.now);
      ControlAuth.ClosesIff(w, s, q, env);
      LeaveAsks(w1, s, env.biasOk);
  }

  lemma RateKinds(w: World, s: nat, q: Request, env: Env)
    requires WellSized(w) && s < MAX_SESSIONS
    ensures SetsRate(w, s, q, env) ==> q.SetSampleRate? || q.SetControl?
  {
  }

  lemma AsksAt(logs: seq<seq<Message>>, i: nat)
    requires i < |logs|
    ensures Asks(logs)[i] == LastAsk(logs[i])
  {
  }

  lemma HandleAsks(w: World, e: Step)
    requires WellSized(w) && e.Command? && e.s < MAX_SESSIONS
    ensures var w' := Handle(w, e.s, e.request, e.env);
            if Admitted(w, e) then Consistent(w, e.s, e.request, e.env, w')
            else Asks(w'.logs) == Asks(w.logs) && w'.radio == w.radio
  {
    hide Dispatch, Reply, Asks, Offers, SetsRate, Wanted;
    if Admitted(w, e) {
      DispatchAsks(w, e.s, e.request, e.env);
    }
  }

  /** Every client is right in all it was told. */
  ghost predicate Exact(w: World) {
    Mirror(w) && forall i :: 0 <= i < MAX_SESSIONS ==> AskRight(w, i)
  }

  /** A step leaves all clients right, if and only if it is not a refused rate that some client was
      told another value of. */
  lemma ExactKeptIff(w: World, e: Step)
    requires Exact(w) && NoneClosing(w) && Possible(w, e)
    ensures Exact(Next(w, e)) <==>
            !(SilentRate(w, e) && exists i :: 0 <= i < MAX_SESSIONS && Asks(w.logs)[i].Asked?)
  {
    hide Mirror, Asks, Next, Refreshes, SilentRate, Possible;
    MirrorSized(w);
    StepMirror(w, e);
    var w' := Next(w, e);
    forall i | 0 <= i < MAX_SESSIONS
      ensures AskRight(w', i) <==> !(SilentRate(w, e) && Asks(w.logs)[i].Asked?)
    {
      assert AskRight(w, i);
      StepAsks(w, e, i);
      NotBoth(w, e, i);
    }
    if i :| SilentRate(w, e) && 0 <= i < MAX_SESSIONS && Asks(w.logs)[i].Asked? {
      assert !AskRight(w', i);
    }
  }

  lemma NotBoth(w: World, e: Step, i: nat)
    requires WellSized(w) && i < MAX_SESSIONS
    ensures !(SilentRate(w, e) && Refreshes(w, e, i))
  {
  }

  /** Whatever went wrong before, a status or an announced rate puts a client right again. */
  lemma Recovers(w: World, e: Step, i: nat)
    requires Mirror(w) && NoneClosing(w) && Possible(w, e) && i < MAX_SESSIONS && Refreshes(w, e, i)
    ensures Asks(Next(w, e).logs)[i] == Asked(Next(w, e).radio.rateRequested)
  {
    hide Next, Refreshes;
    StepAsks(w, e, i);
  }

  // ---- Runs ---------------------------------------------------------------------------

  lemma InitialMirror(w: World)
    requires Initial(w)
    ensures Mirror(w)
  {
    forall i | 0 <= i < MAX_SESSIONS
      ensures RightAt(w, i)
    {
      assert w.sessions[i] == FREE_SESSION && w.logs[i] == [];
    }
  }

  /** In every reachable state every client is right about all settings but the requested rate, and
      about who may claim rx. */
  lemma {:induction false} AlwaysMirror(ws: seq<World>, es: seq<Step>, n: nat)
    requires Trace(ws, es) && n < |ws|
    ensures Mirror(ws[n])
  {
    hide Mirror, Next, Possible, Initial;
    if n == 0 {
      InitialMirror(ws[0]);
    } else {
      AlwaysMirror(ws, es, n - 1);
      assert Follows(ws[n - 1], es[n - 1], ws[n]);
      StepMirror(ws[n - 1], es[n - 1]);
    }
  }

  /** The latest point at which connection `i` was told the requested rate. */
  ghost function News(ws: seq<World>, es: seq<Step>, n: nat, i: nat): (m: nat)
    requires Trace(ws, es) && n < |ws| && i < MAX_SESSIONS
    ensures m <= n
  {
    if n == 0 then 0
    else
      assert Follows(ws[n - 1], es[n - 1], ws[n]);
      if Refreshes(ws[n - 1], es[n - 1], i) then n else News(ws, es, n - 1, i)
  }

  /** What a connection was last told of the requested rate is what was requested then. */
  lemma {:induction false} AskedThen(ws: seq<World>, es: seq<Step>, n: nat, i: nat)
    requires Trace(ws, es) && n < |ws| && i < MAX_SESSIONS
    ensures WellSized(ws[n]) && WellSized(ws[News(ws, es, n, i)])
    ensures Asks(ws[n].logs)[i].Asked? ==> Asks(ws[n].logs)[i].rate == ws[News(ws, es, n, i)].radio.rateRequested
  {
    hide Next, Possible, Refreshes, Mirror, SilentRate, Asks, Initial;
    AlwaysWeak(ws, es, n);
    if n == 0 {
      NothingAsked(ws[0], i);
    } else {
      AskedThen(ws, es, n - 1, i);
      AlwaysWeak(ws, es, n - 1);
      AlwaysMirror(ws, es, n - 1);
      assert Follows(ws[n - 1], es[n - 1], ws[n]);
      StepAsks(ws[n - 1], es[n - 1], i);
    }
  }

  lemma NothingAsked(w: World, i: nat)
    requires Initial(w) && i < MAX_SESSIONS
    ensures Asks(w.logs)[i] == NoAsk
  {
    assert w.logs[i] == [];
  }

  /** With no refused rate since, it is still what is requested. */
  lemma {:induction false} UnchangedSince(ws: seq<World>, es: seq<Step>, n: nat, i: nat)
    requires Trace(ws, es) && n < |ws| && i < MAX_SESSIONS
    requires WellSized(ws[n]) && Asks(ws[n].logs)[i].Asked?
    requires forall k :: News(ws, es, n, i) <= k < n ==> WellSized(ws[k]) && !SilentRate(ws[k], es[k])
    ensures ws[n].radio.rateRequested == ws[News(ws, es, n, i)].radio.rateRequested
  {
    hide Next, Possible, Refreshes, Mirror, SilentRate, Asks;
    if News(ws, es, n, i) < n {
      AlwaysWeak(ws, es, n - 1);
      AlwaysMirror(ws, es, n - 1);
      assert Follows(ws[n - 1], es[n - 1], ws[n]);
      StepAsks(ws[n - 1], es[n - 1], i);
      assert !SilentRate(ws[n - 1], es[n - 1]);
      UnchangedSince(ws, es, n - 1, i);
    }
  }

  lemma {:induction false} TrackAsks(log: seq<Message>)
    ensures Track(log).Known? ==> LastAsk(log) == Asked(Track(log).view.rateRequested)
  {
    if log != [] {
      TrackAsks(log[..|log| - 1]);
    }
  }

  /** What each client concludes, over every run: all settings but the requested rate and the right to
      rx, always; the requested rate as of the last time it was told, so rightly if no rate was refused
      since. */
  lemma ClientKnows(ws: seq<World>, es: seq<Step>, n: nat, i: nat)
    requires Trace(ws, es) && n < |ws| && i < MAX_SESSIONS
    ensures WellSized(ws[n])
    ensures Rumour(ws[n].logs[i]).Told? ==> (Rumour(ws[n].logs[i]).free <==> MayClaim(ws[n], i))
    ensures var k, m := Track(ws[n].logs[i]), News(ws, es, n, i);
            k.Known? ==>
              && k.view == ViewOf(ws[n].radio).(rateRequested := ws[m].radio.rateRequested)
              && ((forall j :: m <= j < n ==> WellSized(ws[j]) && !SilentRate(ws[j], es[j])) ==>
                    k.view == ViewOf(ws[n].radio))
  {
    hide Track, Rumour, LastAsk, Follows, Initial, SilentRate;
    AlwaysMirror(ws, es, n);
    assert RightAt(ws[n], i);
    AskedThen(ws, es, n, i);
    TrackAsks(ws[n].logs[i]);
    AsksAt(ws[n].logs, i);
    var k, m := Track(ws[n].logs[i]), News(ws, es, n, i);
    if k.Known? && forall j :: m <= j < n ==> WellSized(ws[j]) && !SilentRate(ws[j], es[j]) {
      UnchangedSince(ws, es, n, i);
    }
  }

  /** A client that follows the events learns nothing from get_control but the bias tee. */
  lemma NothingNew(ws: seq<World>, es: seq<Step>, n: nat, i: nat, c: Control)
    requires Trace(ws, es) && n < |ws| && i < MAX_SESSIONS
    ensures WellSized(ws[n])
    ensures var k := Track(ws[n].logs[i]);
            Update(k, ControlIs(Read(ws[n].radio, c))) == k
  {
    hide Track, Rumour, LastAsk, Follows, Initial;
    AlwaysMirror(ws, es, n);
    assert RightAt(ws[n], i);
  }

  /** The refused rate in a run: connect, hello, get_status, a set_sample_rate that fails; the client
      is wrong about the requested rate until it asks again. */
  lemma RefusedRateRun(w: World, env: Env) returns (ws: seq<World>, es: seq<Step>)
    requires Initial(w) && !w.cfg.rxAuth && w.radio.mode == Radio.Normal
    requires env.rateApplied == 0
    ensures Trace(ws, es) && |es| == 5 && ws[0] == w && WellSized(ws[3]) && WellSized(ws[4]) && WellSized(ws[5])
    ensures Track(ws[3].logs[0]) == Known(ViewOf(ws[3].radio))
    ensures SilentRate(ws[3], es[3]) && ws[4].radio.rateRequested == 1024000
    ensures Track(ws[4].logs[0]).Known? && Track(ws[4].logs[0]).view.rateRequested == 2048000
    ensures Track(ws[5].logs[0]) == Known(ViewOf(ws[5].radio))
  {
    hide Track, Next, SilentRate;
    var refused := Command(0, SetSampleRate(Rx(false), Value(1024000)), env);
    es := [Connect, Command(0, Hello(Missing), env), Command(0, GetStatus, env), refused, Command(0, GetStatus, env)];
    var w1 := Next(w, es[0]);
    FirstConnects(w);
    var w2 := Next(w1, es[1]);
    HelloFirst(w1, env);
    var w3 := Next(w2, es[2]);
    StatusKnown(w2, env);
    var w4 := Next(w3, refused);
    RateRefused(w3, env);
    StatusKnown(w4, env);
    ws := [w, w1, w2, w3, w4, Next(w4, es[4])];
  }

  lemma HelloFirst(w: World, env: Env)
    requires WellSized(w) && w.sessions[0] == NEW_SESSION && !w.cfg.rxAuth
    ensures Next(w, Command(0, Hello(Missing), env)) ==
              Reply(w, 0, Done).(sessions := w.sessions[0 := NEW_SESSION.(phase := Idle)], clock := env.now)
  {
    hide Next, Dispatch, Offers;
    DispatchIs(w, 0, Hello(Missing), env);
    PlainNext(w, 0, Hello(Missing), env, DoHello(w, 0, Missing, env));
  }

  lemma StatusKnown(w: World, env: Env)
    requires WellSized(w) && w.sessions[0] == NEW_SESSION.(phase := Idle)
    ensures var w' := Next(w, Command(0, GetStatus, env));
            && w'.sessions == w.sessions && w'.radio == w.radio && w'.owner == w.owner
            && Track(w'.logs[0]) == Known(ViewOf(w.radio))
  {
    hide Track, Next, Dispatch;
    DispatchIs(w, 0, GetStatus, env);
    PlainNext(w, 0, GetStatus, env, Reply(w, 0, StatusIs(ViewOf(w.radio))));
    OneMore(w.logs[0], StatusIs(ViewOf(w.radio)));
  }

  lemma RateRefused(w: World, env: Env)
    requires WellSized(w) && w.sessions[0] == NEW_SESSION.(phase := Idle) && !w.cfg.rxAuth && w.owner == -1
    requires w.radio.mode == Radio.Normal && w.radio.rateRequested == 2048000 && env.rateApplied == 0
    ensures var e := Command(0, SetSampleRate(Rx(false), Value(1024000)), env);
            var w' := Next(w, e);
            && SilentRate(w, e) && w'.sessions == w.sessions && w'.cfg == w.cfg && w'.owner == w.owner
            && w'.radio == w.radio.(rateRequested := 1024000) && Track(w'.logs[0]) == Track(w.logs[0])
  {
    hide Track, Next, Dispatch;
    assert Radio.Rates(Radio.Normal)[1] == 1024000;
    var q := SetSampleRate(Rx(false), Value(1024000));
    var w1 := DoSetSampleRate(w, 0, Rx(false), Value(1024000), env);
    DispatchIs(w, 0, q, env);
    PlainNext(w, 0, q, env, w1);
    OneMore(w.logs[0], Error(DeviceError));
  }
}
