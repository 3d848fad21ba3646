/** The life of a stream: what open_stream promised stays true until it closes, its id is never
    taken for a later stream's, and every operation on it has one that undoes it. */
module ControlStreams {
  import opened Basics
  import opened Bytes
  import opened ControlPlane
  import opened ControlInvariants
  import Radio
  import VitaSender
  import AuthMachine

  // ---- What open_stream promised ------------------------------------------------------

  /** An open stream has the newest id, and the rate and format its client was told. */
  predicate HonouredAt(w: World, i: nat)
    requires WellSized(w) && i < MAX_SESSIONS
  {
    w.sessions[i].streamOpen ==>
      w.sessions[i].streamId == w.counter && Offers(w.logs)[i] == Offered(w.radio.rate, w.radio.mode)
  }

  ghost predicate Honoured(w: World) {
    WellSized(w) && forall i :: 0 <= i < MAX_SESSIONS ==> HonouredAt(w, i)
  }

  /** No stream opens, no id is given out, and nothing a stream depends on moves. */
  predicate Calm(w: World, w': World)
    requires WellSized(w) && WellSized(w')
  {
    && w'.counter == w.counter
    && (w.owner != -1 ==> w'.radio.rate == w.radio.rate && w'.radio.mode == w.radio.mode)
    && forall i :: 0 <= i < MAX_SESSIONS && w'.sessions[i].streamOpen ==>
         && w.sessions[i].streamOpen && w'.sessions[i].streamId == w.sessions[i].streamId
         && Offers(w'.logs)[i] == Offers(w.logs)[i]
  }

  lemma CalmHonours(w: World, w': World)
    requires Weak(w) && WellSized(w') && Calm(w, w') && Honoured(w)
    ensures Honoured(w')
  {
    forall i | 0 <= i < MAX_SESSIONS
      ensures HonouredAt(w', i)
    {
      assert HonouredAt(w, i) && SessionOk(w.sessions[i], i == w.owner);
    }
  }

  /** With a stream open, rate and mode cannot be changed by anybody. */
  lemma RateCalm(w: World, s: nat, to: Address, sps: Arg<nat>, env: Env)
    requires Strong(w) && s < MAX_SESSIONS
    ensures Calm(w, DoSetSampleRate(w, s, to, sps, env))
  {
    hide Reply, Broadcast, Offers, Radio.Rates, Weak, Held;
    StrongIsWeak(w);
    WeakAt(w, s);
  }

  lemma WeakAt(w: World, s: nat)
    requires Weak(w) && s < MAX_SESSIONS
    ensures WellSized(w) && SessionOk(w.sessions[s], s == w.owner) && -1 <= w.owner < MAX_SESSIONS
    ensures Strong(w) ==> InStep(w.sessions[s])
  {
  }

  lemma ModeCalm(w: World, s: nat, mode: Radio.Mode, env: Env)
    requires Weak(w) && s < MAX_SESSIONS && !OwnedByOther(w, s)
    ensures Calm(w, DoDirectSampling(w, s, mode, env))
  {
    hide Reply, Broadcast, Offers, Radio.Rates, Weak, VitaSender.ContextAll, VitaSender.SetFormat;
    WeakAt(w, s);
  }

  lemma SettingCalm(w: World, s: nat, setting: Setting, env: Env)
    requires Weak(w) && s < MAX_SESSIONS && !OwnedByOther(w, s)
    ensures Calm(w, DoSetting(w, s, setting, env))
  {
    WeakAt(w, s);
    if setting.DirectSampling? {
      hide Reply, Offers, Weak, DoDirectSampling, OnlyTouches;
      if setting.to.Value? && setting.to.value.Value? {
        ModeCalm(w, s, setting.to.value.value, env);
      }
    } else {
      hide DoSetting, Offers, Weak;
      PlainSetting(w, s, setting, env);
    }
  }

  lemma ControlCalm(w: World, s: nat, to: Address, setting: Setting, env: Env)
    requires Weak(w) && s < MAX_SESSIONS
    ensures Calm(w, DoSetControl(w, s, to, setting, env))
  {
    hide Reply, Offers, Weak, DoSetting;
    WeakAt(w, s);
    if !OwnedByOther(w, s) {
      SettingCalm(w, s, setting, env);
    }
  }

  lemma StartCalm(w: World, s: nat, id: StreamRef, env: Env)
    requires WellSized(w) && s < MAX_SESSIONS
    ensures Calm(w, DoStartRx(w, s, id, env))
  {
    hide Reply, Broadcast, Offers, VitaSender.Add, VitaSender.Free, VitaSender.Remove, Radio.Start, Radio.Starts;
    StartHolds(w.radio, env);
  }

  lemma StartHolds(r: Radio.State, env: Env)
    ensures var t := Radio.Start(r, env.threadOk); t.rate == r.rate && t.mode == r.mode
  {
  }

  lemma StopCalm(w: World, s: nat, id: StreamRef)
    requires WellSized(w) && s < MAX_SESSIONS
    ensures Calm(w, DoStopRx(w, s, id))
  {
    hide Reply, Broadcast, Offers, VitaSender.Remove;
  }

  lemma CloseCalm(w: World, s: nat, id: StreamRef)
    requires WellSized(w) && s < MAX_SESSIONS
    ensures Calm(w, DoCloseStream(w, s, id))
  {
    hide Reply, Broadcast, Offers, VitaSender.Remove;
  }

  lemma SessionCalm(w: World, s: nat, problem: Arg<Code>, claim: Arg<AuthMachine.Claim>, env: Env)
    requires WellSized(w) && s < MAX_SESSIONS
    ensures Calm(w, DoHello(w, s, problem, env)) && Calm(w, DoAuthenticate(w, s, claim, env))
  {
    hide Reply, Broadcast, Offers, AuthMachine.Attempt, AuthMachine.Passes, AuthMachine.Judges;
  }

  lemma TuneCalm(w: World, s: nat, to: Address, hz: Arg<nat>, env: Env)
    requires WellSized(w) && s < MAX_SESSIONS
    ensures Calm(w, DoSetFrequency(w, s, to, hz, env))
  {
    hide Reply, Broadcast, Offers, OnlyTouches;
  }

  lemma ReadCalm(w: World, s: nat, to: Address, name: Arg<Option<Control>>)
    requires WellSized(w) && s < MAX_SESSIONS
    ensures Calm(w, DoGetControl(w, s, to, name))
  {
    hide Reply, Offers, OnlyTouches;
  }

  lemma DispatchCalm(w: World, s: nat, q: Request, env: Env)
    requires Strong(w) && s < MAX_SESSIONS && !q.OpenStream?
    ensures Calm(w, Dispatch(w, s, q, env))
  {
    hide Reply, Offers, Strong, DoHello, DoAuthenticate, DoSetFrequency, DoSetSampleRate, DoSetControl, DoGetControl,
      DoStartRx, DoStopRx, DoCloseStream, OnlyTouches;
    StrongIsWeak(w);
    match q
    case Hello(problem) => SessionCalm(w, s, problem, Missing, env);
    case Authenticate(claim) => SessionCalm(w, s, Missing, claim, env);
    case SetFrequency(to, hz) => TuneCalm(w, s, to, hz, env);
    case GetControl(to, name) => ReadCalm(w, s, to, name);
    case SetSampleRate(to, sps) => RateCalm(w, s, to, sps, env);
    case SetControl(to, setting) => ControlCalm(w, s, to, setting, env);
    case StartRx(id) => StartCalm(w, s, id, env);
    case StopRx(id) => StopCalm(w, s, id);
    case CloseStream(id) => CloseCalm(w, s, id);
    case _ =>
  }

  lemma OpenHonours(w: World, s: nat, to: Address, problem: Arg<Code>)
    requires Weak(w) && Honoured(w) && s < MAX_SESSIONS && w.sessions[s].live
    ensures Honoured(DoOpenStream(w, s, to, problem))
  {
    hide LastOffer, Offers, Honoured;
    var w' := DoOpenStream(w, s, to, problem);
    if AddressProblem(to).Value? || w.sessions[s].streamOpen || !MayClaim(w, s) || problem.Value? {
      CalmHonours(w, w');
    } else {
      OpenedHonours(w, s, w');
    }
  }

  lemma OpenedHonours(w: World, s: nat, w': World)
    requires Weak(w) && s < MAX_SESSIONS && WellSized(w') && MayClaim(w, s) && w'.radio == w.radio
    requires w'.sessions == w.sessions[s := w'.sessions[s]] && w'.sessions[s].streamId == w'.counter
    requires var m := Opened(w.radio.rate, w.radio.mode);
             Offers(w'.logs) == Offers(Reply(w, s, m).logs)
    ensures Honoured(w')
  {
    hide Held, Reply;
    var m := Opened(w.radio.rate, w.radio.mode);
    ReplyAt(w, s, m);
    forall i | 0 <= i < MAX_SESSIONS
      ensures HonouredAt(w', i)
    {
      WeakAt(w, i);
    }
  }

  lemma ReplyAt(w: World, s: nat, m: Message)
    requires WellSized(w) && s < MAX_SESSIONS
    ensures Reply(w, s, m).logs[s] == w.logs[s] + [m]
  {
  }

  lemma ConnectionCalm(w: World, s: nat, biasOk: bool)
    requires WellSized(w) && s < MAX_SESSIONS
    ensures Calm(w, DoConnect(w)) && Calm(w, DoDestroy(w, s, biasOk))
  {
    hide Reply, Broadcast, Offers, FirstFree;
    var i := FirstFree(w.sessions);
    if i >= 0 {
      OffersForget(w.logs, i);
    }
    OffersForget(Cleared(w, s).logs, s);
  }

  /** session_destroy up to the point where the record is cleared. */
  function Cleared(w: World, s: nat): (r: World)
    requires WellSized(w) && s < MAX_SESSIONS
    ensures WellSized(r) && Offers(r.logs) == Offers(w.logs)
  {
    var w1 := DropToken(w, s);
    Release(if w.sessions[s].phase == Streaming
            then Broadcast(w1.(radio := Radio.Stop(w1.radio)), s, StreamState(false)) else w1, s)
  }

  lemma OffersForget(logs: seq<seq<Message>>, s: nat)
    requires s < |logs|
    ensures forall i :: 0 <= i < |logs| && i != s ==> Offers(logs[s := []])[i] == Offers(logs)[i]
  {
    hide LastOffer;
  }

  lemma CommandHonours(w: World, s: nat, q: Request, env: Env)
    requires Strong(w) && Honoured(w) && Possible(w, Command(s, q, env))
    ensures Honoured(Handle(w, s, q, env))
  {
    hide Honoured, Dispatch, Offers, Reply, Weak;
    StrongIsWeak(w);
    WeakAt(w, s);
    if TooEarly(w.sessions[s], q) || Locked(w.cfg, w.sessions[s], q) {
      CalmHonours(w, Handle(w, s, q, env));
    } else if q.OpenStream? {
      OpenHonours(w, s, q.to, q.problem);
      DispatchIs(w, s, q, env);
    } else {
      DispatchCalm(w, s, q, env);
      CalmHonours(w, Handle(w, s, q, env));
    }
  }

  lemma StepHonours(w: World, e: Step)
    requires Strong(w) && Honoured(w) && Possible(w, e)
    ensures Honoured(Next(w, e))
  {
    hide Weak, Strong, Honoured, Handle, Offers, DoDestroy, DoConnect, VitaSender.Callback;
    StrongIsWeak(w);
    WeakAt(w, 0);
    match e
    case Connect => ConnectionCalm(w, 0, true); CalmHonours(w, Next(w, e));
    case Disconnect(s, biasOk) => ConnectionCalm(w, s, biasOk); CalmHonours(w, Next(w, e));
    case Usb(buf) => CalmHonours(w, Next(w, e));
    case Command(s, q, env) =>
      CommandHonours(w, s, q, env);
      HandleKeeps(w, s, q, env);
      var w0 := Handle(w, s, q, env);
      var w1 := w0.(clock := env.now);
      CoreDecides(w0, w1);
      CalmHonours(w0, w1);
      if w1.sessions[s].auth.closing {
        ConnectionCalm(w1, s, env.biasOk);
        CalmHonours(w1, Next(w, e));
      }
  }

  lemma InitialHonoured(w: World)
    requires Initial(w)
    ensures Honoured(w)
  {
  }

  /** Rate, format and id of an open stream are those its client was given. */
  lemma {:induction false} AlwaysHonoured(ws: seq<World>, es: seq<Step>, n: nat)
    requires Trace(ws, es) && n <= |es| && Orderly(ws, es, n)
    ensures Honoured(ws[n])
  {
    hide Weak, Strong, Honoured, Next, Possible, Initial, HelloWhileOpen;
    if n == 0 {
      InitialHonoured(ws[0]);
    } else {
      AlwaysHonoured(ws, es, n - 1);
      AlwaysStrong(ws, es, n - 1);
      assert Follows(ws[n - 1], es[n - 1], ws[n]);
      StepHonours(ws[n - 1], es[n - 1]);
    }
  }

  // ---- Stream ids ---------------------------------------------------------------------

  /** A step that opens a stream takes the next id; no other touches the counter. */
  lemma CounterSteps(w: World, e: Step)
    requires WellSized(w) && Possible(w, e)
    ensures Next(w, e).counter == w.counter || Next(w, e).counter == NextId(w.counter)
  {
    hide Handle, DoDestroy, FirstFree, VitaSender.Callback;
  }

  /** How many streams were opened between two points of a run. */
  ghost function Opens(ws: seq<World>, i: nat, j: nat): nat
    requires i <= j < |ws|
  {
    if i == j then 0 else Opens(ws, i, j - 1) + if ws[j].counter == ws[j - 1].counter then 0 else 1
  }

  lemma {:induction false} CounterCounts(ws: seq<World>, es: seq<Step>, i: nat, j: nat)
    requires Trace(ws, es) && i <= j < |ws|
    ensures ws[j].counter == (ws[i].counter + Opens(ws, i, j)) % TWO_32
  {
    hide Next, Possible, Initial;
    if i < j {
      CounterCounts(ws, es, i, j - 1);
      assert Follows(ws[j - 1], es[j - 1], ws[j]);
      CounterSteps(ws[j - 1], es[j - 1]);
      NextModulo(ws[i].counter + Opens(ws, i, j - 1));
    }
  }

  lemma NextModulo(n: nat)
    ensures (n % TWO_32 + 1) % TWO_32 == (n + 1) % TWO_32
  {
  }

  /** The id of a stream open at `i` names no stream at `j` once another was opened, until the
      32-bit counter comes round. */
  lemma StaleIdRefused(ws: seq<World>, es: seq<Step>, i: nat, j: nat, s: nat, t: nat)
    requires Trace(ws, es) && i <= j <= |es| && Orderly(ws, es, j) && s < MAX_SESSIONS && t < MAX_SESSIONS
    requires 0 < Opens(ws, i, j) < TWO_32
    requires WellSized(ws[i]) && WellSized(ws[j]) && ws[i].sessions[s].streamOpen
    ensures !Names(ws[j].sessions[t], Id(ws[i].sessions[s].streamId))
  {
    hide Strong, Weak, Offers, Initial, Follows, HelloWhileOpen;
    AlwaysHonoured(ws, es, i);
    AlwaysHonoured(ws, es, j);
    assert HonouredAt(ws[i], s) && HonouredAt(ws[j], t);
    CounterCounts(ws, es, i, j);
    Distinct(ws[i].counter, Opens(ws, i, j));
  }

  lemma Distinct(c: nat, k: nat)
    requires c < TWO_32 && 0 < k < TWO_32
    ensures (c + k) % TWO_32 != c
  {
    if c + k < TWO_32 {
    } else {
      assert (c + k) % TWO_32 == c + k - TWO_32;
    }
  }
}
