/** The daemon as it runs: the session table, the rx owner and the stream counter changed in place,
    the VITA sender and the radio bridge called for the rest.  Every operation is proved to take the
    state to exactly what the state machine says. */
module ControlDaemon {
  import opened Basics
  import opened Bytes
  import opened ControlPlane
  import opened ControlDatagrams
  import ControlFrames
  import ControlInvariants
  import Auth
  import AuthMachine
  import Jsmn
  import JsmnCounts
  import Radio
  import TokLookup
  import VitaSender

  class Daemon {
    const cfg: Config
    const vita: VitaSender.VitaTx
    const rtl: Radio.RtlBridge
    const sessions: array<Session>
    var owner: int
    var counter: u32
    /** What each connection was sent, and what the claims about authentication speak of. */
    ghost var logs: seq<seq<Message>>
    ghost var issued: set<AuthMachine.Nonce>
    ghost var judged: seq<AuthMachine.Nonce>
    ghost var clock: nat

    ghost predicate Valid()
      reads this, rtl, vita
    {
      && sessions.Length == MAX_SESSIONS && |logs| == MAX_SESSIONS
      && vita.Valid() && vita.contextEnabled == cfg.contextEnabled && rtl.Valid()
    }

    ghost function View(): (w: World)
      requires Valid()
      reads this, rtl, vita, sessions, vita.slots
      ensures WellSized(w)
    {
      World(cfg, sessions[..], owner, counter, vita.slots[..], rtl.View(), logs, issued, judged, clock)
    }

    constructor (c: Config, bridge: Radio.RtlBridge)
      requires bridge.Valid() && Radio.JustBooted(bridge.View())
      ensures Valid() && fresh(sessions) && fresh(vita) && fresh(vita.slots) && rtl == bridge && cfg == c
      ensures Initial(View()) && View().radio == old(bridge.View())
      ensures Radio.WithinLimits(View().radio) <==> Radio.InBand(bridge.mode, bridge.freq) && bridge.rate > 0
    {
      cfg, rtl := c, bridge;
      vita := new VitaSender.VitaTx(c.contextEnabled);
      sessions := new Session[MAX_SESSIONS](_ => FREE_SESSION);
      owner, counter := -1, 0;
      logs := seq(MAX_SESSIONS, _ => []);
      issued, judged, clock := {}, [], 0;
      new;
      Radio.BootedWithinIff(rtl.View());
    }

    // ---- Sessions and messages --------------------------------------------------------

    method Put(s: nat, t: Session)
      requires Valid() && s < MAX_SESSIONS
      modifies sessions
      ensures Valid() && View() == old(View()).(sessions := old(View()).sessions[s := t])
    {
      sessions[s] := t;
    }

    ghost method Send(s: nat, m: Message)
      requires Valid() && s < MAX_SESSIONS
      modifies this`logs
      ensures Valid() && View() == Reply(old(View()), s, m)
    {
      hide Offers, LastOffer;
      logs := logs[s := logs[s] + [m]];
    }

    /** The event loop over the table, with the table lock held throughout. */
    method Event(skip: int, m: Message)
      requires Valid()
      modifies this`logs
      ensures Valid() && View() == Broadcast(old(View()), skip, m)
    {
      hide Offers, LastOffer;
      ghost var w := View();
      for i := 0 to MAX_SESSIONS
        invariant Valid() && View() == w.(logs := logs)
        invariant forall j :: 0 <= j < MAX_SESSIONS ==>
                    logs[j] == if j < i && Hears(w, j, skip) then w.logs[j] + [m] else w.logs[j]
      {
        var t := sessions[i];
        if t.live && i != skip && t.phase != AwaitHello {
          logs := logs[i := logs[i] + [m]];
        }
      }
    }

    // ---- Ownership --------------------------------------------------------------------

    method RxClaim(s: nat) returns (ok: bool)
      requires Valid() && s < MAX_SESSIONS
      modifies this`owner, sessions
      ensures Valid() && View() == Claim(old(View()), s) && (ok <==> MayClaim(old(View()), s))
    {
      ok := owner == -1 || owner == s;
      if ok {
        owner := s;
        sessions[s] := sessions[s].(ownsRx := true);
      }
    }

    method RxRelease(s: nat)
      requires Valid() && s < MAX_SESSIONS
      modifies this`owner, this`logs, sessions
      ensures Valid() && View() == Release(old(View()), s)
    {
      hide Broadcast, Offers;
      var released := owner == s;
      if released {
        owner := -1;
      }
      Put(s, sessions[s].(ownsRx := false));
      if released {
        Event(s, ControlRevoked(true));
      }
    }

    method RxOwnedByOther(s: nat) returns (other: bool)
      requires Valid() && s < MAX_SESSIONS
      ensures other <==> OwnedByOther(View(), s)
    {
      other := owner != -1 && owner != s;
    }

    // ---- Connections ------------------------------------------------------------------

    /** session_create; -1 when the table is full. */
    method SessionCreate() returns (s: int)
      requires Valid()
      modifies sessions, this`logs
      ensures Valid() && View() == DoConnect(old(View())) && s == FirstFree(old(View()).sessions)
    {
      hide FirstFree;
      ghost var w := View();
      s := -1;
      var i := 0;
      while i < MAX_SESSIONS
        invariant 0 <= i <= MAX_SESSIONS && s == -1 && View() == w
        invariant forall j :: 0 <= j < i ==> sessions[j].live
      {
        if !sessions[i].live {
          s := i;
          Put(i, NEW_SESSION);
          logs := logs[i := []];
          break;
        }
        i := i + 1;
      }
      FirstIs(w.sessions, s);
    }

    method DropSlot(s: nat)
      requires Valid() && s < MAX_SESSIONS
      modifies sessions, vita.slots
      ensures Valid() && View() == DropToken(old(View()), s)
    {
      var t := sessions[s];
      if t.token >= 0 {
        vita.SessionRemove(t.token);
        Put(s, t.(token := -1));
      }
    }

    method SessionDestroy(s: nat, biasOk: bool)
      requires Valid() && s < MAX_SESSIONS
      modifies this`owner, this`logs, rtl, sessions, vita.slots
      ensures Valid() && View() == DoDestroy(old(View()), s, biasOk)
    {
      hide Broadcast, Offers, Release, DropToken, Radio.Stop;
      var streaming := sessions[s].phase == Streaming;
      DropSlot(s);
      if streaming {
        rtl.BridgeStop();
        Event(s, StreamState(false));
      }
      RxRelease(s);
      if rtl.bias && !cfg.biasPersist && biasOk {
        rtl.bias := false;
      }
      Forget(s);
    }

    method Forget(s: nat)
      requires Valid() && s < MAX_SESSIONS
      modifies this`logs, sessions
      ensures Valid()
      ensures var w := old(View()); View() == w.(sessions := w.sessions[s := FREE_SESSION], logs := w.logs[s := []])
    {
      Put(s, FREE_SESSION);
      logs := logs[s := []];
    }

    // ---- Command handlers -------------------------------------------------------------

    method Hello(s: nat, problem: Arg<Code>, env: Env)
      requires Valid() && s < MAX_SESSIONS
      modifies this`logs, this`issued, sessions
      ensures Valid() && View() == DoHello(old(View()), s, problem, env)
    {
      hide Reply, Offers;
      if problem.Value? {
        Send(s, Error(problem.value));
        return;
      }
      ghost var w := View();
      var t := sessions[s].(phase := Idle);
      Put(s, t);
      if cfg.rxAuth {
        Put(s, t.(auth := AuthMachine.Challenge(t.auth, env.nonce)));
        assert w.sessions[s := t][s := sessions[s]] == w.sessions[s := sessions[s]];
        issued := if env.nonce.Some? then issued + {env.nonce.value} else issued;
      }
      Send(s, Done);
    }

    method Authenticate(s: nat, claim: Arg<AuthMachine.Claim>, env: Env)
      requires Valid() && s < MAX_SESSIONS
      modifies this`logs, this`issued, this`judged, sessions
      ensures Valid() && View() == DoAuthenticate(old(View()), s, claim, env)
    {
      hide Reply, Offers, Attempted, Passed;
      if !cfg.rxAuth {
        Send(s, Done);
        return;
      }
      if !claim.Value? {
        Send(s, Error(MissingParameter));
        return;
      }
      ghost var w := View();
      var ok := Attempt(s, claim.value, env);
      Send(s, if ok then Done else Error(AuthFailed));
    }

    method Attempt(s: nat, c: AuthMachine.Claim, env: Env) returns (ok: bool)
      requires Valid() && s < MAX_SESSIONS
      modifies this`issued, this`judged, sessions
      ensures Valid() && View() == Attempted(old(View()), s, c, env)
      ensures ok <==> Passed(old(View()), s, c, env)
    {
      hide AuthMachine.Passes, AuthMachine.Attempt;
      var t := sessions[s];
      var a;
      ok, a := Judge(t.auth, cfg.keys, c, env);
      judged := if AuthMachine.Judges(t.auth, cfg.keys, c) then judged + [t.auth.nonce] else judged;
      issued := if !ok && env.nonce.Some? then issued + {env.nonce.value} else issued;
      Put(s, t.(auth := a));
    }

    method SetFrequency(s: nat, to: Address, hz: Arg<nat>, env: Env)
      requires Valid() && s < MAX_SESSIONS
      modifies this`logs, rtl
      ensures Valid() && View() == DoSetFrequency(old(View()), s, to, hz, env)
    {
      hide Reply, Broadcast, Offers, Radio.InBand;
      var p := AddressProblem(to);
      var other := RxOwnedByOther(s);
      if p.Value? {
        Send(s, Error(p.value));
      } else if other {
        Send(s, Error(InUse));
      } else if !hz.Value? {
        Send(s, Error(MissingParameter));
      } else if hz.value < 1 {
        Send(s, Error(InvalidParameter));
      } else if !Radio.InBand(rtl.mode, hz.value) {
        Send(s, Error(UnsupportedFrequency));
      } else {
        rtl.Tune(env.freqApplied);
        if env.freqApplied == 0 {
          Send(s, Error(DeviceError));
        } else {
          Send(s, Done);
          Event(-1, FrequencyChanged(env.freqApplied));
        }
      }
    }

    method SetSampleRate(s: nat, to: Address, sps: Arg<nat>, env: Env)
      requires Valid() && s < MAX_SESSIONS
      modifies this`logs, rtl
      ensures Valid() && View() == DoSetSampleRate(old(View()), s, to, sps, env)
    {
      hide Reply, Broadcast, Offers, Radio.Rates;
      var p := AddressProblem(to);
      var other := RxOwnedByOther(s);
      if p.Value? {
        Send(s, Error(p.value));
      } else if other {
        Send(s, Error(InUse));
      } else if sessions[s].phase == Streaming || sessions[s].phase == StreamOpen {
        Send(s, Error(ReconfigurationRequired));
      } else if !sps.Value? {
        Send(s, Error(MissingParameter));
      } else if sps.value !in Radio.Rates(rtl.mode) {
        Send(s, Error(UnsupportedSampleRate));
      } else {
        rtl.SetRate(sps.value, env.rateApplied);
        if env.rateApplied == 0 {
          Send(s, Error(DeviceError));
        } else {
          Send(s, Done);
          Event(-1, SampleRateChanged(sps.value, env.rateApplied));
        }
      }
    }

    method ApplyModeChange(env: Env) returns (out: Outbox)
      requires Valid()
      modifies this`logs, rtl, vita.slots
      ensures Valid() && View() == ModeSideEffects(old(View()), env)
      ensures Emitted(old(View()).slots, View().slots, out)
    {
      hide Broadcast, Offers, Radio.InBand, Radio.Rates, Radio.PreferredRate, VitaSender.SetFormat, SendContexts,
        Emitted;
      if !Radio.InBand(rtl.mode, rtl.freq) {
        rtl.Tune(env.freqApplied);
        if env.freqApplied != 0 {
          Event(-1, FrequencyChanged(env.freqApplied));
        }
      }
      if rtl.rateRequested !in Radio.Rates(rtl.mode) {
        var want := Radio.PreferredRate(rtl.mode);
        rtl.SetRate(want, env.rateApplied);
        if env.rateApplied != 0 {
          Event(-1, SampleRateChanged(want, env.rateApplied));
        }
      }
      out := AnnounceFormat();
    }

    /** The new payload format, and a context packet for every slot in use. */
    method AnnounceFormat() returns (out: Outbox)
      requires Valid()
      modifies vita.slots
      ensures Valid()
      ensures var w := old(View());
              View() == SendContexts(w.(slots := VitaSender.SetFormat(w.slots, Radio.Format(w.radio.mode))))
      ensures Emitted(old(View()).slots, View().slots, out)
    {
      hide VitaSender.ContextAll, VitaSender.SetFormat, VitaSender.Emits, Radio.Format;
      ghost var was := View().slots;
      vita.UpdatePayloadFormat(Radio.Format(rtl.mode));
      out := vita.SendContextAll(rtl.gain, Radio.Format(rtl.mode));
      Reformatted(was, Radio.Format(rtl.mode), View().slots, out);
    }

    method DirectSampling(s: nat, mode: Radio.Mode, env: Env) returns (out: Outbox)
      requires Valid() && s < MAX_SESSIONS
      modifies this`logs, rtl, vita.slots
      ensures Valid() && View() == DoDirectSampling(old(View()), s, mode, env)
      ensures Emitted(old(View()).slots, View().slots, out)
    {
      hide Reply, Broadcast, Offers, ModeSideEffects, Emitted;
      out := Silent();
      SilentEmits(View().slots);
      if mode == rtl.mode {
        Send(s, Done);
      } else if sessions[s].streamOpen {
        Send(s, Error(ReconfigurationRequired));
      } else if !env.modeOk {
        Send(s, Error(DeviceError));
      } else {
        rtl.mode := mode;
        Send(s, Done);
        Event(-1, ModeChanged(mode));
        out := ApplyModeChange(env);
        Event(-1, CapabilitiesChanged);
      }
    }

    method SetControl(s: nat, to: Address, setting: Setting, env: Env) returns (out: Outbox)
      requires Valid() && s < MAX_SESSIONS
      modifies this`logs, rtl, vita.slots
      ensures Valid() && View() == DoSetControl(old(View()), s, to, setting, env)
      ensures Emitted(old(View()).slots, View().slots, out)
    {
      hide Reply, DoSetting, Emitted;
      out := Silent();
      SilentEmits(View().slots);
      var p := AddressProblem(to);
      var other := RxOwnedByOther(s);
      if p.Value? {
        Send(s, Error(p.value));
      } else if other {
        Send(s, Error(InUse));
      } else {
        out := Apply(s, setting, env);
      }
    }

    method SetGain(s: nat, onList: Arg<bool>, env: Env) returns (out: Outbox)
      requires Valid() && s < MAX_SESSIONS
      modifies this`logs, rtl, vita.slots
      ensures Valid() && View() == DoSetting(old(View()), s, RfGain(onList), env)
      ensures Emitted(old(View()).slots, View().slots, out)
    {
      hide Reply, Broadcast, Offers, DoDirectSampling, VitaSender.ContextAll, VitaSender.Emits, Radio.Format;
      out := Silent();
      SilentEmits(View().slots);
      if !onList.Value? {
        Send(s, Error(InvalidParameter));
      } else if rtl.agc {
        Send(s, Done);
      } else if !onList.value {
        Send(s, Error(InvalidParameter));
      } else {
        rtl.gain := env.gainApplied;
        Send(s, Done);
        out := vita.SendContextAll(rtl.gain, Radio.Format(rtl.mode));
        Event(-1, GainChanged(env.gainApplied));
      }
    }

    method SetAgc(s: nat, on: Arg<bool>, env: Env) returns (out: Outbox)
      requires Valid() && s < MAX_SESSIONS
      modifies this`logs, rtl, vita.slots
      ensures Valid() && View() == DoSetting(old(View()), s, Agc(on), env)
      ensures Emitted(old(View()).slots, View().slots, out)
    {
      hide Reply, Broadcast, Offers, DoDirectSampling, VitaSender.ContextAll, VitaSender.Emits, Radio.Format;
      out := Silent();
      SilentEmits(View().slots);
      if !on.Value? {
        Send(s, Error(InvalidParameter));
      } else {
        rtl.agc := on.value;
        Send(s, Done);
        out := vita.SendContextAll(rtl.gain, Radio.Format(rtl.mode));
        Event(-1, AgcChanged(on.value));
      }
    }

    method SetBias(s: nat, volts: Arg<real>, env: Env)
      requires Valid() && s < MAX_SESSIONS
      modifies this`logs, rtl
      ensures Valid() && View() == DoSetting(old(View()), s, BiasTee(volts), env)
    {
      hide Reply, Broadcast, Offers, DoDirectSampling, VitaSender.ContextAll, Radio.Format;
      if !volts.Value? || (volts.value != 0.0 && volts.value != 5.0) {
        Send(s, Error(InvalidParameter));
      } else if !env.biasOk {
        Send(s, Error(NotSupported));
      } else {
        rtl.bias := volts.value > 0.0;
        Send(s, Done);
        Event(-1, BiasChanged(rtl.bias));
      }
    }

    method SetPpm(s: nat, ppm: Arg<int>, env: Env)
      requires Valid() && s < MAX_SESSIONS
      modifies this`logs, rtl
      ensures Valid() && View() == DoSetting(old(View()), s, Ppm(ppm), env)
    {
      hide Reply, Broadcast, Offers, DoDirectSampling, VitaSender.ContextAll, Radio.Format;
      if !ppm.Value? || ppm.value < -100 || ppm.value > 100 {
        Send(s, Error(InvalidParameter));
      } else {
        if env.ppmOk {
          rtl.ppm := ppm.value;
        }
        Send(s, Done);
        Event(-1, PpmChanged(rtl.ppm));
      }
    }

    method Apply(s: nat, setting: Setting, env: Env) returns (out: Outbox)
      requires Valid() && s < MAX_SESSIONS
      modifies this`logs, rtl, vita.slots
      ensures Valid() && View() == DoSetting(old(View()), s, setting, env)
      ensures Emitted(old(View()).slots, View().slots, out)
    {
      hide Reply, Broadcast, Offers, DoDirectSampling, VitaSender.ContextAll, Radio.Format, Emitted;
      out := Silent();
      SilentEmits(View().slots);
      match setting {
        case NoSetting => Send(s, Error(MissingParameter));
        case UnknownControl => Send(s, Error(NotSupported));
        case RfGain(onList) => out := SetGain(s, onList, env);
        case Agc(on) => out := SetAgc(s, on, env);
        case BiasTee(volts) => SetBias(s, volts, env);
        case Ppm(ppm) => SetPpm(s, ppm, env);
        case DirectSampling(mode) =>
          if !mode.Value? || !mode.value.Value? {
            Send(s, Error(InvalidParameter));
          } else {
            out := DirectSampling(s, mode.value.value, env);
          }
      }
    }

    method OpenStream(s: nat, to: Address, problem: Arg<Code>)
      requires Valid() && s < MAX_SESSIONS
      modifies this`owner, this`counter, this`logs, sessions
      ensures Valid() && View() == DoOpenStream(old(View()), s, to, problem)
    {
      hide Reply, Broadcast, Offers, Claim, Release;
      var p := AddressProblem(to);
      if p.Value? {
        Send(s, Error(p.value));
        return;
      }
      if sessions[s].streamOpen {
        Send(s, Error(StreamAlreadyOpen));
        return;
      }
      var ok := RxClaim(s);
      if !ok {
        ClaimRefused(old(View()), s);
        Send(s, Error(InUse));
        return;
      }
      if problem.Value? {
        RxRelease(s);
        Send(s, Error(problem.value));
        return;
      }
      counter := NextId(counter);
      Put(s, sessions[s].(streamOpen := true, phase := StreamOpen, streamId := counter));
      Send(s, Opened(rtl.rate, rtl.mode));
      Event(s, ControlRevoked(false));
    }

    method StartRx(s: nat, id: StreamRef, env: Env) returns (out: Outbox)
      requires Valid() && s < MAX_SESSIONS
      modifies this`logs, rtl, sessions, vita.slots
      ensures Valid() && View() == DoStartRx(old(View()), s, id, env)
      ensures Answers(old(View()), s, Request.StartRx(id), env, out)
    {
      hide Reply, Offers, VitaSender.Add, VitaSender.Free, VitaSender.Remove, Radio.Start, Radio.Starts, Radio.Format,
        Answers, VitaSender.Emits, OnlyTouches, ControlDatagrams.Silent;
      out := Silent();
      ghost var w := View();
      AnswersNone(w, s, Request.StartRx(id), env);
      if id.NoId? {
        Send(s, Error(MissingParameter));
        return;
      }
      var t := sessions[s];
      if !Names(t, id) {
        Send(s, Error(StreamNotFound));
        return;
      }
      if t.phase == Streaming {
        Send(s, Done);
        return;
      }
      var token, first := vita.SessionAdd(t.streamId, Radio.Format(rtl.mode), rtl.gain, env.epoch, rtl.rate);
      if token >= 0 {
        out := out[token := first];
        OneAdded(w, s, id, env, first);
      }
      Put(s, t.(token := token));
      if token < 0 {
        Send(s, Error(Busy));
        return;
      }
      var r := rtl.BridgeStart(env.threadOk);
      if r != 0 {
        vita.SessionRemove(token);
        Put(s, t.(token := -1));
        Send(s, Error(DeviceError));
        return;
      }
      Put(s, t.(token := token, phase := Streaming));
      Send(s, Done);
      Send(s, StreamState(true));
    }

    method StopRx(s: nat, id: StreamRef)
      requires Valid() && s < MAX_SESSIONS
      modifies this`logs, rtl, sessions, vita.slots
      ensures Valid() && View() == DoStopRx(old(View()), s, id)
    {
      hide Reply, Offers, DropToken, Radio.Stop;
      if id.NoId? {
        Send(s, Error(MissingParameter));
        return;
      }
      if !Names(sessions[s], id) {
        Send(s, Error(StreamNotFound));
        return;
      }
      if sessions[s].phase != Streaming {
        Send(s, Done);
        return;
      }
      DropSlot(s);
      rtl.BridgeStop();
      Put(s, sessions[s].(phase := StreamOpen));
      Send(s, Done);
      Send(s, StreamState(false));
    }

    method CloseStream(s: nat, id: StreamRef)
      requires Valid() && s < MAX_SESSIONS
      modifies this`owner, this`logs, rtl, sessions, vita.slots
      ensures Valid() && View() == DoCloseStream(old(View()), s, id)
    {
      hide Reply, Broadcast, Offers, DropToken, Release, Radio.Stop;
      if id.NoId? {
        Send(s, Error(MissingParameter));
        return;
      }
      if !Names(sessions[s], id) {
        Send(s, Error(StreamNotFound));
        return;
      }
      var streaming := sessions[s].phase == Streaming;
      DropSlot(s);
      if streaming {
        rtl.BridgeStop();
      }
      Put(s, sessions[s].(streamOpen := false, phase := Idle, streamId := 0));
      RxRelease(s);
      Send(s, Done);
      if streaming {
        Send(s, StreamState(false));
      }
    }

    // ---- One command ------------------------------------------------------------------

    /** The commands that address rx or a stream. */
    method RunRx(s: nat, q: Request, env: Env) returns (out: Outbox)
      requires Valid() && s < MAX_SESSIONS && AboutRx(q)
      modifies this`owner, this`counter, this`logs, rtl, sessions, vita.slots
      ensures Valid() && View() == Dispatch(old(View()), s, q, env)
      ensures Answers(old(View()), s, q, env, out)
    {
      hide Reply, DoSetFrequency, DoSetSampleRate, DoSetControl, DoOpenStream, DoStartRx, DoStopRx, DoCloseStream,
        OnlyTouches, NextId, Answers, Emitted, Adds, ControlDatagrams.Silent, Dispatch;
      out := Silent();
      ghost var w := View();
      AnswersNone(w, s, q, env);
      ControlInvariants.DispatchIs(w, s, q, env);
      match q {
        case SetFrequency(to, hz) => SetFrequency(s, to, hz, env);
        case SetSampleRate(to, sps) => SetSampleRate(s, to, sps, env);
        case SetControl(to, setting) =>
          out := SetControl(s, to, setting, env);
          AnswersSet(w, s, q, env, out);
        case OpenStream(to, problem) => OpenStream(s, to, problem);
        case StartRx(id) => out := StartRx(s, id, env);
        case StopRx(id) => StopRx(s, id);
        case CloseStream(id) => CloseStream(s, id);
      }
    }

    method Run(s: nat, q: Request, env: Env) returns (out: Outbox)
      requires Valid() && s < MAX_SESSIONS
      modifies this`owner, this`counter, this`logs, this`issued, this`judged, rtl, sessions, vita.slots
      ensures Valid() && View() == Dispatch(old(View()), s, q, env)
      ensures Answers(old(View()), s, q, env, out)
    {
      hide Reply, DoHello, DoAuthenticate, DoGetControl, OnlyTouches, NextId, Answers, Emitted, Adds,
        ControlDatagrams.Silent, DoSetFrequency, DoSetSampleRate, DoSetControl, DoOpenStream, DoStartRx, DoStopRx,
        DoCloseStream;
      out := Silent();
      AnswersNone(View(), s, q, env);
      match q {
        case Garbage => Send(s, Error(InvalidRequest));
        case NotARequest =>
        case UnknownRequest => Send(s, Error(UnknownCommand));
        case Hello(problem) => Hello(s, problem, env);
        case Authenticate(claim) => Authenticate(s, claim, env);
        case GetCapabilities => Send(s, Done);
        case Ping => Send(s, Done);
        case GetClockStatus => Send(s, Done);
        case GetStatus => Send(s, StatusIs(ViewOf(rtl.View())));
        case GetControl(to, name) => GetControl(s, to, name);
        case _ => out := RunRx(s, q, env);
      }
    }

    method GetControl(s: nat, to: Address, name: Arg<Option<Control>>)
      requires Valid() && s < MAX_SESSIONS
      modifies this`logs
      ensures Valid() && View() == DoGetControl(old(View()), s, to, name)
    {
      hide Reply, Offers;
      var p := AddressProblem(to);
      if p.Value? {
        Send(s, Error(p.value));
      } else if !name.Value? {
        Send(s, Error(MissingParameter));
      } else if name.value.None? {
        Send(s, Error(NotSupported));
      } else {
        match name.value.value {
          case RfGainControl => Send(s, ControlIs(GainIs(rtl.gain)));
          case AgcControl => Send(s, ControlIs(AgcIs(rtl.agc)));
          case BiasTeeControl => Send(s, ControlIs(BiasIs(rtl.bias)));
          case PpmControl => Send(s, ControlIs(PpmIs(rtl.ppm)));
          case SamplingControl => Send(s, ControlIs(ModeIs(rtl.mode)));
        }
      }
    }

    /** The handler unless a gate refused, and the end of the connection when the handler asked for it. */
    method Finish(s: nat, q: Request, env: Env, early: bool, locked: bool) returns (out: Outbox)
      requires Valid() && Possible(View(), Command(s, q, env))
      requires early == TooEarly(sessions[s], q) && locked == (!early && Locked(cfg, sessions[s], q))
      modifies this, rtl, sessions, vita.slots
      ensures Valid() && View() == Next(old(View()), Command(s, q, env))
      ensures Outgoing(old(View()), Command(s, q, env), out)
    {
      hide Reply, Dispatch, DoDestroy, Answers;
      out := Silent();
      if early {
        Send(s, Error(InvalidRequest));
      } else if locked {
        Send(s, Error(Unauthorized));
      } else {
        out := Run(s, q, env);
      }
      clock := env.now;
      if sessions[s].auth.closing {
        SessionDestroy(s, env.biasOk);
      }
    }

    /** One turn of the session thread's loop: the hello-first rule, the authentication gate, the
        handler, and the end of the connection when the handler asked for it. */
    method Turn(s: nat, q: Request, env: Env) returns (out: Outbox)
      requires Valid() && Possible(View(), Command(s, q, env))
      modifies this, rtl, sessions, vita.slots
      ensures Valid() && View() == Next(old(View()), Command(s, q, env))
      ensures Outgoing(old(View()), Command(s, q, env), out)
    {
      var early := TooEarly(sessions[s], q);
      out := Finish(s, q, env, early, !early && Locked(cfg, sessions[s], q));
    }

    /** The same turn from the frame: both rules are decided on its bytes, as the source does, and the
        daemon goes on as the request it means has it. */
    method Receive(s: nat, js: string, q: Request, env: Env) returns (out: Outbox)
      requires Valid() && Possible(View(), Command(s, q, env)) && ControlFrames.Means(js, q)
      modifies this, rtl, sessions, vita.slots
      ensures Valid() && View() == Next(old(View()), Command(s, q, env))
      ensures Outgoing(old(View()), Command(s, q, env), out)
    {
      hide Next, Outgoing, ControlFrames.Gate, Jsmn.Run, TokLookup.EnvelopeRead, JsmnCounts.Rooted, AddressesRx;
      var e, toks := TokLookup.ReadEnvelope(js);
      var early, locked := false, false;
      if e.Request? {
        ControlFrames.GatesAgree(js, q);
        JsmnCounts.ParseRooted(js, TokLookup.MAX_JSON_TOKENS);
        TokLookup.ParsedInText(js);
        early := sessions[s].phase == AwaitHello && e.command != "hello";
        if !early && cfg.rxAuth && !sessions[s].auth.unlocked {
          var gate := ControlFrames.CmdAddressesRx(e.command, js, toks);
          locked := gate == Some(true);
        }
      }
      if !e.Request? {
        FrameGates(js, q);
      }
      out := Finish(s, q, env, early, locked);
    }

    /** A USB buffer arrives while the reader runs. */
    method UsbBuffer(buf: seq<u8>) returns (out: Outbox)
      requires Valid()
      modifies vita.slots
      ensures Valid() && View() == Next(old(View()), Usb(buf)) && Outgoing(old(View()), Usb(buf), out)
    {
      hide VitaSender.Callback, VitaSender.Emits, Radio.Format, Outgoing, Next, ControlDatagrams.Silent;
      out := Silent();
      ghost var w := View();
      SilentEmits(w.slots);
      if rtl.running {
        out := vita.SendCallback(buf, rtl.gain, Radio.Format(rtl.mode));
      }
      UsbOut(w, buf, View().slots, out);
    }

    /** Events taken one at a time, in whatever order they come; one that cannot happen, such as a
        command on a connection that is gone, is not there to be taken. */
    method Serve(es: seq<Step>) returns (ghost ws: seq<World>, ghost taken: seq<Step>, outs: seq<Outbox>)
      requires Valid() && Initial(View())
      modifies this, rtl, sessions, vita.slots
      ensures Valid() && Sending(ws, taken, outs) && ws[|taken|] == View()
      ensures ControlInvariants.Weak(View())
      ensures ControlInvariants.Orderly(ws, taken, |taken|) ==> ControlInvariants.Strong(View())
    {
      hide Next, ControlInvariants.Weak, ControlInvariants.Strong, ControlInvariants.Orderly, Initial, SendsAt;
      ws, taken, outs := [View()], [], [];
      for i := 0 to |es|
        invariant Valid() && Sending(ws, taken, outs) && ws[|taken|] == View()
      {
        ghost var w := View();
        var happens, out := Take(es[i]);
        if happens {
          assert ControlInvariants.Follows(w, es[i], View());
          ws, taken, outs := ws + [View()], taken + [es[i]], outs + [out];
        }
      }
      ControlInvariants.AlwaysWeak(ws, taken, |taken|);
      if ControlInvariants.Orderly(ws, taken, |taken|) {
        ControlInvariants.AlwaysStrong(ws, taken, |taken|);
      }
    }

    method Take(e: Step) returns (happens: bool, out: Outbox)
      requires Valid()
      modifies this, rtl, sessions, vita.slots
      ensures Valid() && (happens <==> Possible(old(View()), e))
      ensures View() == if happens then Next(old(View()), e) else old(View())
      ensures happens ==> SendsAt(old(View()), e, out)
    {
      hide Handle, DoDestroy, DoConnect, VitaSender.Callback, Answers, Emitted;
      happens, out := true, Silent();
      match e {
        case Connect =>
          var _ := SessionCreate();
        case Disconnect(s, biasOk) =>
          happens := s < MAX_SESSIONS && sessions[s].live;
          if happens {
            SessionDestroy(s, biasOk);
          }
        case Command(s, q, env) =>
          happens := s < MAX_SESSIONS && sessions[s].live;
          if happens {
            out := Turn(s, q, env);
            AnswersSized(old(View()), s, q, env, out);
          }
        case Usb(buf) =>
          out := UsbBuffer(buf);
          EmittedSized(old(View()).slots, View().slots, out);
      }
    }
  }

  predicate AboutRx(q: Request) {
    || q.SetFrequency? || q.SetSampleRate? || q.SetControl? || q.OpenStream? || q.StartRx? || q.StopRx?
    || q.CloseStream?
  }

  /** What authenticate makes of one connection's record. */
  method Judge(was: AuthMachine.State, keys: seq<Auth.Key>, c: AuthMachine.Claim, env: Env)
    returns (ok: bool, a: AuthMachine.State)
    ensures ok <==> AuthMachine.Passes(AuthMachine.Roll(was, env.now), keys, c)
    ensures a == AuthMachine.Attempt(was, keys, c, env.now, env.nonce)
  {
    hide Auth.Accepts, AuthMachine.Attempt, AuthMachine.Roll, AuthMachine.AddFailure;
    a := AuthMachine.Roll(was, env.now);
    AttemptIs(was, keys, c, env);
    ok := false;
    if a.nonceValid && c.methodOk && |keys| > 0 {
      ok := Auth.Verify(keys, c.keyId, a.nonce, c.response);
    }
    if ok {
      a := a.(unlocked := true, nonceValid := false);
    } else {
      var n := a.failures + 1;
      a := AuthMachine.Challenge(a, env.nonce).(failures := n, spans := AuthMachine.AddFailure(a.spans, env.now));
      if n >= AuthMachine.MAX_FAILURES {
        a := a.(closing := true);
      }
    }
  }

  lemma AttemptIs(a: AuthMachine.State, keys: seq<Auth.Key>, c: AuthMachine.Claim, env: Env)
    ensures var b := AuthMachine.Roll(a, env.now);
            && b.nonce == a.nonce && b.nonceValid == a.nonceValid
            && AuthMachine.Attempt(a, keys, c, env.now, env.nonce) ==
                 if AuthMachine.Passes(b, keys, c) then b.(unlocked := true, nonceValid := false)
                 else AuthMachine.Challenge(b, env.nonce).(
                        failures := b.failures + 1, spans := AuthMachine.AddFailure(b.spans, env.now),
                        closing := b.closing || b.failures + 1 >= AuthMachine.MAX_FAILURES)
  {
    hide AuthMachine.Passes;
  }

  lemma FrameGates(js: string, q: Request)
    requires ControlFrames.Means(js, q) && !TokLookup.EnvelopeRead(js).Request?
    ensures (q.Garbage? || q.NotARequest?) && !AddressesRx(q)
  {
    hide TokLookup.EnvelopeRead;
  }

  /** New formats are no packets. */
  lemma Reformatted(a: seq<VitaSender.Slot>, format: u32, b: seq<VitaSender.Slot>, out: Outbox)
    requires Emitted(VitaSender.SetFormat(a, format), b, out)
    ensures Emitted(a, b, out)
  {
    hide VitaSender.Emits;
    forall k | 0 <= k < |a|
      ensures VitaSender.Emits(a[k], b[k], out[k])
    {
      VitaSender.SameLog(VitaSender.SetFormat(a, format)[k], a[k], b[k], out[k]);
    }
  }

  lemma UsbOut(w: World, buf: seq<u8>, slots: seq<VitaSender.Slot>, out: Outbox)
    requires WellSized(w) && Emitted(w.slots, slots, out)
    requires var format := Radio.Format(w.radio.mode);
             slots == if w.radio.running then VitaSender.Callback(w.slots, buf, w.radio.gain, format) else w.slots
    ensures Outgoing(w, Usb(buf), out) && Next(w, Usb(buf)) == w.(slots := slots)
  {
    hide Emitted, VitaSender.Callback, Radio.Format;
  }

  lemma AnswersNone(w: World, s: nat, q: Request, env: Env)
    requires WellSized(w) && s < MAX_SESSIONS
    ensures !Adds(w, s, q) && !q.SetControl? ==> Answers(w, s, q, env, Silent())
    ensures !q.StartRx? ==> !Adds(w, s, q)
  {
    hide Emitted, Added, VitaSender.Free;
  }

  lemma AnswersSet(w: World, s: nat, q: Request, env: Env, out: Outbox)
    requires WellSized(w) && s < MAX_SESSIONS && q.SetControl?
    requires Emitted(w.slots, DoSetControl(w, s, q.to, q.setting, env).slots, out)
    ensures Answers(w, s, q, env, out)
  {
    hide Emitted, Added, VitaSender.Free, DoSetControl, Dispatch;
    ControlInvariants.DispatchIs(w, s, q, env);
  }

  lemma OneAdded(w: World, s: nat, id: StreamRef, env: Env, first: seq<seq<u8>>)
    requires WellSized(w) && s < MAX_SESSIONS && Adds(w, s, Request.StartRx(id))
    requires var f := VitaSender.Free(w.slots);
             f < |Added(w, s, env)| && VitaSender.Emits(VitaSender.FREE_SLOT, Added(w, s, env)[f], first)
    ensures Answers(w, s, Request.StartRx(id), env, Silent()[VitaSender.Free(w.slots) := first])
  {
    hide VitaSender.Emits, Added, VitaSender.Free, Emitted;
    AddedEmits(w, s, env, first);
  }

  lemma AddedEmits(w: World, s: nat, env: Env, first: seq<seq<u8>>)
    requires WellSized(w) && s < MAX_SESSIONS && VitaSender.Free(w.slots) >= 0
    requires var f := VitaSender.Free(w.slots);
             f < |Added(w, s, env)| && VitaSender.Emits(VitaSender.FREE_SLOT, Added(w, s, env)[f], first)
    ensures var f := VitaSender.Free(w.slots);
            Emitted(w.slots[f := VitaSender.FREE_SLOT], Added(w, s, env), Silent()[f := first])
  {
    hide VitaSender.Emits, VitaSender.SendContext, VitaSender.NewSlot, VitaSender.Free, Radio.Format;
    var f := VitaSender.Free(w.slots);
    forall k | 0 <= k < VitaSender.MAX_SLOTS && k != f
      ensures VitaSender.Emits(w.slots[k], Added(w, s, env)[k], [])
    {
      VitaSender.EmitsNothing(w.slots[k]);
    }
  }

  lemma EmittedSized(a: seq<VitaSender.Slot>, b: seq<VitaSender.Slot>, out: Outbox)
    requires Emitted(a, b, out)
    ensures |out| == |a|
  {
  }

  lemma AnswersSized(w: World, s: nat, q: Request, env: Env, out: Outbox)
    requires WellSized(w) && s < MAX_SESSIONS
    ensures Answers(w, s, q, env, out) ==> |out| == VitaSender.MAX_SLOTS
  {
    hide VitaSender.Emits, VitaSender.Free, Added;
  }

  lemma ClaimRefused(w: World, s: nat)
    requires WellSized(w) && s < MAX_SESSIONS && !MayClaim(w, s)
    ensures Claim(w, s) == w
  {
  }

  lemma FirstIs(ss: seq<Session>, s: int)
    requires -1 <= s < |ss|
    requires if s == -1 then forall j :: 0 <= j < |ss| ==> ss[j].live
             else !ss[s].live && forall j :: 0 <= j < s ==> ss[j].live
    ensures FirstFree(ss) == s
  {
    var _ := FirstFree(ss);
  }
}
