/** What a command is answered with: exactly when it is accepted, that a refusal gives a true reason and
    changes nothing, and that what was set is what is read. */
module ControlReplies {
  import opened Basics
  import opened ControlPlane
  import opened ControlInvariants
  import Auth
  import AuthMachine
  import Radio
  import VitaSender

  // ---- The answer ---------------------------------------------------------------------

  /** The first message a connection was sent since. */
  function FirstNew(before: seq<Message>, after: seq<Message>): Option<Message> {
    if before < after then Some(after[|before|]) else None
  }

  function Answer(w: World, s: nat, w': World): Option<Message>
    requires WellSized(w) && WellSized(w') && s < MAX_SESSIONS
  {
    FirstNew(w.logs[s], w'.logs[s])
  }

  predicate Accepts(m: Option<Message>) {
    m.Some? && !m.value.Error?
  }

  lemma Replied(w: World, w1: World, s: nat, m: Message)
    requires WellSized(w) && WellSized(w1) && s < MAX_SESSIONS && w1.logs[s] == w.logs[s]
    ensures Answer(w, s, Reply(w1, s, m)) == Some(m)
  {
  }

  /** What is sent behind the answer does not change it. */
  lemma Behind(w: World, w1: World, s: nat, skip: int, m: Message)
    requires WellSized(w) && WellSized(w1) && s < MAX_SESSIONS && Answer(w, s, w1).Some?
    ensures Answer(w, s, Broadcast(w1, skip, m)) == Answer(w, s, Reply(w1, s, m)) == Answer(w, s, w1)
  {
  }

  lemma SameLogs(w: World, s: nat, a: World, b: World)
    requires WellSized(w) && WellSized(a) && WellSized(b) && s < MAX_SESSIONS && a.logs == b.logs
    ensures Answer(w, s, a) == Answer(w, s, b)
  {
  }

  // ---- When a command is accepted -----------------------------------------------------

  /** rx may be addressed by this connection. */
  predicate Unlocked(w: World, s: nat)
    requires WellSized(w) && s < MAX_SESSIONS
  {
    !w.cfg.rxAuth || w.sessions[s].auth.unlocked
  }

  /** It may address rx, does so properly, and nobody else holds it. */
  predicate MaySet(w: World, s: nat, to: Address)
    requires WellSized(w) && s < MAX_SESSIONS
  {
    Unlocked(w, s) && to == Rx(false) && (w.owner == -1 || w.owner == s)
  }

  predicate SettingAllowed(w: World, s: nat, setting: Setting, env: Env)
    requires WellSized(w) && s < MAX_SESSIONS
  {
    match setting
    case RfGain(onList) => onList.Value? && (w.radio.agc || onList.value)
    case Agc(on) => on.Value?
    case BiasTee(volts) => volts.Value? && (volts.value == 0.0 || volts.value == 5.0) && env.biasOk
    case Ppm(ppm) => ppm.Value? && -100 <= ppm.value <= 100
    case DirectSampling(to) =>
      && to.Value? && to.value.Value?
      && (to.value.value == w.radio.mode || (!w.sessions[s].streamOpen && env.modeOk))
    case _ => false
  }

  /** The conditions of each command, in no order. */
  ghost predicate Allowed(w: World, s: nat, q: Request, env: Env)
    requires WellSized(w) && s < MAX_SESSIONS
  {
    var t := w.sessions[s];
    && (q.Hello? || t.phase != AwaitHello)
    && match q
       case Hello(problem) => !problem.Value?
       case Authenticate(claim) => !w.cfg.rxAuth || (claim.Value? && Passed(w, s, claim.value, env))
       case GetControl(to, name) => to == Rx(false) && name.Value? && name.value.Some?
       case SetFrequency(to, hz) =>
         && MaySet(w, s, to) && hz.Value? && hz.value >= 1
         && Radio.FreqMin(w.radio.mode) <= hz.value <= Radio.FreqMax(w.radio.mode) && env.freqApplied != 0
       case SetSampleRate(to, sps) =>
         && MaySet(w, s, to) && t.phase != Streaming && t.phase != StreamOpen
         && sps.Value? && sps.value in Radio.Rates(w.radio.mode) && env.rateApplied != 0
       case SetControl(to, setting) => MaySet(w, s, to) && SettingAllowed(w, s, setting, env)
       case OpenStream(to, problem) => MaySet(w, s, to) && !t.streamOpen && !problem.Value?
       case StartRx(id) =>
         && Unlocked(w, s) && Names(t, id)
         && (t.phase == Streaming || (VitaSender.Free(w.slots) >= 0 && (w.radio.streams > 0 || env.threadOk)))
       case StopRx(id) => Unlocked(w, s) && Names(t, id)
       case CloseStream(id) => Unlocked(w, s) && Names(t, id)
       case _ => q.GetCapabilities? || q.Ping? || q.GetClockStatus? || q.GetStatus?
  }

  // ---- What a code tells --------------------------------------------------------------

  predicate NoValue<T>(a: Arg<T>) { !a.Value? }

  /** Some parameter is missing, or not of its type. */
  predicate Lacks(q: Request) {
    match q
    case Authenticate(claim) => NoValue(claim)
    case GetControl(to, name) => to.NoParams? || to.NoFunction? || NoValue(name)
    case SetFrequency(to, hz) => to.NoParams? || to.NoFunction? || NoValue(hz)
    case SetSampleRate(to, sps) => to.NoParams? || to.NoFunction? || NoValue(sps)
    case SetControl(to, setting) => to.NoParams? || to.NoFunction? || setting.NoSetting?
    case OpenStream(to, _) => to.NoParams? || to.NoFunction?
    case StartRx(id) => id.NoId?
    case StopRx(id) => id.NoId?
    case CloseStream(id) => id.NoId?
    case _ => false
  }

  function AddressOf(q: Request): Address {
    match q
    case GetControl(to, _) => to
    case SetFrequency(to, _) => to
    case SetSampleRate(to, _) => to
    case SetControl(to, _) => to
    case OpenStream(to, _) => to
    case _ => Rx(false)
  }

  /** A setting's value is not one it can take. */
  predicate BadValue(w: World, setting: Setting) {
    match setting
    case RfGain(onList) => NoValue(onList) || !onList.value
    case Agc(on) => NoValue(on)
    case BiasTee(volts) => NoValue(volts) || (volts.value != 0.0 && volts.value != 5.0)
    case Ppm(ppm) => NoValue(ppm) || ppm.value < -100 || ppm.value > 100
    case DirectSampling(to) => NoValue(to) || NoValue(to.value)
    case _ => false
  }

  /** The hardware said no. */
  predicate DeviceRefuses(w: World, q: Request, env: Env) {
    match q
    case SetFrequency(_, _) => env.freqApplied == 0
    case SetSampleRate(_, _) => env.rateApplied == 0
    case SetControl(_, setting) => setting.DirectSampling? && !env.modeOk
    case StartRx(_) => w.radio.streams == 0 && !env.threadOk
    case _ => false
  }

  /** What each code says of the request and the state. */
  ghost predicate Reason(w: World, s: nat, q: Request, env: Env, c: Code)
    requires WellSized(w) && s < MAX_SESSIONS
  {
    var t := w.sessions[s];
    match c
    case InvalidRequest => q.Garbage? || (t.phase == AwaitHello && !q.Hello?)
    case UnknownCommand => q.UnknownRequest?
    case Unauthorized => !Unlocked(w, s)
    case AuthFailed => q.Authenticate? && q.claim.Value? && !Passed(w, s, q.claim.value, env)
    case MissingParameter => Lacks(q)
    case InvalidParameter =>
      || AddressOf(q) == Rx(true) || (q.SetFrequency? && q.hz == Value(0))
      || (q.SetControl? && BadValue(w, q.setting))
    case NotSupported =>
      || AddressOf(q).OtherFunction? || (q.GetControl? && q.name == Value(None))
      || (q.SetControl? && (q.setting.UnknownControl? || (q.setting.BiasTee? && !env.biasOk)))
    case InUse => w.owner != -1 && w.owner != s
    case UnsupportedFrequency => q.SetFrequency? && q.hz.Value? && !Radio.InBand(w.radio.mode, q.hz.value)
    case UnsupportedSampleRate => q.SetSampleRate? && q.sps.Value? && q.sps.value !in Radio.Rates(w.radio.mode)
    case ReconfigurationRequired => t.streamOpen || t.phase == Streaming || t.phase == StreamOpen
    case DeviceError => DeviceRefuses(w, q, env)
    case StreamAlreadyOpen => q.OpenStream? && t.streamOpen
    case StreamNotFound => (q.StartRx? || q.StopRx? || q.CloseStream?) && !Names(t, q.id)
    case Busy => q.StartRx? && VitaSender.Free(w.slots) < 0
    case _ => false
  }

  /** hello and open_stream are refused with the code of what is wrong with them. */
  predicate OwnProblem(q: Request, c: Code) {
    (q.Hello? || q.OpenStream?) && q.problem == Value(c)
  }

  /** The answer says what it should: nothing to what is no request, acceptance exactly when allowed, and
      otherwise a true reason. */
  ghost predicate Fair(w: World, s: nat, q: Request, env: Env, m: Option<Message>)
    requires WellSized(w) && s < MAX_SESSIONS
  {
    && (m.None? <==> q.NotARequest?)
    && (Accepts(m) <==> Allowed(w, s, q, env))
    && (m.Some? && m.value.Error? ==> Reason(w, s, q, env, m.value.code) || OwnProblem(q, m.value.code))
  }

  // ---- Command by command -------------------------------------------------------------

  ghost predicate Past(w: World, s: nat, q: Request)
    requires WellSized(w) && s < MAX_SESSIONS
  {
    !TooEarly(w.sessions[s], q) && !Locked(w.cfg, w.sessions[s], q)
  }

  lemma ErrorsAnswer(w: World, s: nat)
    requires WellSized(w) && s < MAX_SESSIONS
    ensures forall c :: Answer(w, s, Reply(w, s, Error(c))) == Some(Error(c))
    ensures Answer(w, s, Reply(w, s, Done)) == Some(Done)
  {
    hide Reply, Answer;
    forall c
      ensures Answer(w, s, Reply(w, s, Error(c))) == Some(Error(c))
    {
      Replied(w, w, s, Error(c));
    }
    Replied(w, w, s, Done);
  }

  lemma FrequencyAnswers(w: World, s: nat, hz: Arg<nat>, env: Env)
    requires WellSized(w) && s < MAX_SESSIONS && !OwnedByOther(w, s)
    ensures Answer(w, s, DoSetFrequency(w, s, Rx(false), hz, env)) ==
              if !hz.Value? then Some(Error(MissingParameter))
              else if hz.value < 1 then Some(Error(InvalidParameter))
              else if !Radio.InBand(w.radio.mode, hz.value) then Some(Error(UnsupportedFrequency))
              else if env.freqApplied == 0 then Some(Error(DeviceError)) else Some(Done)
  {
    hide Reply, Broadcast, Offers, Answer, OnlyTouches, Radio.InBand;
    ErrorsAnswer(w, s);
    var w1 := w.(radio := Radio.SetFrequency(w.radio, env.freqApplied));
    Replied(w, w1, s, Error(DeviceError));
    SetAnswers(w, w1, s, FrequencyChanged(env.freqApplied));
  }

  lemma RateAnswers(w: World, s: nat, sps: Arg<nat>, env: Env)
    requires WellSized(w) && s < MAX_SESSIONS && !OwnedByOther(w, s)
    ensures Answer(w, s, DoSetSampleRate(w, s, Rx(false), sps, env)) ==
              if w.sessions[s].phase == Streaming || w.sessions[s].phase == StreamOpen
              then Some(Error(ReconfigurationRequired))
              else if !sps.Value? then Some(Error(MissingParameter))
              else if sps.value !in Radio.Rates(w.radio.mode) then Some(Error(UnsupportedSampleRate))
              else if env.rateApplied == 0 then Some(Error(DeviceError)) else Some(Done)
  {
    hide Reply, Broadcast, Offers, Answer, OnlyTouches, Radio.Rates;
    ErrorsAnswer(w, s);
    if sps.Value? {
      var w1 := w.(radio := Radio.SetSampleRate(w.radio, sps.value, env.rateApplied));
      Replied(w, w1, s, Error(DeviceError));
      SetAnswers(w, w1, s, SampleRateChanged(sps.value, env.rateApplied));
    }
  }

  /** The address and the owner come first. */
  lemma NotForIt(w: World, s: nat, to: Address, n: Arg<nat>, setting: Setting, env: Env)
    requires WellSized(w) && s < MAX_SESSIONS && (to != Rx(false) || OwnedByOther(w, s))
    ensures var m := if AddressProblem(to).Value? then Some(Error(AddressProblem(to).value)) else Some(Error(InUse));
            && Answer(w, s, DoSetFrequency(w, s, to, n, env)) == m
            && Answer(w, s, DoSetSampleRate(w, s, to, n, env)) == m
            && Answer(w, s, DoSetControl(w, s, to, setting, env)) == m
  {
    hide Reply, Broadcast, Offers, Answer, OnlyTouches, DoSetting;
    ErrorsAnswer(w, s);
  }

  lemma FrequencyFair(w: World, s: nat, to: Address, hz: Arg<nat>, env: Env)
    requires WellSized(w) && s < MAX_SESSIONS && Past(w, s, SetFrequency(to, hz))
    ensures Fair(w, s, SetFrequency(to, hz), env, Answer(w, s, DoSetFrequency(w, s, to, hz, env)))
  {
    hide DoSetFrequency, Answer, OnlyTouches;
    if to != Rx(false) || OwnedByOther(w, s) {
      NotForIt(w, s, to, hz, NoSetting, env);
    } else {
      FrequencyAnswers(w, s, hz, env);
    }
  }

  lemma RateFair(w: World, s: nat, to: Address, sps: Arg<nat>, env: Env)
    requires WellSized(w) && s < MAX_SESSIONS && Past(w, s, SetSampleRate(to, sps))
    ensures Fair(w, s, SetSampleRate(to, sps), env, Answer(w, s, DoSetSampleRate(w, s, to, sps, env)))
  {
    hide DoSetSampleRate, Answer, OnlyTouches, Radio.Rates;
    if to != Rx(false) || OwnedByOther(w, s) {
      NotForIt(w, s, to, sps, NoSetting, env);
    } else {
      RateAnswers(w, s, sps, env);
    }
  }

  /** A setting is changed, the client told, then everybody. */
  lemma SetAnswers(w: World, w1: World, s: nat, m: Message)
    requires WellSized(w) && WellSized(w1) && s < MAX_SESSIONS && w1.logs == w.logs
    ensures Answer(w, s, Broadcast(Reply(w1, s, Done), -1, m)) == Some(Done)
    ensures Answer(w, s, Broadcast(SendContexts(Reply(w1, s, Done)), -1, m)) == Some(Done)
  {
    hide Reply, Broadcast, Answer, SendContexts;
    Replied(w, w1, s, Done);
    Behind(w, Reply(w1, s, Done), s, -1, m);
    SameLogs(w, s, Reply(w1, s, Done), SendContexts(Reply(w1, s, Done)));
    Behind(w, SendContexts(Reply(w1, s, Done)), s, -1, m);
  }

  lemma ModeAnswers(w: World, s: nat, mode: Radio.Mode, env: Env)
    requires WellSized(w) && s < MAX_SESSIONS
    ensures Answer(w, s, DoDirectSampling(w, s, mode, env)) ==
              if mode == w.radio.mode then Some(Done)
              else if w.sessions[s].streamOpen then Some(Error(ReconfigurationRequired))
              else if !env.modeOk then Some(Error(DeviceError)) else Some(Done)
  {
    hide Reply, Broadcast, Answer, Offers, OnlyTouches, ModeSideEffects;
    ErrorsAnswer(w, s);
    if mode != w.radio.mode && !w.sessions[s].streamOpen && env.modeOk {
      var v := w.(radio := w.radio.(mode := mode));
      SetAnswers(w, v, s, ModeChanged(mode));
      var w1 := Broadcast(Reply(v, s, Done), -1, ModeChanged(mode));
      EffectsBehind(w, w1, s, env);
      Behind(w, ModeSideEffects(w1, env), s, -1, CapabilitiesChanged);
    }
  }

  lemma EffectsBehind(w: World, w1: World, s: nat, env: Env)
    requires WellSized(w) && WellSized(w1) && s < MAX_SESSIONS && Answer(w, s, w1).Some?
    ensures Answer(w, s, ModeSideEffects(w1, env)) == Answer(w, s, w1)
  {
    hide Broadcast, Answer, SendContexts, Radio.Rates, Radio.PreferredRate, VitaSender.SetFormat;
    var r1 := w1.(radio := Radio.SetFrequency(w1.radio, env.freqApplied));
    SameLogs(w, s, w1, r1);
    Behind(w, r1, s, -1, FrequencyChanged(env.freqApplied));
    var w2 := Retune(w1, env);
    var want := Radio.PreferredRate(w2.radio.mode);
    var r2 := w2.(radio := Radio.SetSampleRate(w2.radio, want, env.rateApplied));
    SameLogs(w, s, w2, r2);
    Behind(w, r2, s, -1, SampleRateChanged(want, env.rateApplied));
    SameLogs(w, s, Rerate(w2, env), ModeSideEffects(w1, env));
  }

  lemma SettingFair(w: World, s: nat, setting: Setting, env: Env)
    requires WellSized(w) && s < MAX_SESSIONS
    ensures var m := Answer(w, s, DoSetting(w, s, setting, env));
            && m.Some? && (!m.value.Error? <==> SettingAllowed(w, s, setting, env))
            && (m.value.Error? ==>
                  || (m.value.code == InvalidParameter && BadValue(w, setting))
                  || (m.value.code == MissingParameter && setting.NoSetting?)
                  || (m.value.code == NotSupported && (setting.UnknownControl? || (setting.BiasTee? && !env.biasOk)))
                  || (m.value.code == DeviceError && setting.DirectSampling? && !env.modeOk)
                  || (m.value.code == ReconfigurationRequired && w.sessions[s].streamOpen))
  {
    hide Reply, Broadcast, Answer, Offers, OnlyTouches, DoDirectSampling, SendContexts;
    ErrorsAnswer(w, s);
    match setting
    case RfGain(_) => SetAnswers(w, w.(radio := w.radio.(gain := env.gainApplied)), s, GainChanged(env.gainApplied));
    case Agc(on) => if on.Value? { SetAnswers(w, w.(radio := w.radio.(agc := on.value)), s, AgcChanged(on.value)); }
    case BiasTee(v) =>
      if v.Value? {
        SetAnswers(w, w.(radio := w.radio.(bias := v.value > 0.0)), s, BiasChanged(v.value > 0.0));
      }
    case Ppm(p) =>
      if p.Value? {
        var w1 := if env.ppmOk then w.(radio := w.radio.(ppm := p.value)) else w;
        SetAnswers(w, w1, s, PpmChanged(w1.radio.ppm));
      }
    case DirectSampling(to) => if to.Value? && to.value.Value? { ModeAnswers(w, s, to.value.value, env); }
    case _ =>
  }

  lemma ControlFair(w: World, s: nat, to: Address, setting: Setting, env: Env)
    requires WellSized(w) && s < MAX_SESSIONS && Past(w, s, SetControl(to, setting))
    ensures Fair(w, s, SetControl(to, setting), env, Answer(w, s, DoSetControl(w, s, to, setting, env)))
  {
    hide Answer, DoSetting, BadValue, SettingAllowed, OnlyTouches;
    if to != Rx(false) || OwnedByOther(w, s) {
      hide DoSetControl;
      NotForIt(w, s, to, Missing, setting, env);
    } else {
      SettingFair(w, s, setting, env);
    }
  }

  lemma ReadFair(w: World, s: nat, to: Address, name: Arg<Option<Control>>, env: Env)
    requires WellSized(w) && s < MAX_SESSIONS && Past(w, s, GetControl(to, name))
    ensures Fair(w, s, GetControl(to, name), env, Answer(w, s, DoGetControl(w, s, to, name)))
  {
    hide Reply, Answer, Offers, OnlyTouches;
    ErrorsAnswer(w, s);
    if name.Value? && name.value.Some? {
      Replied(w, w, s, ControlIs(Read(w.radio, name.value.value)));
    }
  }

  /** Past the address and the owner. */
  lemma OpenAnswers(w: World, s: nat, problem: Arg<Code>)
    requires WellSized(w) && s < MAX_SESSIONS && !w.sessions[s].streamOpen && MayClaim(w, s)
    ensures var m := Answer(w, s, DoOpenStream(w, s, Rx(false), problem));
            m.Some? && if problem.Value? then m.value == Error(problem.value) else m.value.Opened?
  {
    hide Reply, Broadcast, Answer, Offers, OnlyTouches, NextId, Release;
    var w1 := Claim(w, s);
    if problem.Value? {
      ReleaseSilent(w1, s);
      Replied(w, Release(w1, s), s, Error(problem.value));
    } else {
      var n := NextId(w1.counter);
      var t := w1.sessions[s].(streamOpen := true, phase := StreamOpen, streamId := n);
      var w2 := w1.(counter := n, sessions := w1.sessions[s := t]);
      Replied(w, w2, s, Opened(w2.radio.rate, w2.radio.mode));
      Behind(w, Reply(w2, s, Opened(w2.radio.rate, w2.radio.mode)), s, s, ControlRevoked(false));
    }
  }

  lemma OpenRefused(w: World, s: nat, to: Address, problem: Arg<Code>)
    requires WellSized(w) && s < MAX_SESSIONS
    requires to != Rx(false) || w.sessions[s].streamOpen || !MayClaim(w, s)
    ensures Answer(w, s, DoOpenStream(w, s, to, problem)) ==
              if AddressProblem(to).Value? then Some(Error(AddressProblem(to).value))
              else if w.sessions[s].streamOpen then Some(Error(StreamAlreadyOpen)) else Some(Error(InUse))
  {
    hide Reply, Broadcast, Answer, Offers, OnlyTouches, NextId, Release;
    ErrorsAnswer(w, s);
  }

  lemma OpenFair(w: World, s: nat, to: Address, problem: Arg<Code>, env: Env)
    requires WellSized(w) && s < MAX_SESSIONS && Past(w, s, OpenStream(to, problem))
    ensures Fair(w, s, OpenStream(to, problem), env, Answer(w, s, DoOpenStream(w, s, to, problem)))
  {
    hide DoOpenStream, Answer, OnlyTouches;
    if to != Rx(false) || w.sessions[s].streamOpen || !MayClaim(w, s) {
      OpenRefused(w, s, to, problem);
    } else {
      OpenAnswers(w, s, problem);
    }
  }

  lemma ReleaseSilent(w: World, s: nat)
    requires WellSized(w) && s < MAX_SESSIONS
    ensures Release(w, s).logs[s] == w.logs[s]
  {
  }

  lemma StartAnswers(w: World, s: nat, id: StreamRef, env: Env)
    requires WellSized(w) && s < MAX_SESSIONS
    ensures Answer(w, s, DoStartRx(w, s, id, env)) ==
              if id.NoId? then Some(Error(MissingParameter))
              else if !Names(w.sessions[s], id) then Some(Error(StreamNotFound))
              else if w.sessions[s].phase == Streaming then Some(Done)
              else if VitaSender.Free(w.slots) < 0 then Some(Error(Busy))
              else if !Radio.Starts(w.radio, env.threadOk) then Some(Error(DeviceError)) else Some(Done)
  {
    hide Reply, Answer, Offers, OnlyTouches, VitaSender.Add, VitaSender.Free, VitaSender.Remove, Radio.Format,
      Radio.Start, Radio.Starts;
    ErrorsAnswer(w, s);
    var w0 := DoStartRx(w, s, id, env).(logs := w.logs);
    Replied(w, w0, s, Error(Busy));
    Replied(w, w0, s, Error(DeviceError));
    Replied(w, w0, s, Done);
    Behind(w, Reply(w0, s, Done), s, -1, StreamState(true));
  }

  lemma StartFair(w: World, s: nat, id: StreamRef, env: Env)
    requires WellSized(w) && s < MAX_SESSIONS && Past(w, s, StartRx(id))
    ensures Fair(w, s, StartRx(id), env, Answer(w, s, DoStartRx(w, s, id, env)))
  {
    hide DoStartRx, Answer, OnlyTouches, VitaSender.Free;
    StartAnswers(w, s, id, env);
  }

  lemma StopAnswers(w: World, s: nat, id: StreamRef)
    requires WellSized(w) && s < MAX_SESSIONS
    ensures Answer(w, s, DoStopRx(w, s, id)) ==
              if id.NoId? then Some(Error(MissingParameter))
              else if !Names(w.sessions[s], id) then Some(Error(StreamNotFound)) else Some(Done)
  {
    hide Reply, Answer, Offers, OnlyTouches, VitaSender.Remove, Radio.Stop;
    ErrorsAnswer(w, s);
    var w0 := DoStopRx(w, s, id).(logs := w.logs);
    Replied(w, w0, s, Done);
    Behind(w, Reply(w0, s, Done), s, -1, StreamState(false));
  }

  lemma StopFair(w: World, s: nat, id: StreamRef, env: Env)
    requires WellSized(w) && s < MAX_SESSIONS && Past(w, s, StopRx(id))
    ensures Fair(w, s, StopRx(id), env, Answer(w, s, DoStopRx(w, s, id)))
  {
    hide DoStopRx, Answer, OnlyTouches;
    StopAnswers(w, s, id);
  }

  lemma CloseAnswers(w: World, s: nat, id: StreamRef)
    requires WellSized(w) && s < MAX_SESSIONS
    ensures Answer(w, s, DoCloseStream(w, s, id)) ==
              if id.NoId? then Some(Error(MissingParameter))
              else if !Names(w.sessions[s], id) then Some(Error(StreamNotFound)) else Some(Done)
  {
    hide Reply, Broadcast, Answer, Offers, OnlyTouches, DropToken, Release, Radio.Stop;
    ErrorsAnswer(w, s);
    var t, w1 := w.sessions[s], DropToken(w, s);
    var w2 := w1.(radio := if t.phase == Streaming then Radio.Stop(w1.radio) else w1.radio,
                  sessions := w1.sessions[s := w1.sessions[s].(streamOpen := false, phase := Idle, streamId := 0)]);
    DropSilent(w, s);
    ReleaseSilent(w2, s);
    Replied(w, Release(w2, s), s, Done);
    Behind(w, Reply(Release(w2, s), s, Done), s, -1, StreamState(false));
  }

  lemma CloseFair(w: World, s: nat, id: StreamRef, env: Env)
    requires WellSized(w) && s < MAX_SESSIONS && Past(w, s, CloseStream(id))
    ensures Fair(w, s, CloseStream(id), env, Answer(w, s, DoCloseStream(w, s, id)))
  {
    hide DoCloseStream, Answer, OnlyTouches;
    CloseAnswers(w, s, id);
  }

  lemma DropSilent(w: World, s: nat)
    requires WellSized(w) && s < MAX_SESSIONS
    ensures DropToken(w, s).logs == w.logs
  {
  }

  lemma EntryFair(w: World, s: nat, problem: Arg<Code>, claim: Arg<AuthMachine.Claim>, env: Env)
    requires WellSized(w) && s < MAX_SESSIONS
    ensures Past(w, s, Hello(problem)) ==>
              Fair(w, s, Hello(problem), env, Answer(w, s, DoHello(w, s, problem, env)))
    ensures Past(w, s, Authenticate(claim)) ==>
              Fair(w, s, Authenticate(claim), env, Answer(w, s, DoAuthenticate(w, s, claim, env)))
  {
    hide Answer, Offers, OnlyTouches, Passed, Attempted, Reply;
    ErrorsAnswer(w, s);
    var h := DoHello(w, s, problem, env).(logs := w.logs);
    Replied(w, h, s, Done);
    if claim.Value? {
      var a := Attempted(w, s, claim.value, env);
      Replied(w, a, s, Done);
      Replied(w, a, s, Error(AuthFailed));
    }
  }

  predicate Plain(q: Request) {
    || q.Garbage? || q.NotARequest? || q.UnknownRequest? || q.GetCapabilities? || q.Ping? || q.GetClockStatus?
    || q.GetStatus?
  }

  lemma PlainFair(w: World, s: nat, q: Request, env: Env)
    requires WellSized(w) && s < MAX_SESSIONS && Plain(q) && Past(w, s, q)
    ensures Fair(w, s, q, env, Answer(w, s, Dispatch(w, s, q, env)))
  {
    hide Reply, Answer, Offers, OnlyTouches, NextId;
    ErrorsAnswer(w, s);
    Replied(w, w, s, StatusIs(ViewOf(w.radio)));
    NoMessages(w, s);
  }

  lemma RefusedFair(w: World, s: nat, q: Request, env: Env)
    requires WellSized(w) && s < MAX_SESSIONS && !Past(w, s, q)
    ensures Fair(w, s, q, env, Answer(w, s, Handle(w, s, q, env)))
  {
    hide Reply, Answer, OnlyTouches, NextId, Dispatch;
    ErrorsAnswer(w, s);
  }

  lemma DispatchFair(w: World, s: nat, q: Request, env: Env)
    requires WellSized(w) && s < MAX_SESSIONS && Past(w, s, q)
    ensures Fair(w, s, q, env, Answer(w, s, Dispatch(w, s, q, env)))
  {
    hide Reply, Answer, OnlyTouches, NextId, DoHello, DoAuthenticate, DoSetFrequency, DoSetSampleRate, DoSetControl,
      DoGetControl, DoOpenStream, DoStartRx, DoStopRx, DoCloseStream, Fair, Past;
    match q
    case Hello(problem) => EntryFair(w, s, problem, Missing, env);
    case Authenticate(claim) => EntryFair(w, s, Missing, claim, env);
    case GetControl(to, name) => ReadFair(w, s, to, name, env);
    case SetFrequency(to, hz) => FrequencyFair(w, s, to, hz, env);
    case SetSampleRate(to, sps) => RateFair(w, s, to, sps, env);
    case SetControl(to, setting) => ControlFair(w, s, to, setting, env);
    case OpenStream(to, problem) => OpenFair(w, s, to, problem, env);
    case StartRx(id) => StartFair(w, s, id, env);
    case StopRx(id) => StopFair(w, s, id, env);
    case CloseStream(id) => CloseFair(w, s, id, env);
    case _ => PlainFair(w, s, q, env);
  }

  /** For every command in every state: an answer exactly if it is a request, acceptance exactly if its
      conditions hold, and in every refusal a code that is true. */
  lemma AnswersFairly(w: World, s: nat, q: Request, env: Env)
    requires WellSized(w) && s < MAX_SESSIONS
    ensures Fair(w, s, q, env, Answer(w, s, Handle(w, s, q, env)))
  {
    hide Reply, Answer, OnlyTouches, NextId, Dispatch, Fair;
    if Past(w, s, q) {
      DispatchFair(w, s, q, env);
    } else {
      RefusedFair(w, s, q, env);
    }
  }

  lemma NoMessages(w: World, s: nat)
    requires WellSized(w) && s < MAX_SESSIONS
    ensures Answer(w, s, w) == None
  {
  }
}
