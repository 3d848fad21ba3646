/** The control plane as one state machine: the session table and the exclusive rx owner, the VITA
    slot table, the radio, and the log of every message each client was sent.  A step is one
    connect, one command with its replies and events, one USB buffer, or one disconnect. */
module ControlPlane {
  import opened Basics
  import opened Bytes
  import Auth
  import AuthMachine
  import Radio
  import VitaSender

  const MAX_SESSIONS := 4

  // ---- State --------------------------------------------------------------------------

  datatype Phase = AwaitHello | Idle | StreamOpen | Streaming

  datatype Session = Session(
    live: bool, phase: Phase, ownsRx: bool, streamOpen: bool, streamId: u32, token: int,
    auth: AuthMachine.State)

  /** A slot cleared with memset. */
  const FREE_SESSION := Session(false, AwaitHello, false, false, 0, 0, AuthMachine.FRESH)

  const NEW_SESSION := Session(true, AwaitHello, false, false, 0, -1, AuthMachine.FRESH)

  /** Fixed when the daemon starts. */
  datatype Config = Config(contextEnabled: bool, rxAuth: bool, keys: seq<Auth.Key>, biasPersist: bool)

  /** The radio settings a client can follow. */
  datatype View = View(freq: nat, rateRequested: nat, rate: nat, gain: int, agc: bool, ppm: int, mode: Radio.Mode)

  /** The controls get_control knows, and what it says of one. */
  datatype Control = RfGainControl | AgcControl | BiasTeeControl | PpmControl | SamplingControl

  datatype Reading = GainIs(gain: int) | AgcIs(on: bool) | BiasIs(on: bool) | PpmIs(ppm: int) | ModeIs(mode: Radio.Mode)

  datatype Code =
    | InvalidRequest | MissingParameter | InvalidParameter | NotSupported | Unauthorized | AuthFailed
    | InUse | UnsupportedFrequency | UnsupportedSampleRate | ReconfigurationRequired | DeviceError
    | StreamAlreadyOpen | StreamNotFound | UnsupportedOffer | UnsupportedVersion | Busy | UnknownCommand

  /** What a connection is sent: responses first, then events. */
  datatype Message =
    | Done
    | Error(code: Code)
    | StatusIs(view: View)
    | ControlIs(reading: Reading)
    | Opened(rate: nat, mode: Radio.Mode)
    | FrequencyChanged(freq: nat)
    | SampleRateChanged(requested: nat, actual: nat)
    | GainChanged(gain: int)
    | AgcChanged(on: bool)
    | BiasChanged(on: bool)
    | PpmChanged(ppm: int)
    | ModeChanged(mode: Radio.Mode)
    | ControlRevoked(free: bool)
    | StreamState(on: bool)
    | CapabilitiesChanged

  datatype World = World(
    cfg: Config, sessions: seq<Session>, owner: int, counter: u32,
    slots: seq<VitaSender.Slot>, radio: Radio.State, logs: seq<seq<Message>>,
    issued: set<AuthMachine.Nonce>, judged: seq<AuthMachine.Nonce>, clock: nat)

  predicate WellSized(w: World) {
    |w.sessions| == MAX_SESSIONS && |w.logs| == MAX_SESSIONS && |w.slots| == VitaSender.MAX_SLOTS
  }

  function ViewOf(r: Radio.State): View {
    View(r.freq, r.rateRequested, r.rate, r.gain, r.agc, r.ppm, r.mode)
  }

  // ---- Requests -----------------------------------------------------------------------

  /** How a command's params address a function block; a channel may be named too. */
  datatype Address = NoParams | NoFunction | OtherFunction | Rx(channel: bool)

  datatype Arg<T> = Missing | WrongType | Value(value: T)

  datatype Setting =
    | NoSetting
    | RfGain(onList: Arg<bool>)
    | Agc(on: Arg<bool>)
    | BiasTee(volts: Arg<real>)
    | Ppm(ppm: Arg<int>)
    | DirectSampling(to: Arg<Arg<Radio.Mode>>)
    | UnknownControl

  /** `NoId` when the parameter is missing, `OtherId` for a text no stream ever had. */
  datatype StreamRef = NoId | OtherId | Id(n: nat)

  /** `Garbage` has no usable envelope; a message that is not a request goes unanswered. */
  datatype Request =
    | Garbage
    | NotARequest
    | UnknownRequest
    | Hello(problem: Arg<Code>)
    | Authenticate(claim: Arg<AuthMachine.Claim>)
    | GetCapabilities
    | Ping
    | GetClockStatus
    | GetStatus
    | GetControl(to: Address, name: Arg<Option<Control>>)
    | SetFrequency(to: Address, hz: Arg<nat>)
    | SetSampleRate(to: Address, sps: Arg<nat>)
    | SetControl(to: Address, setting: Setting)
    | OpenStream(to: Address, problem: Arg<Code>)
    | StartRx(id: StreamRef)
    | StopRx(id: StreamRef)
    | CloseStream(id: StreamRef)

  /** What the hardware, the clock and the random source answer during one step. */
  datatype Env = Env(
    freqApplied: nat, rateApplied: nat, gainApplied: int,
    biasOk: bool, ppmOk: bool, modeOk: bool, threadOk: bool,
    nonce: Option<AuthMachine.Nonce>, now: nat, epoch: nat)

  datatype Step =
    | Connect
    | Command(s: nat, request: Request, env: Env)
    | Disconnect(s: nat, biasOk: bool)
    | Usb(buf: seq<u8>)

  // ---- Messages -----------------------------------------------------------------------

  datatype Offer = NoOffer | Offered(rate: nat, mode: Radio.Mode)

  /** The signal description a connection was last given by open_stream. */
  function LastOffer(log: seq<Message>): Offer {
    if log == [] then NoOffer
    else
      var m := log[|log| - 1];
      if m.Opened? then Offered(m.rate, m.mode) else LastOffer(log[..|log| - 1])
  }

  function Offers(logs: seq<seq<Message>>): (r: seq<Offer>)
    ensures |r| == |logs|
  {
    seq(|logs|, i requires 0 <= i < |logs| => LastOffer(logs[i]))
  }

  datatype Ask = NoAsk | Asked(rate: nat)

  /** The requested rate a connection was last told, by get_status or by an event. */
  function LastAsk(log: seq<Message>): Ask {
    if log == [] then NoAsk
    else
      var m := log[|log| - 1];
      if m.StatusIs? then Asked(m.view.rateRequested)
      else if m.SampleRateChanged? then Asked(m.requested)
      else LastAsk(log[..|log| - 1])
  }

  function Asks(logs: seq<seq<Message>>): (r: seq<Ask>)
    ensures |r| == |logs|
  {
    seq(|logs|, i requires 0 <= i < |logs| => LastAsk(logs[i]))
  }

  predicate AboutRate(m: Message) { m.StatusIs? || m.SampleRateChanged? }

  lemma MessageKept(log: seq<Message>, m: Message)
    ensures !m.Opened? ==> LastOffer(log + [m]) == LastOffer(log)
    ensures !AboutRate(m) ==> LastAsk(log + [m]) == LastAsk(log)
  {
    assert (log + [m])[..|log|] == log;
  }

  lemma MessagesKept(logs: seq<seq<Message>>, m: Message)
    ensures !m.Opened? ==> forall i :: 0 <= i < |logs| ==> LastOffer(logs[i] + [m]) == LastOffer(logs[i])
    ensures !AboutRate(m) ==> forall i :: 0 <= i < |logs| ==> LastAsk(logs[i] + [m]) == LastAsk(logs[i])
  {
    hide LastOffer, LastAsk;
    forall i | 0 <= i < |logs|
      ensures !m.Opened? ==> LastOffer(logs[i] + [m]) == LastOffer(logs[i])
      ensures !AboutRate(m) ==> LastAsk(logs[i] + [m]) == LastAsk(logs[i])
    {
      MessageKept(logs[i], m);
    }
  }

  function Reply(w: World, s: nat, m: Message): (r: World)
    requires WellSized(w) && s < MAX_SESSIONS
    ensures WellSized(r) && r == w.(logs := r.logs)
    ensures !m.Opened? ==> Offers(r.logs) == Offers(w.logs)
    ensures !AboutRate(m) ==> Asks(r.logs) == Asks(w.logs)
  {
    MessageKept(w.logs[s], m);
    w.(logs := w.logs[s := w.logs[s] + [m]])
  }

  /** An event goes to every connection past hello, except `skip`. */
  predicate Hears(w: World, i: nat, skip: int)
    requires WellSized(w) && i < MAX_SESSIONS
  {
    w.sessions[i].live && i != skip && w.sessions[i].phase != AwaitHello
  }

  function Broadcast(w: World, skip: int, m: Message): (r: World)
    requires WellSized(w)
    ensures WellSized(r) && r == w.(logs := r.logs)
    ensures !m.Opened? ==> Offers(r.logs) == Offers(w.logs)
    ensures !AboutRate(m) ==> Asks(r.logs) == Asks(w.logs)
  {
    MessagesKept(w.logs, m);
    w.(logs := seq(MAX_SESSIONS, i requires 0 <= i < MAX_SESSIONS =>
                     if Hears(w, i, skip) then w.logs[i] + [m] else w.logs[i]))
  }

  // ---- Ownership ----------------------------------------------------------------------

  predicate MayClaim(w: World, s: nat) { w.owner == -1 || w.owner == s }

  function Claim(w: World, s: nat): (r: World)
    requires WellSized(w) && s < MAX_SESSIONS
    ensures WellSized(r) && r.cfg == w.cfg
  {
    if MayClaim(w, s) then w.(owner := s, sessions := w.sessions[s := w.sessions[s].(ownsRx := true)]) else w
  }

  function Release(w: World, s: nat): (r: World)
    requires WellSized(w) && s < MAX_SESSIONS
    ensures WellSized(r) && r.cfg == w.cfg && r.counter == w.counter
  {
    var w1 := w.(owner := if w.owner == s then -1 else w.owner,
                 sessions := w.sessions[s := w.sessions[s].(ownsRx := false)]);
    if w.owner == s then Broadcast(w1, s, ControlRevoked(true)) else w1
  }

  predicate OwnedByOther(w: World, s: nat) { w.owner != -1 && w.owner != s }

  // ---- Gates --------------------------------------------------------------------------

  /** cmd_addresses_rx. */
  predicate AddressesRx(r: Request) {
    match r
    case StartRx(_) => true
    case StopRx(_) => true
    case CloseStream(_) => true
    case SetFrequency(to, _) => to.Rx?
    case SetSampleRate(to, _) => to.Rx?
    case SetControl(to, _) => to.Rx?
    case OpenStream(to, _) => to.Rx?
    case _ => false
  }

  /** require_function and channel_ok. */
  function AddressProblem(to: Address): Arg<Code> {
    match to
    case NoParams => Value(MissingParameter)
    case NoFunction => Value(MissingParameter)
    case OtherFunction => Value(NotSupported)
    case Rx(channel) => if channel then Value(InvalidParameter) else Missing
  }

  // ---- Command handlers ---------------------------------------------------------------

  /** A command changes no other connection's record. */
  predicate OnlyTouches(w: World, s: nat, r: World) {
    && s < |w.sessions| == |r.sessions|
    && r.sessions == w.sessions[s := r.sessions[s]] && r.sessions[s].live == w.sessions[s].live
    && (w.sessions[s].phase != AwaitHello ==> r.sessions[s].phase != AwaitHello)
  }

  function DoHello(w: World, s: nat, problem: Arg<Code>, env: Env): (r: World)
    requires WellSized(w) && s < MAX_SESSIONS
    ensures WellSized(r) && r.cfg == w.cfg && OnlyTouches(w, s, r) && r.counter == w.counter
  {
    if problem.Value? then Reply(w, s, Error(problem.value))
    else
      var t := w.sessions[s].(phase := Idle);
      if !w.cfg.rxAuth then Reply(w.(sessions := w.sessions[s := t]), s, Done)
      else
        var a := AuthMachine.Challenge(t.auth, env.nonce);
        Reply(Issue(w.(sessions := w.sessions[s := t.(auth := a)]), env.nonce), s, Done)
  }

  function Issue(w: World, nonce: Option<AuthMachine.Nonce>): (r: World)
    ensures WellSized(w) ==> WellSized(r)
    ensures r.cfg == w.cfg
  {
    if nonce.Some? then w.(issued := w.issued + {nonce.value}) else w
  }

  /** The attempt is counted and the MAC judged; a failure is answered with a new challenge. */
  ghost function Attempted(w: World, s: nat, claim: AuthMachine.Claim, env: Env): (r: World)
    requires WellSized(w) && s < MAX_SESSIONS
    ensures WellSized(r) && r == w.(sessions := r.sessions, judged := r.judged, issued := r.issued)
    ensures r.sessions == w.sessions[s := w.sessions[s].(auth := r.sessions[s].auth)]
  {
    var a := w.sessions[s].auth;
    var a' := AuthMachine.Attempt(a, w.cfg.keys, claim, env.now, env.nonce);
    var w1 := w.(sessions := w.sessions[s := w.sessions[s].(auth := a')],
                 judged := if AuthMachine.Judges(a, w.cfg.keys, claim) then w.judged + [a.nonce] else w.judged);
    if Passed(w, s, claim, env) then w1 else Issue(w1, env.nonce)
  }

  ghost predicate Passed(w: World, s: nat, claim: AuthMachine.Claim, env: Env)
    requires s < |w.sessions|
  {
    AuthMachine.Passes(AuthMachine.Roll(w.sessions[s].auth, env.now), w.cfg.keys, claim)
  }

  ghost function DoAuthenticate(w: World, s: nat, claim: Arg<AuthMachine.Claim>, env: Env): (r: World)
    requires WellSized(w) && s < MAX_SESSIONS
    ensures WellSized(r) && r.cfg == w.cfg && OnlyTouches(w, s, r) && r.counter == w.counter
  {
    if !w.cfg.rxAuth then Reply(w, s, Done)
    else if !claim.Value? then Reply(w, s, Error(MissingParameter))
    else Reply(Attempted(w, s, claim.value, env), s, if Passed(w, s, claim.value, env) then Done else Error(AuthFailed))
  }

  function DoSetFrequency(w: World, s: nat, to: Address, hz: Arg<nat>, env: Env): (r: World)
    requires WellSized(w) && s < MAX_SESSIONS
    ensures WellSized(r) && r.cfg == w.cfg && OnlyTouches(w, s, r) && r.counter == w.counter
  {
    var p := AddressProblem(to);
    if p.Value? then Reply(w, s, Error(p.value))
    else if OwnedByOther(w, s) then Reply(w, s, Error(InUse))
    else if !hz.Value? then Reply(w, s, Error(MissingParameter))
    else if hz.value < 1 then Reply(w, s, Error(InvalidParameter))
    else if !Radio.InBand(w.radio.mode, hz.value) then Reply(w, s, Error(UnsupportedFrequency))
    else
      var w1 := w.(radio := Radio.SetFrequency(w.radio, env.freqApplied));
      if env.freqApplied == 0 then Reply(w1, s, Error(DeviceError))
      else Broadcast(Reply(w1, s, Done), -1, FrequencyChanged(env.freqApplied))
  }

  function DoSetSampleRate(w: World, s: nat, to: Address, sps: Arg<nat>, env: Env): (r: World)
    requires WellSized(w) && s < MAX_SESSIONS
    ensures WellSized(r) && r.cfg == w.cfg && OnlyTouches(w, s, r) && r.counter == w.counter
  {
    var p := AddressProblem(to);
    if p.Value? then Reply(w, s, Error(p.value))
    else if OwnedByOther(w, s) then Reply(w, s, Error(InUse))
    else if w.sessions[s].phase == Streaming || w.sessions[s].phase == StreamOpen then
      Reply(w, s, Error(ReconfigurationRequired))
    else if !sps.Value? then Reply(w, s, Error(MissingParameter))
    else if sps.value !in Radio.Rates(w.radio.mode) then Reply(w, s, Error(UnsupportedSampleRate))
    else
      var w1 := w.(radio := Radio.SetSampleRate(w.radio, sps.value, env.rateApplied));
      if env.rateApplied == 0 then Reply(w1, s, Error(DeviceError))
      else Broadcast(Reply(w1, s, Done), -1, SampleRateChanged(sps.value, env.rateApplied))
  }

  function SendContexts(w: World): (r: World)
    ensures WellSized(w) ==> WellSized(r)
    ensures r == w.(slots := r.slots)
  {
    w.(slots := VitaSender.ContextAll(w.slots, w.cfg.contextEnabled, w.radio.gain, Radio.Format(w.radio.mode)))
  }

  /** A frequency outside the new mode's band is clamped into it. */
  function Retune(w: World, env: Env): (r: World)
    requires WellSized(w)
    ensures WellSized(r) && r == w.(radio := r.radio, logs := r.logs)
  {
    if Radio.InBand(w.radio.mode, w.radio.freq) || env.freqApplied == 0 then w
    else Broadcast(w.(radio := Radio.SetFrequency(w.radio, env.freqApplied)), -1, FrequencyChanged(env.freqApplied))
  }

  /** A rate the new mode does not list is replaced by its preferred rate. */
  function Rerate(w: World, env: Env): (r: World)
    requires WellSized(w)
    ensures WellSized(r) && r == w.(radio := r.radio, logs := r.logs)
  {
    if w.radio.rateRequested in Radio.Rates(w.radio.mode) then w
    else
      var want := Radio.PreferredRate(w.radio.mode);
      var v := w.(radio := Radio.SetSampleRate(w.radio, want, env.rateApplied));
      if env.rateApplied == 0 then v else Broadcast(v, -1, SampleRateChanged(want, env.rateApplied))
  }

  /** apply_mode_change_side_effects. */
  function ModeSideEffects(w: World, env: Env): (r: World)
    requires WellSized(w)
    ensures WellSized(r) && r == w.(slots := r.slots, radio := r.radio, logs := r.logs)
  {
    var v := Rerate(Retune(w, env), env);
    SendContexts(v.(slots := VitaSender.SetFormat(v.slots, Radio.Format(v.radio.mode))))
  }

  function DoDirectSampling(w: World, s: nat, mode: Radio.Mode, env: Env): (r: World)
    requires WellSized(w) && s < MAX_SESSIONS
    ensures WellSized(r) && r.cfg == w.cfg && OnlyTouches(w, s, r) && r.counter == w.counter
  {
    if mode == w.radio.mode then Reply(w, s, Done)
    else if w.sessions[s].streamOpen then Reply(w, s, Error(ReconfigurationRequired))
    else if !env.modeOk then Reply(w, s, Error(DeviceError))
    else
      var w1 := Broadcast(Reply(w.(radio := w.radio.(mode := mode)), s, Done), -1, ModeChanged(mode));
      Broadcast(ModeSideEffects(w1, env), -1, CapabilitiesChanged)
  }

  function DoSetting(w: World, s: nat, setting: Setting, env: Env): (r: World)
    requires WellSized(w) && s < MAX_SESSIONS
    ensures WellSized(r) && r.cfg == w.cfg && OnlyTouches(w, s, r) && r.counter == w.counter
  {
    match setting
    case NoSetting => Reply(w, s, Error(MissingParameter))
    case UnknownControl => Reply(w, s, Error(NotSupported))
    case RfGain(onList) =>
      if !onList.Value? then Reply(w, s, Error(InvalidParameter))
      else if w.radio.agc then Reply(w, s, Done)
      else if !onList.value then Reply(w, s, Error(InvalidParameter))
      else
        var w1 := Reply(w.(radio := w.radio.(gain := env.gainApplied)), s, Done);
        Broadcast(SendContexts(w1), -1, GainChanged(env.gainApplied))
    case Agc(on) =>
      if !on.Value? then Reply(w, s, Error(InvalidParameter))
      else
        var w1 := Reply(w.(radio := w.radio.(agc := on.value)), s, Done);
        Broadcast(SendContexts(w1), -1, AgcChanged(on.value))
    case BiasTee(volts) =>
      if !volts.Value? || (volts.value != 0.0 && volts.value != 5.0) then Reply(w, s, Error(InvalidParameter))
      else if !env.biasOk then Reply(w, s, Error(NotSupported))
      else
        var on := volts.value > 0.0;
        Broadcast(Reply(w.(radio := w.radio.(bias := on)), s, Done), -1, BiasChanged(on))
    case Ppm(ppm) =>
      if !ppm.Value? || ppm.value < -100 || ppm.value > 100 then Reply(w, s, Error(InvalidParameter))
      else
        var w1 := if env.ppmOk then w.(radio := w.radio.(ppm := ppm.value)) else w;
        Broadcast(Reply(w1, s, Done), -1, PpmChanged(w1.radio.ppm))
    case DirectSampling(to) =>
      if !to.Value? || !to.value.Value? then Reply(w, s, Error(InvalidParameter))
      else DoDirectSampling(w, s, to.value.value, env)
  }

  function DoSetControl(w: World, s: nat, to: Address, setting: Setting, env: Env): (r: World)
    requires WellSized(w) && s < MAX_SESSIONS
    ensures WellSized(r) && r.cfg == w.cfg && OnlyTouches(w, s, r) && r.counter == w.counter
  {
    var p := AddressProblem(to);
    if p.Value? then Reply(w, s, Error(p.value))
    else if OwnedByOther(w, s) then Reply(w, s, Error(InUse))
    else DoSetting(w, s, setting, env)
  }

  function Read(r: Radio.State, c: Control): Reading {
    match c
    case RfGainControl => GainIs(r.gain)
    case AgcControl => AgcIs(r.agc)
    case BiasTeeControl => BiasIs(r.bias)
    case PpmControl => PpmIs(r.ppm)
    case SamplingControl => ModeIs(r.mode)
  }

  /** `None` for a name that is not a control. */
  function DoGetControl(w: World, s: nat, to: Address, name: Arg<Option<Control>>): (r: World)
    requires WellSized(w) && s < MAX_SESSIONS
    ensures WellSized(r) && r.cfg == w.cfg && OnlyTouches(w, s, r) && r.counter == w.counter
  {
    var p := AddressProblem(to);
    if p.Value? then Reply(w, s, Error(p.value))
    else if !name.Value? then Reply(w, s, Error(MissingParameter))
    else if name.value.None? then Reply(w, s, Error(NotSupported))
    else Reply(w, s, ControlIs(Read(w.radio, name.value.value)))
  }

  /** alloc_stream_id: a 32-bit counter. */
  function NextId(c: u32): u32 { (c + 1) % TWO_32 }

  function DoOpenStream(w: World, s: nat, to: Address, problem: Arg<Code>): (r: World)
    requires WellSized(w) && s < MAX_SESSIONS
    ensures WellSized(r) && r.cfg == w.cfg && OnlyTouches(w, s, r)
    ensures r.counter == w.counter || r.counter == NextId(w.counter)
  {
    var p := AddressProblem(to);
    if p.Value? then Reply(w, s, Error(p.value))
    else if w.sessions[s].streamOpen then Reply(w, s, Error(StreamAlreadyOpen))
    else if !MayClaim(w, s) then Reply(w, s, Error(InUse))
    else
      var w1 := Claim(w, s);
      if problem.Value? then Reply(Release(w1, s), s, Error(problem.value))
      else
        var n := NextId(w1.counter);
        var t := w1.sessions[s].(streamOpen := true, phase := StreamOpen, streamId := n);
        var w2 := w1.(counter := n, sessions := w1.sessions[s := t]);
        Broadcast(Reply(w2, s, Opened(w2.radio.rate, w2.radio.mode)), s, ControlRevoked(false))
  }

  predicate Names(t: Session, id: StreamRef) {
    t.streamOpen && id.Id? && id.n == t.streamId
  }

  function DoStartRx(w: World, s: nat, id: StreamRef, env: Env): (r: World)
    requires WellSized(w) && s < MAX_SESSIONS
    ensures WellSized(r) && r.cfg == w.cfg && OnlyTouches(w, s, r) && r.counter == w.counter
  {
    var t := w.sessions[s];
    if id.NoId? then Reply(w, s, Error(MissingParameter))
    else if !Names(t, id) then Reply(w, s, Error(StreamNotFound))
    else if t.phase == Streaming then Reply(w, s, Done)
    else
      var token := VitaSender.Free(w.slots);
      var w1 := w.(slots := VitaSender.Add(w.slots, w.cfg.contextEnabled, t.streamId, Radio.Format(w.radio.mode),
                                           w.radio.gain, env.epoch, w.radio.rate),
                   sessions := w.sessions[s := t.(token := token)]);
      if token < 0 then Reply(w1, s, Error(Busy))
      else if !Radio.Starts(w.radio, env.threadOk) then
        Reply(w1.(slots := VitaSender.Remove(w1.slots, token), sessions := w1.sessions[s := t.(token := -1)],
                  radio := Radio.Start(w.radio, env.threadOk)), s, Error(DeviceError))
      else
        var w2 := w1.(sessions := w1.sessions[s := t.(token := token, phase := Streaming)],
                      radio := Radio.Start(w.radio, env.threadOk));
        Reply(Reply(w2, s, Done), s, StreamState(true))
  }

  /** Remove the held VITA slot, if any. */
  function DropToken(w: World, s: nat): (r: World)
    requires WellSized(w) && s < MAX_SESSIONS
    ensures WellSized(r) && r.cfg == w.cfg && OnlyTouches(w, s, r) && r.counter == w.counter
  {
    var t := w.sessions[s];
    if t.token < 0 then w
    else w.(slots := VitaSender.Remove(w.slots, t.token), sessions := w.sessions[s := t.(token := -1)])
  }

  function DoStopRx(w: World, s: nat, id: StreamRef): (r: World)
    requires WellSized(w) && s < MAX_SESSIONS
    ensures WellSized(r) && r.cfg == w.cfg && OnlyTouches(w, s, r) && r.counter == w.counter
  {
    var t := w.sessions[s];
    if id.NoId? then Reply(w, s, Error(MissingParameter))
    else if !Names(t, id) then Reply(w, s, Error(StreamNotFound))
    else if t.phase != Streaming then Reply(w, s, Done)
    else
      var w1 := DropToken(w, s);
      var w2 := w1.(radio := Radio.Stop(w1.radio), sessions := w1.sessions[s := w1.sessions[s].(phase := StreamOpen)]);
      Reply(Reply(w2, s, Done), s, StreamState(false))
  }

  function DoCloseStream(w: World, s: nat, id: StreamRef): (r: World)
    requires WellSized(w) && s < MAX_SESSIONS
    ensures WellSized(r) && r.cfg == w.cfg && OnlyTouches(w, s, r) && r.counter == w.counter
  {
    var t := w.sessions[s];
    if id.NoId? then Reply(w, s, Error(MissingParameter))
    else if !Names(t, id) then Reply(w, s, Error(StreamNotFound))
    else
      var w1 := DropToken(w, s);
      var was := t.phase == Streaming;
      var w2 := w1.(radio := if was then Radio.Stop(w1.radio) else w1.radio,
                    sessions := w1.sessions[s := w1.sessions[s].(streamOpen := false, phase := Idle, streamId := 0)]);
      var w3 := Reply(Release(w2, s), s, Done);
      if was then Reply(w3, s, StreamState(false)) else w3
  }

  // ---- Connections --------------------------------------------------------------------

  function FirstFree(ss: seq<Session>): (i: int)
    ensures -1 <= i < |ss|
    ensures i >= 0 ==> !ss[i].live && forall j :: 0 <= j < i ==> ss[j].live
    ensures i == -1 <==> forall j :: 0 <= j < |ss| ==> ss[j].live
  {
    if ss == [] then -1
    else
      var i := FirstFree(ss[..|ss| - 1]);
      if i >= 0 then i else if !ss[|ss| - 1].live then |ss| - 1 else -1
  }

  /** session_create; a connection the table has no room for is turned away. */
  function DoConnect(w: World): (r: World)
    requires WellSized(w)
    ensures WellSized(r) && r.cfg == w.cfg
  {
    var i := FirstFree(w.sessions);
    if i < 0 then w else w.(sessions := w.sessions[i := NEW_SESSION], logs := w.logs[i := []])
  }

  /** session_destroy. */
  function DoDestroy(w: World, s: nat, biasOk: bool): (r: World)
    requires WellSized(w) && s < MAX_SESSIONS
    ensures WellSized(r) && r.cfg == w.cfg && r.counter == w.counter
    ensures r.sessions == w.sessions[s := FREE_SESSION]
  {
    var w1 := DropToken(w, s);
    var w2 := if w.sessions[s].phase == Streaming
              then Broadcast(w1.(radio := Radio.Stop(w1.radio)), s, StreamState(false)) else w1;
    var w3 := Release(w2, s);
    var w4 := if w3.radio.bias && !w3.cfg.biasPersist && biasOk then w3.(radio := w3.radio.(bias := false)) else w3;
    w4.(sessions := w4.sessions[s := FREE_SESSION], logs := w4.logs[s := []])
  }

  // ---- One step -----------------------------------------------------------------------

  ghost function Dispatch(w: World, s: nat, q: Request, env: Env): (r: World)
    requires WellSized(w) && s < MAX_SESSIONS
    ensures WellSized(r) && r.cfg == w.cfg && OnlyTouches(w, s, r)
    ensures r.counter == w.counter || r.counter == NextId(w.counter)
  {
    hide Reply, DoHello, DoAuthenticate, DoGetControl, DoSetFrequency, DoSetSampleRate, DoSetControl, DoOpenStream,
      DoStartRx, DoStopRx, DoCloseStream, NextId;
    match q
    case Garbage => Reply(w, s, Error(InvalidRequest))
    case NotARequest => w
    case UnknownRequest => Reply(w, s, Error(UnknownCommand))
    case Hello(problem) => DoHello(w, s, problem, env)
    case Authenticate(claim) => DoAuthenticate(w, s, claim, env)
    case GetCapabilities => Reply(w, s, Done)
    case Ping => Reply(w, s, Done)
    case GetClockStatus => Reply(w, s, Done)
    case GetStatus => Reply(w, s, StatusIs(ViewOf(w.radio)))
    case GetControl(to, name) => DoGetControl(w, s, to, name)
    case SetFrequency(to, hz) => DoSetFrequency(w, s, to, hz, env)
    case SetSampleRate(to, sps) => DoSetSampleRate(w, s, to, sps, env)
    case SetControl(to, setting) => DoSetControl(w, s, to, setting, env)
    case OpenStream(to, problem) => DoOpenStream(w, s, to, problem)
    case StartRx(id) => DoStartRx(w, s, id, env)
    case StopRx(id) => DoStopRx(w, s, id)
    case CloseStream(id) => DoCloseStream(w, s, id)
  }

  /** The hello-first rule. */
  predicate TooEarly(t: Session, r: Request) {
    t.phase == AwaitHello && !r.Hello? && !r.Garbage? && !r.NotARequest?
  }

  /** The authentication gate. */
  predicate Locked(cfg: Config, t: Session, r: Request) {
    cfg.rxAuth && !t.auth.unlocked && AddressesRx(r)
  }

  ghost function Handle(w: World, s: nat, q: Request, env: Env): (r: World)
    requires WellSized(w) && s < MAX_SESSIONS
    ensures WellSized(r) && r.cfg == w.cfg && OnlyTouches(w, s, r)
    ensures r.counter == w.counter || r.counter == NextId(w.counter)
  {
    hide Reply, Dispatch, NextId;
    if TooEarly(w.sessions[s], q) then Reply(w, s, Error(InvalidRequest))
    else if Locked(w.cfg, w.sessions[s], q) then Reply(w, s, Error(Unauthorized))
    else Dispatch(w, s, q, env)
  }

  ghost predicate Possible(w: World, e: Step) {
    match e
    case Connect => true
    case Usb(_) => true
    case Disconnect(s, _) => s < MAX_SESSIONS && s < |w.sessions| && w.sessions[s].live
    case Command(s, _, env) =>
      s < MAX_SESSIONS && s < |w.sessions| && w.sessions[s].live
  }

  ghost function Next(w: World, e: Step): (r: World)
    requires WellSized(w) && Possible(w, e)
    ensures WellSized(r) && r.cfg == w.cfg
  {
    match e
    case Connect => DoConnect(w)
    case Disconnect(s, biasOk) => DoDestroy(w, s, biasOk)
    case Usb(buf) =>
      if w.radio.running
      then w.(slots := VitaSender.Callback(w.slots, buf, w.radio.gain, Radio.Format(w.radio.mode))) else w
    case Command(s, q, env) =>
      var w1 := Handle(w, s, q, env).(clock := env.now);
      if w1.sessions[s].auth.closing then DoDestroy(w1, s, env.biasOk) else w1
  }

  /** What rtl_bridge_init and an empty table give. */
  ghost predicate Initial(w: World) {
    && WellSized(w) && w.owner == -1 && w.counter == 0
    && (forall i :: 0 <= i < MAX_SESSIONS ==> w.sessions[i] == FREE_SESSION && w.logs[i] == [])
    && (forall i :: 0 <= i < VitaSender.MAX_SLOTS ==> w.slots[i] == VitaSender.FREE_SLOT)
    && Radio.JustBooted(w.radio)
    && w.issued == {} && w.judged == []
  }
}
