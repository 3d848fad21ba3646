/** Whose radio it is: a client without rx leaves the owner's alone, a refusal leaves everything as it was,
    and what a client that may set has set is what everybody reads. */
module ControlOwner {
  import opened Basics
  import opened ControlPlane
  import opened ControlInvariants
  import opened ControlReplies
  import opened ControlAuth
  import AuthMachine
  import ControlEvents
  import Radio
  import VitaSender

  // ---- Clients without rx -------------------------------------------------------------

  lemma BystanderHas(w: World, s: nat)
    requires Weak(w) && s < MAX_SESSIONS && OwnedByOther(w, s) && w.sessions[s].live
    ensures !w.sessions[s].streamOpen && w.sessions[s].token < 0
    ensures w.sessions[s].phase != Streaming && w.sessions[s].phase != StreamOpen
  {
    assert SessionOk(w.sessions[s], s == w.owner);
  }

  /** A stream command of a client without a stream is answered, and that is all. */
  lemma StreamlessTouches(w: World, s: nat, id: StreamRef, env: Env)
    requires WellSized(w) && s < MAX_SESSIONS && !w.sessions[s].streamOpen
    ensures Untouched(w, s, DoStartRx(w, s, id, env)) && Untouched(w, s, DoStopRx(w, s, id))
    ensures Untouched(w, s, DoCloseStream(w, s, id))
  {
    hide Offers, OnlyTouches;
  }

  lemma InUseTouches(w: World, s: nat, to: Address, env: Env)
    requires WellSized(w) && s < MAX_SESSIONS && OwnedByOther(w, s) && !w.sessions[s].streamOpen
    ensures forall n :: Untouched(w, s, DoSetFrequency(w, s, to, n, env))
    ensures forall n :: Untouched(w, s, DoSetSampleRate(w, s, to, n, env))
    ensures forall c :: Untouched(w, s, DoSetControl(w, s, to, c, env))
    ensures forall p :: Untouched(w, s, DoOpenStream(w, s, to, p))
  {
    hide Offers, OnlyTouches, DoSetting;
  }

  /** While another client holds rx, no command changes the radio, the slots, the owner, the ids, or
      what any other client has or is told. */
  lemma BystanderHandles(w: World, s: nat, q: Request, env: Env)
    requires Weak(w) && s < MAX_SESSIONS && w.sessions[s].live && OwnedByOther(w, s)
    ensures Untouched(w, s, Handle(w, s, q, env))
  {
    hide Weak, Offers, DoStartRx, DoStopRx, DoCloseStream, DoSetFrequency, DoSetSampleRate, DoSetControl, DoOpenStream,
      DoHello, DoAuthenticate, DoGetControl, OnlyTouches, NextId;
    BystanderHas(w, s);
    assert WellSized(w) by { WeakSized(w); }
    match q
    case Hello(problem) => EntryTouches(w, s, problem, Missing, env);
    case Authenticate(claim) => EntryTouches(w, s, Missing, claim, env);
    case GetControl(to, name) => ReadTouches(w, s, to, name);
    case SetFrequency(to, _) => InUseTouches(w, s, to, env);
    case SetSampleRate(to, _) => InUseTouches(w, s, to, env);
    case SetControl(to, _) => InUseTouches(w, s, to, env);
    case OpenStream(to, _) => InUseTouches(w, s, to, env);
    case StartRx(id) => StreamlessTouches(w, s, id, env);
    case StopRx(id) => StreamlessTouches(w, s, id, env);
    case CloseStream(id) => StreamlessTouches(w, s, id, env);
    case _ =>
  }

  lemma WeakSized(w: World)
    ensures Weak(w) ==> WellSized(w)
  {
  }

  /** As a step, its end included: nothing of the owner's changes, if and only if the client does not leave
      while the bias tee is on and falls with it; and then only that changes. */
  lemma BystanderChangesNothing(w: World, e: Step, s: nat)
    requires Weak(w) && NoneClosing(w) && Possible(w, e) && s < MAX_SESSIONS && OwnedByOther(w, s)
    requires (e.Command? && e.s == s) || (e.Disconnect? && e.s == s)
    ensures Untouched(w, s, Next(w, e)) <==> !(Ends(w, e, s) && BiasFalls(w, e))
    ensures Untouched(w.(radio := w.radio.(bias := Next(w, e).radio.bias)), s, Next(w, e))
  {
    hide Handle, DoDestroy, LastStraw, Weak;
    WeakSized(w);
    BystanderHas(w, s);
    match e
    case Disconnect(_, biasOk) =>
      QuietLeave(w, s, biasOk);
    case Command(_, q, env) =>
      BystanderHandles(w, s, q, env);
      ClosesIff(w, s, q, env);
      var w1 := Handle(w, s, q, env).(clock := env.now);
      if w1.sessions[s].auth.closing {
        ClosingOwnsNothing(w, s, q, env);
        QuietLeave(w1, s, env.biasOk);
      }
  }

  /** Over every run: each step of a client while another holds rx. */
  lemma BystanderRuns(ws: seq<World>, es: seq<Step>, n: nat, s: nat)
    requires Trace(ws, es) && n < |es| && s < MAX_SESSIONS && WellSized(ws[n]) && WellSized(ws[n + 1])
    requires (es[n].Command? && es[n].s == s) || (es[n].Disconnect? && es[n].s == s)
    requires OwnedByOther(ws[n], s)
    ensures Untouched(ws[n], s, ws[n + 1]) <==> !(Ends(ws[n], es[n], s) && BiasFalls(ws[n], es[n]))
    ensures Untouched(ws[n].(radio := ws[n].radio.(bias := ws[n + 1].radio.bias)), s, ws[n + 1])
  {
    hide Next, Possible, Initial, Weak, Ends, Untouched;
    AlwaysWeak(ws, es, n);
    assert Follows(ws[n], es[n], ws[n + 1]);
    BystanderChangesNothing(ws[n], es[n], s);
  }

  // ---- Refusals -----------------------------------------------------------------------

  /** The slots in use are the same, each as it was. */
  predicate SameUse(a: seq<VitaSender.Slot>, b: seq<VitaSender.Slot>) {
    |a| == |b| && forall k :: 0 <= k < |a| ==> a[k].active == b[k].active && (a[k].active ==> a[k] == b[k])
  }

  /** Owner, slots in use, ids and stream are as they were, and the radio too but for the requested rate. */
  predicate Harmless(w: World, s: nat, w': World)
    requires WellSized(w) && WellSized(w') && s < MAX_SESSIONS
  {
    && w'.owner == w.owner && w'.counter == w.counter && SameUse(w.slots, w'.slots)
    && w'.radio == w.radio.(rateRequested := w'.radio.rateRequested)
    && w'.sessions == w.sessions[s := w'.sessions[s]]
    && w'.sessions[s] == w.sessions[s].(auth := w'.sessions[s].auth, token := w'.sessions[s].token)
  }

  lemma UntouchedHarmless(w: World, s: nat, m: Message)
    requires WellSized(w) && s < MAX_SESSIONS
    ensures Harmless(w, s, Reply(w, s, m))
  {
    hide Reply;
  }

  lemma ErrorsHarmless(w: World, s: nat)
    requires WellSized(w) && s < MAX_SESSIONS
    ensures forall c :: Harmless(w, s, Reply(w, s, Error(c)))
  {
    hide Reply, Harmless;
    forall c
      ensures Harmless(w, s, Reply(w, s, Error(c)))
    {
      UntouchedHarmless(w, s, Error(c));
    }
  }

  predicate Refused(m: Option<Message>) { m.Some? && m.value.Error? }

  lemma TuneHarmless(w: World, s: nat, to: Address, n: Arg<nat>, env: Env)
    requires WellSized(w) && s < MAX_SESSIONS
    ensures Refused(Answer(w, s, DoSetFrequency(w, s, to, n, env))) ==> Harmless(w, s, DoSetFrequency(w, s, to, n, env))
    ensures Refused(Answer(w, s, DoSetSampleRate(w, s, to, n, env))) ==>
              Harmless(w, s, DoSetSampleRate(w, s, to, n, env))
  {
    hide Reply, Broadcast, Offers, Answer, OnlyTouches, Radio.Rates, Radio.InBand, SameUse;
    SameUseSelf(w.slots);
    if to == Rx(false) && !OwnedByOther(w, s) {
      FrequencyAnswers(w, s, n, env);
      RateAnswers(w, s, n, env);
    }
  }

  lemma SameUseSelf(slots: seq<VitaSender.Slot>)
    ensures SameUse(slots, slots)
  {
  }

  lemma SettingHarmless(w: World, s: nat, setting: Setting, env: Env)
    requires WellSized(w) && s < MAX_SESSIONS
    ensures Refused(Answer(w, s, DoSetting(w, s, setting, env))) ==> Harmless(w, s, DoSetting(w, s, setting, env))
  {
    hide Reply, Broadcast, Offers, Answer, OnlyTouches, Harmless, SendContexts, ModeSideEffects;
    ErrorsHarmless(w, s);
    SettingFair(w, s, setting, env);
    UntouchedHarmless(w, s, Done);
  }

  lemma OpenHarmless(w: World, s: nat, to: Address, problem: Arg<Code>)
    requires Weak(w) && s < MAX_SESSIONS
    ensures Refused(Answer(w, s, DoOpenStream(w, s, to, problem))) ==>
              Harmless(w, s, DoOpenStream(w, s, to, problem))
  {
    hide Reply, Broadcast, Offers, Answer, OnlyTouches, NextId, SameUse, Held;
    SameUseSelf(w.slots);
    assert SessionOk(w.sessions[s], s == w.owner);
    if to == Rx(false) && !w.sessions[s].streamOpen && MayClaim(w, s) {
      OpenAnswers(w, s, problem);
    }
  }

  lemma StartHarmless(w: World, s: nat, id: StreamRef, env: Env)
    requires WellSized(w) && s < MAX_SESSIONS && Radio.Counted(w.radio)
    ensures Refused(Answer(w, s, DoStartRx(w, s, id, env))) ==> Harmless(w, s, DoStartRx(w, s, id, env))
  {
    hide Reply, Offers, Answer, OnlyTouches, VitaSender.NewSlot, VitaSender.SendContext, Radio.Format;
    StartAnswers(w, s, id, env);
  }

  lemma StopHarmless(w: World, s: nat, id: StreamRef)
    requires WellSized(w) && s < MAX_SESSIONS
    ensures Refused(Answer(w, s, DoStopRx(w, s, id))) ==> Harmless(w, s, DoStopRx(w, s, id))
    ensures Refused(Answer(w, s, DoCloseStream(w, s, id))) ==> Harmless(w, s, DoCloseStream(w, s, id))
  {
    hide Reply, Broadcast, Offers, Answer, OnlyTouches, Harmless, DropToken, Release, Radio.Stop;
    ErrorsHarmless(w, s);
    StopAnswers(w, s, id);
    CloseAnswers(w, s, id);
  }

  lemma HelloHarmless(w: World, s: nat, problem: Arg<Code>, env: Env)
    requires WellSized(w) && s < MAX_SESSIONS
    ensures Refused(Answer(w, s, DoHello(w, s, problem, env))) ==> Harmless(w, s, DoHello(w, s, problem, env))
  {
    hide Reply, Offers, Answer, OnlyTouches, Harmless;
    if problem.Value? {
      UntouchedHarmless(w, s, Error(problem.value));
    } else {
      Replied(w, DoHello(w, s, problem, env).(logs := w.logs), s, Done);
    }
  }

  lemma AuthenticateHarmless(w: World, s: nat, claim: Arg<AuthMachine.Claim>, env: Env)
    requires WellSized(w) && s < MAX_SESSIONS
    ensures Harmless(w, s, DoAuthenticate(w, s, claim, env))
  {
    hide Reply, Offers, OnlyTouches, Attempted, Passed, SameUse;
    SameUseSelf(w.slots);
  }

  lemma ControlHarmless(w: World, s: nat, to: Address, setting: Setting, env: Env)
    requires WellSized(w) && s < MAX_SESSIONS
    ensures Refused(Answer(w, s, DoSetControl(w, s, to, setting, env))) ==>
              Harmless(w, s, DoSetControl(w, s, to, setting, env))
  {
    hide Reply, Answer, OnlyTouches, Harmless, DoSetting;
    ErrorsHarmless(w, s);
    SettingHarmless(w, s, setting, env);
  }

  lemma DispatchHarmless(w: World, s: nat, q: Request, env: Env)
    requires Weak(w) && s < MAX_SESSIONS && Refused(Answer(w, s, Dispatch(w, s, q, env)))
    ensures Harmless(w, s, Dispatch(w, s, q, env))
  {
    hide Weak, Reply, Answer, OnlyTouches, NextId, DoHello, DoAuthenticate, DoSetFrequency, DoSetSampleRate,
      DoSetControl, DoGetControl, DoOpenStream, DoStartRx, DoStopRx, DoCloseStream, Harmless;
    assert WellSized(w) && Radio.Counted(w.radio) by { WeakCounted(w); }
    ErrorsHarmless(w, s);
    match q
    case Hello(problem) => HelloHarmless(w, s, problem, env);
    case Authenticate(claim) => AuthenticateHarmless(w, s, claim, env);
    case GetControl(to, name) => ReadHarmless(w, s, to, name);
    case SetFrequency(to, hz) => TuneHarmless(w, s, to, hz, env);
    case SetSampleRate(to, sps) => TuneHarmless(w, s, to, sps, env);
    case SetControl(to, setting) => ControlHarmless(w, s, to, setting, env);
    case OpenStream(to, problem) => OpenHarmless(w, s, to, problem);
    case StartRx(id) => StartHarmless(w, s, id, env);
    case StopRx(id) => StopHarmless(w, s, id);
    case CloseStream(id) => StopHarmless(w, s, id);
    case _ => PlainHarmless(w, s);
  }

  lemma WeakCounted(w: World)
    ensures Weak(w) ==> WellSized(w) && Radio.Counted(w.radio)
  {
  }

  lemma ReadHarmless(w: World, s: nat, to: Address, name: Arg<Option<Control>>)
    requires WellSized(w) && s < MAX_SESSIONS
    ensures Harmless(w, s, DoGetControl(w, s, to, name))
  {
    hide Reply, OnlyTouches, SameUse;
    SameUseSelf(w.slots);
  }

  lemma PlainHarmless(w: World, s: nat)
    requires WellSized(w) && s < MAX_SESSIONS
    ensures Harmless(w, s, w) && Harmless(w, s, Reply(w, s, Done))
    ensures Harmless(w, s, Reply(w, s, StatusIs(ViewOf(w.radio))))
  {
    hide Reply, SameUse;
    SameUseSelf(w.slots);
  }

  /** A refused command, whatever it was, leaves owner, slots in use, ids, radio and stream as they were;
      only a sample rate the device refused stays requested. */
  lemma RefusalHarmless(w: World, s: nat, q: Request, env: Env)
    requires Weak(w) && s < MAX_SESSIONS && Refused(Answer(w, s, Handle(w, s, q, env)))
    ensures Harmless(w, s, Handle(w, s, q, env))
    ensures Handle(w, s, q, env).radio != w.radio ==> q.SetSampleRate? && env.rateApplied == 0
  {
    hide Weak, Reply, Answer, OnlyTouches, NextId, Dispatch, Harmless;
    WeakCounted(w);
    ErrorsHarmless(w, s);
    if !TooEarly(w.sessions[s], q) && !Locked(w.cfg, w.sessions[s], q) {
      DispatchHarmless(w, s, q, env);
    }
    RateOnly(w, s, q, env);
  }

  lemma RateOnly(w: World, s: nat, q: Request, env: Env)
    requires WellSized(w) && s < MAX_SESSIONS && Refused(Answer(w, s, Handle(w, s, q, env)))
    requires Harmless(w, s, Handle(w, s, q, env))
    ensures Handle(w, s, q, env).radio != w.radio ==> q.SetSampleRate? && env.rateApplied == 0
  {
    hide Answer, Handle, SameUse, Reason, Asks, Radio.Rates;
    ControlEvents.HandleAsks(w, Command(s, q, env));
    AnswersFairly(w, s, q, env);
  }

  // ---- What was set is what is read ---------------------------------------------------

  function ControlOf(setting: Setting): Control
    requires !setting.NoSetting? && !setting.UnknownControl?
  {
    match setting
    case RfGain(_) => RfGainControl
    case Agc(_) => AgcControl
    case BiasTee(_) => BiasTeeControl
    case Ppm(_) => PpmControl
    case DirectSampling(_) => SamplingControl
  }

  /** What a setting that is accepted puts in force: the value asked for; of a gain what the hardware made of
      it, unless AGC is on; of a ppm correction the old one if the hardware did not take it. */
  function InForce(w: World, s: nat, setting: Setting, env: Env): Reading
    requires WellSized(w) && s < MAX_SESSIONS && SettingAllowed(w, s, setting, env)
  {
    match setting
    case RfGain(_) => GainIs(if w.radio.agc then w.radio.gain else env.gainApplied)
    case Agc(on) => AgcIs(on.value)
    case BiasTee(volts) => BiasIs(volts.value == 5.0)
    case Ppm(ppm) => PpmIs(if env.ppmOk then ppm.value else w.radio.ppm)
    case DirectSampling(to) => ModeIs(to.value.value)
  }

  lemma ModeInForce(w: World, s: nat, mode: Radio.Mode, env: Env)
    requires WellSized(w) && s < MAX_SESSIONS
    requires mode == w.radio.mode || (!w.sessions[s].streamOpen && env.modeOk)
    ensures var r := DoDirectSampling(w, s, mode, env).radio;
            && r.mode == mode
            && r == w.radio.(mode := mode, freq := r.freq, rate := r.rate, rateRequested := r.rateRequested)
  {
    hide Reply, Broadcast, Offers, OnlyTouches, SendContexts, Radio.Rates, Radio.PreferredRate, VitaSender.SetFormat;
  }

  /** Every connection past hello that reads a control reads what was set, and every other control as it was. */
  lemma SetThenGet(w: World, s: nat, setting: Setting, env: Env, i: nat, c: Control)
    requires WellSized(w) && s < MAX_SESSIONS && i < MAX_SESSIONS
    requires MaySet(w, s, Rx(false)) && SettingAllowed(w, s, setting, env)
    ensures var w1 := DoSetControl(w, s, Rx(false), setting, env);
            Answer(w1, i, DoGetControl(w1, i, Rx(false), Value(Some(c)))) ==
              Some(ControlIs(if c == ControlOf(setting) then InForce(w, s, setting, env) else Read(w.radio, c)))
  {
    hide Reply, Broadcast, Offers, OnlyTouches, Answer, SendContexts, DoDirectSampling;
    var w1 := DoSetControl(w, s, Rx(false), setting, env);
    Replied(w1, w1, i, ControlIs(Read(w1.radio, c)));
    if setting.DirectSampling? {
      ModeInForce(w, s, setting.to.value.value, env);
    }
  }

  lemma SetStep(w: World, s: nat, setting: Setting, env: Env)
    requires WellSized(w) && NoneClosing(w) && s < MAX_SESSIONS && w.sessions[s].live
    requires w.sessions[s].phase != AwaitHello && Unlocked(w, s)
    ensures var q := SetControl(Rx(false), setting);
            && Next(w, Command(s, q, env)) == DoSetControl(w, s, Rx(false), setting, env).(clock := env.now)
            && Next(w, Command(s, q, env)).sessions == w.sessions
  {
    hide Dispatch, Next, DoSetControl;
    var q := SetControl(Rx(false), setting);
    DispatchIs(w, s, q, env);
    SetsOnly(w, s, setting, env);
    PlainNext(w, s, q, env, DoSetControl(w, s, Rx(false), setting, env));
  }

  lemma SetsOnly(w: World, s: nat, setting: Setting, env: Env)
    requires WellSized(w) && s < MAX_SESSIONS
    ensures var r := DoSetControl(w, s, Rx(false), setting, env);
            r.sessions == w.sessions && r.cfg == w.cfg
  {
    hide Reply, Broadcast, Offers, OnlyTouches, SendContexts, ModeSideEffects;
  }

  /** As two steps, of any two connections. */
  lemma SetThenGetSteps(w: World, s: nat, setting: Setting, env: Env, i: nat, c: Control, later: Env)
    requires WellSized(w) && NoneClosing(w) && s < MAX_SESSIONS && i < MAX_SESSIONS
    requires w.sessions[s].live && w.sessions[s].phase != AwaitHello
    requires w.sessions[i].live && w.sessions[i].phase != AwaitHello
    requires MaySet(w, s, Rx(false)) && SettingAllowed(w, s, setting, env)
    ensures var w1 := Next(w, Command(s, SetControl(Rx(false), setting), env));
            && Possible(w1, Command(i, GetControl(Rx(false), Value(Some(c))), later))
            && Answer(w1, i, Next(w1, Command(i, GetControl(Rx(false), Value(Some(c))), later))) ==
                 Some(ControlIs(if c == ControlOf(setting) then InForce(w, s, setting, env) else Read(w.radio, c)))
  {
    hide Next, Dispatch, DoSetControl, Answer, SettingAllowed, InForce, ControlOf, Read;
    SetStep(w, s, setting, env);
    SetThenGet(w, s, setting, env, i, c);
    var v := DoSetControl(w, s, Rx(false), setting, env);
    var w1 := v.(clock := env.now);
    var q := GetControl(Rx(false), Value(Some(c)));
    DispatchIs(w1, i, q, later);
    ReadOnly(v, w1, i, c, later.now);
    PlainNext(w1, i, q, later, DoGetControl(w1, i, Rx(false), Value(Some(c))));
  }

  lemma ReadOnly(v: World, w: World, i: nat, c: Control, now: nat)
    requires WellSized(v) && i < MAX_SESSIONS && w == v.(clock := w.clock)
    ensures WellSized(w)
    ensures var a, b := DoGetControl(v, i, Rx(false), Value(Some(c))), DoGetControl(w, i, Rx(false), Value(Some(c)));
            && b.sessions == w.sessions && Answer(w, i, b.(clock := now)) == Answer(v, i, a)
  {
    hide Offers, OnlyTouches;
  }

  /** And the status tells the frequency or the rates that were set, and all else as it was. */
  lemma SetThenStatus(w: World, s: nat, n: nat, env: Env)
    requires WellSized(w) && s < MAX_SESSIONS && MaySet(w, s, Rx(false))
    ensures n >= 1 && Radio.InBand(w.radio.mode, n) && env.freqApplied != 0 ==>
              ViewOf(DoSetFrequency(w, s, Rx(false), Value(n), env).radio) ==
                ViewOf(w.radio).(freq := env.freqApplied)
    ensures w.sessions[s].phase != Streaming && w.sessions[s].phase != StreamOpen && n in Radio.Rates(w.radio.mode)
            && env.rateApplied != 0 ==>
              ViewOf(DoSetSampleRate(w, s, Rx(false), Value(n), env).radio) ==
                ViewOf(w.radio).(rateRequested := n, rate := env.rateApplied)
  {
    hide Reply, Broadcast, Offers, OnlyTouches, Radio.Rates;
  }
}
