/** What get_capabilities publishes for the sampling mode in force covers what the radio is set to. */
module ControlLimits {
  import opened ControlPlane
  import opened ControlInvariants
  import ControlEvents
  import Radio
  import VitaSender

  /** A set_frequency that gets as far as the tuner. */
  predicate Tunes(w: World, s: nat, to: Address, hz: Arg<nat>) {
    && to == Rx(false) && !OwnedByOther(w, s) && hz.Value? && hz.value >= 1
    && Radio.InBand(w.radio.mode, hz.value)
  }

  /** The tuner settles outside the band it was asked for, or does not follow into the new band. */
  predicate StraysFrom(w: World, s: nat, q: Request, env: Env)
    requires WellSized(w) && s < MAX_SESSIONS
  {
    match q
    case SetFrequency(to, hz) =>
      Tunes(w, s, to, hz) && env.freqApplied != 0 && !Radio.InBand(w.radio.mode, env.freqApplied)
    case SetControl(to, setting) =>
      && to == Rx(false) && !OwnedByOther(w, s) && ControlEvents.NewMode(w, s, setting, env)
      && var m := setting.to.value.value;
         !Radio.InBand(m, w.radio.freq) && !Radio.InBand(m, env.freqApplied)
    case _ => false
  }

  predicate Strays(w: World, e: Step)
    requires WellSized(w)
  {
    && e.Command? && e.s < MAX_SESSIONS
    && !TooEarly(w.sessions[e.s], e.request) && !Locked(w.cfg, w.sessions[e.s], e.request)
    && StraysFrom(w, e.s, e.request, e.env)
  }

  lemma RateWithin(w: World, s: nat, to: Address, sps: Arg<nat>, env: Env)
    requires WellSized(w) && s < MAX_SESSIONS && Radio.WithinLimits(w.radio)
    ensures Radio.WithinLimits(DoSetSampleRate(w, s, to, sps, env).radio)
  {
    hide Reply, Broadcast, Offers, Radio.Rates;
  }

  lemma OffBand(mode: Radio.Mode)
    ensures !Radio.InBand(mode, 0)
  {
  }

  lemma ModeWithin(w: World, s: nat, mode: Radio.Mode, env: Env)
    requires WellSized(w) && s < MAX_SESSIONS && Radio.WithinLimits(w.radio)
    requires mode != w.radio.mode && !w.sessions[s].streamOpen && env.modeOk
    ensures Radio.WithinLimits(DoDirectSampling(w, s, mode, env).radio) <==>
              Radio.InBand(mode, w.radio.freq) || Radio.InBand(mode, env.freqApplied)
  {
    hide Reply, Broadcast, Offers, Radio.Rates, VitaSender.ContextAll, VitaSender.SetFormat, Radio.InBand;
    assert !Radio.InBand(mode, 0) by { OffBand(mode); }
    var _ := Radio.PreferredRate(mode);
  }

  /** Streams and connections leave the settings alone. */
  predicate SameSettings(a: Radio.State, b: Radio.State) {
    a.mode == b.mode && a.freq == b.freq && a.rate == b.rate && a.rateRequested == b.rateRequested
  }

  lemma OtherSettings(w: World, s: nat, setting: Setting, env: Env)
    requires WellSized(w) && s < MAX_SESSIONS && !ControlEvents.NewMode(w, s, setting, env)
    ensures SameSettings(w.radio, DoSetting(w, s, setting, env).radio)
  {
    hide Reply, Broadcast, Offers, DoDirectSampling, VitaSender.ContextAll, Radio.Format;
    if setting.DirectSampling? && setting.to.Value? && setting.to.value.Value? {
      SameMode(w, s, setting.to.value.value, env);
    }
  }

  lemma SettingWithin(w: World, s: nat, to: Address, setting: Setting, env: Env)
    requires WellSized(w) && s < MAX_SESSIONS && Radio.WithinLimits(w.radio)
    ensures Radio.WithinLimits(DoSetControl(w, s, to, setting, env).radio) <==>
              !StraysFrom(w, s, SetControl(to, setting), env)
  {
    hide Reply, DoSetting, Radio.Rates, Radio.InBand;
    if ControlEvents.NewMode(w, s, setting, env) {
      ModeWithin(w, s, setting.to.value.value, env);
      NewModeSets(w, s, setting, env);
    } else {
      OtherSettings(w, s, setting, env);
    }
  }

  lemma NewModeSets(w: World, s: nat, setting: Setting, env: Env)
    requires WellSized(w) && s < MAX_SESSIONS && ControlEvents.NewMode(w, s, setting, env)
    ensures DoSetting(w, s, setting, env) == DoDirectSampling(w, s, setting.to.value.value, env)
  {
    hide DoDirectSampling;
  }

  lemma SameMode(w: World, s: nat, mode: Radio.Mode, env: Env)
    requires WellSized(w) && s < MAX_SESSIONS
    requires mode == w.radio.mode || w.sessions[s].streamOpen || !env.modeOk
    ensures DoDirectSampling(w, s, mode, env).radio == w.radio
  {
    hide Reply;
  }

  lemma StreamSettings(w: World, s: nat, id: StreamRef, env: Env)
    requires WellSized(w) && s < MAX_SESSIONS
    ensures SameSettings(w.radio, DoStartRx(w, s, id, env).radio)
    ensures SameSettings(w.radio, DoStopRx(w, s, id).radio)
    ensures SameSettings(w.radio, DoCloseStream(w, s, id).radio)
  {
    hide Reply, Broadcast, Offers, VitaSender.Add, VitaSender.Free, VitaSender.Remove;
  }

  lemma QuietSettings(w: World, s: nat, q: Request, env: Env)
    requires WellSized(w) && s < MAX_SESSIONS
    ensures q.Hello? || q.Authenticate? || q.GetControl? || q.OpenStream? ==> Dispatch(w, s, q, env).radio == w.radio
  {
    hide Reply, Broadcast, Offers, Attempted, Passed, DoSetFrequency, DoSetSampleRate, DoSetControl, DoStartRx,
      DoStopRx, DoCloseStream;
  }

  lemma TuneWithin(w: World, s: nat, to: Address, hz: Arg<nat>, env: Env)
    requires WellSized(w) && s < MAX_SESSIONS && Radio.WithinLimits(w.radio)
    ensures Radio.WithinLimits(DoSetFrequency(w, s, to, hz, env).radio) <==>
              !StraysFrom(w, s, SetFrequency(to, hz), env)
  {
    hide Reply, Broadcast, Offers, Radio.Rates, Radio.InBand;
  }

  lemma SameLimits(a: Radio.State, b: Radio.State)
    requires SameSettings(a, b)
    ensures Radio.WithinLimits(a) <==> Radio.WithinLimits(b)
  {
  }

  lemma DispatchWithin(w: World, s: nat, q: Request, env: Env)
    requires WellSized(w) && s < MAX_SESSIONS && Radio.WithinLimits(w.radio)
    ensures Radio.WithinLimits(Dispatch(w, s, q, env).radio) <==> !StraysFrom(w, s, q, env)
  {
    hide Reply, Offers, DoSetFrequency, DoSetSampleRate, DoSetControl, DoStartRx, DoStopRx, DoCloseStream,
      DoHello, DoAuthenticate, DoGetControl, DoOpenStream, Radio.WithinLimits, Radio.InBand, ControlEvents.NewMode;
    QuietSettings(w, s, q, env);
    match q
    case SetFrequency(to, hz) => TuneWithin(w, s, to, hz, env);
    case SetSampleRate(to, sps) => RateWithin(w, s, to, sps, env);
    case SetControl(to, setting) => SettingWithin(w, s, to, setting, env);
    case StartRx(id) => StreamSettings(w, s, id, env); SameLimits(w.radio, Dispatch(w, s, q, env).radio);
    case StopRx(id) => StreamSettings(w, s, id, env); SameLimits(w.radio, Dispatch(w, s, q, env).radio);
    case CloseStream(id) => StreamSettings(w, s, id, env); SameLimits(w.radio, Dispatch(w, s, q, env).radio);
    case _ =>
  }

  lemma LeaveSettings(w: World, s: nat, biasOk: bool)
    requires WellSized(w) && s < MAX_SESSIONS
    ensures SameSettings(w.radio, DoDestroy(w, s, biasOk).radio)
  {
    hide Broadcast, Offers, VitaSender.Remove;
  }

  /** The published limits hold after a step exactly when the tuner stayed in its band. */
  lemma LimitsKeptIff(w: World, e: Step)
    requires WellSized(w) && Possible(w, e) && Radio.WithinLimits(w.radio)
    ensures Radio.WithinLimits(Next(w, e).radio) <==> !Strays(w, e)
  {
    hide Dispatch, DoDestroy, Reply, FirstFree, VitaSender.Callback, StraysFrom, Radio.Rates, Radio.InBand;
    match e
    case Disconnect(s, biasOk) => LeaveSettings(w, s, biasOk);
    case Command(s, q, env) =>
      DispatchWithin(w, s, q, env);
      LeaveSettings(Handle(w, s, q, env).(clock := env.now), s, env.biasOk);
    case _ =>
  }

  /** From start-up on, if the tuner settles in band at some rate and stays in band. */
  lemma {:induction false} AlwaysWithinLimits(ws: seq<World>, es: seq<Step>, n: nat)
    requires Trace(ws, es) && n < |ws| && Radio.InBand(ws[0].radio.mode, ws[0].radio.freq) && ws[0].radio.rate > 0
    requires forall i :: 0 <= i < n ==> WellSized(ws[i]) && !Strays(ws[i], es[i])
    ensures Radio.WithinLimits(ws[n].radio)
  {
    hide Next, Possible, Strays, Radio.WithinLimits;
    if n == 0 {
      Radio.BootedWithinIff(ws[0].radio);
    } else {
      AlwaysWithinLimits(ws, es, n - 1);
      assert Follows(ws[n - 1], es[n - 1], ws[n]);
      LimitsKeptIff(ws[n - 1], es[n - 1]);
    }
  }
}
