/** What is announced: every setting that is accepted, to everybody it concerns, as it is in force; and every
    start and stop of a stream to its own client. */
module ControlNews {
  import opened Basics
  import opened ControlPlane
  import opened ControlInvariants
  import opened ControlReplies
  import opened ControlOwner
  import Radio
  import VitaSender

  /** The event that tells a reading. */
  function EventOf(r: Reading): Message {
    match r
    case GainIs(g) => GainChanged(g)
    case AgcIs(on) => AgcChanged(on)
    case BiasIs(on) => BiasChanged(on)
    case PpmIs(p) => PpmChanged(p)
    case ModeIs(m) => ModeChanged(m)
  }

  /** The messages a connection was sent since. */
  function New(before: seq<Message>, after: seq<Message>): seq<Message> {
    if before <= after then after[|before|..] else []
  }

  predicate Heard(w: World, i: nat, w': World, m: Message)
    requires WellSized(w) && WellSized(w') && i < MAX_SESSIONS
  {
    m in New(w.logs[i], w'.logs[i])
  }

  lemma Announced(w: World, w1: World, s: nat, m: Message, i: nat)
    requires WellSized(w) && WellSized(w1) && s < MAX_SESSIONS && i < MAX_SESSIONS
    requires w1.logs == w.logs && w1.sessions == w.sessions && Hears(w, i, -1)
    ensures Heard(w, i, Broadcast(Reply(w1, s, Done), -1, m), m)
    ensures Heard(w, i, Broadcast(SendContexts(Reply(w1, s, Done)), -1, m), m)
  {
    hide SendContexts;
    var a, b := Broadcast(Reply(w1, s, Done), -1, m), Broadcast(SendContexts(Reply(w1, s, Done)), -1, m);
    LastOf(w.logs[i], a.logs[i], m);
    LastOf(w.logs[i], b.logs[i], m);
  }

  lemma LastOf(before: seq<Message>, after: seq<Message>, m: Message)
    requires before < after && after[|after| - 1] == m
    ensures m in New(before, after)
  {
    assert New(before, after)[|after| - |before| - 1] == m;
  }

  /** What is heard stays heard. */
  lemma StillHeard(w: World, i: nat, w1: World, w2: World, m: Message)
    requires WellSized(w) && WellSized(w1) && WellSized(w2) && i < MAX_SESSIONS
    requires Heard(w, i, w1, m) && w1.logs[i] <= w2.logs[i]
    ensures Heard(w, i, w2, m)
  {
    var a, b := New(w.logs[i], w1.logs[i]), New(w.logs[i], w2.logs[i]);
    var k :| 0 <= k < |a| && a[k] == m;
    assert b[k] == m;
  }

  lemma Longer(w: World, i: nat, skip: int, m: Message)
    requires WellSized(w) && i < MAX_SESSIONS
    ensures w.logs[i] <= Broadcast(w, skip, m).logs[i]
  {
  }

  lemma EffectsLonger(w: World, i: nat, env: Env)
    requires WellSized(w) && i < MAX_SESSIONS
    ensures w.logs[i] <= ModeSideEffects(w, env).logs[i]
  {
    hide Broadcast, SendContexts, Radio.Rates, Radio.PreferredRate, VitaSender.SetFormat;
    Longer(w.(radio := Radio.SetFrequency(w.radio, env.freqApplied)), i, -1, FrequencyChanged(env.freqApplied));
    var w2 := Retune(w, env);
    var want := Radio.PreferredRate(w2.radio.mode);
    Longer(w2.(radio := Radio.SetSampleRate(w2.radio, want, env.rateApplied)), i, -1,
           SampleRateChanged(want, env.rateApplied));
  }

  lemma ModeAnnounced(w: World, s: nat, mode: Radio.Mode, env: Env, i: nat)
    requires WellSized(w) && s < MAX_SESSIONS && i < MAX_SESSIONS && Hears(w, i, -1)
    requires mode != w.radio.mode && !w.sessions[s].streamOpen && env.modeOk
    ensures Heard(w, i, DoDirectSampling(w, s, mode, env), ModeChanged(mode))
    ensures Heard(w, i, DoDirectSampling(w, s, mode, env), CapabilitiesChanged)
  {
    hide Reply, Broadcast, Offers, OnlyTouches, ModeSideEffects, Heard;
    var v := w.(radio := w.radio.(mode := mode));
    var w1 := Broadcast(Reply(v, s, Done), -1, ModeChanged(mode));
    Announced(w, v, s, ModeChanged(mode), i);
    var w2 := ModeSideEffects(w1, env);
    var w3 := Broadcast(w2, -1, CapabilitiesChanged);
    EffectsLonger(w1, i, env);
    Longer(w2, i, -1, CapabilitiesChanged);
    StillHeard(w, i, w1, w3, ModeChanged(mode));
    Grown(w, s, v, i, mode);
    LastHeard(w, i, w2, CapabilitiesChanged);
  }

  lemma Grown(w: World, s: nat, v: World, i: nat, mode: Radio.Mode)
    requires WellSized(w) && WellSized(v) && s < MAX_SESSIONS && i < MAX_SESSIONS && v.logs == w.logs
    ensures w.logs[i] <= Broadcast(Reply(v, s, Done), -1, ModeChanged(mode)).logs[i]
  {
  }

  lemma LastHeard(w: World, i: nat, v: World, m: Message)
    requires WellSized(w) && WellSized(v) && i < MAX_SESSIONS && w.logs[i] <= v.logs[i] && Hears(v, i, -1)
    ensures Heard(w, i, Broadcast(v, -1, m), m)
  {
    LastOf(w.logs[i], Broadcast(v, -1, m).logs[i], m);
  }

  /** A setting that does something: not a gain under AGC, and not the mode that is in force already. */
  predicate Moves(w: World, setting: Setting) {
    && (setting.RfGain? ==> !w.radio.agc)
    && (setting.DirectSampling? && setting.to.Value? && setting.to.value.Value? ==>
          setting.to.value.value != w.radio.mode)
  }

  /** Every connection past hello hears of every setting what it put in force; after a change of mode also
      that the capabilities changed. */
  lemma SetAnnounced(w: World, s: nat, setting: Setting, env: Env, i: nat)
    requires WellSized(w) && s < MAX_SESSIONS && i < MAX_SESSIONS && Hears(w, i, -1)
    requires MaySet(w, s, Rx(false)) && SettingAllowed(w, s, setting, env) && Moves(w, setting)
    ensures var w' := DoSetControl(w, s, Rx(false), setting, env);
            && Heard(w, i, w', EventOf(InForce(w, s, setting, env)))
            && (setting.DirectSampling? ==> Heard(w, i, w', CapabilitiesChanged))
  {
    hide Reply, Broadcast, Offers, OnlyTouches, SendContexts, DoDirectSampling, Heard;
    match setting
    case RfGain(_) => Announced(w, w.(radio := w.radio.(gain := env.gainApplied)), s, GainChanged(env.gainApplied), i);
    case Agc(on) => Announced(w, w.(radio := w.radio.(agc := on.value)), s, AgcChanged(on.value), i);
    case BiasTee(v) =>
      Announced(w, w.(radio := w.radio.(bias := v.value > 0.0)), s, BiasChanged(v.value > 0.0), i);
    case Ppm(p) =>
      var w1 := if env.ppmOk then w.(radio := w.radio.(ppm := p.value)) else w;
      Announced(w, w1, s, PpmChanged(w1.radio.ppm), i);
    case DirectSampling(to) => ModeAnnounced(w, s, to.value.value, env, i);
  }

  // ---- Streams ------------------------------------------------------------------------

  /** A start tells its client that the stream is on, a stop or close of a running one that it is off, and
      no start or stop is news to anybody else. */
  lemma StreamTold(w: World, s: nat, id: StreamRef, env: Env)
    requires WellSized(w) && s < MAX_SESSIONS && Names(w.sessions[s], id)
    ensures Accepts(Answer(w, s, DoStartRx(w, s, id, env))) && w.sessions[s].phase != Streaming ==>
              DoStartRx(w, s, id, env).logs == w.logs[s := w.logs[s] + [Done] + [StreamState(true)]]
    ensures DoStopRx(w, s, id).logs ==
              if w.sessions[s].phase == Streaming then w.logs[s := w.logs[s] + [Done] + [StreamState(false)]]
              else w.logs[s := w.logs[s] + [Done]]
  {
    hide Offers, OnlyTouches, VitaSender.Add, VitaSender.Free, VitaSender.Remove, Radio.Format, Radio.Start,
      Radio.Starts;
  }

  lemma CloseTold(w: World, s: nat, id: StreamRef)
    requires WellSized(w) && s < MAX_SESSIONS && Names(w.sessions[s], id)
    ensures DoCloseStream(w, s, id).logs[s] ==
              w.logs[s] + [Done] + if w.sessions[s].phase == Streaming then [StreamState(false)] else []
    ensures forall i :: 0 <= i < MAX_SESSIONS && i != s && w.owner == s && Hears(w, i, s) ==>
              DoCloseStream(w, s, id).logs[i] == w.logs[i] + [ControlRevoked(true)]
  {
    hide Offers, OnlyTouches, VitaSender.Remove, Radio.Stop;
  }

  /** A streaming client that leaves: the others hear that its stream is off, then that rx is free. */
  lemma LeaveTold(w: World, s: nat, biasOk: bool, i: nat)
    requires WellSized(w) && s < MAX_SESSIONS && i < MAX_SESSIONS && i != s && Hears(w, i, s)
    ensures DoDestroy(w, s, biasOk).logs[i] ==
              w.logs[i] + (if w.sessions[s].phase == Streaming then [StreamState(false)] else [])
                        + (if w.owner == s then [ControlRevoked(true)] else [])
  {
    hide Offers, OnlyTouches, VitaSender.Remove, Radio.Stop;
  }
}
