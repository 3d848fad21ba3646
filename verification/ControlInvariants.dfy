/** Ownership, stream, VITA slot and reference count stay in step over every run. */
module ControlInvariants {
  import opened Basics
  import opened Bytes
  import opened ControlPlane
  import AuthMachine
  import Radio
  import opened VitaPacket
  import VitaSender

  // ---- What holds in every run --------------------------------------------------------

  predicate SessionOk(t: Session, owner: bool) {
    && (t.ownsRx <==> owner) && (t.streamOpen <==> owner)
    && (t.phase == StreamOpen || t.phase == Streaming ==> t.streamOpen) && (t.streamOpen ==> t.phase != AwaitHello)
    && (!t.live ==> t == FREE_SESSION)
    && (t.live && t.token >= 0 ==> t.streamOpen)
    && -1 <= t.token && (!t.streamOpen ==> t.streamId == 0)
  }

  /** The owner, its flags and its open stream agree. */
  predicate Table(ss: seq<Session>, owner: int) {
    && |ss| == MAX_SESSIONS && -1 <= owner < MAX_SESSIONS
    && forall i :: 0 <= i < MAX_SESSIONS ==> SessionOk(ss[i], i == owner)
  }

  /** A held token names an active slot of the same stream. */
  predicate Held(t: Session, slots: seq<VitaSender.Slot>) {
    t.live && t.token >= 0 ==>
      t.token < |slots| && slots[t.token].active && slots[t.token].streamId == t.streamId
  }

  ghost predicate Weak(w: World) {
    && WellSized(w) && Table(w.sessions, w.owner)
    && (forall i :: 0 <= i < MAX_SESSIONS ==> Held(w.sessions[i], w.slots))
    && Radio.Counted(w.radio)
  }

  // ---- What holds while no hello succeeds on a connection with an open stream ---------

  predicate StreamsNow(ss: seq<Session>, owner: int)
    requires |ss| == MAX_SESSIONS && -1 <= owner < MAX_SESSIONS
  {
    owner >= 0 && ss[owner].phase == Streaming
  }

  predicate InStep(t: Session) {
    && (t.streamOpen ==> t.phase == StreamOpen || t.phase == Streaming)
    && (t.live ==> (t.phase == Streaming <==> t.token >= 0))
  }

  /** Active slots are held by the owner and run at the radio's rate. */
  predicate SlotsHeld(ss: seq<Session>, owner: int, slots: seq<VitaSender.Slot>, rate: nat)
    requires |ss| == MAX_SESSIONS && -1 <= owner < MAX_SESSIONS
  {
    forall k :: 0 <= k < |slots| && slots[k].active ==>
      owner >= 0 && ss[owner].token == k && slots[k].rate == rate
  }

  ghost predicate Strong(w: World) {
    && Weak(w)
    && (forall i :: 0 <= i < MAX_SESSIONS ==> InStep(w.sessions[i]))
    && SlotsHeld(w.sessions, w.owner, w.slots, w.radio.rate)
    && w.radio.streams == (if StreamsNow(w.sessions, w.owner) then 1 else 0)
  }

  /** What Strong says in the protocol's terms. */
  lemma StrongMeans(w: World, s: nat)
    requires Strong(w) && s < MAX_SESSIONS && w.sessions[s].live
    ensures var t := w.sessions[s];
            && (w.owner == s <==> t.ownsRx) && (t.ownsRx <==> t.streamOpen)
            && (t.streamOpen <==> t.phase == StreamOpen || t.phase == Streaming)
            && (t.phase == Streaming <==> 0 <= t.token < |w.slots| && w.slots[t.token].active)
    ensures forall k :: 0 <= k < |w.slots| ==>
              (w.slots[k].active <==>
                 exists i :: 0 <= i < MAX_SESSIONS && w.sessions[i].live && w.sessions[i].token == k)
    ensures w.radio.streams <= 1 && (w.radio.running <==> w.radio.streams > 0)
    ensures w.radio.streams > 0 <==> exists i :: 0 <= i < MAX_SESSIONS && w.sessions[i].phase == Streaming
  {
    assert SessionOk(w.sessions[s], s == w.owner) && InStep(w.sessions[s]) && Held(w.sessions[s], w.slots);
    forall k | 0 <= k < |w.slots|
      ensures w.slots[k].active <==> exists i :: 0 <= i < MAX_SESSIONS && w.sessions[i].live && w.sessions[i].token == k
    {
      if w.slots[k].active {
        assert SessionOk(w.sessions[w.owner], true);
        assert w.sessions[w.owner].live && w.sessions[w.owner].token == k;
      } else {
        forall i | 0 <= i < MAX_SESSIONS && w.sessions[i].live
          ensures w.sessions[i].token != k
        {
          assert Held(w.sessions[i], w.slots);
        }
      }
    }
    if StreamsNow(w.sessions, w.owner) {
      assert w.sessions[w.owner].phase == Streaming;
    } else {
      forall i | 0 <= i < MAX_SESSIONS
        ensures w.sessions[i].phase != Streaming
      {
        assert SessionOk(w.sessions[i], i == w.owner);
      }
    }
  }

  // ---- Changes to one session ---------------------------------------------------------

  /** The parts of a world these predicates look at. */
  predicate SameCore(a: World, b: World) {
    a.sessions == b.sessions && a.owner == b.owner && a.slots == b.slots && a.radio == b.radio
  }

  lemma CoreDecides(a: World, b: World)
    requires SameCore(a, b) && WellSized(a) && WellSized(b)
    ensures Weak(a) <==> Weak(b)
    ensures Strong(a) <==> Strong(b)
  {
  }

  /** Authentication state is not looked at. */
  lemma AuthKeeps(w: World, s: nat, a: AuthMachine.State)
    requires Weak(w) && s < MAX_SESSIONS && w.sessions[s].live
    ensures var w' := w.(sessions := w.sessions[s := w.sessions[s].(auth := a)]);
            Weak(w') && (Strong(w) ==> Strong(w'))
  {
    var w' := w.(sessions := w.sessions[s := w.sessions[s].(auth := a)]);
    forall i | 0 <= i < MAX_SESSIONS
      ensures SessionOk(w'.sessions[i], i == w'.owner) && Held(w'.sessions[i], w'.slots)
      ensures InStep(w.sessions[i]) ==> InStep(w'.sessions[i])
    {
      assert SessionOk(w.sessions[i], i == w.owner) && Held(w.sessions[i], w.slots);
    }
  }

  /** Radio settings that leave the count alone; the strong form also needs the rate unchanged or
      no active slot. */
  lemma RadioKeeps(w: World, r: Radio.State)
    requires Weak(w) && r.streams == w.radio.streams && r.running == w.radio.running
    ensures Weak(w.(radio := r))
    ensures Strong(w) && (r.rate == w.radio.rate || w.owner == -1) ==> Strong(w.(radio := r))
  {
  }

  /** The slot table may grow its logs and formats as long as the same slots stay active. */
  predicate SameUse(a: seq<VitaSender.Slot>, b: seq<VitaSender.Slot>) {
    && |a| == |b|
    && forall k :: 0 <= k < |a| ==>
         a[k].active == b[k].active && a[k].streamId == b[k].streamId && a[k].rate == b[k].rate
  }

  lemma SlotsKeep(w: World, slots: seq<VitaSender.Slot>)
    requires Weak(w) && SameUse(w.slots, slots)
    ensures Weak(w.(slots := slots)) && (Strong(w) ==> Strong(w.(slots := slots)))
  {
    var w' := w.(slots := slots);
    forall i | 0 <= i < MAX_SESSIONS
      ensures Held(w'.sessions[i], w'.slots)
    {
      assert Held(w.sessions[i], w.slots);
    }
  }

  lemma ContextUse(slots: seq<VitaSender.Slot>, enabled: bool, gain: int, format: u32)
    ensures SameUse(slots, VitaSender.ContextAll(slots, enabled, gain, format))
    ensures SameUse(slots, VitaSender.SetFormat(slots, format))
  {
  }

  lemma {:induction false} PacketsUse(s: VitaSender.Slot, buf: seq<u8>, n: nat, gain: int, format: u32)
    requires BYTES_PER_PKT * n <= |buf|
    ensures var t := VitaSender.SendPackets(s, buf, n, gain, format);
            t.active == s.active && t.streamId == s.streamId && t.rate == s.rate
  {
    if n > 0 {
      PacketsUse(s, buf, n - 1, gain, format);
    }
  }

  lemma CallbackUse(slots: seq<VitaSender.Slot>, buf: seq<u8>, gain: int, format: u32)
    ensures SameUse(slots, VitaSender.Callback(slots, buf, gain, format))
  {
    hide VitaSender.SendPackets;
    forall k | 0 <= k < |slots|
      ensures var t := VitaSender.Callback(slots, buf, gain, format)[k];
              t.active == slots[k].active && t.streamId == slots[k].streamId && t.rate == slots[k].rate
    {
      PacketsUse(slots[k], buf, VitaSender.PacketCount(|buf|), gain, format);
    }
  }

  // ---- Handlers that leave the session table alone ------------------------------------

  /** Both invariants survive. */
  ghost predicate Keeps(w: World, w': World) {
    (Weak(w) ==> Weak(w')) && (Strong(w) ==> Strong(w'))
  }

  lemma SameCoreKeeps(w: World, w': World)
    requires SameCore(w, w') && WellSized(w) && WellSized(w')
    ensures Keeps(w, w')
  {
    CoreDecides(w, w');
  }

  lemma RadioOnly(w: World, r: Radio.State, w': World)
    requires WellSized(w) && WellSized(w') && SameCore(w.(radio := r), w')
    requires r.streams == w.radio.streams && r.running == w.radio.running
    requires r.rate == w.radio.rate || w.owner == -1
    ensures Keeps(w, w')
  {
    hide Weak, Strong;
    if Weak(w) {
      RadioKeeps(w, r);
      CoreDecides(w.(radio := r), w');
    } else {
      StrongIsWeak(w);
    }
  }

  lemma StrongIsWeak(w: World)
    ensures Strong(w) ==> Weak(w)
  {
  }

  lemma FrequencyKeeps(w: World, s: nat, to: Address, hz: Arg<nat>, env: Env)
    requires WellSized(w) && s < MAX_SESSIONS
    ensures Keeps(w, DoSetFrequency(w, s, to, hz, env))
  {
    hide Keeps;
    var w' := DoSetFrequency(w, s, to, hz, env);
    RadioOnly(w, w'.radio, w');
  }

  /** The strong form is where set_sample_rate's refusal with a stream open matters. */
  lemma SampleRateKeeps(w: World, s: nat, to: Address, sps: Arg<nat>, env: Env)
    requires WellSized(w) && s < MAX_SESSIONS
    ensures Keeps(w, DoSetSampleRate(w, s, to, sps, env))
  {
    var w' := DoSetSampleRate(w, s, to, sps, env);
    if w'.radio == w.radio {
      SameCoreKeeps(w, w');
    } else {
      if Weak(w) {
        RadioKeeps(w, w'.radio);
        CoreDecides(w.(radio := w'.radio), w');
      }
      if Strong(w) {
        assert SessionOk(w.sessions[s], s == w.owner) && InStep(w.sessions[s]);
      }
    }
  }

  lemma ContextsKeep(w: World, r: Radio.State, w': World)
    requires WellSized(w) && WellSized(w') && SameCore(SendContexts(w.(radio := r)), w')
    requires r.streams == w.radio.streams && r.running == w.radio.running && r.rate == w.radio.rate
    ensures Keeps(w, w')
  {
    hide VitaSender.ContextAll;
    var w1 := w.(radio := r);
    ContextUse(w.slots, w.cfg.contextEnabled, r.gain, Radio.Format(r.mode));
    if Weak(w) {
      RadioKeeps(w, r);
      SlotsKeep(w1, SendContexts(w1).slots);
      CoreDecides(SendContexts(w1), w');
    }
  }

  lemma SideEffectsTouch(w: World, env: Env)
    requires WellSized(w)
    ensures var w' := ModeSideEffects(w, env);
            && w'.sessions == w.sessions && w'.owner == w.owner && SameUse(w.slots, w'.slots)
            && w'.radio.streams == w.radio.streams && w'.radio.running == w.radio.running
  {
    hide VitaSender.ContextAll, VitaSender.SetFormat, Hears, Broadcast;
    var w' := ModeSideEffects(w, env);
    var f := Radio.Format(w'.radio.mode);
    ContextUse(w.slots, true, 0, f);
    ContextUse(VitaSender.SetFormat(w.slots, f), w.cfg.contextEnabled, w'.radio.gain, f);
  }

  /** A mode change finds no stream open anywhere, so no slot is active. */
  lemma ModeKeeps(w: World, s: nat, mode: Radio.Mode, env: Env)
    requires WellSized(w) && s < MAX_SESSIONS && !OwnedByOther(w, s)
    ensures Keeps(w, DoDirectSampling(w, s, mode, env))
  {
    hide ModeSideEffects, Strong, Hears;
    var w' := DoDirectSampling(w, s, mode, env);
    StrongIsWeak(w);
    if mode == w.radio.mode || w.sessions[s].streamOpen || !env.modeOk {
      SameCoreKeeps(w, w');
    } else if Weak(w) {
      assert SessionOk(w.sessions[s], s == w.owner);
      var w1 := Broadcast(Reply(w.(radio := w.radio.(mode := mode)), s, Done), -1, ModeChanged(mode));
      SideEffectsTouch(w1, env);
      RadioKeeps(w, w'.radio);
      SlotsKeep(w.(radio := w'.radio), w'.slots);
      CoreDecides(w.(radio := w'.radio, slots := w'.slots), w');
    }
  }

  lemma SettingKeeps(w: World, s: nat, setting: Setting, env: Env)
    requires WellSized(w) && s < MAX_SESSIONS && !OwnedByOther(w, s)
    ensures Keeps(w, DoSetting(w, s, setting, env))
  {
    hide Keeps, DoDirectSampling, VitaSender.ContextAll;
    var w' := DoSetting(w, s, setting, env);
    match setting
    case RfGain(onList) =>
      if onList.Value? && !w.radio.agc && onList.value {
        ContextsKeep(w, w.radio.(gain := env.gainApplied), w');
      } else {
        SameCoreKeeps(w, w');
      }
    case Agc(on) =>
      if on.Value? {
        ContextsKeep(w, w.radio.(agc := on.value), w');
      } else {
        SameCoreKeeps(w, w');
      }
    case DirectSampling(to) =>
      if to.Value? && to.value.Value? {
        ModeKeeps(w, s, to.value.value, env);
      } else {
        SameCoreKeeps(w, w');
      }
    case _ =>
      RadioOnly(w, w'.radio, w');
  }

  lemma ControlKeeps(w: World, s: nat, to: Address, setting: Setting, env: Env)
    requires WellSized(w) && s < MAX_SESSIONS
    ensures Keeps(w, DoSetControl(w, s, to, setting, env))
  {
    hide Keeps, DoSetting;
    var w' := DoSetControl(w, s, to, setting, env);
    if AddressProblem(to).Value? || OwnedByOther(w, s) {
      SameCoreKeeps(w, w');
    } else {
      SettingKeeps(w, s, setting, env);
    }
  }

  // ---- Handlers that move a session ---------------------------------------------------

  /** One session changes, and with it the owner, the slots and the count. */
  lemma MoveKeeps(w: World, s: nat, t: Session, owner: int, slots: seq<VitaSender.Slot>, r: Radio.State, w': World)
    requires Weak(w) && s < MAX_SESSIONS && WellSized(w')
    requires SameCore(w.(sessions := w.sessions[s := t], owner := owner, slots := slots, radio := r), w')
    requires !OwnedByOther(w, s) && (owner == s || owner == -1)
    requires SessionOk(t, owner == s) && Held(t, slots) && Radio.Counted(r)
    ensures Weak(w')
    ensures Strong(w) && InStep(t) && r.rate == w.radio.rate
            && (forall k :: 0 <= k < |slots| && slots[k].active ==>
                  owner == s && t.token == k && slots[k].rate == r.rate)
            && r.streams == (if owner == s && t.phase == Streaming then 1 else 0)
            ==> Strong(w')
  {
    forall i | 0 <= i < MAX_SESSIONS
      ensures SessionOk(w'.sessions[i], i == w'.owner) && Held(w'.sessions[i], w'.slots)
      ensures Strong(w) && InStep(t) ==> InStep(w'.sessions[i])
    {
      assert SessionOk(w.sessions[i], i == w.owner) && Held(w.sessions[i], w.slots);
      assert Strong(w) ==> InStep(w.sessions[i]);
    }
  }

  /** A failed open_stream claims and releases: nothing is left of it. */
  lemma OpenKeeps(w: World, s: nat, to: Address, problem: Arg<Code>)
    requires WellSized(w) && s < MAX_SESSIONS && w.sessions[s].live
    ensures Keeps(w, DoOpenStream(w, s, to, problem))
  {
    hide Strong;
    StrongIsWeak(w);
    if Weak(w) {
      var w' := DoOpenStream(w, s, to, problem);
      var t := w.sessions[s];
      assert SessionOk(t, s == w.owner) && Held(t, w.slots);
      if AddressProblem(to).Value? || t.streamOpen || !MayClaim(w, s) {
        SameCoreKeeps(w, w');
      } else if problem.Value? {
        assert w'.sessions == w.sessions && w'.owner == -1 == w.owner;
        SameCoreKeeps(w, w');
      } else {
        OpenedKeeps(w, s, w');
      }
    }
  }

  lemma OpenedKeeps(w: World, s: nat, w': World)
    requires Weak(w) && WellSized(w') && s < MAX_SESSIONS && w.owner == -1 && w.sessions[s].live
    requires w'.owner == s && w'.slots == w.slots && w'.radio == w.radio
    requires var t := w.sessions[s];
             w'.sessions == w.sessions[s := t.(ownsRx := true, streamOpen := true, phase := StreamOpen,
                 streamId := w'.sessions[s].streamId)]
    ensures Keeps(w, w')
  {
    var t := w.sessions[s];
    assert SessionOk(t, s == w.owner) && Held(t, w.slots);
    assert Strong(w) ==> InStep(t);
    MoveKeeps(w, s, w'.sessions[s], s, w.slots, w.radio, w');
  }

  lemma DropKeeps(w: World, s: nat, phase: Phase, open: bool, streamId: u32, w': World)
    requires Weak(w) && WellSized(w') && s < MAX_SESSIONS && w.owner == s && w.sessions[s].live
    requires if open then phase == StreamOpen && streamId == w.sessions[s].streamId else phase == Idle && streamId == 0
    requires w'.owner == if open then s else -1
    requires w'.slots == DropToken(w, s).slots
    requires w'.radio == if w.sessions[s].phase == Streaming then Radio.Stop(w.radio) else w.radio
    requires var t := DropToken(w, s).sessions[s];
             w'.sessions == w.sessions[s := t.(phase := phase, streamOpen := open, ownsRx := open,
                 streamId := streamId)]
    ensures Keeps(w, w')
  {
    var t := w.sessions[s];
    assert SessionOk(t, true) && Held(t, w.slots);
    assert Strong(w) ==> InStep(t);
    MoveKeeps(w, s, w'.sessions[s], w'.owner, w'.slots, w'.radio, w');
  }

  lemma StopKeeps(w: World, s: nat, id: StreamRef)
    requires WellSized(w) && s < MAX_SESSIONS && w.sessions[s].live
    ensures Keeps(w, DoStopRx(w, s, id))
  {
    hide Strong;
    StrongIsWeak(w);
    if Weak(w) {
      var w' := DoStopRx(w, s, id);
      var t := w.sessions[s];
      assert SessionOk(t, s == w.owner);
      if !Names(t, id) || t.phase != Streaming {
        SameCoreKeeps(w, w');
      } else {
        DropKeeps(w, s, StreamOpen, true, t.streamId, w');
      }
    }
  }

  lemma CloseKeeps(w: World, s: nat, id: StreamRef)
    requires WellSized(w) && s < MAX_SESSIONS && w.sessions[s].live
    ensures Keeps(w, DoCloseStream(w, s, id))
  {
    hide Strong;
    StrongIsWeak(w);
    if Weak(w) {
      var w' := DoCloseStream(w, s, id);
      var t := w.sessions[s];
      assert SessionOk(t, s == w.owner);
      if !Names(t, id) {
        SameCoreKeeps(w, w');
      } else {
        DropKeeps(w, s, Idle, false, 0, w');
      }
    }
  }

  lemma AddUse(slots: seq<VitaSender.Slot>, enabled: bool, id: u32, format: u32, gain: int, epoch: nat, rate: nat)
    ensures var k := VitaSender.Free(slots);
            var r := VitaSender.Add(slots, enabled, id, format, gain, epoch, rate);
            if k < 0 then r == slots
            else r == slots[k := r[k]] && r[k].active && r[k].streamId == id && r[k].rate == rate
  {
  }

  /** A failed start gives its slot and its count back; a start that works holds one of each. */
  lemma StartKeeps(w: World, s: nat, id: StreamRef, env: Env)
    requires WellSized(w) && s < MAX_SESSIONS && w.sessions[s].live
    ensures Keeps(w, DoStartRx(w, s, id, env))
  {
    hide VitaSender.Add, VitaSender.Free, Strong;
    StrongIsWeak(w);
    if Weak(w) {
      var w' := DoStartRx(w, s, id, env);
      var t := w.sessions[s];
      assert SessionOk(t, s == w.owner) && Held(t, w.slots);
      if !Names(t, id) || t.phase == Streaming {
        SameCoreKeeps(w, w');
      } else {
        AddUse(w.slots, w.cfg.contextEnabled, t.streamId, Radio.Format(w.radio.mode), w.radio.gain, env.epoch,
            w.radio.rate);
        StartedKeeps(w, s, env, w');
      }
    }
  }

  lemma StartedKeeps(w: World, s: nat, env: Env, w': World)
    requires Weak(w) && WellSized(w') && s < MAX_SESSIONS && w.owner == s && w.sessions[s].live
    requires w.sessions[s].phase != Streaming && w.sessions[s].streamOpen && w'.owner == s
    requires var t := w.sessions[s];
             var k := VitaSender.Free(w.slots);
             var starts := Radio.Starts(w.radio, env.threadOk);
             if k < 0 then
               w'.sessions == w.sessions[s := t.(token := -1)] && w'.slots == w.slots && w'.radio == w.radio
             else
               && w'.radio == Radio.Start(w.radio, env.threadOk)
               && (if starts then
                     && w'.sessions == w.sessions[s := t.(token := k, phase := Streaming)]
                     && w'.slots == w.slots[k := w'.slots[k]] && w'.slots[k].active
                     && w'.slots[k].streamId == t.streamId && w'.slots[k].rate == w.radio.rate
                   else
                     && w'.sessions == w.sessions[s := t.(token := -1)]
                     && w'.slots == w.slots[k := VitaSender.FREE_SLOT])
    ensures Keeps(w, w')
  {
    hide VitaSender.Free;
    var t := w.sessions[s];
    assert SessionOk(t, true) && Held(t, w.slots);
    assert Strong(w) ==> InStep(t);
    Radio.StartStop(w.radio, env.threadOk);
    MoveKeeps(w, s, w'.sessions[s], s, w'.slots, w'.radio, w');
  }

  lemma ConnectKeeps(w: World)
    requires WellSized(w)
    ensures Keeps(w, DoConnect(w))
  {
    hide FirstFree;
    var i := FirstFree(w.sessions);
    if i >= 0 && Weak(w) {
      assert SessionOk(w.sessions[i], i == w.owner);
      SwapKeeps(w, i, NEW_SESSION, w.radio, DoConnect(w));
    }
  }

  /** A session that owns nothing comes or goes. */
  lemma SwapKeeps(w: World, s: nat, t: Session, r: Radio.State, w': World)
    requires Weak(w) && s < MAX_SESSIONS && w.owner != s && WellSized(w')
    requires t == FREE_SESSION || t == NEW_SESSION
    requires SameCore(w.(sessions := w.sessions[s := t], radio := r), w')
    requires r.streams == w.radio.streams && r.running == w.radio.running && r.rate == w.radio.rate
    ensures Keeps(w, w')
  {
    forall i | 0 <= i < MAX_SESSIONS
      ensures SessionOk(w'.sessions[i], i == w'.owner) && Held(w'.sessions[i], w'.slots)
      ensures Strong(w) ==> InStep(w'.sessions[i])
    {
      assert SessionOk(w.sessions[i], i == w.owner) && Held(w.sessions[i], w.slots);
      assert Strong(w) ==> InStep(w.sessions[i]);
    }
  }

  /** The owner leaves: its slot, its count and the rx function go with it. */
  lemma OwnerLeaves(w: World, s: nat, w': World)
    requires Weak(w) && s < MAX_SESSIONS && w.owner == s && WellSized(w')
    requires w'.owner == -1 && w'.sessions == w.sessions[s := FREE_SESSION]
    requires w'.slots == DropToken(w, s).slots
    requires var r := if w.sessions[s].phase == Streaming then Radio.Stop(w.radio) else w.radio;
             w'.radio.streams == r.streams && w'.radio.running == r.running && w'.radio.rate == r.rate
    ensures Keeps(w, w')
  {
    var t := w.sessions[s];
    assert SessionOk(t, true) && Held(t, w.slots);
    assert Strong(w) ==> InStep(t);
    MoveKeeps(w, s, FREE_SESSION, -1, w'.slots, w'.radio, w');
  }

  lemma DestroyKeeps(w: World, s: nat, biasOk: bool)
    requires WellSized(w) && s < MAX_SESSIONS && w.sessions[s].live
    ensures Keeps(w, DoDestroy(w, s, biasOk))
  {
    hide Strong, Broadcast;
    StrongIsWeak(w);
    if Weak(w) {
      var t := w.sessions[s];
      assert SessionOk(t, s == w.owner);
      var w' := DoDestroy(w, s, biasOk);
      if w.owner == s {
        OwnerLeaves(w, s, w');
      } else {
        SwapKeeps(w, s, FREE_SESSION, w'.radio, w');
      }
    }
  }

  // ---- hello and authenticate ---------------------------------------------------------

  lemma HelloWeak(w: World, s: nat, problem: Arg<Code>, env: Env)
    requires WellSized(w) && s < MAX_SESSIONS && w.sessions[s].live
    ensures Weak(w) ==> Weak(DoHello(w, s, problem, env))
    ensures Strong(w) && (problem.Value? || !w.sessions[s].streamOpen) ==> Strong(DoHello(w, s, problem, env))
  {
    hide Strong;
    StrongIsWeak(w);
    if Weak(w) {
      var w' := DoHello(w, s, problem, env);
      if problem.Value? {
        CoreDecides(w, w');
      } else {
        HelloMoves(w, s, w');
      }
    }
  }

  lemma HelloMoves(w: World, s: nat, w': World)
    requires Weak(w) && s < MAX_SESSIONS && w.sessions[s].live && WellSized(w')
    requires w'.owner == w.owner && w'.slots == w.slots && w'.radio == w.radio
    requires w'.sessions == w.sessions[s := w.sessions[s].(phase := Idle, auth := w'.sessions[s].auth)]
    ensures Weak(w')
    ensures Strong(w) && !w.sessions[s].streamOpen ==> Strong(w')
  {
    forall i | 0 <= i < MAX_SESSIONS
      ensures SessionOk(w'.sessions[i], i == w'.owner) && Held(w'.sessions[i], w'.slots)
      ensures Strong(w) && !w.sessions[s].streamOpen ==> InStep(w'.sessions[i])
    {
      assert SessionOk(w.sessions[i], i == w.owner) && Held(w.sessions[i], w.slots);
      assert Strong(w) ==> InStep(w.sessions[i]);
    }
  }

  lemma AuthenticateKeeps(w: World, s: nat, claim: Arg<AuthMachine.Claim>, env: Env)
    requires WellSized(w) && s < MAX_SESSIONS && w.sessions[s].live
    ensures Keeps(w, DoAuthenticate(w, s, claim, env))
  {
    hide Strong, AuthMachine.Attempt, AuthMachine.Passes;
    StrongIsWeak(w);
    if Weak(w) {
      var w' := DoAuthenticate(w, s, claim, env);
      var w1 := w.(sessions := w.sessions[s := w.sessions[s].(auth := w'.sessions[s].auth)]);
      AuthKeeps(w, s, w'.sessions[s].auth);
      assert w'.sessions == w1.sessions;
      CoreDecides(w1, w');
    }
  }

  // ---- One step -----------------------------------------------------------------------

  /** hello succeeding on a connection that has a stream open. */
  predicate HelloOnStream(w: World, s: nat, q: Request)
    requires WellSized(w) && s < MAX_SESSIONS
  {
    q.Hello? && !q.problem.Value? && w.sessions[s].streamOpen
  }

  predicate HelloWhileOpen(w: World, e: Step)
    requires WellSized(w)
  {
    e.Command? && e.s < MAX_SESSIONS && HelloOnStream(w, e.s, e.request)
  }

  lemma DispatchKeeps(w: World, s: nat, q: Request, env: Env)
    requires WellSized(w) && s < MAX_SESSIONS && w.sessions[s].live
    ensures Weak(w) ==> Weak(Dispatch(w, s, q, env))
    ensures Strong(w) && !HelloOnStream(w, s, q) ==> Strong(Dispatch(w, s, q, env))
  {
    hide Weak, Strong, Reply, DoHello, DoAuthenticate, DoGetControl, DoSetFrequency, DoSetSampleRate, DoSetControl,
      DoOpenStream, DoStartRx, DoStopRx, DoCloseStream;
    match q
    case Hello(problem) => HelloWeak(w, s, problem, env);
    case Authenticate(claim) => AuthenticateKeeps(w, s, claim, env);
    case SetFrequency(to, hz) => FrequencyKeeps(w, s, to, hz, env);
    case SetSampleRate(to, sps) => SampleRateKeeps(w, s, to, sps, env);
    case SetControl(to, setting) => ControlKeeps(w, s, to, setting, env);
    case OpenStream(to, problem) => OpenKeeps(w, s, to, problem);
    case StartRx(id) => StartKeeps(w, s, id, env);
    case StopRx(id) => StopKeeps(w, s, id);
    case CloseStream(id) => CloseKeeps(w, s, id);
    case GetControl(to, name) => GetControlKeeps(w, s, to, name);
    case _ => SameCoreKeeps(w, Dispatch(w, s, q, env));
  }

  lemma GetControlKeeps(w: World, s: nat, to: Address, name: Arg<Option<Control>>)
    requires WellSized(w) && s < MAX_SESSIONS
    ensures Keeps(w, DoGetControl(w, s, to, name))
  {
    SameCoreKeeps(w, DoGetControl(w, s, to, name));
  }

  lemma HandleKeeps(w: World, s: nat, q: Request, env: Env)
    requires WellSized(w) && s < MAX_SESSIONS && w.sessions[s].live
    ensures Weak(w) ==> Weak(Handle(w, s, q, env))
    ensures Strong(w) && !HelloOnStream(w, s, q) ==> Strong(Handle(w, s, q, env))
  {
    hide Weak, Strong, Dispatch, Reply;
    if TooEarly(w.sessions[s], q) || Locked(w.cfg, w.sessions[s], q) {
      SameCoreKeeps(w, Handle(w, s, q, env));
    } else {
      DispatchKeeps(w, s, q, env);
    }
  }

  lemma UsbKeeps(w: World, buf: seq<u8>)
    requires WellSized(w)
    ensures Keeps(w, Next(w, Usb(buf)))
  {
    hide Strong, VitaSender.Callback;
    StrongIsWeak(w);
    if Weak(w) {
      CallbackUse(w.slots, buf, w.radio.gain, Radio.Format(w.radio.mode));
      SlotsKeep(w, Next(w, Usb(buf)).slots);
    }
  }

  lemma CommandKeeps(w: World, s: nat, q: Request, env: Env)
    requires WellSized(w) && Possible(w, Command(s, q, env))
    ensures Weak(w) ==> Weak(Next(w, Command(s, q, env)))
    ensures Strong(w) && !HelloOnStream(w, s, q) ==> Strong(Next(w, Command(s, q, env)))
  {
    hide Weak, Strong, Handle, DoDestroy;
    HandleKeeps(w, s, q, env);
    var w1 := Handle(w, s, q, env).(clock := env.now);
    CoreDecides(Handle(w, s, q, env), w1);
    if w1.sessions[s].auth.closing {
      DestroyKeeps(w1, s, env.biasOk);
    }
  }

  lemma StepKeeps(w: World, e: Step)
    requires WellSized(w) && Possible(w, e)
    ensures Weak(w) ==> Weak(Next(w, e))
    ensures Strong(w) && !HelloWhileOpen(w, e) ==> Strong(Next(w, e))
  {
    hide Weak, Strong, Handle, DoDestroy, DoConnect, VitaSender.Callback;
    match e
    case Connect => ConnectKeeps(w);
    case Disconnect(s, biasOk) => DestroyKeeps(w, s, biasOk);
    case Usb(buf) => UsbKeeps(w, buf);
    case Command(s, q, env) => CommandKeeps(w, s, q, env);
  }

  /** A command that passes the gates and does not end the connection is its handler. */
  lemma PlainNext(w: World, s: nat, q: Request, env: Env, w1: World)
    requires WellSized(w) && Possible(w, Command(s, q, env)) && w1 == Dispatch(w, s, q, env)
    requires !TooEarly(w.sessions[s], q) && !Locked(w.cfg, w.sessions[s], q) && !w1.sessions[s].auth.closing
    ensures Next(w, Command(s, q, env)) == w1.(clock := env.now)
  {
    hide Dispatch, DoDestroy, Reply;
  }

  /** The handler of a command the lemmas below look into. */
  ghost function Handler(w: World, s: nat, q: Request, env: Env): World
    requires WellSized(w) && s < MAX_SESSIONS
  {
    if q.Hello? then DoHello(w, s, q.problem, env)
    else if q.GetStatus? then Reply(w, s, StatusIs(ViewOf(w.radio)))
    else if q.GetControl? then DoGetControl(w, s, q.to, q.name)
    else if q.SetFrequency? then DoSetFrequency(w, s, q.to, q.hz, env)
    else if q.SetSampleRate? then DoSetSampleRate(w, s, q.to, q.sps, env)
    else if q.SetControl? then DoSetControl(w, s, q.to, q.setting, env)
    else if q.OpenStream? then DoOpenStream(w, s, q.to, q.problem)
    else if q.StartRx? then DoStartRx(w, s, q.id, env)
    else if q.StopRx? then DoStopRx(w, s, q.id)
    else if q.CloseStream? then DoCloseStream(w, s, q.id)
    else Dispatch(w, s, q, env)
  }

  lemma DispatchIs(w: World, s: nat, q: Request, env: Env)
    requires WellSized(w) && s < MAX_SESSIONS
    ensures Dispatch(w, s, q, env) == Handler(w, s, q, env)
  {
    hide DoHello, DoAuthenticate, DoGetControl, DoSetFrequency, DoSetSampleRate, DoSetControl, DoOpenStream,
      DoStartRx, DoStopRx, DoCloseStream, Reply, OnlyTouches, NextId;
  }

  /** A control other than direct sampling moves its own setting only, and says nothing of rate or mode. */
  lemma PlainSetting(w: World, s: nat, setting: Setting, env: Env)
    requires WellSized(w) && s < MAX_SESSIONS && !setting.DirectSampling?
    ensures var r := DoSetting(w, s, setting, env);
            && r == w.(radio := r.radio, slots := r.slots, logs := r.logs)
            && r.radio == w.radio.(gain := r.radio.gain, agc := r.radio.agc, bias := r.radio.bias, ppm := r.radio.ppm)
            && Offers(r.logs) == Offers(w.logs) && Asks(r.logs) == Asks(w.logs)
  {
    hide Reply, Broadcast, Offers, Asks, SendContexts, OnlyTouches, DoDirectSampling;
  }

  // ---- hello on an open stream --------------------------------------------------------

  /** No connection is on its way out between steps. */
  predicate NoneClosing(w: World) {
    forall i :: 0 <= i < |w.sessions| ==> !w.sessions[i].auth.closing
  }

  lemma NoneClosingKept(w: World, e: Step)
    requires WellSized(w) && Possible(w, e) && NoneClosing(w)
    ensures NoneClosing(Next(w, e))
  {
    hide Handle, Broadcast, VitaSender.Callback, FirstFree;
  }

  /** The protocol's order survives a step exactly when the step is not such a hello. */
  lemma StrongKeptIff(w: World, e: Step)
    requires Strong(w) && NoneClosing(w) && Possible(w, e)
    ensures Strong(Next(w, e)) <==> !HelloWhileOpen(w, e)
  {
    StepKeeps(w, e);
    if HelloWhileOpen(w, e) {
      HelloBreaks(w, e.s, e.request.problem, e.env);
    }
  }

  lemma HelloBreaks(w: World, s: nat, problem: Arg<Code>, env: Env)
    requires WellSized(w) && NoneClosing(w) && Possible(w, Command(s, Hello(problem), env))
    requires !problem.Value? && w.sessions[s].streamOpen
    ensures !Strong(Next(w, Command(s, Hello(problem), env)))
  {
    hide Next, Dispatch, Reply, Weak, SlotsHeld;
    var w1 := DoHello(w, s, problem, env);
    DispatchIs(w, s, Hello(problem), env);
    PlainNext(w, s, Hello(problem), env, w1);
    assert !InStep(w1.sessions[s]);
  }

  // ---- Runs ---------------------------------------------------------------------------

  /** `ws[i + 1]` follows `ws[i]` by the step `es[i]`, from a daemon just started. */
  ghost predicate Trace(ws: seq<World>, es: seq<Step>) {
    && |ws| == |es| + 1 && Initial(ws[0])
    && forall i :: 0 <= i < |es| ==> Follows(ws[i], es[i], ws[i + 1])
  }

  ghost predicate Follows(w: World, e: Step, w': World) {
    WellSized(w) && Possible(w, e) && w' == Next(w, e)
  }

  lemma InitialStrong(w: World)
    requires Initial(w)
    ensures Strong(w) && NoneClosing(w)
  {
  }

  /** Every reachable state, whatever the clients send. */
  lemma {:induction false} AlwaysWeak(ws: seq<World>, es: seq<Step>, i: nat)
    requires Trace(ws, es) && i < |ws|
    ensures Weak(ws[i]) && NoneClosing(ws[i])
  {
    hide Weak, Strong, NoneClosing, Next, Possible, Initial;
    if i == 0 {
      InitialStrong(ws[0]);
      StrongIsWeak(ws[0]);
    } else {
      AlwaysWeak(ws, es, i - 1);
      assert Follows(ws[i - 1], es[i - 1], ws[i]);
      StepKeeps(ws[i - 1], es[i - 1]);
      NoneClosingKept(ws[i - 1], es[i - 1]);
    }
  }

  /** No hello so far succeeded on a connection with an open stream. */
  ghost predicate Orderly(ws: seq<World>, es: seq<Step>, n: nat)
    requires Trace(ws, es) && n <= |es|
  {
    forall i :: 0 <= i < n ==> WellSized(ws[i]) && !HelloWhileOpen(ws[i], es[i])
  }

  lemma {:induction false} AlwaysStrong(ws: seq<World>, es: seq<Step>, n: nat)
    requires Trace(ws, es) && n <= |es| && Orderly(ws, es, n)
    ensures Strong(ws[n]) && NoneClosing(ws[n])
  {
    hide Weak, Strong, NoneClosing, Next, Possible, Initial, HelloWhileOpen;
    if n == 0 {
      InitialStrong(ws[0]);
    } else {
      AlwaysStrong(ws, es, n - 1);
      assert Follows(ws[n - 1], es[n - 1], ws[n]);
      StepKeeps(ws[n - 1], es[n - 1]);
      NoneClosingKept(ws[n - 1], es[n - 1]);
    }
  }

  /** A hello succeeds only on a connection that has not said hello before. */
  predicate FirstHello(w: World, e: Step)
    requires WellSized(w)
  {
    e.Command? && e.s < MAX_SESSIONS && e.request.Hello? && !e.request.problem.Value? ==>
      w.sessions[e.s].phase == AwaitHello
  }

  /** One successful hello per connection is enough. */
  lemma {:induction false} OneHelloEach(ws: seq<World>, es: seq<Step>, n: nat)
    requires Trace(ws, es) && n <= |es|
    requires forall i :: 0 <= i < n ==> WellSized(ws[i]) && FirstHello(ws[i], es[i])
    ensures Orderly(ws, es, n) && Strong(ws[n])
  {
    hide Strong, Next, Possible, Initial, Held;
    forall i | 0 <= i < n
      ensures !HelloWhileOpen(ws[i], es[i])
    {
      AlwaysWeak(ws, es, i);
      assert FirstHello(ws[i], es[i]);
      if es[i].Command? && es[i].s < MAX_SESSIONS {
        assert SessionOk(ws[i].sessions[es[i].s], es[i].s == ws[i].owner);
      }
    }
    AlwaysStrong(ws, es, n);
  }

  // ---- Stretches of a run -------------------------------------------------------------

  ghost predicate Chain(ws: seq<World>, es: seq<Step>) {
    |ws| == |es| + 1 && forall i :: 0 <= i < |es| ==> Follows(ws[i], es[i], ws[i + 1])
  }

  lemma Join(us: seq<World>, ds: seq<Step>, vs: seq<World>, cs: seq<Step>)
    requires Chain(us, ds) && Chain(vs, cs) && us[|ds|] == vs[0]
    ensures Chain(us + vs[1..], ds + cs) && (us + vs[1..])[|ds| + |cs|] == vs[|cs|]
  {
    hide Follows;
    var ws, es := us + vs[1..], ds + cs;
    forall i | 0 <= i < |es|
      ensures Follows(ws[i], es[i], ws[i + 1])
    {
      if i < |ds| {
        assert Follows(us[i], ds[i], us[i + 1]);
      } else {
        assert Follows(vs[i - |ds|], cs[i - |ds|], vs[i - |ds| + 1]);
      }
    }
  }

  lemma OneStep(w: World, e: Step)
    requires WellSized(w) && Possible(w, e)
    ensures Chain([w, Next(w, e)], [e])
  {
    hide Next, Possible;
  }

  lemma FirstConnects(w: World)
    requires Initial(w)
    ensures Next(w, Connect) == w.(sessions := w.sessions[0 := NEW_SESSION])
  {
    hide FirstFree, Handle, DoDestroy, VitaSender.Callback;
    assert w.sessions[0] == FREE_SESSION;
    var _ := FirstFree(w.sessions);
    assert w.logs == w.logs[0 := []];
  }
}
