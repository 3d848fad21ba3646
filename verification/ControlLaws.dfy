/** Which operation undoes which, what a disconnect leaves behind, and what goes wrong after a
    hello on an open stream. */
module ControlLaws {
  import opened ControlPlane
  import opened ControlInvariants
  import opened ControlStreams
  import Radio
  import VitaSender

  function LastMessage(log: seq<Message>): Message {
    if log == [] then Done else log[|log| - 1]
  }

  // ---- Undoing ------------------------------------------------------------------------

  /** start_rx answers Done and streams, or DeviceError and leaves everything as it was; it never
      runs out of VITA slots. */
  lemma StartRxOutcome(w: World, s: nat, env: Env)
    requires Strong(w) && s < MAX_SESSIONS && w.sessions[s].phase == StreamOpen
    ensures var w' := DoStartRx(w, s, Id(w.sessions[s].streamId), env);
            var k := VitaSender.Free(w.slots);
            && k >= 0 && w'.owner == w.owner
            && (if env.threadOk then
                  && w'.sessions == w.sessions[s := w.sessions[s].(phase := Streaming, token := k)]
                  && w'.slots == w.slots[k := w'.slots[k]] && w'.slots[k].active
                  && w'.radio == w.radio.(streams := 1, running := true)
                  && LastMessage(w'.logs[s]) == StreamState(true)
                else
                  && w'.sessions == w.sessions && w'.radio == w.radio
                  && w'.slots == w.slots[k := VitaSender.FREE_SLOT]
                  && LastMessage(w'.logs[s]) == Error(DeviceError))
  {
    hide VitaSender.Add, VitaSender.Free, Offers, Weak;
    OwnerIdle(w, s);
    var t := w.sessions[s];
    AddUse(w.slots, w.cfg.contextEnabled, t.streamId, Radio.Format(w.radio.mode), w.radio.gain, env.epoch,
        w.radio.rate);
  }

  /** An owner that is not streaming: no slot is in use and the reader is stopped. */
  lemma OwnerIdle(w: World, s: nat)
    requires Strong(w) && s < MAX_SESSIONS && w.sessions[s].phase == StreamOpen
    ensures WellSized(w) && w.owner == s && w.sessions[s].live && w.sessions[s].streamOpen && w.sessions[s].token == -1
    ensures w.radio.streams == 0 && !w.radio.running
    ensures forall k :: 0 <= k < |w.slots| ==> !w.slots[k].active
    ensures VitaSender.Free(w.slots) >= 0
  {
    WeakAt(w, s);
    assert !w.slots[0].active;
  }

  /** stop_rx takes back what start_rx did. */
  lemma StartStopUndo(w: World, s: nat, env: Env)
    requires Strong(w) && s < MAX_SESSIONS && w.sessions[s].phase == StreamOpen
    ensures var id := Id(w.sessions[s].streamId);
            var w' := DoStopRx(DoStartRx(w, s, id, env), s, id);
            && w'.sessions == w.sessions && w'.radio == w.radio && w'.owner == w.owner && w'.counter == w.counter
            && w'.slots == w.slots[VitaSender.Free(w.slots) := VitaSender.FREE_SLOT]
  {
    hide VitaSender.Add, VitaSender.Free, Offers, Weak, Strong, Reply, DoStartRx;
    OwnerIdle(w, s);
    StartRxOutcome(w, s, env);
    var w1 := DoStartRx(w, s, Id(w.sessions[s].streamId), env);
    if env.threadOk {
      assert w1.slots[VitaSender.Free(w.slots) := VitaSender.FREE_SLOT]
          == w.slots[VitaSender.Free(w.slots) := VitaSender.FREE_SLOT];
    }
  }

  /** close_stream takes back what open_stream did, whether or not it was streaming. */
  lemma OpenCloseUndo(w: World, s: nat, env: Env, start: bool)
    requires Strong(w) && s < MAX_SESSIONS && w.sessions[s].live && w.sessions[s].phase == Idle && w.owner == -1
    ensures var w1 := DoOpenStream(w, s, Rx(false), Missing);
            var id := Id(w1.counter);
            var w2 := if start then DoStartRx(w1, s, id, env) else w1;
            var w' := DoCloseStream(w2, s, id);
            && w'.sessions == w.sessions && w'.owner == w.owner && w'.radio == w.radio
            && (forall k :: 0 <= k < |w'.slots| ==> !w'.slots[k].active)
  {
    hide Strong, DoOpenStream, DoStartRx, DoCloseStream, Offers;
    StrongIsWeak(w);
    WeakAt(w, s);
    OpensAs(w, s);
    OpenKeeps(w, s, Rx(false), Missing);
    var w1 := DoOpenStream(w, s, Rx(false), Missing);
    OwnerIdle(w1, s);
    if start {
      StartRxOutcome(w1, s, env);
      StartKeeps(w1, s, Id(w1.counter), env);
      ClosesAs(DoStartRx(w1, s, Id(w1.counter), env), s);
    } else {
      ClosesAs(w1, s);
    }
  }

  lemma OpensAs(w: World, s: nat)
    requires WellSized(w) && s < MAX_SESSIONS && w.owner == -1 && !w.sessions[s].streamOpen
    ensures var w' := DoOpenStream(w, s, Rx(false), Missing);
            && w'.owner == s && w'.slots == w.slots && w'.radio == w.radio
            && w'.sessions == w.sessions[s := w.sessions[s].(ownsRx := true, streamOpen := true, phase := StreamOpen,
                 streamId := w'.counter)]
  {
    hide Broadcast, Reply;
  }

  lemma ClosesAs(w: World, s: nat)
    requires Strong(w) && s < MAX_SESSIONS && w.owner == s && w.sessions[s].live
    ensures var t := w.sessions[s];
            var w' := DoCloseStream(w, s, Id(t.streamId));
            && w'.owner == -1 && (forall k :: 0 <= k < |w'.slots| ==> !w'.slots[k].active)
            && w'.sessions == w.sessions[s := t.(phase := Idle, streamOpen := false, ownsRx := false, streamId := 0,
                 token := -1)]
            && w'.radio == w.radio.(streams := 0, running := false)
  {
    hide Broadcast, Reply, Offers;
    WeakAt(w, s);
    assert Held(w.sessions[s], w.slots);
  }

  /** A direct_sampling change that is carried out finds no VITA slot in use and the reader stopped,
      whoever asks. */
  lemma ModeChangeFindsNoStream(w: World, s: nat, to: Address, mode: Radio.Mode, env: Env)
    requires Strong(w) && s < MAX_SESSIONS
    requires DoSetControl(w, s, to, DirectSampling(Value(Value(mode))), env).radio.mode != w.radio.mode
    ensures w.owner == -1 && !w.radio.running && forall k :: 0 <= k < |w.slots| ==> !w.slots[k].active
  {
    hide Reply, Broadcast, Offers, ModeSideEffects, Weak;
    StrongIsWeak(w);
    WeakAt(w, s);
    NobodyOwns(w);
  }

  /** A disconnect takes exactly what the connection held: the owner's leaves rx free, every slot
      unused and the reader stopped; any other leaves owner, slots and reader alone. */
  lemma DisconnectFrees(w: World, s: nat, biasOk: bool)
    requires Strong(w) && s < MAX_SESSIONS && w.sessions[s].live
    ensures var w' := DoDestroy(w, s, biasOk);
            && w'.sessions == w.sessions[s := FREE_SESSION]
            && (if w.owner == s then
                  w'.owner == -1 && !w'.radio.running && forall k :: 0 <= k < |w'.slots| ==> !w'.slots[k].active
                else
                  w'.owner == w.owner && w'.slots == w.slots && w'.radio == w.radio.(bias := w'.radio.bias))
  {
    hide Broadcast, Offers, Strong, Weak;
    StrongIsWeak(w);
    WeakAt(w, s);
    DestroyKeeps(w, s, biasOk);
    if w.owner == s {
      NobodyOwns(DoDestroy(w, s, biasOk));
    }
  }

  lemma NobodyOwns(w: World)
    requires Strong(w) && w.owner == -1
    ensures !w.radio.running && forall k :: 0 <= k < |w.slots| ==> !w.slots[k].active
  {
  }

  // ---- What a hello on an open stream leads to ----------------------------------------

  /** hello, start_rx and close_stream on a streaming connection: rx is free again, but the reader
      runs on and the first VITA slot keeps sending with no connection that could stop it. */
  lemma HelloLeaks(w: World, s: nat, env: Env) returns (ws: seq<World>, es: seq<Step>)
    requires Strong(w) && NoneClosing(w) && s < MAX_SESSIONS && w.sessions[s].phase == Streaming && !w.cfg.rxAuth
    ensures |es| == 3 && |ws| == 4 && ws[0] == w && Chain(ws, es)
    ensures var w' := ws[3];
            var k := w.sessions[s].token;
            && WellSized(w') && w'.owner == -1 && w'.radio.running && w'.radio.streams == 1
            && 0 <= k < |w'.slots| && w'.slots[k].active
            && forall i :: 0 <= i < MAX_SESSIONS && w'.sessions[i].live ==> w'.sessions[i].token == -1
  {
    hide VitaSender.Free, Offers, Weak, Broadcast, Reply, Handle;
    StrongIsWeak(w);
    WeakAt(w, s);
    var id := Id(w.sessions[s].streamId);
    es := [Command(s, Hello(Missing), env), Command(s, StartRx(id), env), Command(s, CloseStream(id), env)];
    var k := HeldSlot(w, s);
    HelloNext(w, s, env);
    var w1 := Next(w, es[0]);
    StartNext(w1, s, env);
    var w2 := Next(w1, es[1]);
    CloseNext(w2, s, env);
    ws := [w, w1, w2, Next(w2, es[2])];
    forall i | 0 <= i < MAX_SESSIONS && i != s && w.sessions[i].live
      ensures w.sessions[i].token == -1
    {
      WeakAt(w, i);
    }
  }

  lemma HelloNext(w: World, s: nat, env: Env)
    requires WellSized(w) && Possible(w, Command(s, Hello(Missing), env)) && !w.cfg.rxAuth
             && !w.sessions[s].auth.closing
    ensures var w' := Next(w, Command(s, Hello(Missing), env));
            w' == w.(sessions := w.sessions[s := w.sessions[s].(phase := Idle)], logs := w'.logs, clock := env.now)
  {
    hide Reply, Offers, Next, Dispatch;
    DispatchIs(w, s, Hello(Missing), env);
    PlainNext(w, s, Hello(Missing), env, DoHello(w, s, Missing, env));
  }

  /** start_rx on an open stream that is not streaming by its state. */
  lemma StartNext(w: World, s: nat, env: Env)
    requires WellSized(w) && s < MAX_SESSIONS && w.sessions[s].live
    requires !w.cfg.rxAuth && !w.sessions[s].auth.closing && VitaSender.Free(w.slots) >= 0
    requires w.sessions[s].phase in {Idle, StreamOpen} && w.sessions[s].streamOpen
             && Radio.Starts(w.radio, env.threadOk)
    ensures var k := VitaSender.Free(w.slots);
            var w' := Next(w, Command(s, StartRx(Id(w.sessions[s].streamId)), env));
            && w'.owner == w.owner && w'.slots == w.slots[k := w'.slots[k]] && w'.slots[k].active && w'.cfg == w.cfg
            && w'.sessions == w.sessions[s := w.sessions[s].(phase := Streaming, token := k)]
            && w'.radio == Radio.Start(w.radio, env.threadOk)
  {
    hide VitaSender.Add, VitaSender.Free, Offers, Reply, Radio.Start, Radio.Starts, Next, Dispatch;
    var q := StartRx(Id(w.sessions[s].streamId));
    DispatchIs(w, s, q, env);
    PlainNext(w, s, q, env, DoStartRx(w, s, q.id, env));
    AddUse(w.slots, w.cfg.contextEnabled, w.sessions[s].streamId, Radio.Format(w.radio.mode), w.radio.gain,
        env.epoch, w.radio.rate);
  }

  lemma CloseNext(w: World, s: nat, env: Env)
    requires WellSized(w) && s < MAX_SESSIONS && w.sessions[s].live
    requires !w.cfg.rxAuth && !w.sessions[s].auth.closing && w.owner == s
    requires w.sessions[s].phase == Streaming && w.sessions[s].streamOpen && 0 <= w.sessions[s].token < |w.slots|
    ensures var t := w.sessions[s];
            var w' := Next(w, Command(s, CloseStream(Id(t.streamId)), env));
            && w'.owner == -1 && w'.slots == w.slots[t.token := VitaSender.FREE_SLOT] && w'.radio == Radio.Stop(w.radio)
            && w'.sessions == w.sessions[s := t.(phase := Idle, streamOpen := false, ownsRx := false, streamId := 0,
                 token := -1)]
  {
    hide DoCloseStream, Radio.Stop, Next, Dispatch;
    CloseEffect(w, s);
    var q := CloseStream(Id(w.sessions[s].streamId));
    DispatchIs(w, s, q, env);
    PlainNext(w, s, q, env, DoCloseStream(w, s, q.id));
  }

  lemma CloseEffect(w: World, s: nat)
    requires WellSized(w) && s < MAX_SESSIONS && w.owner == s
    requires w.sessions[s].phase == Streaming && w.sessions[s].streamOpen && 0 <= w.sessions[s].token < |w.slots|
    ensures var t := w.sessions[s];
            var w' := DoCloseStream(w, s, Id(t.streamId));
            && w'.owner == -1 && w'.slots == w.slots[t.token := VitaSender.FREE_SLOT] && w'.radio == Radio.Stop(w.radio)
            && w'.sessions == w.sessions[s := t.(phase := Idle, streamOpen := false, ownsRx := false, streamId := 0,
                 token := -1)]
  {
    hide Offers, Reply, Broadcast, Radio.Stop;
  }

  lemma HeldSlot(w: World, s: nat) returns (k: nat)
    requires Strong(w) && s < MAX_SESSIONS && w.sessions[s].phase == Streaming
    ensures WellSized(w) && w.sessions[s].live && w.owner == s && w.sessions[s].streamOpen
    ensures k == w.sessions[s].token < |w.slots| && w.slots[k].active && w.radio.streams == 1 && w.radio.running
    ensures 0 <= VitaSender.Free(w.slots) && VitaSender.Free(w.slots) != k
  {
    hide VitaSender.Free;
    WeakAt(w, s);
    assert Held(w.sessions[s], w.slots);
    k := w.sessions[s].token;
    var other := if k == 0 then 1 else 0;
    assert !w.slots[other].active;
  }

  /** A client gets there from a daemon just started: connect, hello, open_stream, start_rx. */
  lemma StreamingRun(w: World, env: Env) returns (ws: seq<World>, es: seq<Step>)
    requires Initial(w) && !w.cfg.rxAuth && env.threadOk
    ensures Trace(ws, es) && Orderly(ws, es, |es|) && ws[0] == w
    ensures WellSized(ws[|es|]) && ws[|es|].cfg == w.cfg
    ensures ws[|es|].sessions[0].phase == Streaming
  {
    hide VitaSender.Free, Offers, Broadcast, Reply, Handle;
    var w1 := Next(w, Connect);
    FirstConnects(w);
    var hello := Command(0, Hello(Missing), env);
    HelloNext(w1, 0, env);
    var w2 := Next(w1, hello);
    var open := Command(0, OpenStream(Rx(false), Missing), env);
    OpenNext(w2, env);
    var w3 := Next(w2, open);
    var start := Command(0, StartRx(Id(w3.sessions[0].streamId)), env);
    assert !w3.slots[0].active;
    StartNext(w3, 0, env);
    es := [Connect, hello, open, start];
    ws := [w, w1, w2, w3, Next(w3, start)];
  }

  lemma OpenNext(w: World, env: Env)
    requires WellSized(w) && w.sessions[0] == NEW_SESSION.(phase := Idle) && !w.cfg.rxAuth && w.owner == -1
    ensures var w' := Next(w, Command(0, OpenStream(Rx(false), Missing), env));
            && w'.slots == w.slots && w'.radio == w.radio && w'.cfg == w.cfg
            && w'.sessions == w.sessions[0 := NEW_SESSION.(phase := StreamOpen, ownsRx := true, streamOpen := true,
                                                          streamId := w'.sessions[0].streamId)]
  {
    hide Offers, Reply, Broadcast, Next, Dispatch;
    var q := OpenStream(Rx(false), Missing);
    DispatchIs(w, 0, q, env);
    PlainNext(w, 0, q, env, DoOpenStream(w, 0, Rx(false), Missing));
  }

  /** The whole run: at its end nobody owns rx, no connection holds a slot, and a slot is in use. */
  lemma LeakRun(w: World, env: Env) returns (ws: seq<World>, es: seq<Step>)
    requires Initial(w) && !w.cfg.rxAuth && env.threadOk
    ensures Trace(ws, es) && ws[0] == w
    ensures var w' := ws[|es|];
            && WellSized(w') && w'.owner == -1 && w'.radio.running
            && (exists k :: 0 <= k < |w'.slots| && w'.slots[k].active)
            && !Strong(w')
  {
    hide Weak, Initial, HelloWhileOpen, Next;
    var us, ds := StreamingRun(w, env);
    AlwaysStrong(us, ds, |ds|);
    var vs, cs := HelloLeaks(us[|ds|], 0, env);
    Join(us, ds, vs, cs);
    es := ds + cs;
    ws := us + vs[1..];
    var k := us[|ds|].sessions[0].token;
    assert ws[|es|] == vs[3] && ws[|es|].slots[k].active;
  }
}
