/** The datagrams that leave the daemon: which bytes each step hands to the sockets, and what a
    receiver makes of them over a run. */
module ControlDatagrams {
  import opened Basics
  import opened Bytes
  import opened VitaPacket
  import opened ControlPlane
  import opened ControlWire
  import ControlInvariants
  import Radio
  import VitaSender

  /** For each VITA slot, the datagrams sent for it. */
  type Outbox = seq<seq<seq<u8>>>

  function Silent(): (out: Outbox)
    ensures |out| == VitaSender.MAX_SLOTS && forall k :: 0 <= k < |out| ==> out[k] == []
  {
    seq(VitaSender.MAX_SLOTS, _ => [])
  }

  /** Slot by slot, the bytes of exactly what `b` has logged beyond `a`. */
  ghost predicate Emitted(a: seq<VitaSender.Slot>, b: seq<VitaSender.Slot>, out: Outbox) {
    |a| == |b| == |out| && forall k :: 0 <= k < |a| ==> VitaSender.Emits(a[k], b[k], out[k])
  }

  lemma SilentEmits(slots: seq<VitaSender.Slot>)
    requires |slots| == VitaSender.MAX_SLOTS
    ensures Emitted(slots, slots, Silent())
  {
    hide VitaSender.Emits;
    forall k | 0 <= k < |slots|
      ensures VitaSender.Emits(slots[k], slots[k], Silent()[k])
    {
      VitaSender.EmitsNothing(slots[k]);
    }
  }

  // ---- One step -----------------------------------------------------------------------

  /** The command comes to put a slot to use; its first context packet is sent even if the reader then
      does not start and the slot is given back. */
  predicate Adds(w: World, s: nat, q: Request)
    requires WellSized(w) && s < MAX_SESSIONS
  {
    q.StartRx? && Names(w.sessions[s], q.id) && w.sessions[s].phase != Streaming && VitaSender.Free(w.slots) >= 0
  }

  /** The slots with the new one in use. */
  function Added(w: World, s: nat, env: Env): seq<VitaSender.Slot>
    requires WellSized(w) && s < MAX_SESSIONS
  {
    VitaSender.Add(w.slots, w.cfg.contextEnabled, w.sessions[s].streamId, Radio.Format(w.radio.mode), w.radio.gain,
                   env.epoch, w.radio.rate)
  }

  /** What a handler sends. */
  ghost predicate Answers(w: World, s: nat, q: Request, env: Env, out: Outbox)
    requires WellSized(w) && s < MAX_SESSIONS
  {
    if Adds(w, s, q) then Emitted(w.slots[VitaSender.Free(w.slots) := VitaSender.FREE_SLOT], Added(w, s, env), out)
    else if q.SetControl? then Emitted(w.slots, Dispatch(w, s, q, env).slots, out)
    else out == Silent()
  }

  /** What a step sends. */
  ghost predicate Outgoing(w: World, e: Step, out: Outbox)
    requires WellSized(w) && Possible(w, e)
  {
    match e
    case Usb(_) => Emitted(w.slots, Next(w, e).slots, out)
    case Command(s, q, env) =>
      if TooEarly(w.sessions[s], q) || Locked(w.cfg, w.sessions[s], q) then out == Silent()
      else Answers(w, s, q, env, out)
    case _ => out == Silent()
  }

  /** Slot `k` is as it was, or given back. */
  predicate KeptOrFreed(a: seq<VitaSender.Slot>, b: seq<VitaSender.Slot>, k: nat)
    requires k < |a| && k < |b|
  {
    b[k].active ==> b[k] == a[k]
  }

  lemma DestroyFrees(w: World, s: nat, biasOk: bool, k: nat)
    requires WellSized(w) && s < MAX_SESSIONS && k < VitaSender.MAX_SLOTS
    ensures KeptOrFreed(w.slots, DoDestroy(w, s, biasOk).slots, k)
  {
    hide Broadcast, Offers;
  }

  lemma Freed(w: World, s: nat, w': World, k: nat)
    requires WellSized(w) && WellSized(w') && s < MAX_SESSIONS && k < VitaSender.MAX_SLOTS
    requires w'.slots == w.slots || w'.slots == DropToken(w, s).slots
    ensures KeptOrFreed(w.slots, w'.slots, k)
  {
  }

  /** All commands but set_control leave a slot in use alone, or give it back. */
  lemma DispatchFrees(w: World, s: nat, q: Request, env: Env, k: nat)
    requires WellSized(w) && s < MAX_SESSIONS && k < VitaSender.MAX_SLOTS && !q.SetControl? && w.slots[k].active
    ensures KeptOrFreed(w.slots, Dispatch(w, s, q, env).slots, k)
  {
    hide Dispatch, Offers, Reply, Broadcast, DropToken, Radio.Format, VitaSender.SendContext, VitaSender.NewSlot;
    ControlInvariants.DispatchIs(w, s, q, env);
    match q
    case StartRx(id) =>
    case StopRx(id) => Removals(w, s); Freed(w, s, DoStopRx(w, s, id), k);
    case CloseStream(id) => Removals(w, s); Freed(w, s, DoCloseStream(w, s, id), k);
    case _ => QuietWire(w, s, q, env);
  }

  /** A slot in use before and after a step: its datagrams are what it logged meanwhile. */
  lemma StepEmits(w: World, e: Step, out: Outbox, k: nat)
    requires WellSized(w) && Possible(w, e) && Outgoing(w, e, out) && k < VitaSender.MAX_SLOTS
    requires w.slots[k].active && Next(w, e).slots[k].active
    ensures |out| == VitaSender.MAX_SLOTS && VitaSender.Emits(w.slots[k], Next(w, e).slots[k], out[k])
  {
    hide Dispatch, DoDestroy, DoConnect, Reply, VitaSender.Emits, VitaSender.Callback, Added, KeptOrFreed;
    SilentEmits(w.slots);
    match e
    case Usb(_) =>
    case Connect => ConnectSlots(w);
    case Disconnect(s, biasOk) =>
      DestroyFrees(w, s, biasOk, k);
      Still(w.slots, DoDestroy(w, s, biasOk).slots, k);
    case Command(s, q, env) =>
      var w1 := Handle(w, s, q, env).(clock := env.now);
      DestroyFrees(w1, s, env.biasOk, k);
      Still(w1.slots, Next(w, e).slots, k);
      if !TooEarly(w.sessions[s], q) && !Locked(w.cfg, w.sessions[s], q) && !q.SetControl? {
        DispatchFrees(w, s, q, env, k);
        Still(w.slots, w1.slots, k);
        AddsElsewhere(w, s, env, k);
      }
  }

  lemma ConnectSlots(w: World)
    requires WellSized(w)
    ensures DoConnect(w).slots == w.slots
  {
  }

  lemma Still(a: seq<VitaSender.Slot>, b: seq<VitaSender.Slot>, k: nat)
    requires k < |a| && k < |b| && (a == b || KeptOrFreed(a, b, k)) && b[k].active
    ensures b[k] == a[k]
  {
  }

  lemma AddsElsewhere(w: World, s: nat, env: Env, k: nat)
    requires WellSized(w) && s < MAX_SESSIONS && k < VitaSender.MAX_SLOTS && w.slots[k].active
    ensures var f := VitaSender.Free(w.slots);
            f >= 0 ==> f != k && |Added(w, s, env)| == VitaSender.MAX_SLOTS && Added(w, s, env)[k] == w.slots[k]
  {
    hide VitaSender.SendContext, VitaSender.NewSlot, Radio.Format;
  }

  // ---- Runs ---------------------------------------------------------------------------

  /** All that was sent for slot `k` in the steps from `i` up to `j`. */
  ghost function Stream(outs: seq<Outbox>, k: nat, i: nat, j: nat): seq<seq<u8>>
    requires i <= j <= |outs|
  {
    if i == j then [] else Stream(outs, k, i, j - 1) + if k < |outs[j - 1]| then outs[j - 1][k] else []
  }

  ghost predicate Sending(ws: seq<World>, es: seq<Step>, outs: seq<Outbox>) {
    && ControlInvariants.Trace(ws, es) && |outs| == |es|
    && forall i :: 0 <= i < |outs| ==> SendsAt(ws[i], es[i], outs[i])
  }

  ghost predicate SendsAt(w: World, e: Step, out: Outbox) {
    WellSized(w) && Possible(w, e) && Outgoing(w, e, out) && |out| == VitaSender.MAX_SLOTS
  }

  lemma {:induction false} HeardJoins(a: seq<seq<u8>>, b: seq<seq<u8>>)
    ensures VitaSender.Heard(a + b) == VitaSender.Heard(a) + VitaSender.Heard(b)
    decreases |b|
  {
    hide Decode;
    if b == [] {
      assert a + b == a;
    } else {
      HeardJoins(a, b[..|b| - 1]);
      assert (a + b)[..|a + b| - 1] == a + b[..|b| - 1];
    }
  }

  lemma {:induction false} PayloadsJoin(a: seq<VitaSender.Sent>, b: seq<VitaSender.Sent>)
    ensures VitaSender.Payloads(a + b) == VitaSender.Payloads(a) + VitaSender.Payloads(b)
    decreases |b|
  {
    if b == [] {
      assert a + b == a;
    } else {
      PayloadsJoin(a, b[..|b| - 1]);
      assert (a + b)[..|a + b| - 1] == a + b[..|b| - 1];
    }
  }

  /** The sample bytes in what one step sends for a slot are those it logged. */
  lemma EmitsHeard(s: VitaSender.Slot, t: VitaSender.Slot, out: seq<seq<u8>>)
    requires VitaSender.Emits(s, t, out)
    ensures VitaSender.Payloads(t.wire) == VitaSender.Payloads(s.wire) + VitaSender.Heard(out)
  {
    hide VitaSender.Payloads, VitaSender.Heard, VitaSender.Datagrams;
    var more := t.wire[|s.wire|..];
    assert t.wire == s.wire + more;
    PayloadsJoin(s.wire, more);
    VitaSender.HeardIsSent(more);
  }

  /** For every run and every stretch of it through which a slot stays in use: a receiver of the very
      datagrams the daemon sent for it decodes exactly the sample bytes the radio delivered. */
  lemma {:induction false} SentIsDelivered(ws: seq<World>, es: seq<Step>, outs: seq<Outbox>, k: nat, i: nat, j: nat)
    requires |ws| == |es| + 1 && |outs| == |es| && Sending(ws, es, outs) && i <= j <= |es| && k < VitaSender.MAX_SLOTS
    requires forall m :: i <= m <= j ==> WellSized(ws[m]) && ws[m].slots[k].active
    ensures VitaSender.Heard(Stream(outs, k, i, j)) == Stretch(ws, es, i, j)
    decreases j
  {
    hide WireAt, Next, Possible, Initial, Outgoing, VitaSender.Payloads, VitaSender.Heard, VitaSender.Emits, Delivered;
    assert forall m :: 0 <= m < |outs| ==> SendsAt(ws[m], es[m], outs[m]);
    if i < j {
      SentIsDelivered(ws, es, outs, k, i, j - 1);
      var w, w', out := ws[j - 1], ws[j], outs[j - 1];
      AlwaysWire(ws, es, j - 1);
      assert ControlInvariants.Follows(w, es[j - 1], w') && SendsAt(w, es[j - 1], out);
      StepSends(w, es[j - 1]);
      assert SentAt(w.slots[k], w'.slots[k], Delivered(w, es[j - 1]));
      StepEmits(w, es[j - 1], out, k);
      EmitsHeard(w.slots[k], w'.slots[k], out[k]);
      SameTail(VitaSender.Payloads(w.slots[k].wire), VitaSender.Heard(out[k]), Delivered(w, es[j - 1]));
      HeardJoins(Stream(outs, k, i, j - 1), out[k]);
    } else {
      NothingHeard();
    }
  }

  lemma NothingHeard()
    ensures VitaSender.Heard([]) == []
  {
  }

  lemma SameTail(a: seq<u8>, b: seq<u8>, c: seq<u8>)
    requires a + b == a + c
    ensures b == c
  {
    assert b == (a + b)[|a|..] && c == (a + c)[|a|..];
  }
}
