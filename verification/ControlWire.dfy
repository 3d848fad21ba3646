/** What goes out on the wire over every run: each VITA slot keeps its packet discipline, its
    receiver always knows the present gain and format, and no sample byte is lost or repeated. */
module ControlWire {
  import opened Basics
  import opened Bytes
  import opened VitaPacket
  import opened ControlPlane
  import ControlInvariants
  import Radio
  import VitaSender
  import AuthMachine

  predicate WireAt(w: World, k: nat)
    requires k < |w.slots|
  {
    && VitaSender.SlotOk(w.slots[k], w.cfg.contextEnabled)
    && VitaSender.Current(w.slots[k], w.cfg.contextEnabled, w.radio.gain, Radio.Format(w.radio.mode))
  }

  ghost predicate WireOk(w: World) {
    WellSized(w) && forall k :: 0 <= k < VitaSender.MAX_SLOTS ==> WireAt(w, k)
  }

  /** A slot in use before and after has sent exactly `bytes` more. */
  predicate SentAt(s: VitaSender.Slot, t: VitaSender.Slot, bytes: seq<u8>) {
    s.active && t.active ==> VitaSender.Payloads(t.wire) == VitaSender.Payloads(s.wire) + bytes
  }

  ghost predicate Sends(w: World, w': World, bytes: seq<u8>) {
    && WellSized(w) && WellSized(w') && WireOk(w')
    && forall k :: 0 <= k < VitaSender.MAX_SLOTS ==> SentAt(w.slots[k], w'.slots[k], bytes)
  }

  // ---- Changes to the table -----------------------------------------------------------

  lemma SameWire(w: World, w': World)
    requires WireOk(w) && WellSized(w') && w'.slots == w.slots && w'.cfg == w.cfg
    requires w'.radio.gain == w.radio.gain && Radio.Format(w'.radio.mode) == Radio.Format(w.radio.mode)
    ensures Sends(w, w', [])
  {
    hide VitaSender.SlotOk, VitaSender.Current, VitaSender.Payloads;
    forall k | 0 <= k < VitaSender.MAX_SLOTS
      ensures WireAt(w', k) && SentAt(w.slots[k], w'.slots[k], [])
    {
      assert WireAt(w, k);
    }
  }

  /** One slot is put to use, or released. */
  lemma OneSlot(w: World, k: nat, t: VitaSender.Slot, w': World)
    requires WireOk(w) && WellSized(w') && k < VitaSender.MAX_SLOTS && w'.slots == w.slots[k := t] && w'.cfg == w.cfg
    requires w'.radio.gain == w.radio.gain && w'.radio.mode == w.radio.mode
    requires VitaSender.SlotOk(t, w.cfg.contextEnabled)
    requires VitaSender.Current(t, w.cfg.contextEnabled, w.radio.gain, Radio.Format(w.radio.mode))
    requires !w.slots[k].active || !t.active
    ensures Sends(w, w', [])
  {
    hide VitaSender.SlotOk, VitaSender.Current, VitaSender.Payloads;
    forall i | 0 <= i < VitaSender.MAX_SLOTS
      ensures WireAt(w', i) && SentAt(w.slots[i], w'.slots[i], [])
    {
      assert WireAt(w, i);
    }
  }

  lemma Released(w: World, token: int, w': World)
    requires WireOk(w) && WellSized(w') && w'.slots == VitaSender.Remove(w.slots, token) && w'.cfg == w.cfg
    requires w'.radio.gain == w.radio.gain && w'.radio.mode == w.radio.mode
    ensures Sends(w, w', [])
  {
    if 0 <= token < |w.slots| {
      OneSlot(w, token, VitaSender.FREE_SLOT, w');
    } else {
      SameWire(w, w');
    }
  }

  lemma Context(s: VitaSender.Slot, enabled: bool, gain: int, format: u32)
    requires VitaSender.SlotOk(s, enabled) && (s.active ==> s.format == format)
    ensures var t := VitaSender.SendContext(s, enabled, gain, format);
            VitaSender.SlotOk(t, enabled) && VitaSender.Current(t, enabled, gain, format) && SentAt(s, t, [])
  {
    hide VitaSender.SlotOk, VitaSender.Current, VitaSender.Payloads, RefWord;
    VitaSender.ContextKeeps(s, enabled, gain, format);
    if s.active && enabled {
      var t := VitaSender.SendContext(s, enabled, gain, format);
      var e := t.wire[|s.wire|];
      assert t.wire == s.wire + [e];
      VitaSender.Appended(s.wire, e);
    }
  }

  /** vita_send_context_all after a change of gain or, with the formats updated, of mode. */
  lemma ContextsSend(w: World, w0: World, w': World)
    requires WireOk(w) && WellSized(w0) && WellSized(w') && w0.cfg == w'.cfg == w.cfg && w'.radio == w0.radio
    requires (w0.slots == w.slots && Radio.Format(w0.radio.mode) == Radio.Format(w.radio.mode))
             || w0.slots == VitaSender.SetFormat(w.slots, Radio.Format(w0.radio.mode))
    requires w'.slots == SendContexts(w0).slots
    ensures Sends(w, w', [])
  {
    hide VitaSender.SlotOk, VitaSender.SendContext, VitaSender.Payloads, Radio.Format;
    var f := Radio.Format(w0.radio.mode);
    forall k | 0 <= k < VitaSender.MAX_SLOTS
      ensures WireAt(w', k) && SentAt(w.slots[k], w'.slots[k], [])
    {
      assert WireAt(w, k);
      Reformat(w.slots[k], f, w.cfg.contextEnabled);
      Context(w0.slots[k], w.cfg.contextEnabled, w0.radio.gain, f);
    }
  }

  lemma Reformat(s: VitaSender.Slot, format: u32, enabled: bool)
    requires VitaSender.SlotOk(s, enabled)
    ensures VitaSender.SlotOk(s.(format := format), enabled)
  {
  }

  /** Bytes of a buffer that make whole packets, up to the most one buffer may give. */
  function Whole(buf: seq<u8>): seq<u8> {
    buf[..BYTES_PER_PKT * VitaSender.PacketCount(|buf|)]
  }

  /** Nothing of a buffer is dropped exactly when it is whole packets, and not too many. */
  lemma WholeIff(buf: seq<u8>)
    ensures Whole(buf) == buf <==> |buf| % BYTES_PER_PKT == 0 && |buf| / BYTES_PER_PKT <= VitaSender.MAX_PKTS
  {
    var n := VitaSender.PacketCount(|buf|);
    assert |Whole(buf)| == BYTES_PER_PKT * n;
    if BYTES_PER_PKT * n == |buf| {
      assert Whole(buf) == buf;
    }
  }

  /** What is dropped is less than a packet, and of too long a buffer what is behind 1024 packets. */
  lemma WholeDrops(buf: seq<u8>)
    ensures Whole(buf) <= buf && |Whole(buf)| % BYTES_PER_PKT == 0
    ensures if |buf| / BYTES_PER_PKT <= VitaSender.MAX_PKTS then |buf| - |Whole(buf)| < BYTES_PER_PKT
            else |Whole(buf)| == BYTES_PER_PKT * VitaSender.MAX_PKTS
  {
  }

  lemma CallbackSends(w: World, buf: seq<u8>)
    requires WireOk(w)
    ensures Sends(w, Next(w, Usb(buf)), if w.radio.running then Whole(buf) else [])
  {
    hide VitaSender.SlotOk, VitaSender.Current, VitaSender.Payloads, VitaSender.SendPackets;
    if w.radio.running {
      var w' := Next(w, Usb(buf));
      forall k | 0 <= k < VitaSender.MAX_SLOTS
        ensures WireAt(w', k) && SentAt(w.slots[k], w'.slots[k], Whole(buf))
      {
        assert WireAt(w, k);
        if w.slots[k].active {
          VitaSender.PacketsKeep(w.slots[k], buf, VitaSender.PacketCount(|buf|), w.cfg.contextEnabled,
                                 w.radio.gain, Radio.Format(w.radio.mode));
        }
      }
    } else {
      SameWire(w, w);
    }
  }

  // ---- Handlers -----------------------------------------------------------------------

  lemma ModeSends(w: World, s: nat, mode: Radio.Mode, env: Env)
    requires WireOk(w) && s < MAX_SESSIONS
    ensures Sends(w, DoDirectSampling(w, s, mode, env), [])
  {
    hide WireOk, Sends, Reply, Broadcast, Radio.Format, Radio.Rates, VitaSender.ContextAll, VitaSender.SetFormat;
    Sized(w);
    var w' := DoDirectSampling(w, s, mode, env);
    if mode != w.radio.mode && !w.sessions[s].streamOpen && env.modeOk {
      var w1 := Broadcast(Reply(w.(radio := w.radio.(mode := mode)), s, Done), -1, ModeChanged(mode));
      var v := Rerate(Retune(w1, env), env);
      ContextsSend(w, v.(slots := VitaSender.SetFormat(v.slots, Radio.Format(v.radio.mode))), w');
    } else {
      SameWire(w, w');
    }
  }

  lemma Sized(w: World)
    ensures WireOk(w) ==> WellSized(w)
  {
  }

  lemma SettingSends(w: World, s: nat, setting: Setting, env: Env)
    requires WireOk(w) && s < MAX_SESSIONS
    ensures Sends(w, DoSetting(w, s, setting, env), [])
  {
    hide WireOk, Sends, Reply, Broadcast, Radio.Format, VitaSender.ContextAll, DoDirectSampling;
    Sized(w);
    var w' := DoSetting(w, s, setting, env);
    if w'.slots == w.slots && w'.radio.gain == w.radio.gain && w'.radio.mode == w.radio.mode {
      SameWire(w, w');
    } else if setting.RfGain? {
      ContextsSend(w, w.(radio := w.radio.(gain := env.gainApplied)), w');
    } else if setting.Agc? {
      ContextsSend(w, w.(radio := w.radio.(agc := setting.on.value)), w');
    } else {
      ModeSends(w, s, setting.to.value.value, env);
    }
  }

  lemma StartSends(w: World, s: nat, id: StreamRef, env: Env)
    requires WireOk(w) && s < MAX_SESSIONS
    ensures Sends(w, DoStartRx(w, s, id, env), [])
  {
    hide WireOk, Sends, Reply, Radio.Format, VitaSender.SendContext, VitaSender.Free, VitaSender.SlotOk,
      VitaSender.Current, VitaSender.NewSlot;
    Sized(w);
    var w' := DoStartRx(w, s, id, env);
    var t := w.sessions[s];
    var k := VitaSender.Free(w.slots);
    if !Names(t, id) || t.phase == Streaming || k < 0 {
      SameWire(w, w');
    } else {
      VitaSender.NewSlotKeeps(t.streamId, Radio.Format(w.radio.mode), env.epoch, w.radio.rate, w.cfg.contextEnabled,
          w.radio.gain);
      FreeOk(w.cfg.contextEnabled, w.radio.gain, Radio.Format(w.radio.mode));
      assert w.slots[k := w'.slots[k]] == w'.slots;
      OneSlot(w, k, w'.slots[k], w');
    }
  }

  lemma FreeOk(enabled: bool, gain: int, format: u32)
    ensures VitaSender.SlotOk(VitaSender.FREE_SLOT, enabled)
    ensures VitaSender.Current(VitaSender.FREE_SLOT, enabled, gain, format)
  {
  }

  lemma StopSends(w: World, s: nat, id: StreamRef)
    requires WireOk(w) && s < MAX_SESSIONS
    ensures Sends(w, DoStopRx(w, s, id), [])
  {
    hide WireOk, Sends, Reply, Offers, DropToken;
    Sized(w);
    Removals(w, s);
    Dropped(w, s, DoStopRx(w, s, id));
  }

  lemma CloseSends(w: World, s: nat, id: StreamRef)
    requires WireOk(w) && s < MAX_SESSIONS
    ensures Sends(w, DoCloseStream(w, s, id), [])
  {
    hide WireOk, Sends, Reply, Broadcast, Offers, DropToken;
    Sized(w);
    Removals(w, s);
    Dropped(w, s, DoCloseStream(w, s, id));
  }

  lemma LeaveSends(w: World, s: nat, biasOk: bool)
    requires WireOk(w) && s < MAX_SESSIONS
    ensures Sends(w, DoDestroy(w, s, biasOk), [])
  {
    hide WireOk, Sends, Broadcast, Offers, DropToken;
    Sized(w);
    Removals(w, s);
    Dropped(w, s, DoDestroy(w, s, biasOk));
  }

  lemma Removals(w: World, s: nat)
    requires WellSized(w) && s < MAX_SESSIONS
    ensures var v := DropToken(w, s);
            && v == w.(slots := v.slots, sessions := v.sessions)
            && v.slots == if w.sessions[s].token < 0 then w.slots else VitaSender.Remove(w.slots, w.sessions[s].token)
  {
  }

  lemma Dropped(w: World, s: nat, w': World)
    requires WireOk(w) && WellSized(w') && s < MAX_SESSIONS && w'.cfg == w.cfg
    requires w'.slots == w.slots || w'.slots == DropToken(w, s).slots
    requires w'.radio.gain == w.radio.gain && w'.radio.mode == w.radio.mode
    ensures Sends(w, w', [])
  {
    hide WireOk, Sends;
    if w'.slots == w.slots {
      SameWire(w, w');
    } else {
      Released(w, w.sessions[s].token, w');
    }
  }

  lemma DispatchSends(w: World, s: nat, q: Request, env: Env)
    requires WireOk(w) && s < MAX_SESSIONS
    ensures Sends(w, Dispatch(w, s, q, env), [])
  {
    hide WireOk, Sends, Reply, Broadcast, Offers, Radio.Format, DoSetting, DoStartRx, DoStopRx, DoCloseStream,
      DoHello, DoAuthenticate, DoSetFrequency, DoSetSampleRate, DoGetControl, DoOpenStream;
    Sized(w);
    match q
    case StartRx(id) => StartSends(w, s, id, env);
    case StopRx(id) => StopSends(w, s, id);
    case CloseStream(id) => CloseSends(w, s, id);
    case SetControl(to, setting) => SettingSends(w, s, setting, env); SameReply(w, s);
    case _ => QuietWire(w, s, q, env); SameWire(w, Dispatch(w, s, q, env));
  }

  lemma QuietWire(w: World, s: nat, q: Request, env: Env)
    requires WellSized(w) && s < MAX_SESSIONS
    requires !q.SetControl? && !q.StartRx? && !q.StopRx? && !q.CloseStream?
    ensures var w' := Dispatch(w, s, q, env);
            w'.slots == w.slots && w'.radio.gain == w.radio.gain && w'.radio.mode == w.radio.mode
  {
    hide Reply, Broadcast, Offers, DoSetting, DoStartRx, DoStopRx, DoCloseStream,
      AuthMachine.Attempt, AuthMachine.Passes, AuthMachine.Judges;
  }

  lemma SameReply(w: World, s: nat)
    requires WireOk(w) && s < MAX_SESSIONS
    ensures forall c :: Sends(w, Reply(w, s, Error(c)), [])
  {
    hide WireOk, Sends, Reply;
    Sized(w);
    forall c
      ensures Sends(w, Reply(w, s, Error(c)), [])
    {
      SameWire(w, Reply(w, s, Error(c)));
    }
  }

  // ---- Steps and runs -----------------------------------------------------------------

  function Delivered(w: World, e: Step): seq<u8> {
    if e.Usb? && w.radio.running then Whole(e.buf) else []
  }

  lemma HandleSends(w: World, s: nat, q: Request, env: Env)
    requires WireOk(w) && Possible(w, Command(s, q, env))
    ensures Sends(w, Handle(w, s, q, env).(clock := env.now), [])
  {
    hide Dispatch, Reply, WireAt, SentAt;
    if TooEarly(w.sessions[s], q) || Locked(w.cfg, w.sessions[s], q) {
      SameWire(w, Handle(w, s, q, env));
    } else {
      DispatchSends(w, s, q, env);
    }
    var w1 := Handle(w, s, q, env);
    SameWire(w1, w1.(clock := env.now));
  }

  /** Every step keeps the discipline; a slot in use sends the buffer's whole packets on a USB step
      and no sample byte on any other. */
  lemma StepSends(w: World, e: Step)
    requires WireOk(w) && Possible(w, e)
    ensures Sends(w, Next(w, e), Delivered(w, e))
  {
    hide WireOk, Sends, Handle, DoDestroy, FirstFree, VitaSender.Callback, Radio.Format;
    Sized(w);
    match e
    case Connect => SameWire(w, Next(w, e));
    case Disconnect(s, biasOk) => LeaveSends(w, s, biasOk);
    case Usb(buf) => CallbackSends(w, buf);
    case Command(s, q, env) =>
      HandleSends(w, s, q, env);
      var w1 := Handle(w, s, q, env).(clock := env.now);
      if w1.sessions[s].auth.closing {
        DestroySends(w, w1, s, env.biasOk);
      }
  }

  lemma DestroySends(w: World, w1: World, s: nat, biasOk: bool)
    requires Sends(w, w1, []) && s < MAX_SESSIONS
    ensures Sends(w, DoDestroy(w1, s, biasOk), [])
  {
    hide WireAt, SentAt, Broadcast;
    LeaveSends(w1, s, biasOk);
    var w' := DoDestroy(w1, s, biasOk);
    forall k | 0 <= k < VitaSender.MAX_SLOTS
      ensures SentAt(w.slots[k], w'.slots[k], [])
    {
      assert SentAt(w.slots[k], w1.slots[k], []) && SentAt(w1.slots[k], w'.slots[k], []);
      OnlyReleases(w1, s, biasOk, k);
      SentOn(w.slots[k], w1.slots[k], w'.slots[k]);
    }
  }

  lemma SentOn(a: VitaSender.Slot, b: VitaSender.Slot, c: VitaSender.Slot)
    requires SentAt(a, b, []) && SentAt(b, c, []) && (c.active ==> b.active)
    ensures SentAt(a, c, [])
  {
  }

  lemma OnlyReleases(w: World, s: nat, biasOk: bool, k: nat)
    requires WellSized(w) && s < MAX_SESSIONS && k < VitaSender.MAX_SLOTS
    ensures DoDestroy(w, s, biasOk).slots[k].active ==> w.slots[k].active
  {
    hide Broadcast;
  }

  lemma InitialWire(w: World)
    requires Initial(w)
    ensures WireOk(w)
  {
    forall k | 0 <= k < VitaSender.MAX_SLOTS
      ensures WireAt(w, k)
    {
      assert w.slots[k] == VitaSender.FREE_SLOT;
    }
  }

  /** In every reachable state every slot's log is in order and its receiver is up to date. */
  lemma {:induction false} AlwaysWire(ws: seq<World>, es: seq<Step>, n: nat)
    requires ControlInvariants.Trace(ws, es) && n < |ws|
    ensures WireOk(ws[n])
  {
    hide WireAt, SentAt, Next, Possible, Initial;
    if n == 0 {
      InitialWire(ws[0]);
    } else {
      AlwaysWire(ws, es, n - 1);
      assert ControlInvariants.Follows(ws[n - 1], es[n - 1], ws[n]);
      StepSends(ws[n - 1], es[n - 1]);
    }
  }

  /** The sample bytes of the steps from `i` up to `j`. */
  ghost function Stretch(ws: seq<World>, es: seq<Step>, i: nat, j: nat): seq<u8>
    requires i <= j <= |es| && |ws| == |es| + 1
  {
    if i == j then [] else Stretch(ws, es, i, j - 1) + Delivered(ws[j - 1], es[j - 1])
  }

  /** While a slot stays in use its packets carry, in order and once each, exactly the sample bytes
      the radio delivered, up to the remainder of each buffer. */
  lemma {:induction false} PayloadConserved(ws: seq<World>, es: seq<Step>, k: nat, i: nat, j: nat)
    requires ControlInvariants.Trace(ws, es) && i <= j <= |es| && k < VitaSender.MAX_SLOTS
    requires WellSized(ws[i]) && WellSized(ws[j])
    requires forall m :: i <= m <= j ==> WellSized(ws[m]) && ws[m].slots[k].active
    ensures VitaSender.Payloads(ws[j].slots[k].wire) ==
              VitaSender.Payloads(ws[i].slots[k].wire) + Stretch(ws, es, i, j)
  {
    hide WireAt, Next, Possible, Initial, VitaSender.Payloads, Delivered;
    if i < j {
      PayloadConserved(ws, es, k, i, j - 1);
      AlwaysWire(ws, es, j - 1);
      assert ControlInvariants.Follows(ws[j - 1], es[j - 1], ws[j]);
      StepSends(ws[j - 1], es[j - 1]);
      assert SentAt(ws[j - 1].slots[k], ws[j].slots[k], Delivered(ws[j - 1], es[j - 1]));
    }
  }

  /** Every packet any slot in use has logged can be laid out in bytes. */
  lemma AlwaysEncodable(ws: seq<World>, es: seq<Step>, n: nat, k: nat)
    requires ControlInvariants.Trace(ws, es) && n < |ws| && k < VitaSender.MAX_SLOTS
    ensures WellSized(ws[n])
    ensures ws[n].slots[k].active ==>
              forall m :: 0 <= m < |ws[n].slots[k].wire| ==> Encodable(ws[n].slots[k].wire[m].packet)
  {
    hide ControlInvariants.Follows, Initial, VitaSender.Disciplined, VitaSender.Current;
    AlwaysWire(ws, es, n);
    assert WireAt(ws[n], k);
    var s := ws[n].slots[k];
    if s.active {
      VitaSender.LogEncodable(s.wire, ws[n].cfg.contextEnabled, s.streamId, s.epoch, s.rate);
    }
  }

  /** What a receiver decodes from a slot's datagrams while it stays in use is exactly the sample
      bytes the radio delivered meanwhile. */
  lemma ReceiverGets(ws: seq<World>, es: seq<Step>, k: nat, i: nat, j: nat)
    requires ControlInvariants.Trace(ws, es) && i <= j <= |es| && k < VitaSender.MAX_SLOTS
    requires WellSized(ws[i]) && WellSized(ws[j])
    requires forall m :: i <= m <= j ==> WellSized(ws[m]) && ws[m].slots[k].active
    ensures var a, b := ws[i].slots[k].wire, ws[j].slots[k].wire;
            && (forall m :: 0 <= m < |a| ==> Encodable(a[m].packet))
            && (forall m :: 0 <= m < |b| ==> Encodable(b[m].packet))
            && VitaSender.Heard(VitaSender.Datagrams(b)) ==
                 VitaSender.Heard(VitaSender.Datagrams(a)) + Stretch(ws, es, i, j)
  {
    hide ControlInvariants.Follows, Initial, VitaSender.Payloads, VitaSender.Heard, VitaSender.Datagrams, Stretch;
    AlwaysEncodable(ws, es, i, k);
    AlwaysEncodable(ws, es, j, k);
    PayloadConserved(ws, es, k, i, j);
    VitaSender.HeardIsSent(ws[i].slots[k].wire);
    VitaSender.HeardIsSent(ws[j].slots[k].wire);
  }

  /** The fields of the format word: unsigned bytes, complex exactly in normal sampling. */
  lemma FormatMeans(m: Radio.Mode)
    ensures ReadFormat(Radio.Format(m)) == Items(m == Radio.Normal, true, 8, 8)
  {
    assert m == Radio.Normal || Radio.Format(m) == 0x100001C7;
  }

  /** In every reachable state, with Context packets on, the receiver of a slot in use knows the level of
      the gain and the kind of samples in force; and at each IF Data packet knew those of its samples. */
  lemma ReceiverKnows(ws: seq<World>, es: seq<Step>, n: nat, k: nat)
    requires ControlInvariants.Trace(ws, es) && n < |ws| && k < VitaSender.MAX_SLOTS
    requires WellSized(ws[n]) && ws[n].slots[k].active && ws[n].cfg.contextEnabled
    ensures var s, format := ws[n].slots[k], Radio.Format(ws[n].radio.mode);
            && (forall m :: 0 <= m < |s.wire| ==> Encodable(s.wire[m].packet))
            && VitaSender.KnowsLevel(VitaSender.Datagrams(s.wire), ws[n].radio.gain, format)
            && ReadFormat(format) == Items(ws[n].radio.mode == Radio.Normal, true, 8, 8)
            && forall i :: 0 <= i < |s.wire| && s.wire[i].packet.Data? ==>
                 VitaSender.KnowsLevel(VitaSender.Datagrams(s.wire[..i]), s.wire[i].gain, s.wire[i].format)
  {
    hide ControlInvariants.Follows, Initial, VitaSender.Disciplined, VitaSender.KnowsLevel, VitaSender.Datagrams,
      VitaSender.Tells, ReadFormat, Radio.Format;
    AlwaysWire(ws, es, n);
    assert WireAt(ws[n], k);
    AlwaysEncodable(ws, es, n, k);
    var s := ws[n].slots[k];
    VitaSender.TellsLevel(s.wire, ws[n].radio.gain, Radio.Format(ws[n].radio.mode));
    FormatMeans(ws[n].radio.mode);
    forall i | 0 <= i < |s.wire| && s.wire[i].packet.Data?
      ensures VitaSender.KnowsLevel(VitaSender.Datagrams(s.wire[..i]), s.wire[i].gain, s.wire[i].format)
    {
      VitaSender.LevelAt(s.wire, i, s.streamId, s.epoch, s.rate);
    }
  }

  /** Every rate the daemon offers is far below the first at which a stamp can go wrong. */
  lemma OfferedRatesExact(mode: Radio.Mode, rate: nat)
    requires rate in Radio.Rates(mode)
    ensures ExactRate(rate)
  {
    hide Grain;
    assert 0 < rate <= 3200000;
  }

  /** Any two IF Data packets a slot in use has sent, over every run: stamps without drift. */
  lemma StampsKeepTime(ws: seq<World>, es: seq<Step>, n: nat, k: nat, i: nat, j: nat)
    requires ControlInvariants.Trace(ws, es) && n < |ws| && k < VitaSender.MAX_SLOTS
    requires WellSized(ws[n]) && ws[n].slots[k].active && ExactRate(ws[n].slots[k].rate)
    requires i < j < |ws[n].slots[k].wire|
    requires ws[n].slots[k].wire[i].packet.Data? && ws[n].slots[k].wire[j].packet.Data?
    requires var s := ws[n].slots[k];
             s.epoch + SAMPLES_PER_PKT * VitaSender.Datas(s.wire[..j]) / s.rate < TWO_32
    ensures var s := ws[n].slots[k];
            var packets := VitaSender.Datas(s.wire[..j]) - VitaSender.Datas(s.wire[..i]);
            var d := VitaSender.Moment(s.wire[j].packet, s.epoch) - VitaSender.Moment(s.wire[i].packet, s.epoch);
            var ideal := packets * SAMPLES_PER_PKT * PICOS_PER_SECOND;
            && packets > 0 && d > 0 && ideal - s.rate < d * s.rate < ideal + s.rate
            && s.wire[i].packet.stamp.tsf < PICOS_PER_SECOND && s.wire[j].packet.stamp.tsf < PICOS_PER_SECOND
  {
    hide ControlInvariants.Follows, Initial, VitaSender.Disciplined, VitaSender.Datas, VitaSender.Moment,
      VitaSender.Current;
    AlwaysWire(ws, es, n);
    assert WireAt(ws[n], k);
    var s := ws[n].slots[k];
    VitaSender.SentSpacing(s.wire, i, j, ws[n].cfg.contextEnabled, s.streamId, s.epoch, s.rate);
  }

  /** The step that puts a slot to use gives it the stream's id, the radio's rate and format and the time of
      the start, and leaves its payload empty. */
  lemma FreshSlotEmpty(w: World, s: nat, id: StreamRef, env: Env, k: nat)
    requires WellSized(w) && s < MAX_SESSIONS && k < VitaSender.MAX_SLOTS
    requires !w.slots[k].active && DoStartRx(w, s, id, env).slots[k].active
    ensures var t := DoStartRx(w, s, id, env).slots[k];
            && t.streamId == w.sessions[s].streamId && t.rate == w.radio.rate && t.epoch == env.epoch
            && t.format == Radio.Format(w.radio.mode) && t.sampleCount == 0 && VitaSender.Payloads(t.wire) == []
  {
    hide Reply, Offers, RefWord, VitaSender.Free, Radio.Format;
  }
}
