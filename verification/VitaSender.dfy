/** The VITA-49 sender: the slot table, Context packets and the USB callback.  Every slot keeps a
    log of what it sent since start_rx, each entry with the gain and payload format of the moment. */
module VitaSender {
  import opened Basics
  import opened Bytes
  import opened VitaPacket

  const MAX_SLOTS := 4
  const MAX_PKTS := 1024

  datatype Sent = Sent(packet: Packet, gain: int, format: u32)

  datatype Slot = Slot(
    active: bool, streamId: u32, format: u32, ifCount: nat, ctxCount: nat,
    ctxSent: bool, lastRef: u32, lastFormat: u32,
    sampleCount: nat, epoch: nat, rate: nat, wire: seq<Sent>)

  const FREE_SLOT := Slot(false, 0, 0, 0, 0, false, 0, 0, 0, 0, 0, [])

  // ---- What each operation does to the table ------------------------------------------

  /** send_context_locked. */
  function SendContext(s: Slot, enabled: bool, gain: int, format: u32): Slot {
    if !s.active || !enabled then s
    else
      var ref := RefWord(gain);
      var changed := !s.ctxSent || ref != s.lastRef || s.format != s.lastFormat;
      var p := Context(s.ctxCount, s.streamId, changed, ref, s.format);
      s.(ctxCount := (s.ctxCount + 1) % 16, ctxSent := true, lastRef := ref, lastFormat := s.format,
         wire := s.wire + [Sent(p, gain, format)])
  }

  /** One IF Data packet, stamped from the slot's own sample count. */
  function SendPacket(s: Slot, chunk: seq<u8>, gain: int, format: u32): Slot {
    var p := Data(s.ifCount, s.streamId, StampOf(s.epoch, s.rate, s.sampleCount), chunk);
    s.(ifCount := (s.ifCount + 1) % 16, sampleCount := s.sampleCount + SAMPLES_PER_PKT,
       wire := s.wire + [Sent(p, gain, format)])
  }

  function SendPackets(s: Slot, buf: seq<u8>, n: nat, gain: int, format: u32): Slot
    requires BYTES_PER_PKT * n <= |buf|
  {
    if n == 0 then s
    else SendPacket(SendPackets(s, buf, n - 1, gain, format), Chunk(buf, n - 1), gain, format)
  }

  function Chunk(buf: seq<u8>, k: nat): (c: seq<u8>)
    requires BYTES_PER_PKT * (k + 1) <= |buf|
    ensures |c| == BYTES_PER_PKT
  {
    buf[BYTES_PER_PKT * k..BYTES_PER_PKT * (k + 1)]
  }

  /** Packets built from one USB buffer; a remainder is discarded. */
  function PacketCount(len: nat): (n: nat)
    ensures BYTES_PER_PKT * n <= len
    ensures BYTES_PER_PKT * n == len <==> len % BYTES_PER_PKT == 0 && len / BYTES_PER_PKT <= MAX_PKTS
  {
    if len / BYTES_PER_PKT > MAX_PKTS then MAX_PKTS else len / BYTES_PER_PKT
  }

  function Free(slots: seq<Slot>): (i: int)
    ensures -1 <= i < |slots|
    ensures i >= 0 ==> !slots[i].active && forall j :: 0 <= j < i ==> slots[j].active
    ensures i == -1 <==> forall j :: 0 <= j < |slots| ==> slots[j].active
  {
    if slots == [] then -1
    else
      var i := Free(slots[..|slots| - 1]);
      if i >= 0 then i else if !slots[|slots| - 1].active then |slots| - 1 else -1
  }

  function NewSlot(streamId: u32, format: u32, epoch: nat, rate: nat): Slot {
    Slot(true, streamId, format, 0, 0, false, 0, 0, 0, epoch, rate, [])
  }

  /** vita_session_add: the first free slot, with its Context packet already sent. */
  function Add(slots: seq<Slot>, enabled: bool, streamId: u32, format: u32, gain: int, epoch: nat,
      rate: nat): (r: seq<Slot>)
    ensures |r| == |slots|
  {
    var i := Free(slots);
    if i < 0 then slots
    else slots[i := SendContext(NewSlot(streamId, format, epoch, rate), enabled, gain, format)]
  }

  function Remove(slots: seq<Slot>, token: int): (r: seq<Slot>)
    ensures |r| == |slots|
  {
    if 0 <= token < |slots| then slots[token := FREE_SLOT] else slots
  }

  function SetFormat(slots: seq<Slot>, format: u32): (r: seq<Slot>)
    ensures |r| == |slots|
  {
    seq(|slots|, i requires 0 <= i < |slots| =>
          if slots[i].active then slots[i].(format := format) else slots[i])
  }

  function ContextAll(slots: seq<Slot>, enabled: bool, gain: int, format: u32): (r: seq<Slot>)
    ensures |r| == |slots|
  {
    seq(|slots|, i requires 0 <= i < |slots| => SendContext(slots[i], enabled, gain, format))
  }

  /** vita_send_callback. */
  function Callback(slots: seq<Slot>, buf: seq<u8>, gain: int, format: u32): (r: seq<Slot>)
    ensures |r| == |slots|
  {
    seq(|slots|, i requires 0 <= i < |slots| =>
          if slots[i].active then SendPackets(slots[i], buf, PacketCount(|buf|), gain, format) else slots[i])
  }

  // ---- Reading a log ------------------------------------------------------------------

  function LastContext(log: seq<Sent>): (c: Option<Packet>)
    ensures c.Some? ==> c.value.Context?
  {
    if log == [] then None
    else if log[|log| - 1].packet.Context? then Some(log[|log| - 1].packet)
    else LastContext(log[..|log| - 1])
  }

  function Contexts(log: seq<Sent>): nat {
    if log == [] then 0
    else Contexts(log[..|log| - 1]) + if log[|log| - 1].packet.Context? then 1 else 0
  }

  function Datas(log: seq<Sent>): nat {
    if log == [] then 0
    else Datas(log[..|log| - 1]) + if log[|log| - 1].packet.Data? then 1 else 0
  }

  /** All payload bytes, in order. */
  function Payloads(log: seq<Sent>): seq<u8> {
    if log == [] then []
    else Payloads(log[..|log| - 1]) + if log[|log| - 1].packet.Data? then log[|log| - 1].packet.payload else []
  }

  /** The two fields a Context packet tells the receiver. */
  predicate Tells(c: Option<Packet>, gain: int, format: u32) {
    c.Some? && c.value.Context? && c.value.refWord == RefWord(gain) && c.value.format == format
  }

  /** An entry is right after what went before it. */
  predicate EntryOk(before: seq<Sent>, e: Sent, enabled: bool, streamId: u32, epoch: nat, rate: nat) {
    && e.packet.streamId == streamId
    && match e.packet
       case Context(count, _, changed, ref, format) =>
         && count == Contexts(before) % 16
         && (changed <==> (var c := LastContext(before);
                           c.None? || c.value.refWord != ref || c.value.format != format))
         && ref == RefWord(e.gain) && format == e.format
       case Data(count, _, stamp, payload) =>
         && count == Datas(before) % 16
         && stamp == StampOf(epoch, rate, SAMPLES_PER_PKT * Datas(before))
         && |payload| == BYTES_PER_PKT
         && (enabled ==> Tells(LastContext(before), e.gain, e.format))
  }

  predicate Disciplined(log: seq<Sent>, enabled: bool, streamId: u32, epoch: nat, rate: nat) {
    log == []
    || (&& Disciplined(log[..|log| - 1], enabled, streamId, epoch, rate)
        && EntryOk(log[..|log| - 1], log[|log| - 1], enabled, streamId, epoch, rate))
  }

  /** The slot's counters say what its log says. */
  predicate SlotOk(s: Slot, enabled: bool) {
    s.active ==>
      && Disciplined(s.wire, enabled, s.streamId, s.epoch, s.rate)
      && s.ctxCount == Contexts(s.wire) % 16
      && s.ifCount == Datas(s.wire) % 16
      && s.sampleCount == SAMPLES_PER_PKT * Datas(s.wire)
      && (var c := LastContext(s.wire);
          && (s.ctxSent <==> c.Some?)
          && (c.Some? ==> s.lastRef == c.value.refWord && s.lastFormat == c.value.format))
  }

  /** The receiver of this slot has been told the present gain and format. */
  predicate Current(s: Slot, enabled: bool, gain: int, format: u32) {
    s.active ==> s.format == format && (enabled ==> Tells(LastContext(s.wire), gain, format))
  }

  // ---- Every operation keeps the discipline -------------------------------------------

  lemma Appended(log: seq<Sent>, e: Sent)
    ensures (log + [e])[..|log + [e]| - 1] == log && (log + [e])[|log + [e]| - 1] == e
    ensures Contexts(log + [e]) == Contexts(log) + if e.packet.Context? then 1 else 0
    ensures Datas(log + [e]) == Datas(log) + if e.packet.Data? then 1 else 0
    ensures Payloads(log + [e]) == Payloads(log) + if e.packet.Data? then e.packet.payload else []
    ensures LastContext(log + [e]) == if e.packet.Context? then Some(e.packet) else LastContext(log)
  {
    assert (log + [e])[..|log + [e]| - 1] == log;
  }

  lemma ContextKeeps(s: Slot, enabled: bool, gain: int, format: u32)
    requires SlotOk(s, enabled) && (s.active ==> s.format == format)
    ensures SlotOk(SendContext(s, enabled, gain, format), enabled)
    ensures Current(SendContext(s, enabled, gain, format), enabled, gain, format)
  {
    hide RefWord, Contexts, Datas, Payloads, LastContext;
    if s.active && enabled {
      var t := SendContext(s, enabled, gain, format);
      var e := t.wire[|s.wire|];
      assert t.wire == s.wire + [e];
      Appended(s.wire, e);
      CountStep(Contexts(s.wire));
    }
  }

  lemma CountStep(n: nat)
    ensures (n % 16 + 1) % 16 == (n + 1) % 16
  {
  }

  lemma PacketKeeps(s: Slot, chunk: seq<u8>, enabled: bool, gain: int, format: u32)
    requires s.active && SlotOk(s, enabled) && Current(s, enabled, gain, format) && |chunk| == BYTES_PER_PKT
    ensures SlotOk(SendPacket(s, chunk, gain, format), enabled)
    ensures Current(SendPacket(s, chunk, gain, format), enabled, gain, format)
    ensures Payloads(SendPacket(s, chunk, gain, format).wire) == Payloads(s.wire) + chunk
  {
    hide RefWord, Contexts, Datas, Payloads, LastContext, StampOf;
    var t := SendPacket(s, chunk, gain, format);
    var e := t.wire[|s.wire|];
    assert t.wire == s.wire + [e];
    Appended(s.wire, e);
    CountStep(Datas(s.wire));
  }

  /** A whole buffer: the discipline is kept, and the payloads grow by exactly the bytes sent. */
  lemma {:induction false} PacketsKeep(s: Slot, buf: seq<u8>, n: nat, enabled: bool, gain: int, format: u32)
    requires s.active && SlotOk(s, enabled) && Current(s, enabled, gain, format) && BYTES_PER_PKT * n <= |buf|
    ensures var t := SendPackets(s, buf, n, gain, format);
            && SlotOk(t, enabled) && Current(t, enabled, gain, format)
            && Payloads(t.wire) == Payloads(s.wire) + buf[..BYTES_PER_PKT * n]
            && t == s.(ifCount := t.ifCount, sampleCount := t.sampleCount, wire := t.wire)
  {
    hide SlotOk, Current, Payloads, StampOf;
    if n == 0 {
      assert Payloads(s.wire) + buf[..0] == Payloads(s.wire);
    } else {
      PacketsKeep(s, buf, n - 1, enabled, gain, format);
      PacketKeeps(SendPackets(s, buf, n - 1, gain, format), Chunk(buf, n - 1), enabled, gain, format);
      assert buf[..BYTES_PER_PKT * n] == buf[..BYTES_PER_PKT * (n - 1)] + Chunk(buf, n - 1);
    }
  }

  lemma NewSlotKeeps(streamId: u32, format: u32, epoch: nat, rate: nat, enabled: bool, gain: int)
    ensures var s := SendContext(NewSlot(streamId, format, epoch, rate), enabled, gain, format);
            && s.active && SlotOk(s, enabled) && Current(s, enabled, gain, format)
  {
    hide RefWord;
    ContextKeeps(NewSlot(streamId, format, epoch, rate), enabled, gain, format);
  }

  // ---- What a receiver can rely on ----------------------------------------------------

  lemma {:induction false} DisciplinedPrefix(log: seq<Sent>, i: nat, enabled: bool, streamId: u32, epoch: nat,
      rate: nat)
    requires Disciplined(log, enabled, streamId, epoch, rate) && i < |log|
    ensures Disciplined(log[..i], enabled, streamId, epoch, rate)
    ensures EntryOk(log[..i], log[i], enabled, streamId, epoch, rate)
    decreases |log|
  {
    hide EntryOk;
    var init := log[..|log| - 1];
    if i < |log| - 1 {
      DisciplinedPrefix(init, i, enabled, streamId, epoch, rate);
      assert init[..i] == log[..i];
    }
  }

  /** With Context packets enabled, each start_rx's sequence begins with one, and it is marked
      changed. */
  lemma FirstIsContext(log: seq<Sent>, streamId: u32, epoch: nat, rate: nat)
    requires Disciplined(log, true, streamId, epoch, rate) && log != []
    ensures log[0].packet.Context? && log[0].packet.changed
  {
    DisciplinedPrefix(log, 0, true, streamId, epoch, rate);
    assert log[..0] == [];
  }

  /** The n-th IF Data packet carries count n mod 16 and the stamp of sample 256 n; with Context
      packets on, the latest one before it carries the gain and format of the moment. */
  lemma DataAt(log: seq<Sent>, i: nat, enabled: bool, streamId: u32, epoch: nat, rate: nat)
    requires Disciplined(log, enabled, streamId, epoch, rate) && i < |log| && log[i].packet.Data?
    ensures var n := Datas(log[..i]);
            && log[i].packet.count == n % 16
            && log[i].packet.stamp == StampOf(epoch, rate, SAMPLES_PER_PKT * n)
            && (enabled ==> Tells(LastContext(log[..i]), log[i].gain, log[i].format))
  {
    hide StampOf, RefWord, Datas, LastContext;
    DisciplinedPrefix(log, i, enabled, streamId, epoch, rate);
  }

  /** Picoseconds since the epoch that a packet's stamp says. */
  function Moment(p: Packet, epoch: nat): int
    requires p.Data?
  {
    (p.stamp.tsi - epoch) * PICOS_PER_SECOND + p.stamp.tsf
  }

  /** Any two IF Data packets of a sequence: their stamps lie apart what the samples between them
      take, to less than a picosecond, however callbacks split the samples, and the later packet
      has the later stamp. */
  lemma SentSpacing(log: seq<Sent>, i: nat, j: nat, enabled: bool, streamId: u32, epoch: nat, rate: nat)
    requires Disciplined(log, enabled, streamId, epoch, rate) && ExactRate(rate)
    requires i < j < |log| && log[i].packet.Data? && log[j].packet.Data?
    requires epoch + SAMPLES_PER_PKT * Datas(log[..j]) / rate < TWO_32
    ensures var n := Datas(log[..j]) - Datas(log[..i]);
            var d := Moment(log[j].packet, epoch) - Moment(log[i].packet, epoch);
            var ideal := n * SAMPLES_PER_PKT * PICOS_PER_SECOND;
            && n > 0 && d > 0 && ideal - rate < d * rate < ideal + rate
            && log[i].packet.stamp.tsf < PICOS_PER_SECOND && log[j].packet.stamp.tsf < PICOS_PER_SECOND
  {
    hide StampOf, Datas, Disciplined, ExactPicos, Grain;
    DataAt(log, i, enabled, streamId, epoch, rate);
    DataAt(log, j, enabled, streamId, epoch, rate);
    DatasGrow(log, i, j);
    var k, l := Datas(log[..i]), Datas(log[..j]);
    QuotientOrder(SAMPLES_PER_PKT * k, SAMPLES_PER_PKT * l, rate);
    StampExact(epoch, rate, k);
    StampExact(epoch, rate, l);
    StampSpacing(rate, k, l - k);
  }

  /** In a sequence at a rate that is not exact the packet of FractionFails is stamped wrongly. */
  lemma SentWrong(log: seq<Sent>, i: nat, enabled: bool, streamId: u32, epoch: nat)
    requires Disciplined(log, enabled, streamId, epoch, 18446747)
    requires i < |log| && log[i].packet.Data? && Datas(log[..i]) == 10592468
    ensures log[i].packet.stamp.tsf != ExactPicos(18446747, SAMPLES_PER_PKT * Datas(log[..i])) % PICOS_PER_SECOND
  {
    hide Disciplined, Datas, StampOf, ExactPicos;
    DataAt(log, i, enabled, streamId, epoch, 18446747);
    FractionFails(epoch);
  }

  lemma QuotientOrder(a: nat, b: nat, c: nat)
    requires a <= b && c > 0
    ensures a / c <= b / c
  {
    if a / c > b / c {
      DivMod(a, c);
      DivMod(b, c);
      MulOrder(b / c + 1, a / c, c);
      assert false;
    }
  }

  lemma {:induction false} DatasGrow(log: seq<Sent>, i: nat, j: nat)
    requires i < j <= |log| && log[i].packet.Data?
    ensures Datas(log[..i]) < Datas(log[..j])
    decreases j
  {
    assert log[..j][..j - 1] == log[..j - 1];
    if i < j - 1 {
      DatasGrow(log, i, j - 1);
    }
  }

  // ---- Datagrams ----------------------------------------------------------------------

  /** The bytes of each packet of a log. */
  function Datagrams(log: seq<Sent>): (r: seq<seq<u8>>)
    requires forall i :: 0 <= i < |log| ==> Encodable(log[i].packet)
    ensures |r| == |log|
  {
    seq(|log|, i requires 0 <= i < |log| => Encode(log[i].packet))
  }

  /** Sample bytes a receiver decodes from datagrams, in order. */
  function Heard(ds: seq<seq<u8>>): seq<u8> {
    if ds == [] then []
    else
      var d := Decode(ds[|ds| - 1]);
      Heard(ds[..|ds| - 1]) + if d.Good? && d.packet.Data? then d.packet.payload else []
  }

  /** The latest Context packet a receiver decodes from datagrams. */
  function HeardContext(ds: seq<seq<u8>>): (c: Option<Packet>)
    ensures c.Some? ==> c.value.Context?
  {
    if ds == [] then None
    else
      var d := Decode(ds[|ds| - 1]);
      if d.Good? && d.packet.Context? then Some(d.packet) else HeardContext(ds[..|ds| - 1])
  }

  lemma {:induction false} HeardContextIs(log: seq<Sent>)
    requires forall i :: 0 <= i < |log| ==> Encodable(log[i].packet)
    ensures var c, h := LastContext(log), HeardContext(Datagrams(log));
            && (c.None? <==> h.None?)
            && (c.Some? ==>
                  var p := c.value;
                  h.value == Context(p.count % 16, p.streamId, p.changed, p.refWord, p.format))
    decreases |log|
  {
    hide Encode, Decode;
    if log != [] {
      var init := log[..|log| - 1];
      assert Datagrams(log)[..|log| - 1] == Datagrams(init);
      HeardContextIs(init);
      DecodeEncode(log[|log| - 1].packet);
    }
  }

  /** A receiver that has heard the datagrams knows the level of the gain, to half a step, and the word
      of the format. */
  predicate KnowsLevel(ds: seq<seq<u8>>, gain: int, format: u32) {
    var c := HeardContext(ds);
    && c.Some? && c.value.format == format
    && (-2400 <= gain <= 2400 ==>
          var level := -10.0 - gain as real / 10.0;
          -1.0 / 256.0 <= DecodeReferenceLevel(c.value.refWord) - level <= 1.0 / 256.0)
  }

  lemma TellsLevel(log: seq<Sent>, gain: int, format: u32)
    requires (forall i :: 0 <= i < |log| ==> Encodable(log[i].packet)) && Tells(LastContext(log), gain, format)
    ensures KnowsLevel(Datagrams(log), gain, format)
  {
    hide Datagrams, LastContext, RefWord, HeardContext, DecodeReferenceLevel;
    HeardContextIs(log);
    if -2400 <= gain <= 2400 {
      LevelTold(gain);
    }
  }

  /** At every IF Data packet, with Context packets on, the receiver of all datagrams before it knows the
      level of the gain, and the format, its samples were taken with. */
  lemma LevelAt(log: seq<Sent>, i: nat, streamId: u32, epoch: nat, rate: nat)
    requires Disciplined(log, true, streamId, epoch, rate) && i < |log| && log[i].packet.Data?
    ensures forall k :: 0 <= k < |log| ==> Encodable(log[k].packet)
    ensures KnowsLevel(Datagrams(log[..i]), log[i].gain, log[i].format)
  {
    hide Disciplined, Datagrams, Tells, KnowsLevel;
    LogEncodable(log, true, streamId, epoch, rate);
    DataAt(log, i, true, streamId, epoch, rate);
    TellsLevel(log[..i], log[i].gain, log[i].format);
  }

  /** Every packet of a disciplined log has a byte layout. */
  lemma LogEncodable(log: seq<Sent>, enabled: bool, streamId: u32, epoch: nat, rate: nat)
    requires Disciplined(log, enabled, streamId, epoch, rate)
    ensures forall i :: 0 <= i < |log| ==> Encodable(log[i].packet)
  {
    hide Disciplined, StampOf;
    forall i | 0 <= i < |log|
      ensures Encodable(log[i].packet)
    {
      DisciplinedPrefix(log, i, enabled, streamId, epoch, rate);
    }
  }

  /** What a receiver decodes from the bytes is what the log says was sent. */
  lemma {:induction false} HeardIsSent(log: seq<Sent>)
    requires forall i :: 0 <= i < |log| ==> Encodable(log[i].packet)
    ensures Heard(Datagrams(log)) == Payloads(log)
    decreases |log|
  {
    hide Encode, Decode;
    if log != [] {
      var init := log[..|log| - 1];
      assert Datagrams(log)[..|log| - 1] == Datagrams(init);
      HeardIsSent(init);
      DecodeEncode(log[|log| - 1].packet);
    }
  }

  /** `out` is the bytes of exactly the packets `t` has logged beyond `s`. */
  ghost predicate Emits(s: Slot, t: Slot, out: seq<seq<u8>>) {
    && s.wire <= t.wire
    && (forall i :: |s.wire| <= i < |t.wire| ==> Encodable(t.wire[i].packet))
    && out == Datagrams(t.wire[|s.wire|..])
  }

  lemma EmitsNothing(s: Slot)
    ensures Emits(s, s, [])
  {
  }

  lemma EmitsOne(s: Slot, t: Slot, u: Slot, out: seq<seq<u8>>, d: seq<u8>)
    requires Emits(s, t, out) && |u.wire| == |t.wire| + 1 && t.wire <= u.wire
    requires Encodable(u.wire[|t.wire|].packet) && d == Encode(u.wire[|t.wire|].packet)
    ensures Emits(s, u, out + [d])
  {
    hide Encode;
    var log := u.wire[|s.wire|..];
    assert forall i :: 0 <= i < |log| ==> Encodable(log[i].packet);
    assert forall i :: 0 <= i < |out| ==> log[i] == t.wire[|s.wire|..][i];
    assert Datagrams(log) == out + [d];
  }

  /** send_context_locked: the packet is built in a buffer and handed to the socket. */
  method SendContextLocked(s: Slot, enabled: bool, gain: int, format: u32) returns (t: Slot, out: seq<seq<u8>>)
    ensures t == SendContext(s, enabled, gain, format) && Emits(s, t, out)
  {
    hide Encode, EncodeReferenceLevel;
    EmitsNothing(s);
    if !s.active || !enabled {
      return s, [];
    }
    var ref := EncodeReferenceLevel(ReferenceLevel(gain));
    var changed := !s.ctxSent || ref != s.lastRef || s.format != s.lastFormat;
    var pkt := new u8[24];
    var len := BuildContextPacket(pkt, s.streamId, s.ctxCount, s.format, ReferenceLevel(gain), changed);
    ghost var e := Sent(Context(s.ctxCount, s.streamId, changed, ref, s.format), gain, format);
    t := SendContext(s, enabled, gain, format);
    assert t.wire == s.wire + [e];
    EmitsOne(s, s, t, [], pkt[..len]);
    out := [pkt[..len]];
    assert [] + [pkt[..len]] == out;
  }

  /** The body of the build loop: stamp, packet, counters. */
  method BuildNext(s: Slot, chunk: seq<u8>, gain: int, format: u32, pkt: array<u8>) returns (t: Slot, len: nat)
    requires |chunk| == BYTES_PER_PKT && pkt.Length >= 28 + BYTES_PER_PKT
    modifies pkt
    ensures t == SendPacket(s, chunk, gain, format) && len <= pkt.Length
    ensures |t.wire| == |s.wire| + 1 && s.wire <= t.wire && Encodable(t.wire[|s.wire|].packet)
    ensures pkt[..len] == Encode(t.wire[|s.wire|].packet)
  {
    hide Encode, StampOf;
    var stamp := StampOf(s.epoch, s.rate, s.sampleCount);
    assert Padded(chunk) == chunk;
    len := BuildIfDataPacket(pkt, s.streamId, s.ifCount, stamp.tsi, stamp.tsf, chunk);
    t := SendPacket(s, chunk, gain, format);
    assert t.wire[|s.wire|].packet == Data(s.ifCount, s.streamId, stamp, chunk);
  }

  // ---- The sender object --------------------------------------------------------------

  class VitaTx {
    const slots: array<Slot>
    var contextEnabled: bool

    ghost predicate Valid() {
      slots.Length == MAX_SLOTS
    }

    constructor (enabled: bool)
      ensures Valid() && fresh(slots) && contextEnabled == enabled
      ensures forall i :: 0 <= i < MAX_SLOTS ==> slots[i] == FREE_SLOT
    {
      slots := new Slot[MAX_SLOTS](_ => FREE_SLOT);
      contextEnabled := enabled;
    }

    /** vita_session_add; -1 when every slot is taken. */
    method SessionAdd(streamId: u32, format: u32, gain: int, epoch: nat, rate: nat)
      returns (token: int, out: seq<seq<u8>>)
      requires Valid()
      modifies slots
      ensures token == Free(old(slots[..]))
      ensures slots[..] == Add(old(slots[..]), contextEnabled, streamId, format, gain, epoch, rate)
      ensures if token < 0 then out == [] else Emits(FREE_SLOT, slots[token], out)
    {
      hide SendContext, Emits, Datagrams;
      token, out := -1, [];
      var i := 0;
      while i < MAX_SLOTS
        invariant 0 <= i <= MAX_SLOTS
        invariant slots[..] == old(slots[..]) && token == -1 && out == []
        invariant forall j :: 0 <= j < i ==> slots[j].active
      {
        if !slots[i].active {
          var s := NewSlot(streamId, format, epoch, rate);
          var t;
          t, out := SendContextLocked(s, contextEnabled, gain, format);
          SameLog(s, FREE_SLOT, t, out);
          slots[i] := t;
          token := i;
          break;
        }
        i := i + 1;
      }
      FreeIs(old(slots[..]), token);
    }

    method SessionRemove(token: int)
      requires Valid()
      modifies slots
      ensures slots[..] == Remove(old(slots[..]), token)
    {
      if token < 0 || token >= MAX_SLOTS {
        return;
      }
      slots[token] := FREE_SLOT;
    }

    method UpdatePayloadFormat(format: u32)
      requires Valid()
      modifies slots
      ensures slots[..] == SetFormat(old(slots[..]), format)
    {
      for i := 0 to MAX_SLOTS
        invariant forall j :: 0 <= j < MAX_SLOTS ==>
                    slots[j] == if j < i then SetFormat(old(slots[..]), format)[j] else old(slots[..])[j]
      {
        if slots[i].active {
          slots[i] := slots[i].(format := format);
        }
      }
    }

    method SendContextAll(gain: int, format: u32) returns (sent: seq<seq<seq<u8>>>)
      requires Valid()
      modifies slots
      ensures slots[..] == ContextAll(old(slots[..]), contextEnabled, gain, format)
      ensures |sent| == MAX_SLOTS && forall k :: 0 <= k < MAX_SLOTS ==> Emits(old(slots[..])[k], slots[k], sent[k])
    {
      hide SendContext, Emits, Datagrams;
      sent := [];
      ghost var was, want := slots[..], ContextAll(slots[..], contextEnabled, gain, format);
      for i := 0 to MAX_SLOTS
        invariant |sent| == i
        invariant forall j :: 0 <= j < MAX_SLOTS ==> slots[j] == if j < i then want[j] else was[j]
        invariant forall k :: 0 <= k < i ==> Emits(was[k], slots[k], sent[k])
      {
        InactiveContext(slots[i], contextEnabled, gain, format);
        EmitsNothing(slots[i]);
        if slots[i].active {
          var t, out := SendContextLocked(slots[i], contextEnabled, gain, format);
          slots[i] := t;
          sent := sent + [out];
        } else {
          sent := sent + [[]];
        }
      }
    }

    /** vita_send_callback: for every active slot, one packet per 512 bytes. */
    method SendCallback(buf: seq<u8>, gain: int, format: u32) returns (sent: seq<seq<seq<u8>>>)
      requires Valid()
      modifies slots
      ensures slots[..] == Callback(old(slots[..]), buf, gain, format)
      ensures |sent| == MAX_SLOTS && forall k :: 0 <= k < MAX_SLOTS ==> Emits(old(slots[..])[k], slots[k], sent[k])
    {
      hide SendPacket, SendPackets, Emits, Datagrams;
      ghost var was, want := slots[..], Callback(slots[..], buf, gain, format);
      var numPkts := |buf| / BYTES_PER_PKT;
      if numPkts > MAX_PKTS {
        numPkts := MAX_PKTS;
      }
      sent := [];
      for si := 0 to MAX_SLOTS
        invariant |sent| == si
        invariant forall j :: 0 <= j < MAX_SLOTS ==> slots[j] == if j < si then want[j] else was[j]
        invariant forall k :: 0 <= k < si ==> Emits(was[k], slots[k], sent[k])
      {
        EmitsNothing(slots[si]);
        var out := [];
        if slots[si].active {
          var s;
          s, out := SendTo(slots[si], buf, numPkts, gain, format);
          slots[si] := s;
        }
        sent := sent + [out];
      }
    }
  }

  /** All packets of one buffer for one slot. */
  method SendTo(was: Slot, buf: seq<u8>, n: nat, gain: int, format: u32) returns (s: Slot, out: seq<seq<u8>>)
    requires BYTES_PER_PKT * n <= |buf|
    ensures s == SendPackets(was, buf, n, gain, format) && Emits(was, s, out)
  {
    hide SendPacket, SendPackets, Emits, Datagrams, Encode;
    var pkt := new u8[28 + BYTES_PER_PKT];
    s, out := was, [];
    ZeroPackets(was, buf, gain, format);
    EmitsNothing(was);
    for p := 0 to n
      invariant s == SendPackets(was, buf, p, gain, format) && Emits(was, s, out)
    {
      OnePacket(was, buf, p + 1, gain, format);
      var t, len := BuildNext(s, Chunk(buf, p), gain, format, pkt);
      EmitsOne(was, s, t, out, pkt[..len]);
      s, out := t, out + [pkt[..len]];
    }
  }

  lemma SameLog(s: Slot, r: Slot, t: Slot, out: seq<seq<u8>>)
    requires Emits(s, t, out) && r.wire == s.wire
    ensures Emits(r, t, out)
  {
  }

  lemma FreeIs(slots: seq<Slot>, i: int)
    requires -1 <= i < |slots|
    requires i >= 0 ==> !slots[i].active && forall j :: 0 <= j < i ==> slots[j].active
    requires i == -1 ==> forall j :: 0 <= j < |slots| ==> slots[j].active
    ensures Free(slots) == i
  {
    hide Free;
    var _ := Free(slots);
  }

  lemma InactiveContext(s: Slot, enabled: bool, gain: int, format: u32)
    ensures !s.active ==> SendContext(s, enabled, gain, format) == s
  {
  }

  lemma ZeroPackets(s: Slot, buf: seq<u8>, gain: int, format: u32)
    ensures SendPackets(s, buf, 0, gain, format) == s
  {
  }

  lemma OnePacket(s: Slot, buf: seq<u8>, n: nat, gain: int, format: u32)
    requires n > 0 && BYTES_PER_PKT * n <= |buf|
    ensures SendPackets(s, buf, n, gain, format)
         == SendPacket(SendPackets(s, buf, n - 1, gain, format), Chunk(buf, n - 1), gain, format)
  {
    hide SendPacket;
  }
}
