/** DNS names and resource records as sections 4.1.3 and 4.1.4 of RFC 1035 lay them out: what the
    responder writes, and how a reader following compression pointers takes it apart. */
module MdnsCodec {
  import opened Bytes

  type Label = seq<u8>

  const DOT: u8 := 46

  // ---- Names --------------------------------------------------------------------------

  /** A label as it may stand between two dots; an empty one is written like the root. */
  predicate FitLabel(l: Label) {
    |l| <= 63 && DOT !in l
  }

  predicate FitName(ls: seq<Label>) {
    forall i :: 0 <= i < |ls| ==> FitLabel(ls[i])
  }

  /** A label the wire format can carry and a dotted name can spell. */
  predicate GoodLabel(l: Label) {
    l != [] && FitLabel(l)
  }

  predicate GoodName(ls: seq<Label>) {
    forall i :: 0 <= i < |ls| ==> GoodLabel(ls[i])
  }

  /** Each label followed by a dot. */
  function Spelled(ls: seq<Label>): seq<u8> {
    if ls == [] then [] else ls[0] + [DOT] + Spelled(ls[1..])
  }

  /** The text of a name: its labels with dots between them. */
  function NameText(ls: seq<Label>): seq<u8>
    requires ls != []
  {
    Spelled(ls)[..|Spelled(ls)| - 1]
  }

  lemma {:induction false} SpelledJoined(a: seq<Label>, b: seq<Label>)
    ensures Spelled(a + b) == Spelled(a) + Spelled(b)
    decreases |a|
  {
    if a == [] {
      assert a + b == b;
    } else {
      SpelledJoined(a[1..], b);
      assert (a + b)[1..] == a[1..] + b;
    }
  }

  lemma {:induction false} SpelledLong(ls: seq<Label>)
    requires GoodName(ls)
    ensures 2 * |ls| <= |Spelled(ls)|
    decreases |ls|
  {
    if ls != [] {
      SpelledLong(ls[1..]);
    }
  }

  /** Length-prefixed labels and the root. */
  function NameBytes(ls: seq<Label>): seq<u8>
    requires FitName(ls)
  {
    if ls == [] then [0] else [|ls[0]| as u8] + ls[0] + NameBytes(ls[1..])
  }

  lemma {:induction false} NameBytesLength(ls: seq<Label>)
    requires FitName(ls)
    ensures |NameBytes(ls)| == |Spelled(ls)| + 1
    decreases |ls|
  {
    if ls != [] {
      NameBytesLength(ls[1..]);
    }
  }

  /** The dotted form the reader produces: `out` so far, then the labels. */
  function Join(out: seq<u8>, ls: seq<Label>): seq<u8>
    decreases |ls|
  {
    if ls == [] then out else Join(Dotted(out, ls[0]), ls[1..])
  }

  /** One more label, separated from what is there. */
  function Dotted(out: seq<u8>, l: Label): seq<u8> {
    out + (if out == [] then [] else [DOT]) + l
  }

  function PointerBytes(off: nat): (b: seq<u8>)
    requires off < 0x4000
    ensures |b| == 2
  {
    [(0xC0 + off / 256) as u8, (off % 256) as u8]
  }

  // ---- The name reader ----------------------------------------------------------------

  datatype NameRead = BadName | NameAt(name: seq<u8>, next: nat)

  /** dns_read_name: `out` is what it has copied, `guard` the rounds left, `back` where reading
      goes on after the first pointer it followed. */
  function ReadName(b: seq<u8>, p: nat, out: seq<u8>, guard: nat, back: int, cap: nat): (r: NameRead)
    decreases guard
  {
    if guard == 0 then NameAt(out, if back < 0 then p else back)
    else if p >= |b| then BadName
    else
      var l := b[p] as nat;
      if l == 0 then NameAt(out, if back < 0 then p + 1 else back)
      else if l >= 0xC0 then
        if p + 1 >= |b| then BadName
        else ReadName(b, (l - 0xC0) * 256 + b[p + 1] as nat, out, guard - 1, if back < 0 then p + 2 else back, cap)
      else if p + 1 + l > |b| || |out| + l + 2 > cap then BadName
      else ReadName(b, p + 1 + l, Dotted(out, b[p + 1..p + 1 + l]), guard - 1, back, cap)
  }

  const ROUNDS := 64
  const NAME_CAP := 256

  /** A name written out in full is read back, dotted, with the cursor just past it. */
  lemma {:induction false} ReadFull(b: seq<u8>, p: nat, ls: seq<Label>, out: seq<u8>, guard: nat, back: int, cap: nat)
    requires GoodName(ls) && At(b, p, NameBytes(ls))
    requires |ls| < guard && |Join(out, ls)| + 2 <= cap
    ensures ReadName(b, p, out, guard, back, cap)
         == NameAt(Join(out, ls), if back < 0 then p + |NameBytes(ls)| else back)
    decreases |ls|
  {
    hide At, ReadName, Dotted;
    if ls == [] {
      ReadRoot(b, p, out, guard, back, cap);
    } else {
      var l, rest := ls[0], NameBytes(ls[1..]);
      assert NameBytes(ls) == [|l| as u8] + (l + rest);
      AtSplit(b, p, [|l| as u8], l + rest);
      AtSplit(b, p + 1, l, rest);
      JoinGrows(Dotted(out, l), ls[1..]);
      ReadLabel(b, p, l, out, guard, back, cap);
      ReadFull(b, p + 1 + |l|, ls[1..], Dotted(out, l), guard - 1, back, cap);
    }
  }

  lemma ReadRoot(b: seq<u8>, p: nat, out: seq<u8>, guard: nat, back: int, cap: nat)
    requires At(b, p, [0]) && guard > 0
    ensures ReadName(b, p, out, guard, back, cap) == NameAt(out, if back < 0 then p + 1 else back)
  {
    AtByte(b, p, [0], 0);
  }

  lemma ReadLabel(b: seq<u8>, p: nat, l: Label, out: seq<u8>, guard: nat, back: int, cap: nat)
    requires GoodLabel(l) && At(b, p, [|l| as u8]) && At(b, p + 1, l)
    requires guard > 0 && |Dotted(out, l)| + 2 <= cap
    ensures ReadName(b, p, out, guard, back, cap) == ReadName(b, p + 1 + |l|, Dotted(out, l), guard - 1, back, cap)
  {
    AtByte(b, p, [|l| as u8], 0);
  }

  lemma {:induction false} JoinGrows(out: seq<u8>, ls: seq<Label>)
    ensures |out| <= |Join(out, ls)|
    decreases |ls|
  {
    if ls != [] {
      JoinGrows(Dotted(out, ls[0]), ls[1..]);
    }
  }

  /** A pointer to such a name reads the same, with the cursor just past the pointer. */
  lemma ReadPointer(b: seq<u8>, p: nat, q: nat, ls: seq<Label>, guard: nat, cap: nat)
    requires q < 0x4000 && At(b, p, PointerBytes(q))
    requires GoodName(ls) && At(b, q, NameBytes(ls))
    requires |ls| + 1 < guard && |Join([], ls)| + 2 <= cap
    ensures ReadName(b, p, [], guard, -1, cap) == NameAt(Join([], ls), p + 2)
  {
    hide Join, NameBytes;
    AtByte(b, p, PointerBytes(q), 0);
    AtByte(b, p, PointerBytes(q), 1);
    ReadFull(b, q, ls, [], guard - 1, p + 2, cap);
  }

  /** On arbitrary bytes: a name that is read leaves room for its NUL in the buffer. */
  lemma {:induction false} ReadNameFits(b: seq<u8>, p: nat, out: seq<u8>, guard: nat, back: int, cap: nat)
    requires |out| < cap
    ensures var r := ReadName(b, p, out, guard, back, cap); r.NameAt? ==> |r.name| < cap
    decreases guard
  {
    if guard > 0 && p < |b| {
      var l := b[p] as nat;
      if l >= 0xC0 {
        if p + 1 < |b| {
          ReadNameFits(b, (l - 0xC0) * 256 + b[p + 1] as nat, out, guard - 1, if back < 0 then p + 2 else back, cap);
        }
      } else if l > 0 && p + 1 + l <= |b| && |out| + l + 2 <= cap {
        ReadNameFits(b, p + 1 + l, Dotted(out, b[p + 1..p + 1 + l]), guard - 1, back, cap);
      }
    }
  }

  // ---- Names with pointers ------------------------------------------------------------

  /** The labels `ls` stand at `p`, some of them perhaps behind pointers, `rounds` labels and pointers
      at most. */
  predicate Spells(b: seq<u8>, p: nat, ls: seq<Label>, rounds: nat)
    decreases rounds
  {
    && rounds > 0 && p < |b|
    && var l := b[p] as nat;
       if l == 0 then ls == []
       else if l >= 0xC0 then p + 1 < |b| && Spells(b, (l - 0xC0) * 256 + b[p + 1] as nat, ls, rounds - 1)
       else
         && ls != [] && GoodLabel(ls[0]) && l == |ls[0]| && At(b, p + 1, ls[0])
         && Spells(b, p + 1 + l, ls[1..], rounds - 1)
  }

  /** Where the message goes on after such a name: behind its root, or behind its first pointer. */
  function EndOf(b: seq<u8>, p: nat, ls: seq<Label>, rounds: nat): (e: nat)
    requires Spells(b, p, ls, rounds)
    decreases rounds
  {
    var l := b[p] as nat;
    if l == 0 then p + 1 else if l >= 0xC0 then p + 2 else EndOf(b, p + 1 + l, ls[1..], rounds - 1)
  }

  /** The reader gives such a name back, dotted. */
  lemma {:induction false} ReadSpelled(b: seq<u8>, p: nat, ls: seq<Label>, out: seq<u8>, guard: nat, back: int,
      cap: nat)
    requires Spells(b, p, ls, guard) && |Join(out, ls)| + 2 <= cap
    ensures ReadName(b, p, out, guard, back, cap)
         == NameAt(Join(out, ls), if back < 0 then EndOf(b, p, ls, guard) else back)
    decreases guard
  {
    var l := b[p] as nat;
    if l >= 0xC0 {
      ReadSpelled(b, (l - 0xC0) * 256 + b[p + 1] as nat, ls, out, guard - 1, if back < 0 then p + 2 else back, cap);
    } else if l > 0 {
      assert b[p + 1..p + 1 + l] == ls[0];
      JoinGrows(Dotted(out, ls[0]), ls[1..]);
      ReadSpelled(b, p + 1 + l, ls[1..], Dotted(out, ls[0]), guard - 1, back, cap);
    }
  }

  /** A name in full is one way to spell it, a pointer to a spelled name another. */
  lemma {:induction false} FullSpells(b: seq<u8>, p: nat, ls: seq<Label>, rounds: nat)
    requires GoodName(ls) && At(b, p, NameBytes(ls)) && |ls| < rounds
    ensures Spells(b, p, ls, rounds) && EndOf(b, p, ls, rounds) == p + |NameBytes(ls)|
    decreases |ls|
  {
    hide At;
    if ls == [] {
      AtByte(b, p, NameBytes(ls), 0);
    } else {
      var l, rest := ls[0], NameBytes(ls[1..]);
      assert NameBytes(ls) == [|l| as u8] + (l + rest);
      AtSplit(b, p, [|l| as u8], l + rest);
      AtSplit(b, p + 1, l, rest);
      AtByte(b, p, [|l| as u8], 0);
      FullSpells(b, p + 1 + |l|, ls[1..], rounds - 1);
    }
  }

  lemma PointerSpells(b: seq<u8>, p: nat, q: nat, ls: seq<Label>, rounds: nat)
    requires q < 0x4000 && At(b, p, PointerBytes(q)) && Spells(b, q, ls, rounds)
    ensures Spells(b, p, ls, rounds + 1) && EndOf(b, p, ls, rounds + 1) == p + 2
  {
    AtByte(b, p, PointerBytes(q), 0);
    AtByte(b, p, PointerBytes(q), 1);
  }

  /** What was read does not change when the message grows. */
  lemma {:induction false} ReadNameExtends(b: seq<u8>, more: seq<u8>, p: nat, out: seq<u8>, guard: nat, back: int,
      cap: nat)
    requires ReadName(b, p, out, guard, back, cap).NameAt?
    ensures ReadName(b + more, p, out, guard, back, cap) == ReadName(b, p, out, guard, back, cap)
    decreases guard
  {
    if guard > 0 {
      var l := b[p] as nat;
      assert (b + more)[p] == b[p];
      if l >= 0xC0 {
        assert (b + more)[p + 1] == b[p + 1];
        ReadNameExtends(b, more, (l - 0xC0) * 256 + b[p + 1] as nat, out, guard - 1,
            if back < 0 then p + 2 else back, cap);
      } else if l > 0 {
        assert (b + more)[p + 1..p + 1 + l] == b[p + 1..p + 1 + l];
        ReadNameExtends(b, more, p + 1 + l, Dotted(out, b[p + 1..p + 1 + l]), guard - 1, back, cap);
      }
    }
  }

  // ---- Resource records ---------------------------------------------------------------

  const TYPE_A := 1
  const TYPE_PTR := 12
  const TYPE_TXT := 16
  const TYPE_SRV := 33
  const CLASS_IN := 0x0001
  const CLASS_IN_FLUSH := 0x8001

  datatype RData =
    | Ptr(target: seq<u8>)
    | Srv(priority: nat, weight: nat, port: nat, target: seq<u8>)
    | Txt(strings: seq<seq<u8>>)
    | Addr(octets: seq<u8>)

  datatype Record = Record(name: seq<u8>, rtype: nat, class_: nat, ttl: nat, rdata: RData)

  datatype StringsRead = BadStrings | Strings(strings: seq<seq<u8>>)

  /** The character strings of a TXT record. */
  function ReadStrings(b: seq<u8>): StringsRead
    decreases |b|
  {
    if b == [] then Strings([])
    else
      var n := b[0] as nat;
      if 1 + n > |b| then BadStrings
      else
        var r := ReadStrings(b[1 + n..]);
        if r.Strings? then Strings([b[1..1 + n]] + r.strings) else BadStrings
  }

  function StringBytes(ss: seq<seq<u8>>): seq<u8>
    requires forall i :: 0 <= i < |ss| ==> |ss[i]| < 256
  {
    if ss == [] then [] else [|ss[0]| as u8] + ss[0] + StringBytes(ss[1..])
  }

  lemma {:induction false} StringsReadBack(ss: seq<seq<u8>>)
    requires forall i :: 0 <= i < |ss| ==> |ss[i]| < 256
    ensures ReadStrings(StringBytes(ss)) == Strings(ss)
    decreases |ss|
  {
    if ss != [] {
      var b, rest := StringBytes(ss), StringBytes(ss[1..]);
      StringsReadBack(ss[1..]);
      assert b[1..1 + |ss[0]|] == ss[0];
      assert b[1 + |ss[0]|..] == rest;
    }
  }

  datatype DataRead = BadData | GoodData(rdata: RData)

  /** RDATA by type.  A name in it must end where RDLENGTH says. */
  function ReadData(b: seq<u8>, p: nat, rtype: nat, len: nat): DataRead
    requires p + len <= |b|
  {
    if rtype == TYPE_PTR then
      var n := ReadName(b, p, [], ROUNDS, -1, NAME_CAP);
      if n.NameAt? && n.next == p + len then GoodData(Ptr(n.name)) else BadData
    else if rtype == TYPE_SRV && len >= 6 then
      var n := ReadName(b, p + 6, [], ROUNDS, -1, NAME_CAP);
      if n.NameAt? && n.next == p + len
      then GoodData(Srv(Get16(b, p), Get16(b, p + 2), Get16(b, p + 4), n.name)) else BadData
    else if rtype == TYPE_TXT then
      var s := ReadStrings(b[p..p + len]);
      if s.Strings? then GoodData(Txt(s.strings)) else BadData
    else if rtype == TYPE_A && len == 4 then GoodData(Addr(b[p..p + 4]))
    else BadData
  }

  datatype RecordRead = BadRecord | RecordAt(record: Record, next: nat)

  /** A compression pointer, if the owner name starts with one, must go backward. */
  predicate PointsBackward(b: seq<u8>, p: nat) {
    p + 1 < |b| && b[p] as nat >= 0xC0 ==> (b[p] as nat - 0xC0) * 256 + b[p + 1] as nat < p
  }

  function ReadRecord(b: seq<u8>, p: nat): (r: RecordRead) {
    var n := ReadName(b, p, [], ROUNDS, -1, NAME_CAP);
    if n.BadName? || !PointsBackward(b, p) || n.next + 10 > |b| then BadRecord
    else
      var q := n.next;
      var rtype, class_, ttl, len := Get16(b, q), Get16(b, q + 2), Get32(b, q + 4), Get16(b, q + 8);
      if q + 10 + len > |b| then BadRecord
      else
        var d := ReadData(b, q + 10, rtype, len);
        if d.GoodData? then RecordAt(Record(n.name, rtype, class_, ttl, d.rdata), q + 10 + len) else BadRecord
  }

  datatype RecordsRead = BadRecords | RecordsAt(records: seq<Record>, next: nat)

  /** The first `k` records from `p` on. */
  function ReadRecords(b: seq<u8>, p: nat, k: nat): RecordsRead {
    if k == 0 then RecordsAt([], p)
    else
      var rs := ReadRecords(b, p, k - 1);
      if rs.BadRecords? then BadRecords
      else
        var r := ReadRecord(b, rs.next);
        if r.RecordAt? then RecordsAt(rs.records + [r.record], r.next) else BadRecords
  }

  lemma ReadDataExtends(b: seq<u8>, more: seq<u8>, p: nat, rtype: nat, len: nat)
    requires p + len <= |b| && ReadData(b, p, rtype, len).GoodData?
    ensures ReadData(b + more, p, rtype, len) == ReadData(b, p, rtype, len)
  {
    hide ReadName, ReadStrings;
    if rtype == TYPE_PTR {
      ReadNameExtends(b, more, p, [], ROUNDS, -1, NAME_CAP);
    } else if rtype == TYPE_SRV {
      ReadNameExtends(b, more, p + 6, [], ROUNDS, -1, NAME_CAP);
    }
    assert (b + more)[p..p + len] == b[p..p + len];
  }

  lemma ReadRecordExtends(b: seq<u8>, more: seq<u8>, p: nat)
    requires ReadRecord(b, p).RecordAt?
    ensures ReadRecord(b + more, p) == ReadRecord(b, p)
  {
    hide ReadName, ReadData;
    ReadNameExtends(b, more, p, [], ROUNDS, -1, NAME_CAP);
    var q := ReadName(b, p, [], ROUNDS, -1, NAME_CAP).next;
    NameInside(b, p, [], ROUNDS, -1, NAME_CAP);
    ReadDataExtends(b, more, q + 10, Get16(b, q), Get16(b, q + 8));
  }

  lemma NameInside(b: seq<u8>, p: nat, out: seq<u8>, guard: nat, back: int, cap: nat)
    requires guard > 0 && ReadName(b, p, out, guard, back, cap).NameAt?
    ensures p < |b| && (b[p] as nat >= 0xC0 ==> p + 1 < |b|)
  {
  }

  lemma {:induction false} ReadRecordsExtend(b: seq<u8>, more: seq<u8>, p: nat, k: nat)
    requires ReadRecords(b, p, k).RecordsAt?
    ensures ReadRecords(b + more, p, k) == ReadRecords(b, p, k)
    decreases k
  {
    hide ReadRecord;
    if k > 0 {
      ReadRecordsExtend(b, more, p, k - 1);
      ReadRecordExtends(b, more, ReadRecords(b, p, k - 1).next);
    }
  }
}
