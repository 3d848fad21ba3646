/** The responder's answer: which records, where their names are written in full and where by
    pointer, and the proof that a reader gets them all back. */
module MdnsResponse {
  import opened Bytes
  import opened MdnsCodec

  // ---- The advertised service ---------------------------------------------------------

  const SDR_SLC: Label := [95, 115, 100, 114, 45, 115, 108, 99]   // _sdr-slc
  const TCP: Label := [95, 116, 99, 112]                         // _tcp
  const LOCAL: Label := [108, 111, 99, 97, 108]                  // local

  /** The instance name may hold dots: it is the labels between them. */
  datatype Config = Config(instance: seq<Label>, port: nat, txt: seq<seq<u8>>, ip: seq<u8>)

  /** s_instance is a 64-byte buffer, s_txt eight of 160. */
  predicate GoodConfig(c: Config) {
    && c.instance != [] && FitName(c.instance) && Chars(c) <= 63 && c.port < 0x10000 && |c.ip| == 4
    && |c.txt| <= 8 && forall i :: 0 <= i < |c.txt| ==> |c.txt[i]| < 160
  }

  /** Length of the instance name as it is given, dots included. */
  function Chars(c: Config): int {
    |Spelled(c.instance)| - 1
  }

  /** No label of the instance name is empty. */
  predicate Legible(c: Config) {
    GoodConfig(c) && GoodName(c.instance)
  }

  function ServiceName(): (ls: seq<Label>)
    ensures ls != [] && FitName(ls) && GoodName(ls)
  {
    [SDR_SLC, TCP, LOCAL]
  }

  function InstanceName(c: Config): (ls: seq<Label>)
    requires GoodConfig(c)
    ensures ls != [] && FitName(ls) && (Legible(c) ==> GoodName(ls))
  {
    c.instance + ServiceName()
  }

  function HostName(c: Config): (ls: seq<Label>)
    requires GoodConfig(c)
    ensures ls != [] && FitName(ls) && (Legible(c) ==> GoodName(ls))
  {
    c.instance + [LOCAL]
  }

  /** R_PTR, R_SRV, R_TXT and R_A. */
  datatype Which = Which(ptr: bool, srv: bool, txt: bool, a: bool)

  const ALL := Which(true, true, true, true)
  const NOTHING := Which(false, false, false, false)

  function Count(w: Which): nat {
    (if w.ptr then 1 else 0) + (if w.srv then 1 else 0) + (if w.txt then 1 else 0) + (if w.a then 1 else 0)
  }

  // ---- What the answer means ----------------------------------------------------------

  function PtrRecord(c: Config, ttl: nat): Record
    requires GoodConfig(c)
  {
    Record(Join([], ServiceName()), TYPE_PTR, CLASS_IN, ttl, Ptr(Join([], InstanceName(c))))
  }

  function SrvRecord(c: Config, ttl: nat): Record
    requires GoodConfig(c)
  {
    Record(Join([], InstanceName(c)), TYPE_SRV, CLASS_IN_FLUSH, ttl, Srv(0, 0, c.port, Join([], HostName(c))))
  }

  function TxtRecord(c: Config, ttl: nat): Record
    requires GoodConfig(c)
  {
    Record(Join([], InstanceName(c)), TYPE_TXT, CLASS_IN_FLUSH, ttl, Txt(c.txt))
  }

  function AddrRecord(c: Config, ttl: nat): Record
    requires GoodConfig(c)
  {
    Record(Join([], HostName(c)), TYPE_A, CLASS_IN_FLUSH, ttl, Addr(c.ip))
  }

  function Intended(c: Config, w: Which, ttl: nat): seq<Record>
    requires GoodConfig(c)
  {
    (if w.ptr then [PtrRecord(c, ttl)] else []) + (if w.srv then [SrvRecord(c, ttl)] else [])
    + (if w.txt then [TxtRecord(c, ttl)] else []) + (if w.a then [AddrRecord(c, ttl)] else [])
  }

  // ---- Its bytes ----------------------------------------------------------------------

  /** An owner name: a pointer to where it already stands, or written out. */
  function Owner(off: int, ls: seq<Label>): seq<u8>
    requires FitName(ls)
  {
    if 0 <= off < 0x4000 then PointerBytes(off) else NameBytes(ls)
  }

  function Fixed(rtype: nat, class_: nat, ttl: nat, len: nat): (b: seq<u8>)
    requires rtype < 0x10000 && class_ < 0x10000 && ttl < 0x1_0000_0000 && len < 0x10000
    ensures |b| == 10
  {
    Be16(rtype) + (Be16(class_) + (Be32(ttl) + Be16(len)))
  }

  function RecordBytes(owner: seq<u8>, rtype: nat, class_: nat, ttl: nat, rdata: seq<u8>): seq<u8>
    requires rtype < 0x10000 && class_ < 0x10000 && ttl < 0x1_0000_0000 && |rdata| < 0x10000
  {
    owner + (Fixed(rtype, class_, ttl, |rdata|) + rdata)
  }

  /** The message so far, and where the instance and host names stand in it. */
  datatype Build = Build(d: seq<u8>, inst: int, host: int)

  function AddPtr(b: Build, c: Config, ttl: nat): Build
    requires GoodConfig(c) && ttl < 0x1_0000_0000
  {
    NameLengths(c);
    var owner := NameBytes(ServiceName());
    Build(b.d + RecordBytes(owner, TYPE_PTR, CLASS_IN, ttl, NameBytes(InstanceName(c))),
          |b.d| + |owner| + 10, b.host)
  }

  function SrvData(c: Config): seq<u8>
    requires GoodConfig(c)
  {
    Be16(0) + (Be16(0) + (Be16(c.port) + NameBytes(HostName(c))))
  }

  function AddSrv(b: Build, c: Config, ttl: nat): Build
    requires GoodConfig(c) && ttl < 0x1_0000_0000
  {
    NameLengths(c);
    var owner := Owner(b.inst, InstanceName(c));
    Build(b.d + RecordBytes(owner, TYPE_SRV, CLASS_IN_FLUSH, ttl, SrvData(c)),
          if b.inst < 0 then |b.d| else b.inst, |b.d| + |owner| + 16)
  }

  function AddTxt(b: Build, c: Config, ttl: nat): Build
    requires GoodConfig(c) && ttl < 0x1_0000_0000
  {
    StringsLength(c.txt);
    var owner := Owner(b.inst, InstanceName(c));
    Build(b.d + RecordBytes(owner, TYPE_TXT, CLASS_IN_FLUSH, ttl, StringBytes(c.txt)),
          if b.inst < 0 then |b.d| else b.inst, b.host)
  }

  function AddAddr(b: Build, c: Config, ttl: nat): Build
    requires GoodConfig(c) && ttl < 0x1_0000_0000
  {
    var owner := Owner(b.host, HostName(c));
    Build(b.d + RecordBytes(owner, TYPE_A, CLASS_IN_FLUSH, ttl, c.ip), b.inst, b.host)
  }

  function Header(n: nat): (h: seq<u8>)
    requires n < 0x10000
    ensures |h| == 12
  {
    [0, 0, 0x84, 0, 0, 0] + Be16(n) + [0, 0, 0, 0]
  }

  /** All chosen records behind a twelve-byte header. */
  function Answer(h: seq<u8>, c: Config, w: Which, ttl: nat): Build
    requires GoodConfig(c) && ttl < 0x1_0000_0000
  {
    var b0 := Build(h, -1, -1);
    var b1 := if w.ptr then AddPtr(b0, c, ttl) else b0;
    var b2 := if w.srv then AddSrv(b1, c, ttl) else b1;
    var b3 := if w.txt then AddTxt(b2, c, ttl) else b2;
    if w.a then AddAddr(b3, c, ttl) else b3
  }

  function Response(c: Config, w: Which, ttl: nat): seq<u8>
    requires GoodConfig(c) && ttl < 0x1_0000_0000
  {
    Answer(Header(Count(w)), c, w, ttl).d
  }

  lemma NameLengths(c: Config)
    requires GoodConfig(c)
    ensures |NameBytes(ServiceName())| == 21
    ensures |NameBytes(InstanceName(c))| == Chars(c) + 22
    ensures |NameBytes(HostName(c))| == Chars(c) + 8
  {
    hide NameBytes;
    assert |Spelled([LOCAL])| == 6 && |Spelled(ServiceName())| == 20 by {
      assert [LOCAL][1..] == [] && ServiceName()[1..] == [TCP, LOCAL] && [TCP, LOCAL][1..] == [LOCAL];
    }
    hide Spelled;
    NameBytesLength(ServiceName());
    NameBytesLength(InstanceName(c));
    NameBytesLength(HostName(c));
    SpelledJoined(c.instance, ServiceName());
    SpelledJoined(c.instance, [LOCAL]);
  }

  lemma {:induction false} StringsLength(ss: seq<seq<u8>>)
    requires forall i :: 0 <= i < |ss| ==> |ss[i]| < 160
    ensures |StringBytes(ss)| <= 160 * |ss|
    decreases |ss|
  {
    if ss != [] {
      StringsLength(ss[1..]);
    }
  }

  lemma JoinLengths(c: Config)
    requires Legible(c)
    ensures |Join([], ServiceName())| <= 254
    ensures |Join([], InstanceName(c))| <= 254
    ensures |Join([], HostName(c))| <= 254
  {
    JoinBound([], ServiceName());
    JoinBound([], InstanceName(c));
    JoinBound([], HostName(c));
    NameLengths(c);
  }

  /** The dotted form is shorter than the wire form. */
  lemma {:induction false} JoinBound(out: seq<u8>, ls: seq<Label>)
    requires GoodName(ls)
    ensures |Join(out, ls)| <= |out| + |NameBytes(ls)| - 1
    decreases |ls|
  {
    if ls != [] {
      JoinBound(Dotted(out, ls[0]), ls[1..]);
    }
  }

  // ---- The reader gets every record back ----------------------------------------------

  /** `k` records read from the message, and nothing left over. */
  ghost predicate Walks(d: seq<u8>, k: nat, rs: seq<Record>) {
    |d| >= 12 && ReadRecords(d, 12, k) == RecordsAt(rs, |d|)
  }

  ghost predicate Standing(d: seq<u8>, off: int, ls: seq<Label>)
    requires FitName(ls)
  {
    off >= 0 ==> off < |d| && At(d, off, NameBytes(ls))
  }

  lemma OwnerReads(d: seq<u8>, off: int, ls: seq<Label>, rest: seq<u8>)
    requires GoodName(ls) && 0 < |ls| <= 40 && |Join([], ls)| <= 254 && Standing(d, off, ls)
    ensures var owner := Owner(off, ls);
            var m := d + (owner + rest);
            && ReadName(m, |d|, [], ROUNDS, -1, NAME_CAP) == NameAt(Join([], ls), |d| + |owner|)
            && PointsBackward(m, |d|)
            && At(m, |d| + |owner|, rest)
  {
    hide At, Join, NameBytes, ReadName;
    var owner := Owner(off, ls);
    var m := d + (owner + rest);
    AtEnd(d, owner + rest);
    AtSplit(m, |d|, owner, rest);
    if 0 <= off < 0x4000 {
      AtExtend(d, off, NameBytes(ls), owner + rest);
      ReadPointer(m, |d|, off, ls, ROUNDS, NAME_CAP);
      AtByte(m, |d|, owner, 0);
      AtByte(m, |d|, owner, 1);
    } else {
      ReadFull(m, |d|, ls, [], ROUNDS, -1, NAME_CAP);
      FirstByte(m, |d|, ls);
    }
  }

  lemma FirstByte(m: seq<u8>, p: nat, ls: seq<Label>)
    requires GoodName(ls) && ls != [] && At(m, p, NameBytes(ls))
    ensures PointsBackward(m, p)
  {
    AtByte(m, p, NameBytes(ls), 0);
  }

  lemma FixedReads(m: seq<u8>, p: nat, rtype: nat, class_: nat, ttl: nat, rdata: seq<u8>)
    requires rtype < 0x10000 && class_ < 0x10000 && ttl < 0x1_0000_0000 && |rdata| < 0x10000
    requires At(m, p, Fixed(rtype, class_, ttl, |rdata|) + rdata)
    ensures p + 10 + |rdata| <= |m| && At(m, p + 10, rdata)
    ensures Get16(m, p) == rtype && Get16(m, p + 2) == class_ && Get32(m, p + 4) == ttl && Get16(m, p + 8) == |rdata|
  {
    hide At, Get16, Get32, Be16, Be32;
    var t := Be32(ttl) + Be16(|rdata|);
    AtSplit(m, p, Fixed(rtype, class_, ttl, |rdata|), rdata);
    AtSplit(m, p, Be16(rtype), Be16(class_) + t);
    AtSplit(m, p + 2, Be16(class_), t);
    AtSplit(m, p + 4, Be32(ttl), Be16(|rdata|));
    AtLength(m, p + 10, rdata);
    Get16At(m, p, rtype);
    Get16At(m, p + 2, class_);
    Get32At(m, p + 4, ttl);
    Get16At(m, p + 8, |rdata|);
  }

  /** One record appended to a message that reads well. */
  lemma AppendRecord(d: seq<u8>, k: nat, rs: seq<Record>, off: int, ls: seq<Label>,
                     rtype: nat, class_: nat, ttl: nat, rdata: seq<u8>, meaning: RData)
    requires Walks(d, k, rs) && GoodName(ls) && 0 < |ls| <= 40 && |Join([], ls)| <= 254 && Standing(d, off, ls)
    requires rtype < 0x10000 && class_ < 0x10000 && ttl < 0x1_0000_0000 && |rdata| < 0x10000
    requires var m := d + RecordBytes(Owner(off, ls), rtype, class_, ttl, rdata);
             var p := |d| + |Owner(off, ls)| + 10;
             At(m, p, rdata) ==> p + |rdata| <= |m| && ReadData(m, p, rtype, |rdata|) == GoodData(meaning)
    ensures Walks(d + RecordBytes(Owner(off, ls), rtype, class_, ttl, rdata), k + 1,
                  rs + [Record(Join([], ls), rtype, class_, ttl, meaning)])
  {
    hide At, Join, NameBytes, ReadName, ReadData, Owner, Fixed, ReadRecords, Get16, Get32, PointsBackward, Standing;
    var owner := Owner(off, ls);
    var rest := Fixed(rtype, class_, ttl, |rdata|) + rdata;
    var m := d + (owner + rest);
    OwnerReads(d, off, ls, rest);
    FixedReads(m, |d| + |owner|, rtype, class_, ttl, rdata);
    ReadRecordsExtend(d, owner + rest, 12, k);
    OneMore(m, 12, k);
  }

  lemma OneMore(b: seq<u8>, p: nat, k: nat)
    requires ReadRecords(b, p, k).RecordsAt? && ReadRecord(b, ReadRecords(b, p, k).next).RecordAt?
    ensures var rs := ReadRecords(b, p, k);
            var r := ReadRecord(b, rs.next);
            ReadRecords(b, p, k + 1) == RecordsAt(rs.records + [r.record], r.next)
  {
    hide ReadRecord;
  }

  ghost predicate BuildOk(b: Build, c: Config, k: nat, rs: seq<Record>)
    requires Legible(c)
  {
    Walks(b.d, k, rs) && Standing(b.d, b.inst, InstanceName(c)) && Standing(b.d, b.host, HostName(c))
  }

  lemma StandingExtends(d: seq<u8>, more: seq<u8>, off: int, ls: seq<Label>)
    requires GoodName(ls) && Standing(d, off, ls)
    ensures Standing(d + more, off, ls)
  {
    hide NameBytes;
    if off >= 0 {
      AtExtend(d, off, NameBytes(ls), more);
    }
  }

  /** A name that stands inside the bytes just appended. */
  lemma StandsAt(d: seq<u8>, before: seq<u8>, ls: seq<Label>, after: seq<u8>)
    requires GoodName(ls)
    ensures Standing(d + (before + (NameBytes(ls) + after)), |d| + |before|, ls)
  {
    hide At, NameBytes;
    var m := d + (before + (NameBytes(ls) + after));
    AtEnd(d, before + (NameBytes(ls) + after));
    AtSplit(m, |d|, before, NameBytes(ls) + after);
    AtSplit(m, |d| + |before|, NameBytes(ls), after);
    NameNonEmpty(ls);
  }

  lemma NameNonEmpty(ls: seq<Label>)
    requires GoodName(ls)
    ensures |NameBytes(ls)| > 0
  {
  }

  lemma AddPtrOk(b: Build, c: Config, ttl: nat, k: nat, rs: seq<Record>)
    requires Legible(c) && ttl < 0x1_0000_0000 && BuildOk(b, c, k, rs)
    ensures BuildOk(AddPtr(b, c, ttl), c, k + 1, rs + [PtrRecord(c, ttl)])
  {
    hide At, Join, NameBytes, ReadName, Fixed, Walks, Standing, ServiceName, InstanceName, HostName;
    NameLengths(c);
    JoinLengths(c);
    SmallNames(c);
    var name, rdata := NameBytes(ServiceName()), NameBytes(InstanceName(c));
    var rr := RecordBytes(name, TYPE_PTR, CLASS_IN, ttl, rdata);
    var m := b.d + rr;
    NoOffset(b.d, ServiceName());
    if At(m, |b.d| + |name| + 10, rdata) {
      ReadFull(m, |b.d| + |name| + 10, InstanceName(c), [], ROUNDS, -1, NAME_CAP);
      AtLength(m, |b.d| + |name| + 10, rdata);
    }
    AppendRecord(b.d, k, rs, -1, ServiceName(), TYPE_PTR, CLASS_IN, ttl, rdata, Ptr(Join([], InstanceName(c))));
    StandingExtends(b.d, rr, b.host, HostName(c));
    var fixed_ := Fixed(TYPE_PTR, CLASS_IN, ttl, |rdata|);
    StandsAt(b.d, name + fixed_, InstanceName(c), []);
    assert rr == (name + fixed_) + (rdata + []);
  }

  lemma SmallConfig(c: Config)
    requires GoodConfig(c)
    ensures Chars(c) <= 63 && c.port < 0x10000 && |StringBytes(c.txt)| <= 1280
  {
    hide Spelled, StringBytes;
    StringsLength(c.txt);
  }

  lemma SmallNames(c: Config)
    requires Legible(c)
    ensures 0 < |ServiceName()| <= 40 && 0 < |InstanceName(c)| <= 40 && 0 < |HostName(c)| <= 40
  {
    hide Spelled, NameBytes;
    SpelledLong(c.instance);
  }

  lemma NoOffset(d: seq<u8>, ls: seq<Label>)
    requires FitName(ls)
    ensures Standing(d, -1, ls) && Owner(-1, ls) == NameBytes(ls)
  {
  }

  lemma SrvDataReads(m: seq<u8>, p: nat, c: Config)
    requires Legible(c) && At(m, p, SrvData(c))
    ensures p + |SrvData(c)| <= |m|
    ensures ReadData(m, p, TYPE_SRV, |SrvData(c)|) == GoodData(Srv(0, 0, c.port, Join([], HostName(c))))
  {
    hide At, Join, NameBytes, ReadName, Be16, Get16;
    AtLength(m, p, SrvData(c));
    JoinLengths(c);
    var host := NameBytes(HostName(c));
    AtSplit(m, p, Be16(0), Be16(0) + (Be16(c.port) + host));
    AtSplit(m, p + 2, Be16(0), Be16(c.port) + host);
    AtSplit(m, p + 4, Be16(c.port), host);
    Get16At(m, p, 0);
    Get16At(m, p + 2, 0);
    Get16At(m, p + 4, c.port);
    SmallNames(c);
    ReadFull(m, p + 6, HostName(c), [], ROUNDS, -1, NAME_CAP);
  }

  lemma AddSrvOk(b: Build, c: Config, ttl: nat, k: nat, rs: seq<Record>)
    requires Legible(c) && ttl < 0x1_0000_0000 && BuildOk(b, c, k, rs)
    ensures BuildOk(AddSrv(b, c, ttl), c, k + 1, rs + [SrvRecord(c, ttl)])
  {
    hide At, Join, NameBytes, ReadName, ReadData, Fixed, Walks, Standing, ServiceName, InstanceName, HostName, Owner,
      SrvData;
    NameLengths(c);
    JoinLengths(c);
    SmallNames(c);
    SrvDataLength(c);
    var owner, rdata := Owner(b.inst, InstanceName(c)), SrvData(c);
    var rr := RecordBytes(owner, TYPE_SRV, CLASS_IN_FLUSH, ttl, rdata);
    var m := b.d + rr;
    if At(m, |b.d| + |owner| + 10, rdata) {
      SrvDataReads(m, |b.d| + |owner| + 10, c);
    }
    AppendRecord(b.d, k, rs, b.inst, InstanceName(c), TYPE_SRV, CLASS_IN_FLUSH, ttl, rdata,
                 Srv(0, 0, c.port, Join([], HostName(c))));
    StandingExtends(b.d, rr, b.inst, InstanceName(c));
    var fixed_ := Fixed(TYPE_SRV, CLASS_IN_FLUSH, ttl, |rdata|);
    if b.inst < 0 {
      NoOwner(b.inst, InstanceName(c));
      StandsAt(b.d, [], InstanceName(c), fixed_ + rdata);
      assert rr == [] + (owner + (fixed_ + rdata));
    }
    var before := owner + fixed_ + (Be16(0) + Be16(0) + Be16(c.port));
    StandsAt(b.d, before, HostName(c), []);
    SrvDataParts(c);
    assert rr == before + (NameBytes(HostName(c)) + []);
  }

  lemma SrvDataLength(c: Config)
    requires GoodConfig(c)
    ensures |SrvData(c)| == Chars(c) + 14
  {
    NameLengths(c);
  }

  lemma SrvDataParts(c: Config)
    requires GoodConfig(c)
    ensures SrvData(c) == (Be16(0) + Be16(0) + Be16(c.port)) + NameBytes(HostName(c))
  {
    hide NameBytes, Be16;
  }

  lemma NoOwner(off: int, ls: seq<Label>)
    requires FitName(ls) && off < 0
    ensures Owner(off, ls) == NameBytes(ls)
  {
  }

  lemma AddTxtOk(b: Build, c: Config, ttl: nat, k: nat, rs: seq<Record>)
    requires Legible(c) && ttl < 0x1_0000_0000 && BuildOk(b, c, k, rs)
    ensures BuildOk(AddTxt(b, c, ttl), c, k + 1, rs + [TxtRecord(c, ttl)])
  {
    hide Join, NameBytes, ReadName, ReadStrings, StringBytes, Fixed, Walks, Standing, ServiceName, InstanceName,
      HostName, Owner;
    JoinLengths(c);
    SmallNames(c);
    StringsLength(c.txt);
    StringsReadBack(c.txt);
    var owner, rdata := Owner(b.inst, InstanceName(c)), StringBytes(c.txt);
    var rr := RecordBytes(owner, TYPE_TXT, CLASS_IN_FLUSH, ttl, rdata);
    AppendRecord(b.d, k, rs, b.inst, InstanceName(c), TYPE_TXT, CLASS_IN_FLUSH, ttl, rdata, Txt(c.txt));
    StandingExtends(b.d, rr, b.inst, InstanceName(c));
    StandingExtends(b.d, rr, b.host, HostName(c));
    if b.inst < 0 {
      NoOwner(b.inst, InstanceName(c));
      var rest := Fixed(TYPE_TXT, CLASS_IN_FLUSH, ttl, |rdata|) + rdata;
      StandsAt(b.d, [], InstanceName(c), rest);
      assert rr == [] + (owner + rest);
    }
  }

  lemma AddAddrOk(b: Build, c: Config, ttl: nat, k: nat, rs: seq<Record>)
    requires Legible(c) && ttl < 0x1_0000_0000 && BuildOk(b, c, k, rs)
    ensures BuildOk(AddAddr(b, c, ttl), c, k + 1, rs + [AddrRecord(c, ttl)])
  {
    hide Join, NameBytes, ReadName, Fixed, Walks, Standing, ServiceName, InstanceName, HostName, Owner;
    JoinLengths(c);
    SmallNames(c);
    var rr := RecordBytes(Owner(b.host, HostName(c)), TYPE_A, CLASS_IN_FLUSH, ttl, c.ip);
    AppendRecord(b.d, k, rs, b.host, HostName(c), TYPE_A, CLASS_IN_FLUSH, ttl, c.ip, Addr(c.ip));
    StandingExtends(b.d, rr, b.inst, InstanceName(c));
    StandingExtends(b.d, rr, b.host, HostName(c));
  }

  /** For every set of records and every configuration: walking the answer, following its
      pointers, gives exactly the intended names, types, classes, lifetimes and data, in order;
      the last record ends where the message ends; the header counts them; and every pointer
      goes backward. */
  lemma ResponseReadsBack(c: Config, w: Which, ttl: nat)
    requires Legible(c) && ttl < 0x1_0000_0000
    ensures var m := Response(c, w, ttl);
            && |m| >= 12 && Get16(m, 6) == Count(w)
            && ReadRecords(m, 12, Count(w)) == RecordsAt(Intended(c, w, ttl), |m|)
  {
    hide AddPtr, AddSrv, AddTxt, AddAddr, BuildOk, PtrRecord, SrvRecord, TxtRecord, AddrRecord;
    hide ReadRecords, Get16, Header;
    var b0 := Build(Header(Count(w)), -1, -1);
    EmptyOk(b0, c);
    var b1 := if w.ptr then AddPtr(b0, c, ttl) else b0;
    var r1 := if w.ptr then [PtrRecord(c, ttl)] else [];
    if w.ptr {
      AddPtrOk(b0, c, ttl, 0, []);
      assert [] + r1 == r1;
    }
    var b2 := if w.srv then AddSrv(b1, c, ttl) else b1;
    var r2 := r1 + if w.srv then [SrvRecord(c, ttl)] else [];
    if w.srv {
      AddSrvOk(b1, c, ttl, |r1|, r1);
    }
    assert BuildOk(b2, c, |r2|, r2) by {
      assert !w.srv ==> r2 == r1;
    }
    var b3 := if w.txt then AddTxt(b2, c, ttl) else b2;
    var r3 := r2 + if w.txt then [TxtRecord(c, ttl)] else [];
    if w.txt {
      AddTxtOk(b2, c, ttl, |r2|, r2);
    }
    assert BuildOk(b3, c, |r3|, r3) by {
      assert !w.txt ==> r3 == r2;
    }
    var b4 := if w.a then AddAddr(b3, c, ttl) else b3;
    var r4 := r3 + if w.a then [AddrRecord(c, ttl)] else [];
    if w.a {
      AddAddrOk(b3, c, ttl, |r3|, r3);
    }
    assert BuildOk(b4, c, |r4|, r4) by {
      assert !w.a ==> r4 == r3;
    }
    assert r4 == Intended(c, w, ttl);
    BuildWalks(b4, c, |r4|, r4);
    HeaderKept(c, w, ttl);
  }

  lemma BuildWalks(b: Build, c: Config, k: nat, rs: seq<Record>)
    requires Legible(c) && BuildOk(b, c, k, rs)
    ensures |b.d| >= 12 && ReadRecords(b.d, 12, k) == RecordsAt(rs, |b.d|)
  {
  }

  lemma EmptyOk(b: Build, c: Config)
    requires Legible(c) && |b.d| == 12 && b.inst == -1 && b.host == -1
    ensures BuildOk(b, c, 0, [])
  {
  }

  const RESPONSE := 0x8000
  const AUTHORITATIVE := 0x0400

  /** The header, by section 4.1.1 of RFC 1035: no id, an authoritative response without an error, no
      question, the records all in the answer section. */
  lemma HeaderKept(c: Config, w: Which, ttl: nat)
    requires GoodConfig(c) && ttl < 0x1_0000_0000
    ensures var m := Response(c, w, ttl);
            && |m| >= 12 && Get16(m, 0) == 0 && Get16(m, 2) == RESPONSE + AUTHORITATIVE
            && Get16(m, 4) == 0 && Get16(m, 6) == Count(w) && Get16(m, 8) == 0 && Get16(m, 10) == 0
  {
    hide RecordBytes, NameBytes, Owner;
    var h := Header(Count(w));
    assert h[6] == (Count(w) / 256) as u8 && h[7] == (Count(w) % 256) as u8;
    assert h <= Response(c, w, ttl);
    assert forall i :: 0 <= i < 12 ==> Response(c, w, ttl)[i] == h[i];
  }
}
