/** The packet builder: a 1024-byte buffer, appended to and patched, and the answer built in it. */
module MdnsBuilder {
  import opened Basics
  import opened Bytes
  import opened MdnsCodec
  import opened MdnsResponse

  const CAPACITY := 1024

  // ---- Dotted names -------------------------------------------------------------------

  /** strchr(s, '.'). */
  function FindDot(s: seq<u8>): (k: int)
    ensures -1 <= k < |s|
    ensures k >= 0 ==> s[k] == DOT
    ensures forall j :: 0 <= j < (if k < 0 then |s| else k) ==> s[j] != DOT
  {
    if s == [] then -1
    else if s[0] == DOT then 0
    else
      var k := FindDot(s[1..]);
      if k < 0 then -1 else k + 1
  }

  /** What dns_name appends for a dotted text: text after the last dot is dropped, and a length is
      cut to eight bits. */
  function DottedBytes(s: seq<u8>): seq<u8>
    decreases |s|
  {
    var k := FindDot(s);
    if k < 0 then [0] else [(k % 256) as u8] + s[..k] + DottedBytes(s[k + 1..])
  }

  lemma {:induction false} SpelledBytes(ls: seq<Label>)
    requires FitName(ls)
    ensures DottedBytes(Spelled(ls)) == NameBytes(ls)
    decreases |ls|
  {
    hide DottedBytes, Spelled, FindDot;
    SpelledParts(ls);
    if ls == [] {
      NoLabel([]);
    } else {
      var s, l := Spelled(ls), ls[0];
      DotAt(s, |l|);
      FirstLabel(s, |l|);
      SpelledBytes(ls[1..]);
    }
  }

  lemma SpelledParts(ls: seq<Label>)
    ensures ls == [] ==> Spelled(ls) == [] && FindDot([]) == -1
    ensures ls != [] ==>
              var s, k := Spelled(ls), |ls[0]|;
              k < |s| && s[..k] == ls[0] && s[k] == DOT && s[k + 1..] == Spelled(ls[1..])
  {
  }

  lemma DotAt(s: seq<u8>, k: nat)
    requires k < |s| && s[k] == DOT && DOT !in s[..k]
    ensures FindDot(s) == k
  {
    hide FindDot;
    assert forall j :: 0 <= j < k ==> s[j] == s[..k][j];
  }

  lemma FirstLabel(s: seq<u8>, k: nat)
    requires FindDot(s) == k
    ensures DottedBytes(s) == [(k % 256) as u8] + s[..k] + DottedBytes(s[k + 1..])
  {
    hide FindDot;
  }

  lemma NoLabel(s: seq<u8>)
    requires FindDot(s) < 0
    ensures DottedBytes(s) == [0]
  {
    hide FindDot;
  }

  // ---- The builder --------------------------------------------------------------------

  function Patched(d: seq<u8>, at: nat): (r: seq<u8>)
    requires at + 2 <= |d|
    ensures |r| == |d|
  {
    var len := |d| - at - 2;
    d[at := (len / 256 % 256) as u8][at + 1 := (len % 256) as u8]
  }

  /** Where the write position is when `n` bytes were meant. */
  function Capped(n: nat): nat { if n <= CAPACITY then n else CAPACITY }

  class Dns {
    const buf: array<u8>
    var pos: nat
    var overflow: bool
    /** The message the calls so far mean. */
    ghost var out: seq<u8>

    ghost predicate Valid()
      reads this, buf
    {
      && buf.Length == CAPACITY && pos <= CAPACITY
      && (if overflow then pos == CAPACITY < |out| else buf[..pos] == out)
    }

    lemma Position()
      requires Valid()
      ensures pos == Capped(|out|) && (overflow <==> |out| > CAPACITY)
    {
    }

    constructor ()
      ensures Valid() && fresh(buf) && out == seq(12, _ => 0) && !overflow
    {
      buf := new u8[CAPACITY](_ => 0);
      pos, overflow := 12, false;
      out := seq(12, _ => 0);
    }

    method Put8(v: u8)
      requires Valid()
      modifies this, buf
      ensures Valid() && out == old(out) + [v]
    {
      out := out + [v];
      if pos < buf.Length {
        buf[pos] := v;
        pos := pos + 1;
      } else {
        overflow := true;
      }
    }

    method Put16(v: nat)
      requires Valid() && v < 0x10000
      modifies this, buf
      ensures Valid() && out == old(out) + Be16(v)
    {
      hide Valid;
      Put8((v / 256) as u8);
      Put8((v % 256) as u8);
    }

    method Put32(v: nat)
      requires Valid() && v < 0x1_0000_0000
      modifies this, buf
      ensures Valid() && out == old(out) + Be32(v)
    {
      hide Valid, Be16;
      Put16(v / 0x10000);
      Put16(v % 0x10000);
    }

    method PutAll(s: seq<u8>)
      requires Valid()
      modifies this, buf
      ensures Valid() && out == old(out) + s
    {
      hide Valid;
      for i := 0 to |s|
        invariant Valid() && out == old(out) + s[..i]
      {
        Put8(s[i]);
      }
    }

    /** dns_name: a length and a label up to each dot, then the root. */
    method Name(name: seq<u8>)
      requires Valid()
      modifies this, buf
      ensures Valid() && out == old(out) + DottedBytes(name)
    {
      hide Valid, FindDot, DottedBytes;
      var p := 0;
      ghost var all := old(out) + DottedBytes(name);
      assert name[0..] == name;
      while true
        invariant 0 <= p <= |name| && Valid()
        invariant out + DottedBytes(name[p..]) == all
        decreases |name| - p
      {
        var k := FindDot(name[p..]);
        if k < 0 {
          NoLabel(name[p..]);
          break;
        }
        ghost var rest := name[p..];
        FirstLabel(rest, k);
        Put8((k % 256) as u8);
        PutAll(name[p..p + k]);
        assert rest[..k] == name[p..p + k] && rest[k + 1..] == name[p + k + 1..];
        p := p + k + 1;
      }
      Put8(0);
    }

    method Pointer(off: nat)
      requires Valid() && off < 0x4000
      modifies this, buf
      ensures Valid() && out == old(out) + PointerBytes(off)
    {
      hide Valid;
      Put8((0xC0 + off / 256) as u8);
      Put8((off % 256) as u8);
    }

    /** Patches a two-byte length once what it counts has been written.  `inside` is false when the
        source's two writes go past its buffer; the model leaves those out. */
    method PatchRdlen(rdlenPos: nat, ghost at: nat) returns (inside: bool)
      requires Valid() && at + 2 <= |out| && rdlenPos == Capped(at)
      modifies this`out, buf
      ensures Valid() && out == Patched(old(out), at) && (inside <==> at + 2 <= CAPACITY)
    {
      out := Patched(out, at);
      inside := rdlenPos + 2 <= buf.Length;
      if inside {
        var rdlen := pos - rdlenPos - 2;
        buf[rdlenPos] := (rdlen / 256 % 256) as u8;
        buf[rdlenPos + 1] := (rdlen % 256) as u8;
      }
    }

    /** dns_rr: the record header, its RDLENGTH still zero. */
    method Rr(nameOff: int, ghost ls: seq<Label>, name: seq<u8>, rtype: nat, class_: nat, ttl: nat)
      returns (rdlenPos: nat, ghost at: nat)
      requires Valid() && FitName(ls) && name == Spelled(ls) && nameOff < 0x4000
      requires rtype < 0x10000 && class_ < 0x10000 && ttl < 0x1_0000_0000
      modifies this, buf
      ensures Valid() && out == old(out) + (Owner(nameOff, ls) + Fixed(rtype, class_, ttl, 0))
      ensures at == |out| - 2 && rdlenPos == Capped(at)
    {
      hide Be16, Be32, Spelled, NameBytes, DottedBytes, Valid, Capped;
      if nameOff >= 0 {
        Pointer(nameOff);
      } else {
        SpelledBytes(ls);
        Name(name);
      }
      Put16(rtype);
      Put16(class_);
      Put32(ttl);
      rdlenPos, at := pos, |out|;
      Position();
      Put16(0);
      assert out == old(out) + (Owner(nameOff, ls) + Fixed(rtype, class_, ttl, 0));
    }
  }

  /** The last thing written: the flags and the answer count of the header. */
  method SetHeader(d: Dns, ancount: nat)
    requires d.Valid() && 12 <= d.pos && seq(12, _ => 0) <= d.out && ancount < 0x10000
    modifies d`out, d.buf
    ensures d.Valid() && d.out == Header(ancount) + old(d.out)[12..]
  {
    ghost var was := d.out;
    d.buf[2] := 0x84;
    d.buf[3] := 0x00;
    d.buf[6] := (ancount / 256) as u8;
    d.buf[7] := (ancount % 256) as u8;
    d.out := Header(ancount) + was[12..];
    if !d.overflow {
      HeaderWritten(was, d.buf[..d.pos], ancount);
    }
  }

  lemma HeaderWritten(was: seq<u8>, now: seq<u8>, n: nat)
    requires seq(12, _ => 0) <= was && n < 0x10000
    requires |now| == |was|
    requires now[2] == 0x84 && now[3] == 0 && now[6] == (n / 256) as u8 && now[7] == (n % 256) as u8
    requires forall i :: 0 <= i < |was| && i != 2 && i != 3 && i != 6 && i != 7 ==> now[i] == was[i]
    ensures now == Header(n) + was[12..]
  {
    var want := Header(n) + was[12..];
    forall i | 0 <= i < |now|
      ensures now[i] == want[i]
    {
      if i < 12 {
        assert was[i] == 0;
      }
    }
  }

  /** Patching the length of a record that has just been written gives the record. */
  lemma PatchGives(d: seq<u8>, owner: seq<u8>, rtype: nat, class_: nat, ttl: nat, rdata: seq<u8>)
    requires rtype < 0x10000 && class_ < 0x10000 && ttl < 0x1_0000_0000 && |rdata| < 0x10000
    ensures Patched(d + (owner + Fixed(rtype, class_, ttl, 0)) + rdata, |d| + |owner| + 8)
         == d + RecordBytes(owner, rtype, class_, ttl, rdata)
  {
    hide Be32;
    var f := Be16(rtype) + (Be16(class_) + Be32(ttl));
    assert Fixed(rtype, class_, ttl, 0) == f + Be16(0);
    assert Fixed(rtype, class_, ttl, |rdata|) == f + Be16(|rdata|);
    assert d + (owner + Fixed(rtype, class_, ttl, 0)) + rdata == (d + owner + f) + Be16(0) + rdata;
    assert Patched((d + owner + f) + Be16(0) + rdata, |d| + |owner| + 8) == (d + owner + f) + Be16(|rdata|) + rdata;
  }

  // ---- The answer ---------------------------------------------------------------------

  /** The builder holds `b`, or both are past the buffer. */
  ghost predicate Holds(d: Dns, b: Build, instOff: int, hostOff: int)
    reads d, d.buf
  {
    && d.Valid()
    && if d.overflow then |b.d| > CAPACITY && instOff <= CAPACITY && hostOff <= CAPACITY
       else d.out == b.d && instOff == b.inst && hostOff == b.host && b.inst <= |b.d| && b.host <= |b.d|
  }

  /** Where the data of the last record begins, just behind its length. */
  function DataFrom(b: Build, rdata: seq<u8>): int { |b.d| - |rdata| }

  method PutPtr(d: Dns, c: Config, ttl: nat, ghost b: Build, hostOff: int)
    returns (instOff: int, inside: bool)
    requires GoodConfig(c) && ttl < 0x1_0000_0000 && Holds(d, b, -1, hostOff) && b.inst == -1
    modifies d, d.buf
    ensures Holds(d, AddPtr(b, c, ttl), instOff, hostOff)
    ensures inside <==> DataFrom(AddPtr(b, c, ttl), NameBytes(InstanceName(c))) <= CAPACITY
  {
    hide NameBytes, Fixed, RecordBytes, Spelled, DottedBytes, ServiceName, InstanceName;
    ghost var d0 := d.out;
    ghost var owner, rdata := NameBytes(ServiceName()), NameBytes(InstanceName(c));
    NameLengths(c);
    NoOffset(d0, ServiceName());
    var rdp, at := d.Rr(-1, ServiceName(), Spelled(ServiceName()), TYPE_PTR, CLASS_IN, ttl);
    instOff := d.pos;
    SpelledBytes(InstanceName(c));
    d.Name(Spelled(InstanceName(c)));
    PatchGives(d0, owner, TYPE_PTR, CLASS_IN, ttl, rdata);
    inside := d.PatchRdlen(rdp, at);
    assert d.out == d0 + RecordBytes(owner, TYPE_PTR, CLASS_IN, ttl, rdata);
    Longer(b.d, owner, TYPE_PTR, CLASS_IN, ttl, rdata);
    Longer(d0, owner, TYPE_PTR, CLASS_IN, ttl, rdata);
  }

  method PutSrv(d: Dns, c: Config, ttl: nat, ghost b: Build, instOff0: int)
    returns (instOff: int, hostOff: int, inside: bool)
    requires GoodConfig(c) && ttl < 0x1_0000_0000 && Holds(d, b, instOff0, -1) && b.host == -1
    modifies d, d.buf
    ensures Holds(d, AddSrv(b, c, ttl), instOff, hostOff)
    ensures inside <==> DataFrom(AddSrv(b, c, ttl), SrvData(c)) <= CAPACITY
  {
    hide NameBytes, Fixed, RecordBytes, Spelled, DottedBytes, InstanceName, HostName, Owner, Be16;
    hide GoodConfig, Dns.Valid, SrvData;
    ghost var d0 := d.out;
    ghost var owner, rdata := Owner(instOff0, InstanceName(c)), SrvData(c);
    SmallConfig(c);
    SrvDataLength(c);
    SrvDataParts(c);
    instOff := instOff0;
    var nameAt := d.pos;
    d.Position();
    var rdp, at := d.Rr(instOff, InstanceName(c), Spelled(InstanceName(c)), TYPE_SRV, CLASS_IN_FLUSH, ttl);
    if instOff < 0 {
      instOff := nameAt;
    }
    d.Put16(0);
    d.Put16(0);
    d.Put16(c.port);
    hostOff := d.pos;
    d.Position();
    SpelledBytes(HostName(c));
    d.Name(Spelled(HostName(c)));
    assert d.out == d0 + (owner + Fixed(TYPE_SRV, CLASS_IN_FLUSH, ttl, 0)) + rdata;
    PatchGives(d0, owner, TYPE_SRV, CLASS_IN_FLUSH, ttl, rdata);
    inside := d.PatchRdlen(rdp, at);
    Longer(b.d, Owner(b.inst, InstanceName(c)), TYPE_SRV, CLASS_IN_FLUSH, ttl, rdata);
    Longer(d0, owner, TYPE_SRV, CLASS_IN_FLUSH, ttl, rdata);
    d.Position();
  }

  method PutTxt(d: Dns, c: Config, ttl: nat, ghost b: Build, instOff0: int, hostOff: int)
    returns (instOff: int, inside: bool)
    requires GoodConfig(c) && ttl < 0x1_0000_0000 && Holds(d, b, instOff0, hostOff)
    modifies d, d.buf
    ensures Holds(d, AddTxt(b, c, ttl), instOff, hostOff)
    ensures inside <==> DataFrom(AddTxt(b, c, ttl), StringBytes(c.txt)) <= CAPACITY
  {
    hide NameBytes, Fixed, RecordBytes, Spelled, InstanceName, Owner, StringBytes;
    ghost var d0 := d.out;
    ghost var owner, rdata := Owner(instOff0, InstanceName(c)), StringBytes(c.txt);
    StringsLength(c.txt);
    instOff := instOff0;
    var nameAt := d.pos;
    var rdp, at := d.Rr(instOff, InstanceName(c), Spelled(InstanceName(c)), TYPE_TXT, CLASS_IN_FLUSH, ttl);
    if instOff < 0 {
      instOff := nameAt;
    }
    PutStrings(d, c.txt);
    PatchGives(d0, owner, TYPE_TXT, CLASS_IN_FLUSH, ttl, rdata);
    inside := d.PatchRdlen(rdp, at);
    Longer(b.d, Owner(b.inst, InstanceName(c)), TYPE_TXT, CLASS_IN_FLUSH, ttl, rdata);
    Longer(d0, owner, TYPE_TXT, CLASS_IN_FLUSH, ttl, rdata);
  }

  method PutStrings(d: Dns, ss: seq<seq<u8>>)
    requires d.Valid() && forall i :: 0 <= i < |ss| ==> |ss[i]| < 256
    modifies d, d.buf
    ensures d.Valid() && d.out == old(d.out) + StringBytes(ss)
  {
    hide Dns.Valid;
    ghost var all := d.out + StringBytes(ss);
    assert ss[0..] == ss;
    for i := 0 to |ss|
      invariant d.Valid() && d.out + StringBytes(ss[i..]) == all
    {
      assert ss[i..][1..] == ss[i + 1..];
      d.Put8(|ss[i]| as u8);
      d.PutAll(ss[i]);
    }
    assert ss[|ss|..] == [];
  }

  method PutAddr(d: Dns, c: Config, ttl: nat, ghost b: Build, instOff: int, hostOff: int) returns (inside: bool)
    requires GoodConfig(c) && ttl < 0x1_0000_0000 && Holds(d, b, instOff, hostOff)
    modifies d, d.buf
    ensures Holds(d, AddAddr(b, c, ttl), instOff, hostOff)
    ensures inside <==> DataFrom(AddAddr(b, c, ttl), c.ip) <= CAPACITY
  {
    hide NameBytes, Fixed, RecordBytes, Spelled, HostName, Owner;
    ghost var d0 := d.out;
    ghost var owner := Owner(hostOff, HostName(c));
    var rdp, at := d.Rr(hostOff, HostName(c), Spelled(HostName(c)), TYPE_A, CLASS_IN_FLUSH, ttl);
    d.PutAll(c.ip);
    PatchGives(d0, owner, TYPE_A, CLASS_IN_FLUSH, ttl, c.ip);
    inside := d.PatchRdlen(rdp, at);
    Longer(b.d, Owner(b.host, HostName(c)), TYPE_A, CLASS_IN_FLUSH, ttl, c.ip);
    Longer(d0, owner, TYPE_A, CLASS_IN_FLUSH, ttl, c.ip);
  }

  lemma Longer(d: seq<u8>, owner: seq<u8>, rtype: nat, class_: nat, ttl: nat, rdata: seq<u8>)
    requires rtype < 0x10000 && class_ < 0x10000 && ttl < 0x1_0000_0000 && |rdata| < 0x10000
    ensures |d + RecordBytes(owner, rtype, class_, ttl, rdata)| == |d| + |owner| + 10 + |rdata|
  {
    hide Fixed;
  }

  /** The data of the last chosen record. */
  function LastData(c: Config, w: Which): seq<u8>
    requires GoodConfig(c)
  {
    if w.a then c.ip
    else if w.txt then
      StringsLength(c.txt);
      StringBytes(c.txt)
    else if w.srv then SrvData(c)
    else if w.ptr then NameBytes(InstanceName(c))
    else []
  }

  /** The chosen records, in order; every length is patched inside the buffer exactly when the last
      one is. */
  method BuildAnswer(d: Dns, c: Config, w: Which, ttl: nat) returns (ancount: nat, inside: bool)
    requires GoodConfig(c) && ttl < 0x1_0000_0000 && Holds(d, Build(d.out, -1, -1), -1, -1) && |d.out| <= CAPACITY
    modifies d, d.buf
    ensures d.Valid() && ancount == Count(w)
    ensures var b := Answer(old(d.out), c, w, ttl);
            if d.overflow then |b.d| > CAPACITY else d.out == b.d
    ensures inside <==> DataFrom(Answer(old(d.out), c, w, ttl), LastData(c, w)) <= CAPACITY
  {
    hide AddPtr, AddSrv, AddTxt, AddAddr, Dns.Valid, NameBytes, SrvData, StringBytes;
    var instOff, hostOff := -1, -1;
    ancount, inside := 0, true;
    ghost var b0 := Build(d.out, -1, -1);
    ghost var b := b0;
    if w.ptr {
      instOff, inside := PutPtr(d, c, ttl, b, hostOff);
      b := AddPtr(b, c, ttl);
      HostKept(b0, c, ttl);
      ancount := ancount + 1;
    }
    if w.srv {
      var ok;
      instOff, hostOff, ok := PutSrv(d, c, ttl, b, instOff);
      DataGrows(b, c, ttl);
      b := AddSrv(b, c, ttl);
      inside := inside && ok;
      ancount := ancount + 1;
    }
    if w.txt {
      var ok;
      instOff, ok := PutTxt(d, c, ttl, b, instOff, hostOff);
      DataGrows(b, c, ttl);
      b := AddTxt(b, c, ttl);
      inside := inside && ok;
      ancount := ancount + 1;
    }
    if w.a {
      var ok := PutAddr(d, c, ttl, b, instOff, hostOff);
      DataGrows(b, c, ttl);
      b := AddAddr(b, c, ttl);
      inside := inside && ok;
      ancount := ancount + 1;
    }
  }

  /** A record's data begins behind all that was there before it. */
  lemma DataGrows(b: Build, c: Config, ttl: nat)
    requires GoodConfig(c) && ttl < 0x1_0000_0000
    ensures |b.d| < DataFrom(AddSrv(b, c, ttl), SrvData(c)) && |b.d| < DataFrom(AddTxt(b, c, ttl), StringBytes(c.txt))
    ensures |b.d| < DataFrom(AddAddr(b, c, ttl), c.ip)
  {
    hide NameBytes, RecordBytes, Owner;
    NameLengths(c);
    SrvDataLength(c);
    StringsLength(c.txt);
    Longer(b.d, Owner(b.inst, InstanceName(c)), TYPE_SRV, CLASS_IN_FLUSH, ttl, SrvData(c));
    Longer(b.d, Owner(b.inst, InstanceName(c)), TYPE_TXT, CLASS_IN_FLUSH, ttl, StringBytes(c.txt));
    Longer(b.d, Owner(b.host, HostName(c)), TYPE_A, CLASS_IN_FLUSH, ttl, c.ip);
  }

  /** send_records: the answer if it fits the buffer, nothing otherwise.  Every write lands in the
      buffer if and only if the last record's data begins there. */
  method SendRecords(c: Config, w: Which, ttl: nat) returns (sent: Option<seq<u8>>, inside: bool)
    requires GoodConfig(c) && ttl < 0x1_0000_0000
    ensures sent == if |Response(c, w, ttl)| <= CAPACITY then Some(Response(c, w, ttl)) else None
    ensures inside <==> |Response(c, w, ttl)| - |LastData(c, w)| <= CAPACITY
  {
    hide Answer, Dns.Valid, Header, LastData;
    var d := new Dns();
    ghost var zero := d.out;
    StartHolds(d);
    var ancount;
    ancount, inside := BuildAnswer(d, c, w, ttl);
    AnswerBehind(zero, Header(Count(w)), c, w, ttl);
    Finished(d, Answer(zero, c, w, ttl).d);
    if d.overflow {
      return None, inside;
    }
    SetHeader(d, ancount);
    sent := Some(Datagram(d));
  }

  lemma StartHolds(d: Dns)
    requires d.Valid() && !d.overflow
    ensures Holds(d, Build(d.out, -1, -1), -1, -1)
  {
  }

  lemma Finished(d: Dns, m: seq<u8>)
    requires d.Valid() && |m| >= 12 && (!d.overflow ==> d.out == m)
    ensures !d.overflow ==> 12 <= d.pos && |m| <= CAPACITY
  {
  }

  /** What goes to the socket. */
  function Datagram(d: Dns): (b: seq<u8>)
    requires d.Valid() && !d.overflow
    reads d, d.buf
    ensures b == d.out
  {
    d.buf[..d.pos]
  }

  lemma HostKept(b: Build, c: Config, ttl: nat)
    requires GoodConfig(c) && ttl < 0x1_0000_0000
    ensures AddPtr(b, c, ttl).host == b.host
  {
    hide NameBytes, RecordBytes;
  }

  /** The header's content does not matter to what follows it. */
  lemma AnswerBehind(h: seq<u8>, k: seq<u8>, c: Config, w: Which, ttl: nat)
    requires GoodConfig(c) && ttl < 0x1_0000_0000 && |h| == 12 && |k| == 12
    ensures h <= Answer(h, c, w, ttl).d
    ensures Answer(k, c, w, ttl).d == k + Answer(h, c, w, ttl).d[12..]
  {
    hide AddPtr, AddSrv, AddTxt, AddAddr;
    var h0, k0 := Build(h, -1, -1), Build(k, -1, -1);
    AddsBehind(h0, k0, h, k, c, ttl);
    var h1, k1 := if w.ptr then AddPtr(h0, c, ttl) else h0, if w.ptr then AddPtr(k0, c, ttl) else k0;
    AddsBehind(h1, k1, h, k, c, ttl);
    var h2, k2 := if w.srv then AddSrv(h1, c, ttl) else h1, if w.srv then AddSrv(k1, c, ttl) else k1;
    AddsBehind(h2, k2, h, k, c, ttl);
    var h3, k3 := if w.txt then AddTxt(h2, c, ttl) else h2, if w.txt then AddTxt(k2, c, ttl) else k2;
    AddsBehind(h3, k3, h, k, c, ttl);
  }

  ghost predicate Behind(a: Build, b: Build, h: seq<u8>, k: seq<u8>) {
    && |h| == |k| == 12 && h <= a.d && k <= b.d
    && a.inst == b.inst && a.host == b.host && a.d[12..] == b.d[12..]
  }

  lemma AddsBehind(a: Build, b: Build, h: seq<u8>, k: seq<u8>, c: Config, ttl: nat)
    requires Behind(a, b, h, k) && GoodConfig(c) && ttl < 0x1_0000_0000
    ensures Behind(AddPtr(a, c, ttl), AddPtr(b, c, ttl), h, k)
    ensures Behind(AddSrv(a, c, ttl), AddSrv(b, c, ttl), h, k)
    ensures Behind(AddTxt(a, c, ttl), AddTxt(b, c, ttl), h, k)
    ensures Behind(AddAddr(a, c, ttl), AddAddr(b, c, ttl), h, k)
  {
    hide NameBytes, RecordBytes, Owner, StringBytes, SrvData, Behind;
    SameLengths(a, b, h, k);
    NameLengths(c);
    SrvDataLength(c);
    StringsLength(c.txt);
    var at := |a.d| + |NameBytes(ServiceName())| + 10;
    var ptr := RecordBytes(NameBytes(ServiceName()), TYPE_PTR, CLASS_IN, ttl, NameBytes(InstanceName(c)));
    AppendBehind(a, b, h, k, ptr, at, a.host);
    var owner := Owner(a.inst, InstanceName(c));
    var inst := if a.inst < 0 then |a.d| else a.inst;
    AppendBehind(a, b, h, k, RecordBytes(owner, TYPE_SRV, CLASS_IN_FLUSH, ttl, SrvData(c)), inst, |a.d| + |owner| + 16);
    AppendBehind(a, b, h, k, RecordBytes(owner, TYPE_TXT, CLASS_IN_FLUSH, ttl, StringBytes(c.txt)), inst, a.host);
    var addr := RecordBytes(Owner(a.host, HostName(c)), TYPE_A, CLASS_IN_FLUSH, ttl, c.ip);
    AppendBehind(a, b, h, k, addr, a.inst, a.host);
  }

  lemma SameLengths(a: Build, b: Build, h: seq<u8>, k: seq<u8>)
    requires Behind(a, b, h, k)
    ensures |a.d| == |b.d| && a.inst == b.inst && a.host == b.host
  {
    assert |a.d[12..]| == |b.d[12..]|;
  }

  lemma AppendBehind(a: Build, b: Build, h: seq<u8>, k: seq<u8>, t: seq<u8>, inst: int, host: int)
    requires Behind(a, b, h, k)
    ensures Behind(Build(a.d + t, inst, host), Build(b.d + t, inst, host), h, k)
  {
    assert (a.d + t)[12..] == a.d[12..] + t;
    assert (b.d + t)[12..] == b.d[12..] + t;
  }
}
