/** What the daemon advertises: the instance name as it is given, the eight TXT strings made from it,
    and how long an answer they make. */
module MdnsAdvert {
  import opened Basics
  import opened Bytes
  import opened MdnsCodec
  import opened MdnsResponse
  import opened MdnsBuilder
  import Radio

  // ---- The instance name --------------------------------------------------------------

  /** The pieces between the dots, empty ones included. */
  function Labels(s: seq<u8>): (ls: seq<Label>)
    ensures ls != [] && Spelled(ls) == s + [DOT]
    ensures forall i :: 0 <= i < |ls| ==> DOT !in ls[i] && |ls[i]| <= |s|
    decreases |s|
  {
    hide Spelled, FindDot;
    var k := FindDot(s);
    if k < 0 then
      SpelledFirst(s, []);
      [s] + []
    else
      var rest := Labels(s[k + 1..]);
      SpelledFirst(s[..k], rest);
      assert s[..k] + [DOT] + s[k + 1..] == s;
      [s[..k]] + rest
  }

  lemma SpelledFirst(l: Label, rest: seq<Label>)
    ensures Spelled([l] + rest) == l + [DOT] + Spelled(rest) && Spelled([]) == []
  {
    assert ([l] + rest)[1..] == rest;
  }

  /** Neither end is a dot, and no two dots meet. */
  predicate WellDotted(s: seq<u8>) {
    && s != [] && s[0] != DOT && s[|s| - 1] != DOT
    && forall j, k :: 0 <= j < |s| && 0 <= k < |s| && k == j + 1 ==> s[j] != DOT || s[k] != DOT
  }

  lemma {:induction false} NoEmptyLabel(s: seq<u8>)
    ensures WellDotted(s) <==> forall i :: 0 <= i < |Labels(s)| ==> Labels(s)[i] != []
    decreases |s|
  {
    hide Spelled, FindDot;
    var k := FindDot(s);
    if k >= 0 {
      var t := s[k + 1..];
      NoEmptyLabel(t);
      var ls := Labels(s);
      assert ls == [s[..k]] + Labels(t);
      Rejoined(s, k);
      assert (forall i :: 0 <= i < |ls| ==> ls[i] != []) <==>
             s[..k] != [] && forall i :: 0 <= i < |Labels(t)| ==> Labels(t)[i] != [] by {
        assert forall i :: 0 <= i < |Labels(t)| ==> ls[i + 1] == Labels(t)[i];
        assert ls[0] == s[..k];
      }
    } else {
      assert Labels(s) == [s] && Labels(s)[0] == s;
    }
  }

  lemma Rejoined(s: seq<u8>, k: nat)
    requires k < |s| && s[k] == DOT && DOT !in s[..k]
    ensures WellDotted(s) <==> k > 0 && WellDotted(s[k + 1..])
  {
    var t := s[k + 1..];
    assert forall j :: 0 <= j < |t| ==> t[j] == s[k + 1 + j];
    assert forall j :: 0 <= j < k ==> s[..k][j] == s[j];
    if k > 0 && WellDotted(t) {
      forall i, j | 0 <= i && j == i + 1 && j < |s| ensures s[i] != DOT || s[j] != DOT {
        if i > k {
          assert t[i - k - 1] == s[i] && t[j - k - 1] == s[j];
        }
      }
    }
  }

  /** dns_name cuts nothing short: as far as its labels are good, a name is written as they are. */
  lemma {:induction false} SpelledUpTo(ls: seq<Label>, k: nat)
    requires k <= |ls| && FitName(ls[..k]) && (k < |ls| ==> ls[k] == [])
    ensures NameBytes(ls[..k]) <= DottedBytes(Spelled(ls))
    decreases k
  {
    hide DottedBytes, Spelled, FindDot;
    SpelledParts(ls);
    if k == 0 {
      if ls == [] {
        NoLabel([]);
      } else {
        DotAt(Spelled(ls), 0);
        FirstLabel(Spelled(ls), 0);
      }
    } else {
      var s, l := Spelled(ls), ls[0];
      assert l == ls[..k][0] && ls[1..][..k - 1] == ls[..k][1..];
      DotAt(s, |l|);
      FirstLabel(s, |l|);
      SpelledUpTo(ls[1..], k - 1);
    }
  }

  /** The dotted form, one dot short of how the labels are spelled. */
  lemma {:induction false} JoinSpelled(out: seq<u8>, ls: seq<Label>)
    requires GoodName(ls) && (out != [] || ls != [])
    ensures Join(out, ls) + [DOT] == (if out == [] then [] else out + [DOT]) + Spelled(ls)
    decreases |ls|
  {
    SpelledParts(ls);
    if ls != [] {
      var l := ls[0];
      JoinSpelled(Dotted(out, l), ls[1..]);
      assert Spelled(ls) == l + [DOT] + Spelled(ls[1..]);
    }
  }

  /** Number of labels before the first empty one. */
  function Whole(ls: seq<Label>): (k: nat)
    ensures k <= |ls| && (k < |ls| ==> ls[k] == []) && forall i :: 0 <= i < k ==> ls[i] != []
  {
    if ls == [] || ls[0] == [] then 0 else 1 + Whole(ls[1..])
  }

  lemma SpelledMore(ls: seq<Label>, k: nat)
    requires k <= |ls|
    ensures |Spelled(ls[..k])| <= |Spelled(ls)| && (k < |ls| ==> |Spelled(ls[..k])| < |Spelled(ls)|)
  {
    SpelledJoined(ls[..k], ls[k..]);
    assert ls == ls[..k] + ls[k..];
    SpelledParts(ls[k..]);
  }

  /** The name `s` of a service or host under the labels `tail` is read back as it was given if and
      only if it has no empty label: at an empty label the reader takes the name to end. */
  lemma NameReadsIff(b: seq<u8>, p: nat, s: seq<u8>, tail: seq<Label>)
    requires |s| <= 63 && tail != [] && GoodName(tail) && |Spelled(tail)| <= 20
    requires At(b, p, DottedBytes(s + [DOT] + Spelled(tail)))
    ensures var r := ReadName(b, p, [], ROUNDS, -1, NAME_CAP);
            r.NameAt? && (r.name + [DOT] == s + [DOT] + Spelled(tail) <==> WellDotted(s))
  {
    hide At, Spelled, DottedBytes, Join, ReadName, NameBytes, Labels, WellDotted, Whole;
    var ls := Labels(s) + tail;
    SpelledJoined(Labels(s), tail);
    NoEmptyLabel(s);
    var k := Whole(ls);
    WholeIff(Labels(s), tail);
    SpelledUpTo(ls, k);
    var w, all := NameBytes(ls[..k]), DottedBytes(Spelled(ls));
    assert w + all[|w|..] == all;
    AtSplit(b, p, w, all[|w|..]);
    SpelledMore(ls, k);
    SpelledLong(ls[..k]);
    JoinText(ls[..k]);
    ReadFull(b, p, ls[..k], [], ROUNDS, -1, NAME_CAP);
    if k == |ls| {
      assert ls[..k] == ls;
    } else {
      SpelledMore(ls, |Labels(s)|);
      SpelledLong(tail);
      assert ls[..|Labels(s)|] == Labels(s);
    }
  }

  lemma WholeIff(ls: seq<Label>, tail: seq<Label>)
    requires GoodName(tail)
    ensures Whole(ls + tail) == |ls + tail| <==> forall i :: 0 <= i < |ls| ==> ls[i] != []
  {
    hide Whole;
    var all := ls + tail;
    assert forall i :: 0 <= i < |ls| ==> all[i] == ls[i];
    assert forall i :: |ls| <= i < |all| ==> GoodLabel(all[i]);
  }

  lemma JoinText(ls: seq<Label>)
    requires GoodName(ls)
    ensures ls == [] ==> Join([], ls) == []
    ensures ls != [] ==> Join([], ls) + [DOT] == Spelled(ls)
  {
    if ls != [] {
      hide Join, Spelled;
      JoinSpelled([], ls);
    }
  }

  // ---- The TXT strings ----------------------------------------------------------------

  /** mdns_txt_t. */
  datatype Advert = Advert(name: seq<u8>, proto: seq<u8>, protoVer: seq<u8>, functions: seq<u8>, hw: seq<u8>,
    fw: seq<u8>, minHz: u64, maxHz: u64)

  const TXT_SIZE := 160

  function Ascii(s: string): (b: seq<u8>)
    requires forall i :: 0 <= i < |s| ==> s[i] < 128 as char
    ensures |b| == |s|
  {
    seq(|s|, i requires 0 <= i < |s| => s[i] as u8)
  }

  /** snprintf into one of the 160-byte buffers. */
  function Cut(s: seq<u8>): (t: seq<u8>)
    ensures t <= s && |t| == if |s| < TXT_SIZE then |s| else TXT_SIZE - 1
  {
    if |s| < TXT_SIZE then s else s[..TXT_SIZE - 1]
  }

  function Decimal(n: nat): seq<u8> {
    if n < 10 then [(48 + n) as u8] else Decimal(n / 10) + [(48 + n % 10) as u8]
  }

  function Pow10(k: nat): (p: nat)
    ensures p > 0
  {
    if k == 0 then 1 else 10 * Pow10(k - 1)
  }

  lemma {:induction false} DecimalLength(n: nat, k: nat)
    requires 0 < k && n < Pow10(k)
    ensures 0 < |Decimal(n)| <= k
    decreases k
  {
    if n >= 10 {
      assert n / 10 < Pow10(k - 1);
      DecimalLength(n / 10, k - 1);
    }
  }

  lemma Decimals(n: u64)
    ensures 0 < |Decimal(n)| <= 20
  {
    assert Pow10(4) == 10_000;
    assert Pow10(8) == 10_000 * 10_000;
    assert Pow10(12) == 10_000 * 10_000 * 10_000;
    assert Pow10(16) == 10_000 * 10_000 * 10_000 * 10_000;
    assert Pow10(20) == 10_000 * 10_000 * 10_000 * 10_000 * 10_000;
    DecimalLength(n, 20);
  }

  /** mdns_builtin_start: always eight strings, in this order. */
  function TxtStrings(a: Advert): (ss: seq<seq<u8>>)
    ensures |ss| == 8 && forall i :: 0 <= i < 8 ==> |ss[i]| < TXT_SIZE
  {
    [Cut(Ascii("name=") + a.name), Cut(Ascii("proto=") + a.proto), Cut(Ascii("proto_ver=") + a.protoVer),
     Cut(Ascii("functions=") + a.functions), Cut(Ascii("hw=") + a.hw), Cut(Ascii("fw=") + a.fw),
     Cut(Ascii("minhz=") + Decimal(a.minHz)), Cut(Ascii("maxhz=") + Decimal(a.maxHz))]
  }

  lemma OneString(ss: seq<seq<u8>>, k: nat)
    requires k < |ss| && forall i :: 0 <= i < |ss| ==> |ss[i]| < TXT_SIZE
    ensures |StringBytes(ss[k..])| == 1 + |ss[k]| + |StringBytes(ss[k + 1..])|
  {
    assert ss[k..][1..] == ss[k + 1..];
  }

  lemma EightStrings(ss: seq<seq<u8>>)
    requires |ss| == 8 && forall i :: 0 <= i < 8 ==> |ss[i]| < TXT_SIZE
    ensures |StringBytes(ss)|
         == 8 + |ss[0]| + |ss[1]| + |ss[2]| + |ss[3]| + |ss[4]| + |ss[5]| + |ss[6]| + |ss[7]|
  {
    hide StringBytes;
    assert ss[0..] == ss && ss[8..] == [];
    OneString(ss, 0);
    OneString(ss, 1);
    OneString(ss, 2);
    OneString(ss, 3);
    OneString(ss, 4);
    OneString(ss, 5);
    OneString(ss, 6);
    OneString(ss, 7);
    NoStrings();
  }

  lemma NoStrings()
    ensures StringBytes([]) == []
  {
  }

  function Shorter(n: nat): nat {
    if n < TXT_SIZE then n else TXT_SIZE - 1
  }

  /** The length of the TXT data, from the lengths of what is advertised. */
  function TxtLength(a: Advert): nat {
    8 + Shorter(5 + |a.name|) + Shorter(6 + |a.proto|) + Shorter(10 + |a.protoVer|) + Shorter(10 + |a.functions|)
    + Shorter(3 + |a.hw|) + Shorter(3 + |a.fw|) + (6 + |Decimal(a.minHz)|) + (6 + |Decimal(a.maxHz)|)
  }

  lemma TxtBytes(a: Advert)
    ensures |StringBytes(TxtStrings(a))| == TxtLength(a) <= 1014
  {
    hide StringBytes, Decimal, TxtStrings;
    EightStrings(TxtStrings(a));
    StringLengths(a);
    Decimals(a.minHz);
    Decimals(a.maxHz);
  }

  lemma StringLengths(a: Advert)
    ensures var ss := TxtStrings(a);
            && |ss[0]| == Shorter(5 + |a.name|) && |ss[1]| == Shorter(6 + |a.proto|)
            && |ss[2]| == Shorter(10 + |a.protoVer|) && |ss[3]| == Shorter(10 + |a.functions|)
            && |ss[4]| == Shorter(3 + |a.hw|) && |ss[5]| == Shorter(3 + |a.fw|)
            && |ss[6]| == Shorter(6 + |Decimal(a.minHz)|) && |ss[7]| == Shorter(6 + |Decimal(a.maxHz)|)
  {
    hide Decimal, Ascii, Cut;
  }

  // ---- The answer's length ------------------------------------------------------------

  /** Length of an answer, for an instance name of `n` bytes and `t` bytes of TXT data. */
  function AnswerLength(w: Which, n: nat, t: nat): nat {
    12 + (if w.ptr then 53 + n else 0)
    + (if w.srv then (if w.ptr then 2 else n + 22) + 24 + n else 0)
    + (if w.txt then (if w.ptr || w.srv then 2 else n + 22) + 10 + t else 0)
    + (if w.a then (if w.srv then 2 else n + 8) + 14 else 0)
  }

  lemma ResponseLength(c: Config, w: Which, ttl: nat)
    requires GoodConfig(c) && ttl < 0x1_0000_0000
    ensures |Response(c, w, ttl)| == AnswerLength(w, Chars(c), |StringBytes(c.txt)|)
  {
    hide AddPtr, AddSrv, AddTxt, AddAddr, GoodConfig, Chars, StringBytes, Header;
    SmallConfig(c);
    var b0 := Build(Header(Count(w)), -1, -1);
    PtrLength(b0, c, ttl);
    var b1 := if w.ptr then AddPtr(b0, c, ttl) else b0;
    SrvLength(b1, c, ttl);
    var b2 := if w.srv then AddSrv(b1, c, ttl) else b1;
    TxtAddrLength(b2, c, ttl);
    var b3 := if w.txt then AddTxt(b2, c, ttl) else b2;
    TxtAddrLength(b3, c, ttl);
  }

  /** Length of an owner name that takes `full` bytes written out. */
  function OwnerLength(off: int, full: nat): nat {
    if 0 <= off < 0x4000 then 2 else full
  }

  lemma PtrLength(b: Build, c: Config, ttl: nat)
    requires GoodConfig(c) && ttl < 0x1_0000_0000
    ensures var b1 := AddPtr(b, c, ttl);
            |b1.d| == |b.d| + 53 + Chars(c) && b1.inst == |b.d| + 31 && b1.host == b.host
  {
    hide NameBytes, RecordBytes, Chars;
    NameLengths(c);
    SmallConfig(c);
    Longer(b.d, NameBytes(ServiceName()), TYPE_PTR, CLASS_IN, ttl, NameBytes(InstanceName(c)));
  }

  lemma SrvLength(b: Build, c: Config, ttl: nat)
    requires GoodConfig(c) && ttl < 0x1_0000_0000
    ensures var b1, own := AddSrv(b, c, ttl), OwnerLength(b.inst, Chars(c) + 22);
            && |b1.d| == |b.d| + own + 24 + Chars(c) && b1.host == |b.d| + own + 16
            && b1.inst == if b.inst < 0 then |b.d| else b.inst
  {
    hide NameBytes, RecordBytes, Chars, SrvData;
    NameLengths(c);
    SrvDataLength(c);
    SmallConfig(c);
    Longer(b.d, Owner(b.inst, InstanceName(c)), TYPE_SRV, CLASS_IN_FLUSH, ttl, SrvData(c));
  }

  lemma TxtAddrLength(b: Build, c: Config, ttl: nat)
    requires GoodConfig(c) && ttl < 0x1_0000_0000
    ensures var b1 := AddTxt(b, c, ttl);
            && |b1.d| == |b.d| + OwnerLength(b.inst, Chars(c) + 22) + 10 + |StringBytes(c.txt)|
            && b1.host == b.host
    ensures |AddAddr(b, c, ttl).d| == |b.d| + OwnerLength(b.host, Chars(c) + 8) + 14
  {
    hide NameBytes, RecordBytes, Chars, StringBytes;
    NameLengths(c);
    StringsLength(c.txt);
    Longer(b.d, Owner(b.inst, InstanceName(c)), TYPE_TXT, CLASS_IN_FLUSH, ttl, StringBytes(c.txt));
    Longer(b.d, Owner(b.host, HostName(c)), TYPE_A, CLASS_IN_FLUSH, ttl, c.ip);
  }

  // ---- What is sent -------------------------------------------------------------------

  /** The responder's state for an instance name and an advertisement. */
  function Started(s: seq<u8>, a: Advert, port: nat, ip: seq<u8>): (c: Config)
    requires |s| <= 63 && port < 0x10000 && |ip| == 4
    ensures GoodConfig(c) && (Legible(c) <==> WellDotted(s))
    ensures Chars(c) == |s| && NameText(InstanceName(c)) == s + [DOT] + NameText(ServiceName())
  {
    hide Spelled, Labels, TxtStrings, WellDotted, GoodName, NameText;
    GoodLabels(s);
    var c := Config(Labels(s), port, TxtStrings(a), ip);
    TextOf(Labels(s), s, ServiceName());
    c
  }

  lemma GoodLabels(s: seq<u8>)
    requires |s| <= 63
    ensures FitName(Labels(s)) && (GoodName(Labels(s)) <==> WellDotted(s))
  {
    hide Spelled, Labels, WellDotted;
    NoEmptyLabel(s);
    assert forall i :: 0 <= i < |Labels(s)| ==> (GoodLabel(Labels(s)[i]) <==> Labels(s)[i] != []);
  }

  lemma TextOf(ls: seq<Label>, s: seq<u8>, tail: seq<Label>)
    requires Spelled(ls) == s + [DOT] && tail != []
    ensures ls + tail != [] && NameText(ls + tail) == s + [DOT] + NameText(tail)
  {
    hide Spelled;
    SpelledJoined(ls, tail);
    SpelledParts(tail);
  }

  /** All four records together are sent, and written inside the buffer, exactly as far as the name
      and what is advertised are short enough. */
  lemma AnnouncementFits(s: seq<u8>, a: Advert, port: nat, ip: seq<u8>, ttl: nat)
    requires |s| <= 63 && port < 0x10000 && |ip| == 4 && ttl < 0x1_0000_0000
    ensures var c := Started(s, a, port, ip);
            && (|Response(c, ALL, ttl)| <= CAPACITY <==> 2 * |s| + TxtLength(a) <= 905)
            && (|Response(c, ALL, ttl)| - |LastData(c, ALL)| <= CAPACITY <==> 2 * |s| + TxtLength(a) <= 909)
  {
    hide GoodConfig, Response, Chars, StringBytes, TxtStrings, TxtLength, Labels, Legible, NameText, InstanceName;
    var c := Started(s, a, port, ip);
    ResponseLength(c, ALL, ttl);
    TxtBytes(a);
  }

  /** Six long strings are enough: whatever the name, nothing is sent, and the address record's
      length is written past the buffer. */
  lemma LongTextStrays(s: seq<u8>, a: Advert, port: nat, ip: seq<u8>, ttl: nat)
    requires |s| <= 63 && port < 0x10000 && |ip| == 4 && ttl < 0x1_0000_0000
    requires |a.name| >= 154 && |a.proto| >= 153 && |a.protoVer| >= 149 && |a.functions| >= 149
    requires |a.hw| >= 156 && |a.fw| >= 156
    ensures var c := Started(s, a, port, ip); |Response(c, ALL, ttl)| - |LastData(c, ALL)| > CAPACITY
  {
    hide GoodConfig, Response, LastData, Decimal, Started;
    AnnouncementFits(s, a, port, ip, ttl);
  }

  /** What this daemon advertises: all of it fixed but its name and the sampling mode. */
  function DaemonAdvert(name: seq<u8>, mode: Radio.Mode): Advert {
    Advert(name, Ascii("sdr-slc"), Ascii("1.0"), Ascii("rx"), Ascii("RTL-SDR-v4"), Ascii("sdr-slc-rtld/1.0"),
           Radio.FreqMin(mode), Radio.FreqMax(mode))
  }

  /** So this daemon's every answer fits: it is sent, and no write strays. */
  lemma DaemonFits(s: seq<u8>, mode: Radio.Mode, port: nat, ip: seq<u8>, w: Which, ttl: nat)
    requires |s| <= 63 && port < 0x10000 && |ip| == 4 && ttl < 0x1_0000_0000
    ensures var c := Started(s, DaemonAdvert(s, mode), port, ip);
            && |Response(c, w, ttl)| <= 419 < CAPACITY
            && |Response(c, w, ttl)| - |LastData(c, w)| <= CAPACITY
  {
    hide GoodConfig, Response, Chars, StringBytes, TxtStrings, Labels, Legible, NameText, InstanceName, LastData, Ascii,
      Decimal;
    var a := DaemonAdvert(s, mode);
    var c := Started(s, a, port, ip);
    ResponseLength(c, w, ttl);
    TxtBytes(a);
    assert |Decimal(a.minHz)| <= 6 && |Decimal(a.maxHz)| <= 10 by {
      assert Pow10(3) == 1000;
      assert Pow10(6) == 1_000_000;
      assert Pow10(10) == 10_000_000_000;
      DecimalLength(a.minHz, 6);
      DecimalLength(a.maxHz, 10);
    }
  }
}
