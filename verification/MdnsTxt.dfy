/** What a browser reads from the TXT strings: each under its key, as far as its string has room. */
module MdnsTxt {
  import opened Basics
  import opened Bytes
  import opened MdnsAdvert
  import Radio

  const EQUALS: u8 := 61

  /** Where the first equals sign is; the length if there is none. */
  function KeyEnd(s: seq<u8>): (k: nat)
    ensures k <= |s| && (k < |s| ==> s[k] == EQUALS) && forall i :: 0 <= i < k ==> s[i] != EQUALS
  {
    if s == [] || s[0] == EQUALS then 0 else 1 + KeyEnd(s[1..])
  }

  /** The value of the first string with this key, as section 6.4 of RFC 6763 reads it. */
  function TxtValue(ss: seq<seq<u8>>, key: seq<u8>): Option<seq<u8>> {
    if ss == [] then None
    else if HasKey(ss[0], key) then Some(ss[0][KeyEnd(ss[0]) + 1..])
    else TxtValue(ss[1..], key)
  }

  predicate HasKey(s: seq<u8>, key: seq<u8>) {
    KeyEnd(s) < |s| && s[..KeyEnd(s)] == key
  }

  /** A value as far as a string has room for it behind its key. */
  function Room(key: seq<u8>, value: seq<u8>): (v: seq<u8>)
    requires |key| < 100
    ensures v <= value && (|key| + 1 + |value| < TXT_SIZE ==> v == value)
  {
    if |key| + 1 + |value| < TXT_SIZE then value else value[..TXT_SIZE - 2 - |key|]
  }

  lemma PairReads(key: seq<u8>, value: seq<u8>)
    requires EQUALS !in key && |key| < 100
    ensures var s := Cut(key + [EQUALS] + value);
            HasKey(s, key) && s[KeyEnd(s) + 1..] == Room(key, value)
  {
    hide KeyEnd;
    var s := Cut(key + [EQUALS] + value);
    assert s[|key|] == EQUALS && s[..|key|] == key;
    assert forall i :: 0 <= i < |key| ==> s[i] == key[i];
  }

  lemma {:induction false} ValueOf(ss: seq<seq<u8>>, i: nat, key: seq<u8>)
    requires i < |ss| && HasKey(ss[i], key) && forall j :: 0 <= j < i ==> !HasKey(ss[j], key)
    ensures TxtValue(ss, key) == Some(ss[i][KeyEnd(ss[i]) + 1..])
    decreases i
  {
    hide KeyEnd;
    if i > 0 {
      ValueOf(ss[1..], i - 1, key);
    }
  }

  /** The eight keys, in order, as bytes. */
  function Keys(): (ks: seq<seq<u8>>)
    ensures |ks| == 8 && forall i :: 0 <= i < 8 ==> |ks[i]| < 100 && EQUALS !in ks[i]
  {
    [[110, 97, 109, 101], [112, 114, 111, 116, 111], [112, 114, 111, 116, 111, 95, 118, 101, 114],
     [102, 117, 110, 99, 116, 105, 111, 110, 115], [104, 119], [102, 119], [109, 105, 110, 104, 122],
     [109, 97, 120, 104, 122]]
  }

  lemma KeyBytes()
    ensures var ks := Keys();
            && ks[0] == Ascii("name") && ks[1] == Ascii("proto") && ks[2] == Ascii("proto_ver")
            && ks[3] == Ascii("functions") && ks[4] == Ascii("hw") && ks[5] == Ascii("fw")
            && ks[6] == Ascii("minhz") && ks[7] == Ascii("maxhz")
    ensures Ascii("name=") == Keys()[0] + [EQUALS] && Ascii("proto=") == Keys()[1] + [EQUALS]
    ensures Ascii("proto_ver=") == Keys()[2] + [EQUALS] && Ascii("functions=") == Keys()[3] + [EQUALS]
    ensures Ascii("hw=") == Keys()[4] + [EQUALS] && Ascii("fw=") == Keys()[5] + [EQUALS]
    ensures Ascii("minhz=") == Keys()[6] + [EQUALS] && Ascii("maxhz=") == Keys()[7] + [EQUALS]
  {
  }

  lemma KeysDiffer(i: nat, j: nat)
    requires i < j < 8
    ensures Keys()[i] != Keys()[j]
  {
    var a, b := Keys()[i], Keys()[j];
    assert |a| != |b| || a[0] != b[0] || a[1] != b[1];
  }

  /** What the strings are made of, key by key. */
  function Values(a: Advert): (vs: seq<seq<u8>>)
    ensures |vs| == 8
  {
    [a.name, a.proto, a.protoVer, a.functions, a.hw, a.fw, Decimal(a.minHz), Decimal(a.maxHz)]
  }

  lemma StringsAre(a: Advert, i: nat)
    requires i < 8
    ensures TxtStrings(a)[i] == Cut(Keys()[i] + [EQUALS] + Values(a)[i])
  {
    hide Decimal, Ascii, Cut, Keys;
    KeyBytes();
  }

  lemma ValueAt(a: Advert, i: nat)
    requires i < 8
    ensures TxtValue(TxtStrings(a), Keys()[i]) == Some(Room(Keys()[i], Values(a)[i]))
  {
    hide TxtStrings, Keys, Values, Room, KeyEnd, Cut;
    var ss := TxtStrings(a);
    forall j | 0 <= j <= i
      ensures HasKey(ss[j], Keys()[i]) <==> j == i
    {
      StringsAre(a, j);
      PairReads(Keys()[j], Values(a)[j]);
      if j < i {
        KeysDiffer(j, i);
      }
    }
    StringsAre(a, i);
    PairReads(Keys()[i], Values(a)[i]);
    ValueOf(ss, i, Keys()[i]);
  }

  /** A browser that looks up a key finds what is advertised under it, cut to its string's room. */
  lemma BrowserReads(a: Advert)
    ensures var ss := TxtStrings(a);
            && TxtValue(ss, Ascii("name")) == Some(Room(Ascii("name"), a.name))
            && TxtValue(ss, Ascii("proto")) == Some(Room(Ascii("proto"), a.proto))
            && TxtValue(ss, Ascii("proto_ver")) == Some(Room(Ascii("proto_ver"), a.protoVer))
            && TxtValue(ss, Ascii("functions")) == Some(Room(Ascii("functions"), a.functions))
            && TxtValue(ss, Ascii("hw")) == Some(Room(Ascii("hw"), a.hw))
            && TxtValue(ss, Ascii("fw")) == Some(Room(Ascii("fw"), a.fw))
            && TxtValue(ss, Ascii("minhz")) == Some(Decimal(a.minHz))
            && TxtValue(ss, Ascii("maxhz")) == Some(Decimal(a.maxHz))
  {
    hide TxtStrings, Keys, Room, Ascii, TxtValue, Decimal;
    KeyBytes();
    forall i | 0 <= i < 8
      ensures TxtValue(TxtStrings(a), Keys()[i]) == Some(Room(Keys()[i], Values(a)[i]))
    {
      ValueAt(a, i);
    }
    Decimals(a.minHz);
    Decimals(a.maxHz);
    assert Values(a)[0] == a.name && Values(a)[1] == a.proto && Values(a)[2] == a.protoVer;
    assert Values(a)[3] == a.functions && Values(a)[4] == a.hw && Values(a)[5] == a.fw;
  }

  /** The number a browser makes of digits. */
  function Number(s: seq<u8>): int {
    if s == [] then 0 else 10 * Number(s[..|s| - 1]) + (s[|s| - 1] as int - 48)
  }

  lemma {:induction false} NumberBack(n: nat)
    ensures Number(Decimal(n)) == n
    decreases n
  {
    if n >= 10 {
      NumberBack(n / 10);
      assert Decimal(n)[..|Decimal(n)| - 1] == Decimal(n / 10);
    }
  }

  /** Of this daemon it reads the limits of the sampling mode in force at start-up, and its name. */
  lemma DaemonReads(name: seq<u8>, mode: Radio.Mode)
    requires |name| <= 63
    ensures var ss := TxtStrings(DaemonAdvert(name, mode));
            && TxtValue(ss, Ascii("name")) == Some(name)
            && TxtValue(ss, Ascii("minhz")).Some? && TxtValue(ss, Ascii("maxhz")).Some?
            && Number(TxtValue(ss, Ascii("minhz")).value) == Radio.FreqMin(mode)
            && Number(TxtValue(ss, Ascii("maxhz")).value) == Radio.FreqMax(mode)
  {
    hide TxtStrings, TxtValue, Decimal, Number, Ascii, Radio.FreqMin, Radio.FreqMax;
    var a := DaemonAdvert(name, mode);
    BrowserReads(a);
    NumberBack(a.minHz);
    NumberBack(a.maxHz);
  }
}
