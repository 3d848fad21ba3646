/** Pre-shared-key authentication: HMAC-SHA256 over the nonce, compared with the client's hex. */
module Auth {
  import opened Sha256

  // ---- RFC 2104, section 2 ------------------------------------------------------------

  /** The key, hashed if longer than a block, padded with zeros to a block. */
  function BlockKey(key: seq<Byte>): (k: seq<Byte>)
    ensures |k| == 64
  {
    var k := if |key| > 64 then Hash(key) else key;
    k + Zeros(64 - |k|)
  }

  function Xor(a: Byte, b: Byte): Byte { a ^ b }

  function XorPad(k: seq<Byte>, pad: Byte): (r: seq<Byte>)
    ensures |r| == |k|
    ensures forall i :: 0 <= i < |k| ==> r[i] == Xor(k[i], pad)
  {
    seq(|k|, i requires 0 <= i < |k| => Xor(k[i], pad))
  }

  function Hmac(key: seq<Byte>, msg: seq<Byte>): (mac: seq<Byte>)
    ensures |mac| == 32
  {
    var k := BlockKey(key);
    Hash(XorPad(k, 0x5c) + Hash(XorPad(k, 0x36) + msg))
  }

  /** Each bit of the pad turns the key's over, or leaves it. */
  lemma XorTurns(a: Byte, b: Byte)
    ensures Xor(a, b) & b == !a & b && Xor(a, b) & !b == a & !b
  {
  }

  /** Zeros behind a key that fits a block make no difference. */
  lemma TrailingZeros(key: seq<Byte>, n: nat, msg: seq<Byte>)
    requires |key| + n <= 64
    ensures Hmac(key + Zeros(n), msg) == Hmac(key, msg)
  {
    hide Hash, XorPad;
    assert key + Zeros(n) + Zeros(64 - |key| - n) == key + Zeros(64 - |key|);
  }

  /** A longer key counts as its hash. */
  lemma LongKey(key: seq<Byte>, msg: seq<Byte>)
    requires |key| > 64
    ensures Hmac(key, msg) == Hmac(Hash(key), msg)
  {
    hide Hash, XorPad;
  }

  /** auth_hmac_sha256: both hashes streamed in two updates. */
  method HmacSha256(key: seq<Byte>, msg: seq<Byte>) returns (out: seq<Byte>)
    ensures out == Hmac(key, msg)
  {
    hide Hash, Hasher.Valid, Xor;
    var k := new Byte[64](_ => 0);
    var head := key;
    if |key| > 64 {
      head := HashOf(key);
    }
    for i := 0 to |head|
      invariant forall j :: 0 <= j < 64 ==> k[j] == if j < i then head[j] else 0
    {
      k[i] := head[i];
    }
    assert k[..] == BlockKey(key);

    var ipad, opad := new Byte[64](_ => 0), new Byte[64](_ => 0);
    for i := 0 to 64
      invariant forall j :: 0 <= j < i ==> ipad[j] == Xor(k[j], 0x36) && opad[j] == Xor(k[j], 0x5c)
      modifies ipad, opad
    {
      ipad[i] := Xor(k[i], 0x36);
      opad[i] := Xor(k[i], 0x5c);
    }
    ghost var bk := BlockKey(key);
    var ip, op := ipad[..], opad[..];
    assert ip == XorPad(bk, 0x36);
    assert op == XorPad(bk, 0x5c);

    var inner := HashTwo(ip, msg);
    out := HashTwo(op, inner);
  }

  method HashTwo(a: seq<Byte>, b: seq<Byte>) returns (out: seq<Byte>)
    ensures out == Hash(a + b)
  {
    hide Hash, Hasher.Valid;
    var s := new Hasher();
    s.Update(a);
    s.Update(b);
    assert s.msg == a + b;
    out := s.Final();
  }

  // ---- Hex ----------------------------------------------------------------------------

  function HexChar(n: nat): (c: char)
    requires n < 16
    ensures HexVal(c) == n
  {
    if n < 10 then '0' + n as char else 'a' + (n - 10) as char
  }

  /** hexval, in either case; -1 for anything else. */
  function HexVal(c: char): (v: int)
    ensures -1 <= v < 16
  {
    if '0' <= c <= '9' then c as int - '0' as int
    else if 'a' <= c <= 'f' then c as int - 'a' as int + 10
    else if 'A' <= c <= 'F' then c as int - 'A' as int + 10
    else -1
  }

  predicate IsHexText(s: string) {
    |s| % 2 == 0 && forall i :: 0 <= i < |s| ==> HexVal(s[i]) >= 0
  }

  function Nibble(n: int): Byte
    requires 0 <= n < 16
  {
    n as Byte
  }

  function HexByte(hi: int, lo: int): Byte
    requires 0 <= hi < 16 && 0 <= lo < 16
  {
    (Nibble(hi) << 4) | Nibble(lo)
  }

  /** The bytes that hex text spells. */
  function HexBytes(s: string): (r: seq<Byte>)
    requires IsHexText(s)
    ensures |r| == |s| / 2
    ensures forall i :: 0 <= i < |r| ==> r[i] == HexByte(HexVal(s[2 * i]), HexVal(s[2 * i + 1]))
  {
    seq(|s| / 2, i requires 0 <= i < |s| / 2 => HexByte(HexVal(s[2 * i]), HexVal(s[2 * i + 1])))
  }

  function High(b: Byte): (n: nat)
    ensures n < 16
  {
    NibbleRange(b >> 4);
    (b >> 4) as nat
  }

  function Low(b: Byte): (n: nat)
    ensures n < 16
  {
    NibbleRange(b & 0xF);
    (b & 0xF) as nat
  }

  lemma NibbleRange(b: Byte)
    requires b < 16
    ensures (b as nat) < 16 && Nibble(b as nat) == b
  {
    assert b == 0 || b == 1 || b == 2 || b == 3 || b == 4 || b == 5 || b == 6 || b == 7
        || b == 8 || b == 9 || b == 10 || b == 11 || b == 12 || b == 13 || b == 14 || b == 15;
  }

  function HexText(b: seq<Byte>): (s: string)
    ensures |s| == 2 * |b|
    ensures forall i :: 0 <= i < |b| ==> s[2 * i] == HexChar(High(b[i])) && s[2 * i + 1] == HexChar(Low(b[i]))
  {
    if b == [] then ""
    else HexText(b[..|b| - 1]) + [HexChar(High(b[|b| - 1])), HexChar(Low(b[|b| - 1]))]
  }

  /** auth_hex. */
  method AuthHex(b: seq<Byte>) returns (s: string)
    ensures s == HexText(b)
  {
    hide High, Low, HexChar;
    s := "";
    for i := 0 to |b|
      invariant s == HexText(b[..i])
    {
      assert b[..i + 1][..i] == b[..i];
      s := s + [HexChar(High(b[i])), HexChar(Low(b[i]))];
    }
    assert b[..|b|] == b;
  }

  lemma HexByteBack(b: Byte)
    ensures HexByte(High(b), Low(b)) == b
  {
    NibbleRange(b >> 4);
    NibbleRange(b & 0xF);
    Halves(b);
  }

  lemma Halves(b: Byte)
    ensures ((b >> 4) << 4) | (b & 0xF) == b
  {
  }

  /** auth_hex writes text that reads back as the same bytes. */
  lemma HexRoundTrip(b: seq<Byte>)
    ensures IsHexText(HexText(b)) && HexBytes(HexText(b)) == b
  {
    hide HexText, HexVal, HexByte, High, Low;
    var s := HexText(b);
    forall i | 0 <= i < |s|
      ensures HexVal(s[i]) >= 0
    {
      assert s[2 * (i / 2)] == HexChar(High(b[i / 2])) && s[2 * (i / 2) + 1] == HexChar(Low(b[i / 2]));
    }
    forall i | 0 <= i < |b|
      ensures HexBytes(s)[i] == b[i]
    {
      HexByteBack(b[i]);
    }
  }

  // ---- Verification -------------------------------------------------------------------

  datatype Key = Key(id: string, psk: seq<Byte>)

  /** What a response must be: the hex, in either case, of some matching key's MAC. */
  ghost predicate Accepts(keys: seq<Key>, keyId: string, nonce: seq<Byte>, response: string) {
    && |response| == 64 && IsHexText(response)
    && exists i :: 0 <= i < |keys| && keys[i].id == keyId && Hmac(keys[i].psk, nonce) == HexBytes(response)
  }

  function Or(a: Byte, b: Byte): Byte { a | b }

  /** ct_equal: the accumulated difference is zero exactly on equal bytes. */
  method CtEqual(a: seq<Byte>, b: seq<Byte>) returns (same: bool)
    requires |a| == |b|
    ensures same <==> a == b
  {
    hide Or, Xor;
    var acc: Byte := 0;
    for i := 0 to |a|
      invariant acc == 0 <==> a[..i] == b[..i]
    {
      OrZero(acc, Xor(a[i], b[i]));
      XorZero(a[i], b[i]);
      assert a[..i + 1] == a[..i] + [a[i]] && b[..i + 1] == b[..i] + [b[i]];
      acc := Or(acc, Xor(a[i], b[i]));
    }
    assert a[..|a|] == a && b[..|b|] == b;
    return acc == 0;
  }

  lemma OrZero(a: Byte, b: Byte)
    ensures Or(a, b) == 0 <==> a == 0 && b == 0
  {
  }

  lemma XorZero(a: Byte, b: Byte)
    ensures Xor(a, b) == 0 <==> a == b
  {
  }

  /** The 32 bytes of a 64-digit response. */
  method DecodeResponse(response: string) returns (ok: bool, given: seq<Byte>)
    requires |response| == 64
    ensures ok <==> IsHexText(response)
    ensures ok ==> given == HexBytes(response)
  {
    hide HexVal, HexByte;
    ok, given := true, [];
    for i := 0 to 32
      invariant |given| == i && ok
      invariant forall j :: 0 <= j < 2 * i ==> HexVal(response[j]) >= 0
      invariant forall j :: 0 <= j < i ==> given[j] == HexByte(HexVal(response[2 * j]), HexVal(response[2 * j + 1]))
    {
      var hi, lo := HexVal(response[2 * i]), HexVal(response[2 * i + 1]);
      if hi < 0 || lo < 0 {
        return false, [];
      }
      given := given + [HexByte(hi, lo)];
    }
  }

  /** auth_verify: every key with the right id is tried, and the outcomes accumulated. */
  method Verify(keys: seq<Key>, keyId: string, nonce: seq<Byte>, response: string) returns (ok: bool)
    ensures ok <==> Accepts(keys, keyId, nonce, response)
  {
    hide Hmac, HexVal, IsHexText;
    if |keys| == 0 {
      return false;
    }
    if |response| != 64 {
      return false;
    }
    var isHex, given := DecodeResponse(response);
    if !isHex {
      return false;
    }
    ok := false;
    for i := 0 to |keys|
      invariant ok <==> exists j :: 0 <= j < i && keys[j].id == keyId && Hmac(keys[j].psk, nonce) == given
    {
      if keys[i].id == keyId {
        var mac := HmacSha256(keys[i].psk, nonce);
        var same := CtEqual(mac, given);
        ok := ok || same;
      }
    }
  }

  /** An honest client is let in: the hex of the MAC under any configured key is accepted. */
  lemma HonestClientAccepted(keys: seq<Key>, i: nat, nonce: seq<Byte>)
    requires i < |keys|
    ensures Accepts(keys, keys[i].id, nonce, HexText(Hmac(keys[i].psk, nonce)))
  {
    hide Hmac;
    HexRoundTrip(Hmac(keys[i].psk, nonce));
  }
}
