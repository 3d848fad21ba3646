/** Octets, and octets at a position. */
module Bytes {
  newtype u8 = x: int | 0 <= x < 256

  /** `t` is what `b` holds from `p` on. */
  predicate At(b: seq<u8>, p: nat, t: seq<u8>) {
    p + |t| <= |b| && b[p..p + |t|] == t
  }

  lemma AtSplit(b: seq<u8>, p: nat, s: seq<u8>, t: seq<u8>)
    requires At(b, p, s + t)
    ensures At(b, p, s) && At(b, p + |s|, t)
  {
    assert b[p..p + |s| + |t|][..|s|] == s;
    assert b[p..p + |s| + |t|][|s|..] == t;
  }

  lemma AtByte(b: seq<u8>, p: nat, t: seq<u8>, i: nat)
    requires At(b, p, t) && i < |t|
    ensures p + i < |b| && b[p + i] == t[i]
  {
    assert b[p..p + |t|][i] == t[i];
  }

  lemma AtExtend(b: seq<u8>, p: nat, t: seq<u8>, more: seq<u8>)
    requires At(b, p, t)
    ensures At(b + more, p, t)
  {
    assert (b + more)[p..p + |t|] == b[p..p + |t|];
  }

  lemma AtEnd(b: seq<u8>, t: seq<u8>)
    ensures At(b + t, |b|, t)
  {
  }

  lemma AtLength(b: seq<u8>, p: nat, t: seq<u8>)
    requires At(b, p, t)
    ensures p + |t| <= |b|
  {
  }

  // ---- Big-endian numbers -------------------------------------------------------------

  function Be16(v: nat): (b: seq<u8>)
    requires v < 0x10000
    ensures |b| == 2
  {
    [(v / 256) as u8, (v % 256) as u8]
  }

  function Be32(v: nat): (b: seq<u8>)
    requires v < 0x1_0000_0000
    ensures |b| == 4
  {
    Be16(v / 0x10000) + Be16(v % 0x10000)
  }

  function Get16(b: seq<u8>, p: nat): (v: nat)
    requires p + 2 <= |b|
    ensures v < 0x10000
  {
    b[p] as nat * 256 + b[p + 1] as nat
  }

  function Get32(b: seq<u8>, p: nat): (v: nat)
    requires p + 4 <= |b|
    ensures v < 0x1_0000_0000
  {
    Get16(b, p) * 0x10000 + Get16(b, p + 2)
  }

  lemma Get16At(b: seq<u8>, p: nat, v: nat)
    requires v < 0x10000 && At(b, p, Be16(v))
    ensures p + 2 <= |b| && Get16(b, p) == v
  {
    AtByte(b, p, Be16(v), 0);
    AtByte(b, p, Be16(v), 1);
  }

  lemma Get32At(b: seq<u8>, p: nat, v: nat)
    requires v < 0x1_0000_0000 && At(b, p, Be32(v))
    ensures p + 4 <= |b| && Get32(b, p) == v
  {
    hide At, Get16, Be16;
    AtSplit(b, p, Be16(v / 0x10000), Be16(v % 0x10000));
    Get16At(b, p, v / 0x10000);
    Get16At(b, p + 2, v % 0x10000);
  }
}
