/** SHA-256 as FIPS 180-4 defines it, and the streaming object that computes it. */
module Sha256 {
  import opened Basics

  type Byte = bv8
  type Word = bv32
  type Long = bv64

  // ---- FIPS 180-4, section 4: functions and constants ---------------------------------

  function Rotr(x: Word, n: Word): Word
    requires 0 < n < 32
  {
    (x >> n) | (x << (32 - n))
  }

  function Shr(x: Word, n: Word): Word
    requires n < 32
  {
    x >> n
  }

  /** Addition modulo 2^32. */
  function Plus(x: Word, y: Word): Word { x + y }

  function Ch(x: Word, y: Word, z: Word): Word { (x & y) ^ (!x & z) }

  function Maj(x: Word, y: Word, z: Word): Word { (x & y) ^ (x & z) ^ (y & z) }

  function BigSigma0(x: Word): Word { Rotr(x, 2) ^ Rotr(x, 13) ^ Rotr(x, 22) }

  function BigSigma1(x: Word): Word { Rotr(x, 6) ^ Rotr(x, 11) ^ Rotr(x, 25) }

  function SmallSigma0(x: Word): Word { Rotr(x, 7) ^ Rotr(x, 18) ^ Shr(x, 3) }

  function SmallSigma1(x: Word): Word { Rotr(x, 17) ^ Rotr(x, 19) ^ Shr(x, 10) }

  // The round constants, eight in a row.

  function K0(): seq<Word> {
    [0x428a2f98, 0x71374491, 0xb5c0fbcf, 0xe9b5dba5, 0x3956c25b, 0x59f111f1, 0x923f82a4, 0xab1c5ed5]
  }

  function K1(): seq<Word> {
    [0xd807aa98, 0x12835b01, 0x243185be, 0x550c7dc3, 0x72be5d74, 0x80deb1fe, 0x9bdc06a7, 0xc19bf174]
  }

  function K2(): seq<Word> {
    [0xe49b69c1, 0xefbe4786, 0x0fc19dc6, 0x240ca1cc, 0x2de92c6f, 0x4a7484aa, 0x5cb0a9dc, 0x76f988da]
  }

  function K3(): seq<Word> {
    [0x983e5152, 0xa831c66d, 0xb00327c8, 0xbf597fc7, 0xc6e00bf3, 0xd5a79147, 0x06ca6351, 0x14292967]
  }

  function K4(): seq<Word> {
    [0x27b70a85, 0x2e1b2138, 0x4d2c6dfc, 0x53380d13, 0x650a7354, 0x766a0abb, 0x81c2c92e, 0x92722c85]
  }

  function K5(): seq<Word> {
    [0xa2bfe8a1, 0xa81a664b, 0xc24b8b70, 0xc76c51a3, 0xd192e819, 0xd6990624, 0xf40e3585, 0x106aa070]
  }

  function K6(): seq<Word> {
    [0x19a4c116, 0x1e376c08, 0x2748774c, 0x34b0bcb5, 0x391c0cb3, 0x4ed8aa4a, 0x5b9cca4f, 0x682e6ff3]
  }

  function K7(): seq<Word> {
    [0x748f82ee, 0x78a5636f, 0x84c87814, 0x8cc70208, 0x90befffa, 0xa4506ceb, 0xbef9a3f7, 0xc67178f2]
  }

  function KRow(r: nat): (k: seq<Word>)
    requires r < 8
    ensures |k| == 8
  {
    if r == 0 then K0() else if r == 1 then K1() else if r == 2 then K2() else if r == 3 then K3()
    else if r == 4 then K4() else if r == 5 then K5() else if r == 6 then K6() else K7()
  }

  function K(t: nat): Word
    requires t < 64
  {
    KRow(t / 8)[t % 8]
  }

  function InitialHash(): (h: seq<Word>)
    ensures |h| == 8
  {
    [0x6a09e667, 0xbb67ae85, 0x3c6ef372, 0xa54ff53a, 0x510e527f, 0x9b05688c, 0x1f83d9ab, 0x5be0cd19]
  }

  // ---- Section 6.2: the block function ------------------------------------------------

  function BigEndian(b0: Byte, b1: Byte, b2: Byte, b3: Byte): Word {
    ((b0 as Word) << 24) | ((b1 as Word) << 16) | ((b2 as Word) << 8) | (b3 as Word)
  }

  /** The message schedule. */
  function Schedule(block: seq<Byte>, t: nat): Word
    requires |block| == 64 && t < 64
  {
    if t < 16 then BigEndian(block[4 * t], block[4 * t + 1], block[4 * t + 2], block[4 * t + 3])
    else Plus(Plus(Plus(SmallSigma1(Schedule(block, t - 2)), Schedule(block, t - 7)),
                   SmallSigma0(Schedule(block, t - 15))),
              Schedule(block, t - 16))
  }

  datatype Vars = Vars(a: Word, b: Word, c: Word, d: Word, e: Word, f: Word, g: Word, h: Word)

  function Round(v: Vars, k: Word, w: Word): Vars {
    var t1 := Plus(Plus(Plus(Plus(v.h, BigSigma1(v.e)), Ch(v.e, v.f, v.g)), k), w);
    var t2 := Plus(BigSigma0(v.a), Maj(v.a, v.b, v.c));
    Vars(Plus(t1, t2), v.a, v.b, v.c, Plus(v.d, t1), v.e, v.f, v.g)
  }

  function Rounds(block: seq<Byte>, v: Vars, t: nat): Vars
    requires |block| == 64 && t <= 64
  {
    if t == 0 then v else Round(Rounds(block, v, t - 1), K(t - 1), Schedule(block, t - 1))
  }

  function Compress(h: seq<Word>, block: seq<Byte>): (r: seq<Word>)
    requires |h| == 8 && |block| == 64
    ensures |r| == 8
  {
    var v := Rounds(block, Vars(h[0], h[1], h[2], h[3], h[4], h[5], h[6], h[7]), 64);
    [Plus(h[0], v.a), Plus(h[1], v.b), Plus(h[2], v.c), Plus(h[3], v.d),
     Plus(h[4], v.e), Plus(h[5], v.f), Plus(h[6], v.g), Plus(h[7], v.h)]
  }

  /** All blocks of a padded message, in order. */
  function Fold(data: seq<Byte>): (h: seq<Word>)
    requires |data| % 64 == 0
    ensures |h| == 8
  {
    if data == [] then InitialHash()
    else Compress(Fold(data[..|data| - 64]), data[|data| - 64..])
  }

  // ---- Section 5.1.1: padding ---------------------------------------------------------

  /** The least number of zero bytes that brings the length field to the end of a block. */
  function ZeroCount(len: nat): (k: nat)
    ensures k < 64 && (len + 1 + k) % 64 == 56
  {
    (119 - len % 64) % 64
  }

  function Zeros(k: nat): seq<Byte> {
    seq(k, _ => 0 as Byte)
  }

  /** The byte that begins `shift` bits up. */
  function ByteFrom(n: Long, shift: Long): Byte
    requires shift < 64
  {
    ((n >> shift) & 0xff) as Byte
  }

  /** A 64-bit number, most significant byte first. */
  function Be64(n: Long): (b: seq<Byte>)
    ensures |b| == 8
  {
    [ByteFrom(n, 56), ByteFrom(n, 48), ByteFrom(n, 40), ByteFrom(n, 32),
     ByteFrom(n, 24), ByteFrom(n, 16), ByteFrom(n, 8), ByteFrom(n, 0)]
  }

  /** The length in bits of `n` bytes, modulo 2^64. */
  function BitsOf(n: nat): Long {
    (8 * n % TWO_64) as Long
  }

  /** Padding; the length in bits is kept modulo 2^64. */
  function Pad(m: seq<Byte>): (p: seq<Byte>)
    ensures |p| % 64 == 0
  {
    PadLength(|m|, ZeroCount(|m|));
    m + [0x80] + Zeros(ZeroCount(|m|)) + Be64(BitsOf(|m|))
  }

  lemma PadLength(n: nat, k: nat)
    requires (n + 1 + k) % 64 == 56
    ensures (n + 1 + k + 8) % 64 == 0
  {
  }

  function WordBytes(w: Word): (b: seq<Byte>)
    ensures |b| == 4
  {
    [((w >> 24) & 0xff) as Byte, ((w >> 16) & 0xff) as Byte, ((w >> 8) & 0xff) as Byte, (w & 0xff) as Byte]
  }

  function DigestBytes(h: seq<Word>): (b: seq<Byte>)
    ensures |b| == 4 * |h|
  {
    if h == [] then [] else DigestBytes(h[..|h| - 1]) + WordBytes(h[|h| - 1])
  }

  /** The hash of a whole message. */
  function Hash(m: seq<Byte>): (d: seq<Byte>)
    ensures |d| == 32
  {
    DigestBytes(Fold(Pad(m)))
  }

  // ---- The streaming object -----------------------------------------------------------

  class Hasher {
    const h: array<Word>
    const buf: array<Byte>
    var len: nat
    var buflen: nat
    /** Every byte given so far. */
    ghost var msg: seq<Byte>

    /** Whole blocks are folded into `h`, the rest waits in `buf`. */
    ghost predicate Valid()
      reads this, h, buf
    {
      len == |msg| % TWO_64 && Buffered()
    }

    constructor ()
      ensures Valid() && msg == [] && fresh(h) && fresh(buf)
    {
      hide Fold, InitialHash;
      var iv := InitialHash();
      h := new Word[8](i requires 0 <= i < 8 => iv[i]);
      buf := new Byte[64](_ => 0);
      len, buflen, msg := 0, 0, [];
      new;
      FoldNone();
      assert h[..] == iv;
    }

    /** sha256_block on the full buffer. */
    method Block()
      requires h.Length == 8 && buf.Length == 64
      modifies h
      ensures h[..] == Compress(old(h[..]), buf[..])
    {
      hide Rounds, Compress, Plus;
      var v0 := Vars(h[0], h[1], h[2], h[3], h[4], h[5], h[6], h[7]);
      var w := MakeSchedule(buf[..]);
      var v := MakeRounds(buf[..], w, v0);
      var add := [v.a, v.b, v.c, v.d, v.e, v.f, v.g, v.h];
      CompressAdds(h[..], buf[..], v, add);
      ghost var was := h[..];
      for i := 0 to 8
        invariant forall j :: 0 <= j < i ==> h[j] == Plus(was[j], add[j])
        invariant forall j :: i <= j < 8 ==> h[j] == was[j]
      {
        h[i] := Plus(h[i], add[i]);
      }
    }

    /** sha256_update: any number of bytes, in pieces that fill the buffer. */
    method Update(p: seq<Byte>)
      requires Valid()
      modifies this, h, buf
      ensures Valid() && msg == old(msg) + p
    {
      hide Buffered;
      len := (len + |p|) % TWO_64;
      var done := 0;
      while done < |p|
        invariant 0 <= done <= |p| && msg == old(msg) + p[..done]
        invariant Buffered() && len == |old(msg) + p| % TWO_64
      {
        BufferedRoom();
        var take := 64 - buflen;
        if take > |p| - done {
          take := |p| - done;
        }
        Absorb(p[done..done + take]);
        done := done + take;
      }
    }

    ghost predicate Buffered()
      reads this`buflen, this`msg, h, buf
    {
      && h.Length == 8 && buf.Length == 64
      && buflen == |msg| % 64
      && buf[..buflen] == msg[|msg| - buflen..]
      && h[..] == Fold(msg[..|msg| - buflen])
    }

    lemma BufferedRoom()
      requires Buffered()
      ensures buflen < 64
    {
    }

    /** One piece of an update, and the block function when it fills the buffer. */
    method Absorb(piece: seq<Byte>)
      requires Buffered() && buflen + |piece| <= 64
      modifies this`buflen, this`msg, h, buf
      ensures Buffered() && msg == old(msg) + piece
    {
      hide Fold, Compress;
      Fill(piece);
      ghost var was := msg;
      msg := msg + piece;
      ModAdd(|was|, |piece|);
      assert msg[..|msg| - buflen] == was[..|was| - |was| % 64];
      assert buf[..buflen] == msg[|msg| - buflen..];
      if buflen == 64 {
        assert buf[..64] == buf[..];
        FoldStep(msg);
        Block();
        buflen := 0;
        assert msg[..|msg| - 0] == msg;
      }
    }

    /** memcpy of one piece into the buffer. */
    method Fill(piece: seq<Byte>)
      requires buf.Length == 64 && buflen + |piece| <= 64
      modifies this`buflen, buf
      ensures buflen == old(buflen) + |piece|
      ensures buf[..buflen] == old(buf[..buflen]) + piece
    {
      for i := 0 to |piece|
        invariant buflen == old(buflen)
        invariant buf[..buflen + i] == old(buf[..buflen]) + piece[..i]
        modifies buf
      {
        buf[buflen + i] := piece[i];
      }
      buflen := buflen + |piece|;
    }

    /** sha256_final: pad, fold the last blocks, write the digest. */
    method Final() returns (out: seq<Byte>)
      requires Valid()
      modifies this, h, buf
      ensures out == Hash(old(msg))
    {
      hide Fold, Compress, Be64, WordBytes, BitsOf;
      ghost var m := msg;
      var lb := LengthBytes(len, |m|);
      Update([0x80]);
      ghost var k := 0;
      while buflen != 56
        invariant Valid() && 0 <= k <= ZeroCount(|m|)
        invariant msg == m + [0x80] + Zeros(k)
        decreases ZeroCount(|m|) - k
      {
        ZeroStep(|m|, k);
        Update([0]);
        k := k + 1;
        assert Zeros(k) == Zeros(k - 1) + [0];
      }
      ZeroCountUnique(|m|, k);
      Update(lb);
      assert msg == Pad(m);
      assert msg[..|msg| - 0] == msg;
      out := WriteDigest();
    }

    method WriteDigest() returns (out: seq<Byte>)
      requires h.Length == 8
      ensures out == DigestBytes(h[..])
    {
      hide WordBytes;
      out := [];
      ghost var digest := h[..];
      for i := 0 to 8
        invariant out == DigestBytes(digest[..i])
      {
        assert digest[..i + 1][..i] == digest[..i];
        out := out + WordBytes(h[i]);
      }
      assert digest[..8] == digest;
    }
  }

  /** The length field from the running length. */
  method LengthBytes(len: nat, ghost n: nat) returns (lb: seq<Byte>)
    requires len == n % TWO_64
    ensures lb == Be64(BitsOf(n))
  {
    hide Be64, ByteFrom, ShiftAt;
    BitLength(n);
    var bits := (len * 8 % TWO_64) as Long;
    lb := [];
    for i := 0 to 8
      invariant lb == Be64(bits)[..i]
    {
      ByteAt(bits, i);
      lb := lb + [ByteFrom(bits, ShiftAt(i))];
    }
  }

  /** How far down byte `i` of the length is shifted. */
  function ShiftAt(i: nat): (shift: Long)
    requires i < 8
    ensures shift < 64
  {
    [56, 48, 40, 32, 24, 16, 8, 0][i]
  }

  lemma ShiftIs(i: nat)
    requires i < 8
    ensures ShiftAt(i) as int == 56 - 8 * i
  {
  }

  lemma ByteAt(n: Long, i: nat)
    requires i < 8
    ensures Be64(n)[i] == ByteFrom(n, ShiftAt(i))
  {
    hide ByteFrom;
  }

  method MakeSchedule(p: seq<Byte>) returns (w: array<Word>)
    requires |p| == 64
    ensures fresh(w) && w.Length == 64
    ensures forall t :: 0 <= t < 64 ==> w[t] == Schedule(p, t)
  {
    hide SmallSigma0, SmallSigma1, BigEndian, Schedule, Plus;
    w := new Word[64](_ => 0);
    for i := 0 to 16
      invariant forall t :: 0 <= t < i ==> w[t] == Schedule(p, t)
    {
      ScheduleFirst(p, i);
      w[i] := BigEndian(p[4 * i], p[4 * i + 1], p[4 * i + 2], p[4 * i + 3]);
    }
    for i := 16 to 64
      invariant forall t :: 0 <= t < i ==> w[t] == Schedule(p, t)
    {
      ScheduleNext(p, i);
      w[i] := Plus(Plus(Plus(w[i - 16], SmallSigma0(w[i - 15])), w[i - 7]), SmallSigma1(w[i - 2]));
    }
  }

  lemma ScheduleFirst(p: seq<Byte>, t: nat)
    requires |p| == 64 && t < 16
    ensures Schedule(p, t) == BigEndian(p[4 * t], p[4 * t + 1], p[4 * t + 2], p[4 * t + 3])
  {
    hide BigEndian;
  }

  lemma ScheduleNext(p: seq<Byte>, t: nat)
    requires |p| == 64 && 16 <= t < 64
    ensures Schedule(p, t)
         == Plus(Plus(Plus(Schedule(p, t - 16), SmallSigma0(Schedule(p, t - 15))), Schedule(p, t - 7)),
                 SmallSigma1(Schedule(p, t - 2)))
  {
    hide SmallSigma0, SmallSigma1, BigEndian, Plus;
    ScheduleSum(Schedule(p, t - 16), SmallSigma0(Schedule(p, t - 15)), Schedule(p, t - 7),
                SmallSigma1(Schedule(p, t - 2)));
  }

  method MakeRounds(ghost p: seq<Byte>, w: array<Word>, v0: Vars) returns (v: Vars)
    requires |p| == 64 && w.Length == 64
    requires forall t :: 0 <= t < 64 ==> w[t] == Schedule(p, t)
    ensures v == Rounds(p, v0, 64)
  {
    hide Ch, Maj, BigSigma0, BigSigma1, Schedule, K, Plus;
    var a, b, c, d, e, f, g, h := v0.a, v0.b, v0.c, v0.d, v0.e, v0.f, v0.g, v0.h;
    for i := 0 to 64
      invariant Vars(a, b, c, d, e, f, g, h) == Rounds(p, v0, i)
    {
      var t1 := Plus(Plus(Plus(Plus(h, BigSigma1(e)), Ch(e, f, g)), K(i)), w[i]);
      var t2 := Plus(BigSigma0(a), Maj(a, b, c));
      h := g;
      g := f;
      f := e;
      e := Plus(d, t1);
      d := c;
      c := b;
      b := a;
      a := Plus(t1, t2);
    }
    return Vars(a, b, c, d, e, f, g, h);
  }

  lemma CompressAdds(h: seq<Word>, block: seq<Byte>, v: Vars, add: seq<Word>)
    requires |h| == 8 && |block| == 64
    requires v == Rounds(block, Vars(h[0], h[1], h[2], h[3], h[4], h[5], h[6], h[7]), 64)
    requires add == [v.a, v.b, v.c, v.d, v.e, v.f, v.g, v.h]
    ensures forall j :: 0 <= j < 8 ==> Compress(h, block)[j] == Plus(h[j], add[j])
  {
    hide Rounds, Plus;
    SumsAt(h, add, Compress(h, block));
  }

  lemma SumsAt(h: seq<Word>, add: seq<Word>, r: seq<Word>)
    requires |h| == |add| == 8
    requires r == [Plus(h[0], add[0]), Plus(h[1], add[1]), Plus(h[2], add[2]), Plus(h[3], add[3]),
                   Plus(h[4], add[4]), Plus(h[5], add[5]), Plus(h[6], add[6]), Plus(h[7], add[7])]
    ensures forall j :: 0 <= j < 8 ==> r[j] == Plus(h[j], add[j])
  {
    hide *;
  }

  // ---- Facts the loops use ------------------------------------------------------------

  lemma FoldNone()
    ensures Fold([]) == InitialHash()
  {
  }

  lemma FoldStep(m: seq<Byte>)
    requires |m| >= 64 && |m| % 64 == 0
    ensures Fold(m) == Compress(Fold(m[..|m| - 64]), m[|m| - 64..])
  {
  }

  lemma PlusComm(x: Word, y: Word)
    ensures Plus(x, y) == Plus(y, x)
  {
  }

  lemma PlusAssoc(x: Word, y: Word, z: Word)
    ensures Plus(Plus(x, y), z) == Plus(x, Plus(y, z))
  {
    calc {
      Plus(Plus(x, y), z);
      Plus(x + y, z);
      (x + y) + z;
      x + (y + z);
      Plus(x, y + z);
      Plus(x, Plus(y, z));
    }
  }

  /** The code adds the four terms in the other order. */
  lemma ScheduleSum(a: Word, b: Word, c: Word, d: Word)
    ensures Plus(Plus(Plus(a, b), c), d) == Plus(Plus(Plus(d, c), b), a)
  {
    hide Plus;
    PlusAssoc(a, b, c);
    PlusAssoc(a, Plus(b, c), d);
    PlusComm(Plus(b, c), d);
    PlusComm(b, c);
    PlusAssoc(d, c, b);
    PlusComm(a, Plus(Plus(d, c), b));
  }

  lemma ModAdd(n: nat, take: nat)
    requires n % 64 + take <= 64
    ensures n % 64 + take < 64 ==> (n + take) % 64 == n % 64 + take
    ensures n % 64 + take == 64 ==> (n + take) % 64 == 0
  {
  }

  lemma BitLength(n: nat)
    ensures n % TWO_64 * 8 % TWO_64 == 8 * n % TWO_64
  {
  }

  lemma ZeroStep(n: nat, k: nat)
    requires k <= ZeroCount(n) && (n + 1 + k) % 64 != 56
    ensures k < ZeroCount(n)
  {
  }

  lemma ZeroCountUnique(n: nat, k: nat)
    requires k <= ZeroCount(n) && (n + 1 + k) % 64 == 56
    ensures k == ZeroCount(n)
  {
  }

  /** sha256: one call over a whole message. */
  method HashOf(p: seq<Byte>) returns (out: seq<Byte>)
    ensures out == Hash(p)
  {
    hide Hash, Hasher.Valid;
    var s := new Hasher();
    s.Update(p);
    assert s.msg == p;
    out := s.Final();
  }

  /** Any split of a message into update calls. */
  function Concat(pieces: seq<seq<Byte>>): seq<Byte> {
    if pieces == [] then [] else Concat(pieces[..|pieces| - 1]) + pieces[|pieces| - 1]
  }

  method HashOfPieces(pieces: seq<seq<Byte>>) returns (out: seq<Byte>)
    ensures out == Hash(Concat(pieces))
  {
    var s := new Hasher();
    for i := 0 to |pieces|
      invariant s.Valid() && s.msg == Concat(pieces[..i])
      invariant fresh(s) && fresh(s.h) && fresh(s.buf)
    {
      assert pieces[..i + 1][..i] == pieces[..i];
      s.Update(pieces[i]);
    }
    assert pieces[..|pieces|] == pieces;
    out := s.Final();
  }
}
