/** What the functions and constants of SHA-256 are, without their formulas: by bits, by bytes, and by
    the roots of the first primes. */
module Sha256Laws {
  import opened Sha256
  import opened Basics

  // ---- Bit by bit ---------------------------------------------------------------------

  /** Bit number `i`, counted from the least significant. */
  predicate Bit(x: Word, i: Word)
    requires i < 32
  {
    (x >> i) & 1 == 1
  }

  /** The position `n` bits up, round the word. */
  function Up(i: Word, n: Word): (j: Word)
    ensures j < 32
  {
    (i + n) & 31
  }

  /** Each bit of x chooses between those of y and z. */
  lemma ChChooses(x: Word, y: Word, z: Word)
    ensures Ch(x, y, z) & x == y & x
    ensures Ch(x, y, z) & !x == z & !x
  {
  }

  /** Where two agree, they are the majority; where they differ, the third decides. */
  lemma MajDecides(x: Word, y: Word, z: Word)
    ensures Maj(x, y, z) & !(x ^ y) == x & !(x ^ y)
    ensures Maj(x, y, z) & (x ^ y) == z & (x ^ y)
  {
  }

  /** Rotation moves every bit down, round the word. */
  lemma RotrMoves(x: Word, n: Word, i: Word)
    requires 0 < n < 32 && i < 32
    ensures Bit(Rotr(x, n), i) == Bit(x, Up(i, n))
  {
    if {
      case n < 8 =>
      case 8 <= n < 16 =>
      case 16 <= n < 24 =>
      case 24 <= n =>
    }
  }

  /** The word with only bit number `i`, round the word. */
  function One(i: Word): Word {
    1 << (i & 31)
  }

  /** Where the upper-case sigmas send a bit. */
  lemma BigSigmasMove(i: Word)
    requires i < 32
    ensures BigSigma0(One(i)) == One(i - 2) ^ One(i - 13) ^ One(i - 22)
    ensures BigSigma1(One(i)) == One(i - 6) ^ One(i - 11) ^ One(i - 25)
  {
  }

  /** And the lower-case ones, where one of the three falls out at the bottom. */
  lemma SmallSigmasMove(i: Word)
    requires i < 32
    ensures SmallSigma0(One(i)) == One(i - 7) ^ One(i - 18) ^ (if i < 3 then 0 else One(i - 3))
    ensures SmallSigma1(One(i)) == One(i - 17) ^ One(i - 19) ^ (if i < 10 then 0 else One(i - 10))
  {
  }

  // ---- Byte by byte -------------------------------------------------------------------

  lemma WordReads(b0: Byte, b1: Byte, b2: Byte, b3: Byte)
    ensures WordBytes(BigEndian(b0, b1, b2, b3)) == [b0, b1, b2, b3]
  {
  }

  /** The number eight bytes stand for, most significant first. */
  function Value(b: seq<Byte>): Long
    requires |b| == 8
  {
    (b[0] as Long << 56) | (b[1] as Long << 48) | (b[2] as Long << 40) | (b[3] as Long << 32)
    | (b[4] as Long << 24) | (b[5] as Long << 16) | (b[6] as Long << 8) | b[7] as Long
  }

  /** The length field reads as the number of bits. */
  lemma LengthReads(n: Long)
    ensures Value(Be64(n)) == n
  {
  }
}
