/** Where the constants of SHA-256 come from: the first 32 bits of the fractional parts of the square
    roots of the first eight primes, and of the cube roots of the first sixty-four. */
module Sha256Roots {
  import opened Basics
  import opened Sha256

  /** The greatest whole number whose square is at most `p`. */
  function WholeSquareRoot(p: nat): nat
    requires 1 <= p < 25
  {
    if p < 4 then 1 else if p < 9 then 2 else if p < 16 then 3 else 4
  }

  /** The greatest whole number whose cube is at most `p`. */
  function WholeCubeRoot(p: nat): nat
    requires 1 <= p < 343
  {
    if p < 8 then 1 else if p < 27 then 2 else if p < 64 then 3 else if p < 125 then 4 else if p < 216 then 5 else 6
  }

  /** The word is the start of the square root's fraction: x^2 <= p 2^64 < (x + 1)^2, for x the whole part with
      the word behind the point. */
  predicate SquareRoot(p: nat, w: Word)
    requires 1 <= p < 25
  {
    var x := WholeSquareRoot(p) * TWO_32 + w as nat;
    x * x <= p * TWO_64 < (x + 1) * (x + 1)
  }

  /** And of the cube root's: x^3 <= p 2^96 < (x + 1)^3. */
  predicate CubeRoot(p: nat, w: Word)
    requires 1 <= p < 343
  {
    var x := WholeCubeRoot(p) * TWO_32 + w as nat;
    x * x * x <= p * TWO_64 * TWO_32 < (x + 1) * (x + 1) * (x + 1)
  }

  lemma InitialRoots()
    ensures var h := InitialHash();
            && SquareRoot(2, h[0]) && SquareRoot(3, h[1]) && SquareRoot(5, h[2]) && SquareRoot(7, h[3])
            && SquareRoot(11, h[4]) && SquareRoot(13, h[5]) && SquareRoot(17, h[6]) && SquareRoot(19, h[7])
  {
  }

  lemma FirstRoots()
    ensures var k := K0();
            && CubeRoot(2, k[0]) && CubeRoot(3, k[1]) && CubeRoot(5, k[2]) && CubeRoot(7, k[3])
            && CubeRoot(11, k[4]) && CubeRoot(13, k[5]) && CubeRoot(17, k[6]) && CubeRoot(19, k[7])
  {
  }

  lemma SecondRoots()
    ensures var k := K1();
            && CubeRoot(23, k[0]) && CubeRoot(29, k[1]) && CubeRoot(31, k[2]) && CubeRoot(37, k[3])
            && CubeRoot(41, k[4]) && CubeRoot(43, k[5]) && CubeRoot(47, k[6]) && CubeRoot(53, k[7])
  {
  }

  lemma ThirdRoots()
    ensures var k := K2();
            && CubeRoot(59, k[0]) && CubeRoot(61, k[1]) && CubeRoot(67, k[2]) && CubeRoot(71, k[3])
            && CubeRoot(73, k[4]) && CubeRoot(79, k[5]) && CubeRoot(83, k[6]) && CubeRoot(89, k[7])
  {
  }

  lemma FourthRoots()
    ensures var k := K3();
            && CubeRoot(97, k[0]) && CubeRoot(101, k[1]) && CubeRoot(103, k[2]) && CubeRoot(107, k[3])
            && CubeRoot(109, k[4]) && CubeRoot(113, k[5]) && CubeRoot(127, k[6]) && CubeRoot(131, k[7])
  {
  }

  lemma FifthRoots()
    ensures var k := K4();
            && CubeRoot(137, k[0]) && CubeRoot(139, k[1]) && CubeRoot(149, k[2]) && CubeRoot(151, k[3])
            && CubeRoot(157, k[4]) && CubeRoot(163, k[5]) && CubeRoot(167, k[6]) && CubeRoot(173, k[7])
  {
  }

  lemma SixthRoots()
    ensures var k := K5();
            && CubeRoot(179, k[0]) && CubeRoot(181, k[1]) && CubeRoot(191, k[2]) && CubeRoot(193, k[3])
            && CubeRoot(197, k[4]) && CubeRoot(199, k[5]) && CubeRoot(211, k[6]) && CubeRoot(223, k[7])
  {
  }

  lemma SeventhRoots()
    ensures var k := K6();
            && CubeRoot(227, k[0]) && CubeRoot(229, k[1]) && CubeRoot(233, k[2]) && CubeRoot(239, k[3])
            && CubeRoot(241, k[4]) && CubeRoot(251, k[5]) && CubeRoot(257, k[6]) && CubeRoot(263, k[7])
  {
  }

  lemma EighthRoots()
    ensures var k := K7();
            && CubeRoot(269, k[0]) && CubeRoot(271, k[1]) && CubeRoot(277, k[2]) && CubeRoot(281, k[3])
            && CubeRoot(283, k[4]) && CubeRoot(293, k[5]) && CubeRoot(307, k[6]) && CubeRoot(311, k[7])
  {
  }
}
