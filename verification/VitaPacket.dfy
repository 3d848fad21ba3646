/** VITA-49 packets: time stamps from a sample count, Reference Level words, and the byte layout
    of IF Data and Context packets. */
module VitaPacket {
  import opened Basics
  import opened Bytes

  const PICOS_PER_SECOND := 1_000_000_000_000

  const SAMPLES_PER_PKT := 256
  const BYTES_PER_PKT := 512

  // ---- Time stamps --------------------------------------------------------------------

  datatype Stamp = Stamp(tsi: u32, tsf: u64)

  /** The stamp of the packet that starts at sample `sc`, in 32- and 64-bit arithmetic. */
  function StampOf(epoch: nat, rate: nat, sc: nat): Stamp {
    if rate == 0 then Stamp(epoch % TWO_32, 0)
    else
      QuotientSmaller((sc % rate) * PICOS_PER_SECOND % TWO_64, rate);
      Stamp((epoch + sc / rate % TWO_32) % TWO_32,
            (sc % rate) * PICOS_PER_SECOND % TWO_64 / rate)
  }

  lemma QuotientSmaller(a: nat, c: nat)
    requires c > 0
    ensures 0 <= a / c <= a
  {
    DivMod(a, c);
    if a / c > a {
      MulOrder(1, c, a / c);
      assert false;
    }
  }

  /** Picoseconds since the epoch at sample `sc`, rounded down. */
  function ExactPicos(rate: nat, sc: nat): nat
    requires rate > 0
  {
    sc * PICOS_PER_SECOND / rate
  }

  /** The fraction field is exact: no 64-bit product overflows. */
  predicate FractionExact(rate: nat, sc: nat)
    requires rate > 0
  {
    (sc % rate) * PICOS_PER_SECOND % TWO_64 / rate == (sc % rate) * PICOS_PER_SECOND / rate
  }

  /** The largest residue whose product with 10^12 fits 64 bits. */
  const MAX_RESIDUE := 18446744

  lemma DivLess(a: nat, b: nat, c: nat)
    requires c > 0 && a + c <= b
    ensures a / c < b / c
  {
    DivMod(a, c);
    DivMod(b, c);
    if a / c >= b / c {
      MulOrder(b / c, a / c, c);
      assert false;
    }
  }

  lemma DivMod(a: nat, c: nat)
    requires c > 0
    ensures a == c * (a / c) + a % c && 0 <= a % c < c
  {
  }

  lemma MulOrder(a: nat, b: nat, c: nat)
    requires a <= b
    ensures c * a <= c * b
  {
  }

  lemma WrapLoses(p: nat, rate: nat)
    requires p >= TWO_64 && 0 < rate < TWO_64
    ensures p % TWO_64 / rate < p / rate
  {
    DivMod(p, TWO_64);
    DivLess(p % TWO_64, p, rate);
  }

  lemma SmallMod(a: nat, m: nat)
    requires a < m
    ensures a % m == a
  {
  }

  /** At one sample count: exact if and only if the residue is small enough. */
  lemma ResidueDecides(rate: nat, sc: nat)
    requires 0 < rate < TWO_32
    ensures FractionExact(rate, sc) <==> sc % rate <= MAX_RESIDUE
  {
    var p := (sc % rate) * PICOS_PER_SECOND;
    if sc % rate <= MAX_RESIDUE {
      assert p < TWO_64;
      SmallMod(p, TWO_64);
    } else {
      assert p >= TWO_64;
      WrapLoses(p, rate);
    }
  }

  // ---- Which residues the sender meets ------------------------------------------------

  /** The greatest common divisor of 256 and the rate. */
  function Grain(rate: nat): (g: nat)
    ensures 1 <= g <= 256
    ensures rate % g == 0 && 256 % g == 0
  {
    if rate % 256 == 0 then 256 else if rate % 128 == 0 then 128 else if rate % 64 == 0 then 64
    else if rate % 32 == 0 then 32 else if rate % 16 == 0 then 16 else if rate % 8 == 0 then 8
    else if rate % 4 == 0 then 4 else if rate % 2 == 0 then 2 else 1
  }

  function Pow2(e: nat): (p: nat)
    ensures p >= 1
  {
    if e == 0 then 1 else 2 * Pow2(e - 1)
  }

  lemma {:induction false} PowerDivisor(d: nat, x: nat, e: nat) returns (f: nat)
    requires d * x == Pow2(e)
    ensures f <= e && d == Pow2(f)
  {
    if e == 0 {
      assert d == 1 by {
        if d > 1 {
          MulOrder(1, x, d);
        }
      }
      f := 0;
    } else if d % 2 == 0 {
      var h := d / 2;
      assert d == 2 * h && 2 * (h * x) == d * x;
      f := PowerDivisor(h, x, e - 1);
      f := f + 1;
    } else {
      OddFactor(d, x, Pow2(e - 1));
      var h := x / 2;
      assert x == 2 * h && 2 * (d * h) == d * x;
      f := PowerDivisor(d, h, e - 1);
    }
  }

  lemma OddFactor(d: nat, x: nat, y: nat)
    requires d % 2 == 1 && d * x == 2 * y
    ensures x % 2 == 0
  {
    var h := d / 2;
    assert d == 2 * h + 1;
    assert d * x == 2 * (h * x) + x;
  }

  /** No larger number divides both. */
  lemma GrainGreatest(rate: nat, d: nat)
    requires d > 0 && 256 % d == 0 && rate % d == 0
    ensures d <= Grain(rate)
  {
    DivMod(256, d);
    assert Pow2(8) == 256 by { assert Pow2(4) == 16; }
    var f := PowerDivisor(d, 256 / d, 8);
    assert f == 0 || f == 1 || f == 2 || f == 3 || f == 4 || f == 5 || f == 6 || f == 7 || f == 8;
    assert Pow2(4) == 16;
    assert d == 1 || d == 2 || d == 4 || d == 8 || d == 16 || d == 32 || d == 64 || d == 128 || d == 256;
  }

  /** Modulo an odd number some multiple of a power of two is one short of a multiple. */
  lemma {:induction false} OneShort(m: nat, e: nat) returns (k: nat, q: nat)
    requires m % 2 == 1
    ensures Pow2(e) * k + 1 == m * q
  {
    if e == 0 {
      k, q := m - 1, 1;
    } else {
      var p := Pow2(e - 1);
      var k0, q0 := OneShort(m, e - 1);
      if k0 % 2 == 0 {
        k, q := k0 / 2, q0;
        Halve(p, k0, k);
      } else {
        k, q := (k0 + m) / 2, q0 + p;
        Halve(p, k0 + m, k);
        Spread(p, k0, m);
        Spread(m, q0, p);
      }
    }
  }

  lemma Halve(p: nat, a: nat, k: nat)
    requires a == 2 * k
    ensures (2 * p) * k == p * a
  {
  }

  lemma Spread(p: int, a: int, b: int)
    ensures p * (a + b) == p * a + p * b
  {
  }

  /** Every residue of a packet's first sample is a multiple of the grain, so at most rate - grain. */
  lemma ResidueAtMost(rate: nat, k: nat)
    requires rate > 0
    ensures (SAMPLES_PER_PKT * k) % rate <= rate - Grain(rate)
  {
    hide Grain;
    var g := Grain(rate);
    var sc := SAMPLES_PER_PKT * k;
    DivMod(sc, rate);
    DivMod(rate, g);
    DivMod(256, g);
    Factor(g, 256 / g, k, rate / g, sc / rate);
    MultipleBelow(g, 256 / g * k - rate / g * (sc / rate), rate / g);
  }

  lemma Factor(g: int, c: int, k: int, m: int, q: int)
    ensures (g * c) * k - (g * m) * q == g * (c * k - m * q)
  {
    Spread(g, c * k, -(m * q));
  }

  lemma MultipleBelow(g: nat, z: int, m: int)
    requires g * z < g * m
    ensures g * z <= g * m - g
  {
    if z >= m {
      Scaled(g, m, z);
      assert false;
    }
    Scaled(g, z, m - 1);
    Spread(g, m, -1);
  }

  lemma Scaled(g: nat, a: int, b: int)
    requires a <= b
    ensures g * a <= g * b
  {
  }

  /** And rate - grain is met. */
  lemma LargestMet(rate: nat) returns (k: nat)
    requires rate > 0
    ensures (SAMPLES_PER_PKT * k) % rate == rate - Grain(rate)
  {
    hide Grain, Pow2, Exponent;
    var g := Grain(rate);
    DivMod(rate, g);
    var m := rate / g;
    if g == 256 {
      k := m - 1;
      SmallMod(rate - 256, rate);
    } else {
      OddRest(rate);
      var e := Exponent(rate);
      var q;
      k, q := OneShort(m, e);
      Lift(g, Pow2(e), k, m, q);
      RestOf(SAMPLES_PER_PKT * k, rate, q, g);
    }
  }

  lemma Lift(g: nat, p: nat, k: nat, m: nat, q: nat)
    requires p * k + 1 == m * q
    ensures (g * p) * k + g == (g * m) * q
  {
    Spread(g, p * k, 1);
    assert g * (p * k) == (g * p) * k;
    assert g * (m * q) == (g * m) * q;
  }

  lemma RestOf(a: nat, rate: nat, q: nat, g: nat)
    requires 0 < g <= rate && a + g == rate * q
    ensures a % rate == rate - g
  {
    Spread(rate, q, -1);
    if q > 0 {
      DivUnique(a, rate, q - 1, rate - g);
      DivMod(a, rate);
    }
  }

  /** The exponent that makes the grain up to 256. */
  function Exponent(rate: nat): (e: nat)
    ensures Grain(rate) * Pow2(e) == 256
  {
    assert Pow2(4) == 16;
    var g := Grain(rate);
    if g == 256 then 0 else if g == 128 then 1 else if g == 64 then 2 else if g == 32 then 3
    else if g == 16 then 4 else if g == 8 then 5 else if g == 4 then 6 else if g == 2 then 7 else 8
  }

  lemma OddRest(rate: nat)
    requires Grain(rate) != 256
    ensures (rate / Grain(rate)) % 2 == 1
  {
    OddQuotient(rate, Grain(rate));
  }

  lemma OddQuotient(rate: nat, g: nat)
    requires g > 0 && rate % g == 0 && rate % (2 * g) != 0
    ensures (rate / g) % 2 == 1
  {
    DivMod(rate, g);
    var x := rate / g;
    if x % 2 == 0 {
      Halve(g, x, x / 2);
      DivUnique(rate, 2 * g, x / 2, 0);
      DivMod(rate, 2 * g);
      assert false;
    }
  }

  /** The rates at which no packet's product overflows. */
  predicate ExactRate(rate: nat) {
    0 < rate < TWO_32 && rate - Grain(rate) <= MAX_RESIDUE
  }

  /** The fraction is exact at every packet the sender can make if and only if the rate less the
      grain is at most 18446744. */
  lemma FractionExactIff(rate: nat)
    requires 0 < rate < TWO_32
    ensures (forall k: nat :: FractionExact(rate, SAMPLES_PER_PKT * k)) <==> ExactRate(rate)
  {
    hide FractionExact, Grain;
    if ExactRate(rate) {
      forall k: nat
        ensures FractionExact(rate, SAMPLES_PER_PKT * k)
      {
        ResidueAtMost(rate, k);
        ResidueDecides(rate, SAMPLES_PER_PKT * k);
      }
    } else {
      var k := LargestMet(rate);
      ResidueDecides(rate, SAMPLES_PER_PKT * k);
    }
  }

  /** A rate and a packet that fail, 147 seconds into the stream: the fraction of the second should be
      999999945789 picoseconds. */
  lemma FractionFails(epoch: nat)
    ensures !ExactRate(18446747) && !FractionExact(18446747, SAMPLES_PER_PKT * 10592468)
    ensures StampOf(epoch, 18446747, SAMPLES_PER_PKT * 10592468).tsf == 104424
    ensures ExactPicos(18446747, SAMPLES_PER_PKT * 10592468) % PICOS_PER_SECOND == 999999945789
  {
    assert (SAMPLES_PER_PKT * 10592468) % 18446747 == 18446746;
  }

  /** Division by parts: whole seconds and the rest. */
  lemma SplitSeconds(rate: nat, sc: nat)
    requires rate > 0
    ensures ExactPicos(rate, sc) == sc / rate * PICOS_PER_SECOND + (sc % rate) * PICOS_PER_SECOND / rate
    ensures (sc % rate) * PICOS_PER_SECOND / rate < PICOS_PER_SECOND
  {
    var q, r := sc / rate, sc % rate;
    var p := r * PICOS_PER_SECOND;
    DivMod(sc, rate);
    DivMod(p, rate);
    var f := p / rate;
    Distribute(rate, q, r);
    assert sc * PICOS_PER_SECOND == rate * (q * PICOS_PER_SECOND + f) + p % rate by {
      assert rate * (q * PICOS_PER_SECOND + f) == rate * (q * PICOS_PER_SECOND) + rate * f;
    }
    DivUnique(sc * PICOS_PER_SECOND, rate, q * PICOS_PER_SECOND + f, p % rate);
    FractionBound(r, rate);
  }

  lemma Distribute(rate: nat, q: nat, r: nat)
    ensures (rate * q + r) * PICOS_PER_SECOND == rate * (q * PICOS_PER_SECOND) + r * PICOS_PER_SECOND
  {
  }

  lemma DivUnique(a: nat, c: nat, q: nat, r: nat)
    requires c > 0 && a == c * q + r && r < c
    ensures a / c == q
  {
    DivMod(a, c);
    if a / c < q {
      MulOrder(a / c + 1, q, c);
    } else if a / c > q {
      MulOrder(q + 1, a / c, c);
    }
  }

  lemma FractionBound(r: nat, rate: nat)
    requires r < rate
    ensures r * PICOS_PER_SECOND / rate < PICOS_PER_SECOND
  {
    DivMod(r * PICOS_PER_SECOND, rate);
    if r * PICOS_PER_SECOND / rate >= PICOS_PER_SECOND {
      MulOrder(PICOS_PER_SECOND, r * PICOS_PER_SECOND / rate, rate);
      assert false;
    }
  }

  /** Drift-free: at such a rate and while the seconds field does not wrap, the stamp of the k-th
      packet read back is the epoch plus the exact time of its first sample, whatever came before. */
  lemma StampExact(epoch: nat, rate: nat, k: nat)
    requires ExactRate(rate) && epoch + SAMPLES_PER_PKT * k / rate < TWO_32
    ensures var sc := SAMPLES_PER_PKT * k;
            var s := StampOf(epoch, rate, sc);
            && s.tsf < PICOS_PER_SECOND
            && epoch <= s.tsi
            && (s.tsi - epoch) * PICOS_PER_SECOND + s.tsf == ExactPicos(rate, sc)
  {
    hide ExactPicos, Grain;
    var sc := SAMPLES_PER_PKT * k;
    SplitSeconds(rate, sc);
    ResidueAtMost(rate, k);
    ResidueDecides(rate, sc);
    SmallMod(sc / rate, TWO_32);
    SmallMod(epoch + sc / rate, TWO_32);
  }

  /** Consecutive packets: exact time grows strictly, and `j` packets apart the stamps differ from
      `j` packet durations by less than a picosecond. */
  lemma StampSpacing(rate: nat, k: nat, j: nat)
    requires 0 < rate < TWO_32
    ensures var d := ExactPicos(rate, SAMPLES_PER_PKT * (k + j)) - ExactPicos(rate, SAMPLES_PER_PKT * k);
            var ideal := j * SAMPLES_PER_PKT * PICOS_PER_SECOND;
            && ideal - rate < d * rate < ideal + rate
            && (j > 0 ==> d > 0)
  {
    var a, b := SAMPLES_PER_PKT * k * PICOS_PER_SECOND, SAMPLES_PER_PKT * (k + j) * PICOS_PER_SECOND;
    assert b - a == j * SAMPLES_PER_PKT * PICOS_PER_SECOND;
    DivMod(a, rate);
    DivMod(b, rate);
    var d := b / rate - a / rate;
    assert d * rate == rate * (b / rate) - rate * (a / rate);
    if j > 0 {
      assert b - a >= SAMPLES_PER_PKT * PICOS_PER_SECOND >= rate;
      DivLess(a, b, rate);
    }
  }

  // ---- Reference Level ----------------------------------------------------------------

  /** Truncation toward zero, as the cast to int16_t does. */
  function Truncate(x: real): int {
    if x >= 0.0 then x.Floor else -((-x).Floor)
  }

  /** The signed Q9.7 value of a level in dBm, clamped and rounded half away from zero. */
  function Q9p7(dbm: real): (q: int)
    ensures -32768 <= q <= 32767
  {
    var scaled := dbm * 128.0;
    var c := if scaled > 32767.0 then 32767.0 else if scaled < -32768.0 then -32768.0 else scaled;
    Truncate(if c < 0.0 then c - 0.5 else c + 0.5)
  }

  /** vita_encode_reference_level: two's complement in the low half-word. */
  function EncodeReferenceLevel(dbm: real): (w: nat)
    ensures w < 0x10000
  {
    Q9p7(dbm) % 0x10000
  }

  function DecodeReferenceLevel(w: nat): real {
    (if w < 0x8000 then w else w - 0x10000) as real / 128.0
  }

  /** In the field's range the word is the nearest multiple of 1/128 dB. */
  lemma ReferenceLevelNearest(dbm: real)
    requires -256.0 <= dbm <= 32767.0 / 128.0
    ensures var back := DecodeReferenceLevel(EncodeReferenceLevel(dbm));
            -1.0 / 256.0 <= back - dbm <= 1.0 / 256.0
  {
    var q := Q9p7(dbm);
    assert DecodeReferenceLevel(EncodeReferenceLevel(dbm)) == q as real / 128.0;
    var scaled := dbm * 128.0;
    assert scaled - 0.5 <= q as real <= scaled + 0.5;
  }

  /** A tuner gain in tenths of a dB: ten dB more gain is ten dB less Reference Level. */
  function ReferenceLevel(gain: int): real {
    -10.0 - gain as real / 10.0
  }

  function RefWord(gain: int): (w: nat)
    ensures w < 0x10000
  {
    EncodeReferenceLevel(ReferenceLevel(gain))
  }

  /** Every gain step of the field's range shows on the wire. */
  lemma RefWordInjective(a: int, b: int)
    requires -2400 <= a <= 2400 && -2400 <= b <= 2400
    ensures RefWord(a) == RefWord(b) <==> a == b
  {
    if a != b {
      ReferenceLevelNearest(ReferenceLevel(a));
      ReferenceLevelNearest(ReferenceLevel(b));
      assert a < b ==> ReferenceLevel(a) - ReferenceLevel(b) >= 0.1;
      assert b < a ==> ReferenceLevel(b) - ReferenceLevel(a) >= 0.1;
    }
  }

  /** The level a receiver makes of the word: ten dB below zero less the gain, to half a step. */
  lemma LevelTold(gain: int)
    requires -2400 <= gain <= 2400
    ensures var told, level := DecodeReferenceLevel(RefWord(gain)), -10.0 - gain as real / 10.0;
            -1.0 / 256.0 <= told - level <= 1.0 / 256.0
  {
    ReferenceLevelNearest(ReferenceLevel(gain));
  }

  /** More gain, a lower level. */
  lemma LevelFalls(a: int, b: int)
    requires -2400 <= a < b <= 2400
    ensures DecodeReferenceLevel(RefWord(a)) > DecodeReferenceLevel(RefWord(b))
  {
    LevelTold(a);
    LevelTold(b);
    assert (b - a) as real / 10.0 >= 0.1;
  }

  /** What Payload Format word 0 tells, in the fields of section 7.1.5.18 of VITA-49.0. */
  datatype Items = Items(complex: bool, unsigned: bool, packing: nat, size: nat)

  function ReadFormat(w: u32): Items {
    Items(w / 0x20000000 % 4 == 1, w / 0x1000000 % 32 == 16, w / 64 % 64 + 1, w % 64 + 1)
  }

  // ---- Byte layout --------------------------------------------------------------------

  datatype Packet =
    | Context(count: nat, streamId: u32, changed: bool, refWord: u32, format: u32)
    | Data(count: nat, streamId: u32, stamp: Stamp, payload: seq<u8>)

  /** The payload is whole words, few enough for the size field. */
  predicate Encodable(p: Packet) {
    p.Data? ==> |p.payload| % 4 == 0 && |p.payload| / 4 + 7 < 0x10000
  }

  const IF_DATA_BASE := 0x18600000
  const CONTEXT_BASE := 0x40000000
  const CLASS_ID_0 := 0x00402814
  const CLASS_ID_1 := 0x00000001
  const CIF0_BASE := 0x01008000
  const CIF0_CHANGED := 0x80000000

  /** Header word: the packet count and size fall in bits the base leaves zero. */
  function Header(base: nat, count: nat, words: nat): (w: nat)
    requires base == IF_DATA_BASE || base == CONTEXT_BASE
    requires words < 0x10000
    ensures w < TWO_32
  {
    base + count % 16 * 0x10000 + words
  }

  function HeaderWords(p: Packet): (ws: seq<nat>)
    requires Encodable(p)
    ensures |ws| == if p.Data? then 7 else 6
    ensures forall i :: 0 <= i < |ws| ==> ws[i] < TWO_32
  {
    match p
    case Data(count, id, s, pay) =>
      [Header(IF_DATA_BASE, count, 7 + |pay| / 4), id, CLASS_ID_0, CLASS_ID_1, s.tsi, s.tsf / TWO_32, s.tsf % TWO_32]
    case Context(count, id, changed, r, f) =>
      [Header(CONTEXT_BASE, count, 6), id, CIF0_BASE + (if changed then CIF0_CHANGED else 0), r, f, 0]
  }

  function WordsBytes(ws: seq<nat>): (b: seq<u8>)
    requires forall i :: 0 <= i < |ws| ==> ws[i] < TWO_32
    ensures |b| == 4 * |ws|
  {
    if ws == [] then [] else WordsBytes(ws[..|ws| - 1]) + Be32(ws[|ws| - 1])
  }

  /** The bytes of a packet. */
  function Encode(p: Packet): (b: seq<u8>)
    requires Encodable(p)
    ensures |b| == if p.Data? then 28 + |p.payload| else 24
  {
    WordsBytes(HeaderWords(p)) + (if p.Data? then p.payload else [])
  }

  datatype Decoded = Bad | Good(packet: Packet, size: nat)

  /** The fields of a VITA-49.0 header word. */
  datatype Fields = Fields(kind: nat, class_: bool, tsi: nat, tsf: nat, count: nat, size: nat)

  function ReadHeader(w: nat): Fields {
    Fields(w / 0x10000000, w / 0x8000000 % 2 == 1, w / 0x400000 % 4, w / 0x100000 % 4, w / 0x10000 % 16, w % 0x10000)
  }

  const IF_DATA := 1
  const IF_CONTEXT := 4
  const UTC := 1
  const REAL_TIME := 2
  const OUI := 0x402814

  /** Where the body begins: behind the stream id and whatever of class id and time stamps there is. */
  function BodyAt(f: Fields): nat {
    8 + (if f.class_ then 8 else 0) + (if f.tsi != 0 then 4 else 0) + (if f.tsf != 0 then 8 else 0)
  }

  /** Context fields follow in descending order of their bits: Reference Level and Payload Format. */
  const CIF0_FIELDS := 0x1000000 + 0x8000

  /** A receiver's reading of a datagram, as the header says it is laid out. */
  function Decode(b: seq<u8>): Decoded {
    if |b| < 8 then Bad
    else
      var f := ReadHeader(Get32(b, 0));
      var id, at := Get32(b, 4), BodyAt(f);
      if |b| < at || 4 * f.size != |b| then Bad
      else if f.kind == IF_DATA && f.class_ && f.tsi == UTC && f.tsf == REAL_TIME && Get32(b, 8) % 0x1000000 == OUI then
        Good(Data(f.count, id, Stamp(Get32(b, 16), Get32(b, 20) * TWO_32 + Get32(b, 24)), b[at..]), f.size)
      else if f.kind == IF_CONTEXT && |b| >= at + 16 && Get32(b, at) % 0x80000000 == CIF0_FIELDS then
        Good(Context(f.count, id, Get32(b, at) / 0x80000000 == 1, Get32(b, at + 4), Get32(b, at + 8)), f.size)
      else Bad
  }

  lemma HeaderReads(base: nat, count: nat, words: nat)
    requires (base == IF_DATA_BASE || base == CONTEXT_BASE) && words < 0x10000
    ensures ReadHeader(Header(base, count, words)) ==
              if base == IF_DATA_BASE then Fields(IF_DATA, true, UTC, REAL_TIME, count % 16, words)
              else Fields(IF_CONTEXT, false, 0, 0, count % 16, words)
  {
  }

  lemma {:induction false} WordAt(ws: seq<nat>, i: nat, tail: seq<u8>)
    requires i < |ws| && forall j :: 0 <= j < |ws| ==> ws[j] < TWO_32
    ensures Get32(WordsBytes(ws) + tail, 4 * i) == ws[i]
    decreases |ws|
  {
    hide Be32, Get32, At;
    var init, last := WordsBytes(ws[..|ws| - 1]), Be32(ws[|ws| - 1]);
    var b := WordsBytes(ws) + tail;
    assert b == init + (last + tail);
    if i == |ws| - 1 {
      AtEnd(init, last + tail);
      AtSplit(b, 4 * i, last, tail);
      Get32At(b, 4 * i, ws[i]);
    } else {
      WordAt(ws[..|ws| - 1], i, last + tail);
    }
  }

  /** A receiver reads back what was sent, the packet count modulo 16, and the size field is the
      packet's length in words. */
  lemma DecodeEncode(p: Packet)
    requires Encodable(p)
    ensures Decode(Encode(p)) == Good(p.(count := p.count % 16), |Encode(p)| / 4)
  {
    hide Be32, WordsBytes, Get32, ReadHeader, Header;
    HeaderReads(if p.Data? then IF_DATA_BASE else CONTEXT_BASE, p.count, |Encode(p)| / 4);
    var ws := HeaderWords(p);
    var tail := if p.Data? then p.payload else [];
    var b := Encode(p);
    WordAt(ws, 0, tail);
    WordAt(ws, 1, tail);
    WordAt(ws, 2, tail);
    WordAt(ws, 3, tail);
    WordAt(ws, 4, tail);
    WordAt(ws, 5, tail);
    if p.Data? {
      WordAt(ws, 6, tail);
      assert b[28..] == p.payload;
    }
  }

  // ---- Building packets in place ------------------------------------------------------

  /** w[i] = htonl(v). */
  method PutWord(pkt: array<u8>, i: nat, v: nat)
    requires 4 * i + 4 <= pkt.Length && v < TWO_32
    modifies pkt
    ensures pkt[..] == old(pkt[..4 * i]) + Be32(v) + old(pkt[4 * i + 4..])
  {
    hide Be32;
    var b := Be32(v);
    pkt[4 * i] := b[0];
    pkt[4 * i + 1] := b[1];
    pkt[4 * i + 2] := b[2];
    pkt[4 * i + 3] := b[3];
  }

  /** The header words of either packet kind, one after the other. */
  method PutWords(pkt: array<u8>, ws: seq<nat>)
    requires 4 * |ws| <= pkt.Length
    requires forall i :: 0 <= i < |ws| ==> ws[i] < TWO_32
    modifies pkt
    ensures pkt[..4 * |ws|] == WordsBytes(ws) && pkt[4 * |ws|..] == old(pkt[4 * |ws|..])
  {
    hide Be32;
    for i := 0 to |ws|
      invariant pkt[..4 * i] == WordsBytes(ws[..i])
      invariant pkt[4 * i..] == old(pkt[4 * i..])
    {
      assert ws[..i + 1][..i] == ws[..i];
      PutWord(pkt, i, ws[i]);
    }
    assert ws[..|ws|] == ws;
  }

  /** Samples filled up with zeros to whole words. */
  function Padded(iq: seq<u8>): (r: seq<u8>)
    ensures |r| % 4 == 0 && iq <= r && |r| < |iq| + 4
    ensures forall i :: |iq| <= i < |r| ==> r[i] == 0
  {
    iq + seq((4 - |iq| % 4) % 4, _ => 0)
  }

  /** vita_build_if_data_packet for the u8 format: any number of bytes, padded to words. */
  method BuildIfDataPacket(pkt: array<u8>, streamId: u32, count: nat, tsi: u32, tsf: u64, iq: seq<u8>)
    returns (len: nat)
    requires |Padded(iq)| / 4 + 7 < 0x10000
    requires 28 + |Padded(iq)| <= pkt.Length
    modifies pkt
    ensures len == 28 + |Padded(iq)|
    ensures pkt[..len] == Encode(Data(count, streamId, Stamp(tsi, tsf), Padded(iq)))
  {
    hide WordsBytes, HeaderWords;
    ghost var p := Data(count, streamId, Stamp(tsi, tsf), Padded(iq));
    var payloadWords := (|iq| + 3) / 4;
    HeaderIs(p, payloadWords, iq);
    PutWords(pkt, [Header(IF_DATA_BASE, count, 7 + payloadWords), streamId, CLASS_ID_0, CLASS_ID_1,
                   tsi, tsf / TWO_32, tsf % TWO_32]);
    ghost var head := pkt[..28];
    for i := 0 to |Padded(iq)|
      invariant pkt[..28 + i] == head + Padded(iq)[..i]
    {
      pkt[28 + i] := if i < |iq| then iq[i] else 0;
    }
    len := 28 + payloadWords * 4;
  }

  lemma HeaderIs(p: Packet, words: nat, iq: seq<u8>)
    requires p.Data? && Encodable(p) && p.payload == Padded(iq) && words == (|iq| + 3) / 4
    ensures |p.payload| == 4 * words
    ensures HeaderWords(p) == [Header(IF_DATA_BASE, p.count, 7 + words), p.streamId, CLASS_ID_0, CLASS_ID_1,
                               p.stamp.tsi, p.stamp.tsf / TWO_32, p.stamp.tsf % TWO_32]
  {
  }

  /** vita_build_context_packet. */
  method BuildContextPacket(pkt: array<u8>, streamId: u32, count: nat, format: u32, dbm: real, changed: bool)
    returns (len: nat)
    requires pkt.Length >= 24
    modifies pkt
    ensures len == 24
    ensures pkt[..len] == Encode(Context(count, streamId, changed, EncodeReferenceLevel(dbm), format))
  {
    hide WordsBytes, EncodeReferenceLevel;
    var cif0 := CIF0_BASE + (if changed then CIF0_CHANGED else 0);
    PutWords(pkt, [Header(CONTEXT_BASE, count, 6), streamId, cif0, EncodeReferenceLevel(dbm), format, 0]);
    len := 24;
  }
}
