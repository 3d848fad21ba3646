/** Whose value a key lookup answers: by child counts alone it walks over keys and values in turn,
    and the counts of the keys it has passed say whether it is still in step. */
module TokOwn {
  import opened Jsmn
  import opened JsmnCounts
  import opened TokLookup

  predicate NthChild(toks: seq<Token>, p: nat, q: int, n: nat) {
    p < |toks| && n < toks[p].size && SkipTo(toks, p + 1, n) == q
  }

  /** `q` is where one of the children that `p` counts begins. */
  ghost predicate ChildOf(toks: seq<Token>, p: nat, q: int) {
    exists n :: NthChild(toks, p, q, n)
  }

  /** How many of the object's children lie before the k-th key, if the lookup is among them: a key
      and its value make one, but a key without a value takes the next child for it. */
  function Come(toks: seq<Token>, first: nat, k: nat): int {
    2 * k - KeySizes(toks, first, k)
  }

  /** In step at the k-th key: still below the object's count, and never as far before. */
  ghost predicate InStep(toks: seq<Token>, first: nat, m: nat, k: nat) {
    Come(toks, first, k) < m && forall j :: 0 <= j < k ==> Come(toks, first, j) < Come(toks, first, k)
  }

  // ---- Where the lookup is ------------------------------------------------------------

  /** In the object's child number `c`, `v` units before its end, having met that child as its key
      number `at`; or behind the object since key number `at`. */
  datatype Spot = Inside(c: nat, v: nat, at: nat) | Behind(at: nat)

  ghost predicate SpotOk(toks: seq<Token>, first: nat, m: nat, k: nat, s: Spot)
    requires Rooted(toks) && first <= |toks| && m <= Units(toks, first)
  {
    && s.at <= k && 0 <= KeyAt(toks, first, k) <= |toks|
    && var p := KeyAt(toks, first, k);
       match s
       case Inside(c, v, at) =>
         && c < m && 1 <= v <= Units(toks, p) && SkipTo(toks, p, v) == SkipTo(toks, first, c + 1)
         && Come(toks, first, k) == c + 1 - v && Come(toks, first, at) == c
         && (forall j :: 0 <= j <= k ==> Come(toks, first, j) <= c)
         && (if at == k then p == SkipTo(toks, first, c) else p > SkipTo(toks, first, c))
         && (forall j :: 0 <= j < at ==> Come(toks, first, j) < c)
       case Behind(at) => p >= SkipTo(toks, first, m) && Come(toks, first, at) >= m
  }

  /** One more key passed, and what was taken for its value. */
  lemma Passed(toks: seq<Token>, first: nat, k: nat)
    requires Rooted(toks) && first <= |toks| && 0 <= KeyAt(toks, first, k) <= |toks|
    requires Units(toks, KeyAt(toks, first, k)) == Surplus(toks, first, k) && Fits(toks, first, k)
    ensures var p, n := KeyAt(toks, first, k), KeyAt(toks, first, k + 1);
            && p < |toks| && p < n <= |toks| && n == SkipTo(toks, p + 1, 1)
            && 1 <= Units(toks, p + 1) == Units(toks, p) - 1 + toks[p].size && Units(toks, n) == Units(toks, p + 1) - 1
            && Come(toks, first, k + 1) == Come(toks, first, k) + 2 - toks[p].size
  {
    hide SkipTo, Units, SizesFrom;
    EndUnits(toks);
    var p := KeyAt(toks, first, k);
    ChildrenThere(toks, p);
    SkipExact(toks, p + 1, 1);
  }

  lemma NextSpot(toks: seq<Token>, first: nat, m: nat, k: nat, s: Spot) returns (t: Spot)
    requires Rooted(toks) && first <= |toks| && m <= Units(toks, first) && SpotOk(toks, first, m, k, s)
    requires Units(toks, KeyAt(toks, first, k)) == Surplus(toks, first, k) && Fits(toks, first, k)
    ensures SpotOk(toks, first, m, k + 1, t)
  {
    hide SkipTo, Units, SizesFrom, KeySizes, Surplus, Fits, KeyAt, Come;
    Passed(toks, first, k);
    var p, n := KeyAt(toks, first, k), KeyAt(toks, first, k + 1);
    match s
    case Behind(at) => t := s;
    case Inside(c, v, at) =>
      var a := v - 1 + toks[p].size;
      SkipHead(toks, p, v - 1);
      SkipExact(toks, p + 1, a);
      if a >= 2 {
        SkipMore(toks, p + 1, 1, a - 1);
        t := Inside(c, a - 1, at);
      } else {
        SkipMore(toks, first, c + 1, 1 - a);
        Ahead(toks, first, p, c, a);
        t := Arrive(toks, first, m, k, c + 2 - a);
      }
  }

  /** Having used up child `c`: the next key is where a later child begins. */
  lemma Ahead(toks: seq<Token>, first: nat, p: nat, c: nat, a: nat)
    requires Rooted(toks) && p < |toks| && first <= |toks|
    requires a <= 1 <= Units(toks, p + 1) && c + 1 <= Units(toks, first)
    requires SkipTo(toks, p + 1, a) == SkipTo(toks, first, c + 1)
    ensures SkipTo(toks, p + 1, 1) == SkipTo(toks, first, c + 2 - a)
  {
    hide SkipTo, Units, SizesFrom;
    SkipNone(toks, p + 1);
    SkipMore(toks, first, c + 1, 1 - a);
  }

  lemma Arrive(toks: seq<Token>, first: nat, m: nat, k: nat, c: nat) returns (t: Spot)
    requires Rooted(toks) && first <= |toks| && m <= Units(toks, first) && 0 <= KeyAt(toks, first, k + 1) <= |toks|
    requires KeyAt(toks, first, k + 1) == SkipTo(toks, first, c) && Come(toks, first, k + 1) == c
    requires forall j :: 0 <= j <= k ==> Come(toks, first, j) < c
    ensures SpotOk(toks, first, m, k + 1, t)
  {
    hide SkipTo, Units, SizesFrom, KeySizes, KeyAt, Come;
    SkipExact(toks, first, c);
    if c < m {
      SkipMore(toks, first, c, 1);
      t := Inside(c, 1, k + 1);
    } else {
      SkipMore(toks, first, m, c - m);
      SkipExact(toks, first, m);
      SkipExact(toks, SkipTo(toks, first, m), c - m);
      t := Behind(k + 1);
    }
  }

  lemma {:induction false} SpotOf(toks: seq<Token>, first: nat, m: nat, k: nat) returns (s: Spot)
    requires Rooted(toks) && first <= |toks| && m <= Units(toks, first)
    requires forall j :: 0 <= j < k ==> Fits(toks, first, j)
    ensures SpotOk(toks, first, m, k, s)
  {
    hide SkipTo, Units, SizesFrom, Surplus, Fits;
    if k == 0 {
      SkipNone(toks, first);
      if m > 0 {
        s := Inside(0, 1, 0);
      } else {
        s := Behind(0);
      }
    } else {
      s := SpotOf(toks, first, m, k - 1);
      SurplusIs(toks, first, k - 1);
      s := NextSpot(toks, first, m, k - 1, s);
    }
  }

  // ---- The key is the object's own ----------------------------------------------------

  lemma Apart(toks: seq<Token>, first: nat, a: nat, b: nat)
    requires Rooted(toks) && first <= |toks| && a < b <= Units(toks, first)
    ensures 0 <= SkipTo(toks, first, a) < SkipTo(toks, first, b)
  {
    hide SkipTo, Units;
    SkipExact(toks, first, a);
    SkipMore(toks, first, a, b - a);
    SkipExact(toks, SkipTo(toks, first, a), b - a);
  }

  /** The k-th key is one of the object's own children if and only if the lookup is in step. */
  lemma KeyOwnIff(toks: seq<Token>, obj: nat, k: nat)
    requires Rooted(toks) && obj < |toks|
    requires var first := obj + 1; forall j :: 0 <= j < k ==> Fits(toks, first, j)
    ensures ChildOf(toks, obj, KeyAt(toks, obj + 1, k)) <==> InStep(toks, obj + 1, toks[obj].size, k)
  {
    hide SkipTo, Units, SizesFrom, KeySizes, Surplus, Fits, KeyAt, Come;
    var first, m := obj + 1, toks[obj].size;
    ChildrenThere(toks, obj);
    var s := SpotOf(toks, first, m, k);
    var p := KeyAt(toks, first, k);
    match s
    case Inside(c, v, at) =>
      if at == k {
        assert NthChild(toks, obj, p, c);
      } else {
        forall n | 0 <= n < m ensures !NthChild(toks, obj, p, n) {
          SkipExact(toks, p, v);
          if n < c {
            Apart(toks, first, n, c);
          } else if n > c + 1 {
            Apart(toks, first, c + 1, n);
          }
        }
      }
    case Behind(at) =>
      forall n | 0 <= n < m ensures !NthChild(toks, obj, p, n) {
        Apart(toks, first, n, m);
      }
  }

  /** On every array the tokeniser can leave: what a lookup answers is the value of a key of that very
      object if and only if the key has a value and the lookup came to it in step. */
  lemma OwnValueIff(js: string, toks: seq<Token>, obj: nat, key: string) returns (k: nat)
    requires Rooted(toks) && AllInText(js, toks) && obj < |toks|
    requires Walk(js, toks, obj + 1, toks[obj].size, key).ValueAt?
    ensures k < toks[obj].size && Reached(js, toks, obj + 1, k, key) && Matches(js, toks, obj + 1, k, key)
    ensures var first, r := obj + 1, Walk(js, toks, obj + 1, toks[obj].size, key);
            && r.at == KeyAt(toks, first, k) + 1
            && (ChildOf(toks, obj, r.at - 1) && ChildOf(toks, r.at - 1, r.at) <==>
                  KeySize(toks, first, k) >= 1 && InStep(toks, first, toks[obj].size, k))
  {
    hide SkipTo, Walk, Fits, InStep, Matches;
    var first, m := obj + 1, toks[obj].size;
    NoneBefore(js, toks, first, key);
    k := WalkEnds(js, toks, first, m, 0, key);
    KeyOwnIff(toks, obj, k);
    var p := KeyAt(toks, first, k);
    SkipNone(toks, p + 1);
    if toks[p].size >= 1 {
      assert NthChild(toks, p, p + 1, 0);
    }
  }

  /** With one value to each key passed, the lookup is in step. */
  lemma {:induction false} OneEachInStep(toks: seq<Token>, first: nat, m: nat, k: nat)
    requires k < m && forall j :: 0 <= j < k ==> KeySize(toks, first, j) == 1
    ensures InStep(toks, first, m, k) && Come(toks, first, k) == k
    decreases k
  {
    hide KeySize;
    if k > 0 {
      OneEachInStep(toks, first, m, k - 1);
    }
  }

  // ---- A lookup out of step -----------------------------------------------------------

  /** A key without a value, and another object's key behind it. */
  const STRAY := "{\"a\":{\"k\"},\"b\":1}"

  const STRAY_TOKENS := [
    Token(Object, 0, 17, 2), Token(String, 2, 3, 1), Token(Object, 5, 10, 1), Token(String, 7, 8, 0),
    Token(String, 12, 13, 1), Token(Primitive, 15, 16, 0)
  ]

  lemma StrayScans()
    ensures ScanString(STRAY, 2) == Found(3) && ScanString(STRAY, 7) == Found(8) && ScanString(STRAY, 12) == Found(13)
    ensures ScanPrimitive(STRAY, 15) == Found(16)
  {
    assert ScanString(STRAY, 3) == Found(3) && ScanString(STRAY, 8) == Found(8) && ScanString(STRAY, 13) == Found(13);
    assert ScanPrimitive(STRAY, 16) == Found(16);
  }

  lemma StrayOpens()
    ensures var t0 := Token(Object, 0, -1, 0);
            var t1 := Token(String, 2, 3, 0);
            && CharStep(STRAY, MAX_JSON_TOKENS, START) == Next(State(1, [t0], 0))
            && CharStep(STRAY, MAX_JSON_TOKENS, State(1, [t0], 0)) == Next(State(4, [t0.(size := 1), t1], 0))
            && CharStep(STRAY, MAX_JSON_TOKENS, State(4, [t0.(size := 1), t1], 0))
                 == Next(State(5, [t0.(size := 1), t1], 1))
  {
    hide ScanString, ScanPrimitive;
    StrayScans();
    var t0, t1 := Token(Object, 0, -1, 0), Token(String, 2, 3, 0);
    assert STRAY[0] == '{' && STRAY[1] == '"' && STRAY[4] == ':';
    assert [t0][0 := t0.(size := 1)] + [t1] == [t0.(size := 1), t1];
    assert [] + [t0] == [t0];
  }

  const T0 := Token(Object, 0, -1, 1)
  const T1 := STRAY_TOKENS[1]

  lemma StrayInner()
    ensures var t2, t3 := Token(Object, 5, -1, 0), Token(String, 7, 8, 0);
            && CharStep(STRAY, MAX_JSON_TOKENS, State(5, [T0, T1.(size := 0)], 1)) == Next(State(6, [T0, T1, t2], 2))
            && CharStep(STRAY, MAX_JSON_TOKENS, State(6, [T0, T1, t2], 2))
                 == Next(State(9, [T0, T1, t2.(size := 1), t3], 2))
            && CharStep(STRAY, MAX_JSON_TOKENS, State(9, [T0, T1, t2.(size := 1), t3], 2))
                 == Next(State(10, [T0] + STRAY_TOKENS[1..4], 0))
  {
    hide ScanString, ScanPrimitive, LastOpen;
    StrayScans();
    var t2, t3 := Token(Object, 5, -1, 0), Token(String, 7, 8, 0);
    var a, b := [T0, T1.(size := 0)], [T0, T1, t2];
    assert STRAY[5] == '{' && STRAY[6] == '"' && STRAY[9] == '}';
    assert Bump(a, 1) + [t2] == b;
    var c := [T0, T1, t2.(size := 1), t3];
    assert Bump(b, 2) + [t3] == c;
    assert c[..2] == [T0, T1];
    assert IsOpen(c[2]) && !IsOpen(c[3]) && LastOpen(c) == 2;
    assert IsOpen([T0, T1][0]) && !IsOpen([T0, T1][1]) && LastOpen([T0, T1]) == 0;
    assert c[2 := c[2].(end := 10)] == [T0] + STRAY_TOKENS[1..4];
  }

  lemma StrayMore()
    ensures var a := [T0] + STRAY_TOKENS[1..4];
            var b := [T0.(size := 2)] + STRAY_TOKENS[1..4] + [STRAY_TOKENS[4].(size := 0)];
            && CharStep(STRAY, MAX_JSON_TOKENS, State(10, a, 0)) == Next(State(11, a, 0))
            && CharStep(STRAY, MAX_JSON_TOKENS, State(11, a, 0)) == Next(State(14, b, 0))
            && CharStep(STRAY, MAX_JSON_TOKENS, State(14, b, 0)) == Next(State(15, b, 4))
  {
    hide ScanString, ScanPrimitive, LastOpen, LastOpenContainer;
    StrayScans();
    assert STRAY[10] == ',' && STRAY[11] == '"' && STRAY[14] == ':';
  }

  lemma StrayEnds()
    ensures var b := [T0.(size := 2)] + STRAY_TOKENS[1..4] + [STRAY_TOKENS[4].(size := 0)];
            var c := [T0.(size := 2)] + STRAY_TOKENS[1..];
            && CharStep(STRAY, MAX_JSON_TOKENS, State(15, b, 4)) == Next(State(16, c, 4))
            && CharStep(STRAY, MAX_JSON_TOKENS, State(16, c, 4)) == Next(State(17, STRAY_TOKENS, -1))
            && LastOpen(STRAY_TOKENS) == -1
  {
    hide ScanString, ScanPrimitive, LastOpen;
    StrayScans();
    var b := [T0.(size := 2)] + STRAY_TOKENS[1..4] + [STRAY_TOKENS[4].(size := 0)];
    var c := [T0.(size := 2)] + STRAY_TOKENS[1..];
    assert STRAY[15] == '1' && STRAY[16] == '}';
    assert Bump(b, 4) + [STRAY_TOKENS[5]] == c;
    assert LastOpen(c) == 0 && LastOpen(c[..0]) == -1;
    assert c[0 := c[0].(end := 17)] == STRAY_TOKENS;
    var _ := LastOpen(STRAY_TOKENS);
  }

  lemma StrayParses()
    ensures Run(STRAY, MAX_JSON_TOKENS, START) == Count(6, State(17, STRAY_TOKENS, -1))
  {
    hide CharStep, LastOpen;
    StrayOpens();
    StrayInner();
    StrayMore();
    StrayEnds();
    var a := [T0] + STRAY_TOKENS[1..4];
    var b := [T0.(size := 2)] + STRAY_TOKENS[1..4] + [STRAY_TOKENS[4].(size := 0)];
    var c := [T0.(size := 2)] + STRAY_TOKENS[1..];
    var t0, t1, t2 := Token(Object, 0, -1, 0), Token(String, 2, 3, 0), Token(Object, 5, -1, 0);
    var end := Run(STRAY, MAX_JSON_TOKENS, State(17, STRAY_TOKENS, -1));
    assert Run(STRAY, MAX_JSON_TOKENS, State(16, c, 4)) == end;
    assert Run(STRAY, MAX_JSON_TOKENS, State(15, b, 4)) == end;
    assert Run(STRAY, MAX_JSON_TOKENS, State(14, b, 0)) == end;
    assert Run(STRAY, MAX_JSON_TOKENS, State(11, a, 0)) == end;
    assert Run(STRAY, MAX_JSON_TOKENS, State(10, a, 0)) == end;
    assert Run(STRAY, MAX_JSON_TOKENS, State(9, [T0, T1, t2.(size := 1), STRAY_TOKENS[3]], 2)) == end;
    assert Run(STRAY, MAX_JSON_TOKENS, State(6, [T0, T1, t2], 2)) == end;
    assert Run(STRAY, MAX_JSON_TOKENS, State(5, [T0, t1], 1)) == end;
    assert Run(STRAY, MAX_JSON_TOKENS, State(4, [T0, t1], 0)) == end;
    assert Run(STRAY, MAX_JSON_TOKENS, State(1, [t0], 0)) == end;
  }

  /** The tokeniser accepts it; looking for "k" in the inner object stays below the count and answers
      the token of "b", which is nobody's value there. */
  lemma StrayAnswers()
    ensures AllInText(STRAY, STRAY_TOKENS)
    ensures Run(STRAY, MAX_JSON_TOKENS, START) == Count(6, State(17, STRAY_TOKENS, -1))
    ensures Walk(STRAY, STRAY_TOKENS, 3, STRAY_TOKENS[2].size, "k") == ValueAt(4)
    ensures STRAY[STRAY_TOKENS[4].start..STRAY_TOKENS[4].end] == "b" && !ChildOf(STRAY_TOKENS, 3, 4)
  {
    hide Run;
    StrayParses();
    assert STRAY[7..8] == "k" && STRAY[12..13] == "b";
  }
}
