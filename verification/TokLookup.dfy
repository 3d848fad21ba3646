/** Reading a message through its flat token array: key lookup by child counts alone, the
    version list of hello, and the request envelope. */
module TokLookup {
  import opened Basics
  import opened JsonText
  import opened Jsmn
  import opened JsmnFlatten
  import opened JsmnCounts
  import opened JsmnSafety

  // ---- What a lookup should answer, on the tree ---------------------------------------

  /** The value of the first pair with this key, compared as written (escapes included). */
  function Lookup(ms: Members, key: string): Option<Json> {
    match ms
    case MNil => None
    case MCons(_, k, _, _, v, _, rest) => if k == key then Some(v) else Lookup(rest, key)
  }

  /** The text a value's first token spans: string content without its quotes. */
  function SpanText(v: Json): string {
    if v.Str? then v.raw else Text(v)
  }

  /** Some element of the list reads one of `texts`. */
  predicate AnyElem(es: Elems, texts: set<string>) {
    es.ECons? && (SpanText(es.value) in texts || AnyElem(es.rest, texts))
  }

  // ---- How a value sits in the token array --------------------------------------------

  /** From token `i` on, `toks` is the flattening of `v`, whose text `js` holds at `off`. */
  ghost predicate EncodedAt(js: string, toks: seq<Token>, i: nat, v: Json, off: nat) {
    && WellFormed(v) && At(js, off, Text(v))
    && i + TokenCount(v) <= |toks| && toks[i..i + TokenCount(v)] == Flat(v, off)
  }

  ghost predicate Encoded(js: string, toks: seq<Token>, i: nat, v: Json) {
    exists off: nat :: EncodedAt(js, toks, i, v, off)
  }

  ghost predicate ElemsAt(js: string, toks: seq<Token>, i: nat, es: Elems, off: nat) {
    && WellFormedElems(es) && At(js, off, ElemsText(es))
    && i + ElemsTokenCount(es) <= |toks| && toks[i..i + ElemsTokenCount(es)] == FlatElems(es, off)
  }

  ghost predicate MembersAt(js: string, toks: seq<Token>, i: nat, ms: Members, off: nat) {
    && WellFormedMembers(ms) && At(js, off, MembersText(ms))
    && i + MembersTokenCount(ms) <= |toks| && toks[i..i + MembersTokenCount(ms)] == FlatMembers(ms, off)
  }

  lemma ObjectContents(js: string, toks: seq<Token>, i: nat, v: Json, off: nat)
    requires v.Obj? && EncodedAt(js, toks, i, v, off)
    ensures i < |toks| && toks[i].kind == Object && toks[i].size == MembersLen(v.members)
    ensures MembersAt(js, toks, i + 1, v.members, off + 1 + |v.ws|)
  {
    hide At, MembersText, FlatMembers, WellFormedMembers;
    AtSplit(js, off, "{", v.ws + MembersText(v.members));
    AtSplit(js, off + 1, v.ws, MembersText(v.members));
    assert toks[i..i + TokenCount(v)][0] == Flat(v, off)[0];
    assert toks[i..i + TokenCount(v)][1..] == Flat(v, off)[1..];
  }

  lemma ArrayContents(js: string, toks: seq<Token>, i: nat, v: Json, off: nat)
    requires v.Arr? && EncodedAt(js, toks, i, v, off)
    ensures i < |toks| && toks[i].kind == Array && toks[i].size == ElemsLen(v.elems)
    ensures ElemsAt(js, toks, i + 1, v.elems, off + 1 + |v.ws|)
  {
    hide At, ElemsText, FlatElems, WellFormedElems;
    AtSplit(js, off, "[", v.ws + ElemsText(v.elems));
    AtSplit(js, off + 1, v.ws, ElemsText(v.elems));
    assert toks[i..i + TokenCount(v)][0] == Flat(v, off)[0];
    assert toks[i..i + TokenCount(v)][1..] == Flat(v, off)[1..];
  }

  lemma FirstElem(js: string, toks: seq<Token>, i: nat, es: Elems, off: nat)
    requires es.ECons? && ElemsAt(js, toks, i, es, off)
    ensures EncodedAt(js, toks, i, es.value, off + |es.pre|)
    ensures es.rest.ECons? ==>
              ElemsAt(js, toks, i + TokenCount(es.value), es.rest,
                      off + |es.pre| + |Text(es.value)| + |es.post| + 1)
    ensures i + TokenCount(es.value) + ElemsTokenCount(es.rest) <= |toks|
  {
    hide At, Text, ElemsText, AfterElem, Flat, FlatElems, WellFormed, TokenCount;
    ElemsParts(es, off);
    var vo := off + |es.pre|;
    AtSplit(js, off, es.pre, Text(es.value) + (es.post + AfterElem(es.rest)));
    AtSplit(js, vo, Text(es.value), es.post + AfterElem(es.rest));
    AtSplit(js, vo + |Text(es.value)|, es.post, AfterElem(es.rest));
    var m, all := TokenCount(es.value), toks[i..i + ElemsTokenCount(es)];
    assert all[..m] == toks[i..i + m];
    assert all[m..] == toks[i + m..i + m + ElemsTokenCount(es.rest)];
    if es.rest.ECons? {
      AtSplit(js, vo + |Text(es.value)| + |es.post|, ",", ElemsText(es.rest));
    }
  }

  lemma SubSlice(toks: seq<Token>, i: nat, len: nat, a: nat, b: nat)
    requires i + len <= |toks| && a <= b <= len
    ensures toks[i..i + len][a..b] == toks[i + a..i + b]
  {
    var s, t := toks[i..i + len][a..b], toks[i + a..i + b];
    assert forall k :: 0 <= k < b - a ==> s[k] == t[k];
  }

  lemma AtSlice(js: string, p: nat, t: string)
    requires At(js, p, t)
    ensures p + |t| <= |js| && js[p..p + |t|] == t
  {
  }

  /** The definitions, one level. */
  lemma ElemsParts(es: Elems, off: nat)
    requires es.ECons?
    ensures ElemsText(es) == es.pre + (Text(es.value) + (es.post + AfterElem(es.rest)))
    ensures es.rest.ECons? ==> AfterElem(es.rest) == "," + ElemsText(es.rest)
    ensures FlatElems(es, off) == Flat(es.value, off + |es.pre|)
                                + FlatElems(es.rest, off + |es.pre| + |Text(es.value)| + |es.post| + 1)
  {
  }

  lemma MembersParts(ms: Members, off: nat)
    requires ms.MCons?
    ensures ms.rest.MCons? ==> AfterPair(ms.rest) == "," + MembersText(ms.rest)
    ensures var k := off + |ms.pre| + 1;
            FlatMembers(ms, off) == [Token(String, k, k + |ms.key|, 1)] + Flat(ms.value, ValueOffset(ms, off))
                                  + FlatMembers(ms.rest, ValueOffset(ms, off) + |Text(ms.value)| + |ms.post| + 1)
  {
  }

  lemma FirstPair(js: string, toks: seq<Token>, i: nat, ms: Members, off: nat)
    requires ms.MCons? && MembersAt(js, toks, i, ms, off)
    ensures i < |toks| && toks[i] == Token(String, off + |ms.pre| + 1, off + |ms.pre| + 1 + |ms.key|, 1)
    ensures InText(js, toks[i]) && js[toks[i].start..toks[i].end] == ms.key
    ensures EncodedAt(js, toks, i + 1, ms.value, ValueOffset(ms, off))
    ensures ms.rest.MCons? ==>
              MembersAt(js, toks, i + 1 + TokenCount(ms.value), ms.rest,
                        ValueOffset(ms, off) + |Text(ms.value)| + |ms.post| + 1)
    ensures i + 1 + TokenCount(ms.value) + MembersTokenCount(ms.rest) <= |toks|
  {
    hide At, Text, MembersText, AfterPair, Flat, FlatMembers, WellFormed, TokenCount, IsRaw;
    MembersParts(ms, off);
    PairSplits(js, off, ms);
    var vo := ValueOffset(ms, off);
    var more := AfterPair(ms.rest);
    AtSplit(js, off + |ms.pre| + 1, ms.key, "\"");
    AtSplit(js, vo - |ms.gap|, ms.gap, Text(ms.value) + (ms.post + more));
    AtSplit(js, vo, Text(ms.value), ms.post + more);
    AtSplit(js, vo + |Text(ms.value)|, ms.post, more);
    var m, all := TokenCount(ms.value), toks[i..i + MembersTokenCount(ms)];
    assert |all| == 1 + m + MembersTokenCount(ms.rest);
    SubSlice(toks, i, |all|, 0, 1);
    SubSlice(toks, i, |all|, 1, 1 + m);
    SubSlice(toks, i, |all|, 1 + m, |all|);
    AtSlice(js, off + |ms.pre| + 1, ms.key);
    if ms.rest.MCons? {
      AtSplit(js, vo + |Text(ms.value)| + |ms.post|, ",", MembersText(ms.rest));
    }
  }

  // ---- Skipping a subtree by child counts ---------------------------------------------

  /** One token to pass at the root of a value lands exactly past its subtree. */
  lemma {:induction false} SkipValue(toks: seq<Token>, i: nat, v: Json, off: nat, more: nat)
    requires i + TokenCount(v) <= |toks| && toks[i..i + TokenCount(v)] == Flat(v, off)
    ensures SkipTo(toks, i, more + 1) == SkipTo(toks, i + TokenCount(v), more)
    decreases v
  {
    hide SkipTo, Text, FlatElems, FlatMembers;
    assert toks[i] == toks[i..i + TokenCount(v)][0];
    SkipHead(toks, i, more);
    match v
    case Prim(_) =>
    case Str(_) =>
    case Arr(ws, elems) =>
      assert toks[i + 1..i + TokenCount(v)] == toks[i..i + TokenCount(v)][1..];
      SkipElems(toks, i + 1, elems, off + 1 + |ws|, more);
    case Obj(ws, members) =>
      assert toks[i + 1..i + TokenCount(v)] == toks[i..i + TokenCount(v)][1..];
      SkipMembers(toks, i + 1, members, off + 1 + |ws|, more);
  }

  lemma {:induction false} SkipElems(toks: seq<Token>, i: nat, es: Elems, off: nat, more: nat)
    requires i + ElemsTokenCount(es) <= |toks| && toks[i..i + ElemsTokenCount(es)] == FlatElems(es, off)
    ensures SkipTo(toks, i, more + ElemsLen(es)) == SkipTo(toks, i + ElemsTokenCount(es), more)
    decreases es
  {
    hide Text, Flat, FlatElems, SkipTo;
    if es.ECons? {
      ElemsParts(es, off);
      var m, all := TokenCount(es.value), toks[i..i + ElemsTokenCount(es)];
      var n := ElemsTokenCount(es.rest);
      SubSlice(toks, i, m + n, 0, m);
      SubSlice(toks, i, m + n, m, m + n);
      SkipValue(toks, i, es.value, off + |es.pre|, more + ElemsLen(es.rest));
      SkipElems(toks, i + m, es.rest, off + |es.pre| + |Text(es.value)| + |es.post| + 1, more);
    }
  }

  lemma {:induction false} SkipMembers(toks: seq<Token>, i: nat, ms: Members, off: nat, more: nat)
    requires i + MembersTokenCount(ms) <= |toks| && toks[i..i + MembersTokenCount(ms)] == FlatMembers(ms, off)
    ensures SkipTo(toks, i, more + MembersLen(ms)) == SkipTo(toks, i + MembersTokenCount(ms), more)
    decreases ms
  {
    hide Text, Flat, FlatMembers, SkipTo;
    if ms.MCons? {
      MembersParts(ms, off);
      var m, all := TokenCount(ms.value), toks[i..i + MembersTokenCount(ms)];
      var n := MembersTokenCount(ms.rest);
      SubSlice(toks, i, 1 + m + n, 1, 1 + m);
      SubSlice(toks, i, 1 + m + n, 1 + m, 1 + m + n);
      assert toks[i] == all[0];
      SkipOne(toks, i, more + MembersLen(ms.rest));
      SkipValue(toks, i + 1, ms.value, ValueOffset(ms, off), more + MembersLen(ms.rest));
      SkipMembers(toks, i + 1 + m, ms.rest, ValueOffset(ms, off) + |Text(ms.value)| + |ms.post| + 1, more);
    }
  }

  lemma SkipEncoded(js: string, toks: seq<Token>, i: nat, v: Json, off: nat)
    requires EncodedAt(js, toks, i, v, off)
    ensures i < i + TokenCount(v) <= |toks| && SkipTo(toks, i, 1) == i + TokenCount(v)
    ensures SkipTo(toks, i, 1) == SkipTo(toks, i + 1, toks[i].size)
  {
    hide At, Text, Flat, WellFormed;
    SkipValue(toks, i, v, off, 0);
  }

  lemma SkipOne(toks: seq<Token>, i: nat, more: nat)
    requires i < |toks| && toks[i].size == 1
    ensures SkipTo(toks, i, more + 1) == SkipTo(toks, i + 1, more + 1)
  {
  }

  // ---- The helpers of json_builder.h --------------------------------------------------

  predicate InText(js: string, t: Token) {
    0 <= t.start <= t.end <= |js|
  }

  predicate TokEq(js: string, t: Token, s: string)
    requires InText(js, t)
  {
    js[t.start..t.end] == s
  }

  /** The bytes tok_str copies into a buffer of `cap` characters, its NUL apart. */
  function TokStr(js: string, t: Token, cap: nat): (r: string)
    requires InText(js, t) && cap > 0
    ensures |r| < cap
    ensures t.end - t.start < cap ==> r == js[t.start..t.end]
  {
    var len := if t.end - t.start >= cap then cap - 1 else t.end - t.start;
    js[t.start..t.start + len]
  }

  function KindOf(v: Json): Kind {
    match v
    case Prim(_) => Primitive
    case Str(_) => String
    case Arr(_, _) => Array
    case Obj(_, _) => Object
  }

  /** A value's first token spans its SpanText. */
  lemma SpanOfFirst(js: string, toks: seq<Token>, i: nat, v: Json)
    requires Encoded(js, toks, i, v)
    ensures i < |toks| && InText(js, toks[i])
    ensures js[toks[i].start..toks[i].end] == SpanText(v)
    ensures toks[i].kind == KindOf(v)
  {
    var off: nat :| EncodedAt(js, toks, i, v, off);
    FirstToken(toks, i, v, off);
    if v.Str? {
      assert Text(v) == "\"" + (v.raw + "\"");
      AtSplit(js, off, "\"", v.raw + "\"");
      AtSplit(js, off + 1, v.raw, "\"");
    }
  }

  lemma FirstToken(toks: seq<Token>, i: nat, v: Json, off: nat)
    requires i + TokenCount(v) <= |toks| && toks[i..i + TokenCount(v)] == Flat(v, off)
    ensures i < |toks| && toks[i] == Flat(v, off)[0]
  {
    assert toks[i..i + TokenCount(v)][0] == toks[i];
  }

  // ---- tok_find_key -------------------------------------------------------------------

  /** What a lookup comes to; `PastEnd` when it reads a token at or behind the count. */
  datatype Find = ValueAt(at: nat) | Absent | PastEnd

  ghost predicate AllInText(js: string, toks: seq<Token>) {
    forall i :: 0 <= i < |toks| ==> InText(js, toks[i])
  }

  /** The lookup on any token array, key by key. */
  function Walk(js: string, toks: seq<Token>, i: nat, left: nat, key: string): Find
    requires AllInText(js, toks)
    decreases left
  {
    if left == 0 then Absent
    else if i >= |toks| then PastEnd
    else if TokEq(js, toks[i], key) then ValueAt(i + 1)
    else
      var j := SkipTo(toks, i + 1, 1);
      if j == -1 then PastEnd else Walk(js, toks, j, left - 1, key)
  }

  /** tok_find_key, on every array the tokeniser can leave: the skip loop never runs off it, and the
      lookup as a whole does just when it comes to a key that is the last token. */
  method FindKey(js: string, toks: seq<Token>, obj: nat, key: string) returns (r: Find)
    requires obj < |toks| && AllInText(js, toks) && Rooted(toks)
    ensures r == Walk(js, toks, obj + 1, toks[obj].size, key)
  {
    hide SkipTo, Units;
    var n := toks[obj].size;
    var i := obj + 1;
    var k := 0;
    while k < n
      invariant 0 <= k <= n && i <= |toks|
      invariant Walk(js, toks, i, n - k, key) == Walk(js, toks, obj + 1, n, key)
    {
      if i >= |toks| {
        return PastEnd;
      }
      if TokEq(js, toks[i], key) {
        return ValueAt(i + 1);
      }
      SkipExact(toks, i + 1, 1);
      if i + 1 >= |toks| {
        return PastEnd;
      }
      i := SkipSubtree(toks, i + 1);
      k := k + 1;
    }
    return Absent;
  }

  /** The skip loop, from one pending token: on any array the tokeniser can leave it ends inside. */
  method SkipSubtree(toks: seq<Token>, start: nat) returns (i: nat)
    requires start < |toks| && Rooted(toks)
    ensures start < i <= |toks| && i == SkipTo(toks, start, 1)
  {
    SkipExact(toks, start, 1);
    i := start;
    var skip := 1;
    while skip > 0
      invariant 0 <= skip && start <= i <= |toks| && (i == start ==> skip == 1)
      invariant SkipTo(toks, i, skip) == SkipTo(toks, start, 1)
      decreases |toks| - i
    {
      skip := skip + toks[i].size;
      skip := skip - 1;
      i := i + 1;
    }
  }

  /** On the flattening of an object: the value of the first pair with the key, or none. */
  lemma WalkFinds(js: string, toks: seq<Token>, obj: nat, key: string, v: Json)
    requires v.Obj? && Encoded(js, toks, obj, v) && AllInText(js, toks)
    ensures obj < |toks|
    ensures var r, want := Walk(js, toks, obj + 1, toks[obj].size, key), Lookup(v.members, key);
            if want.None? then r == Absent
            else r.ValueAt? && obj < r.at < |toks| && Encoded(js, toks, r.at, want.value)
  {
    hide At, Text, MembersText, Flat, FlatMembers, WellFormed, WellFormedMembers, TokenCount, EncodedAt, MembersAt;
    var off: nat :| EncodedAt(js, toks, obj, v, off);
    ObjectContents(js, toks, obj, v, off);
    WalkMembers(js, toks, obj + 1, key, v.members, off + 1 + |v.ws|);
  }

  lemma {:induction false} WalkMembers(js: string, toks: seq<Token>, i: nat, key: string, ms: Members, off: nat)
    requires (ms.MCons? ==> MembersAt(js, toks, i, ms, off)) && AllInText(js, toks)
    ensures var r, want := Walk(js, toks, i, MembersLen(ms), key), Lookup(ms, key);
            if want.None? then r == Absent
            else r.ValueAt? && i < r.at < |toks| && Encoded(js, toks, r.at, want.value)
    decreases ms
  {
    hide At, Text, MembersText, Flat, FlatMembers, WellFormed, WellFormedMembers, TokenCount, SkipTo, EncodedAt,
      MembersAt;
    if ms.MCons? {
      FirstPair(js, toks, i, ms, off);
      SkipEncoded(js, toks, i + 1, ms.value, ValueOffset(ms, off));
      var j := i + 1 + TokenCount(ms.value);
      WalkMembers(js, toks, j, key, ms.rest, ValueOffset(ms, off) + |Text(ms.value)| + |ms.post| + 1);
    }
  }

  // ---- When a lookup stays below the count --------------------------------------------

  predicate Stays(r: Find, n: nat) {
    r == Absent || (r.ValueAt? && r.at < n)
  }

  /** Where the k-th key the lookup comes to is; -1 when there is none. */
  function KeyAt(toks: seq<Token>, first: nat, k: nat): (p: int)
    ensures -1 <= p
  {
    if k == 0 then first
    else
      var p := KeyAt(toks, first, k - 1);
      if 0 <= p < |toks| then SkipTo(toks, p + 1, 1) else -1
  }

  /** Children of the k-th key. */
  function KeySize(toks: seq<Token>, first: nat, k: nat): nat {
    var p := KeyAt(toks, first, k);
    if 0 <= p < |toks| then toks[p].size else 0
  }

  function KeySizes(toks: seq<Token>, first: nat, k: nat): nat {
    if k == 0 then 0 else KeySizes(toks, first, k - 1) + KeySize(toks, first, k - 1)
  }

  /** What is left at the k-th key: each key takes itself and one unit, and brings its children. */
  function Surplus(toks: seq<Token>, first: nat, k: nat): int {
    Units(toks, first) + KeySizes(toks, first, k) - 2 * k
  }

  /** The k-th key is there, and so is what the lookup takes for its value. */
  predicate Fits(toks: seq<Token>, first: nat, k: nat) {
    Surplus(toks, first, k) >= 1 && Surplus(toks, first, k) + KeySize(toks, first, k) >= 2
  }

  predicate Matches(js: string, toks: seq<Token>, first: nat, k: nat, key: string)
    requires AllInText(js, toks)
  {
    var p := KeyAt(toks, first, k);
    0 <= p < |toks| && TokEq(js, toks[p], key)
  }

  /** While everything fits, the surplus is what is there. */
  lemma {:induction false} SurplusIs(toks: seq<Token>, first: nat, k: nat)
    requires Rooted(toks) && first <= |toks| && forall j :: 0 <= j < k ==> Fits(toks, first, j)
    ensures 0 <= KeyAt(toks, first, k) <= |toks| && Units(toks, KeyAt(toks, first, k)) == Surplus(toks, first, k)
  {
    hide SkipTo, Units, SizesFrom;
    if k > 0 {
      SurplusIs(toks, first, k - 1);
      var p := KeyAt(toks, first, k - 1);
      assert Fits(toks, first, k - 1);
      EndUnits(toks);
      ChildrenThere(toks, p);
      SkipExact(toks, p + 1, 1);
    }
  }

  lemma EndUnits(toks: seq<Token>)
    ensures Units(toks, |toks|) == 0
  {
  }

  /** The k-th key is not among those that matter when an earlier one matched. */
  ghost predicate Reached(js: string, toks: seq<Token>, first: nat, k: nat, key: string)
    requires AllInText(js, toks)
  {
    forall j :: 0 <= j < k ==> !Matches(js, toks, first, j, key)
  }

  /** Where a lookup ends: at key number `j`, all before it there and other keys.  Either there is no
      such key to come to, or it is the one looked for, or the lookup runs off trying to pass it. */
  lemma {:induction false} WalkEnds(js: string, toks: seq<Token>, first: nat, m: nat, k: nat, key: string)
    returns (j: nat)
    requires Rooted(toks) && AllInText(js, toks) && first <= |toks| && k <= m
    requires (forall i :: 0 <= i < k ==> Fits(toks, first, i)) && Reached(js, toks, first, k, key)
    ensures 0 <= KeyAt(toks, first, k) <= |toks| && 0 <= KeyAt(toks, first, j) <= |toks|
    ensures k <= j <= m && Reached(js, toks, first, j, key) && forall i :: 0 <= i < j ==> Fits(toks, first, i)
    ensures var r := Walk(js, toks, KeyAt(toks, first, k), m - k, key);
            if j == m then r == Absent
            else if Matches(js, toks, first, j, key)
            then r == ValueAt(KeyAt(toks, first, j) + 1) && r.at <= |toks| && (r.at < |toks| <==> Fits(toks, first, j))
            else r == PastEnd && !Fits(toks, first, j)
    decreases m - k
  {
    hide SkipTo, Units, SizesFrom, KeySizes;
    SurplusIs(toks, first, k);
    j := k;
    if k < m {
      var p := KeyAt(toks, first, k);
      EndUnits(toks);
      if p < |toks| {
        ChildrenThere(toks, p);
        SkipExact(toks, p + 1, 1);
        BehindIff(toks, p);
      }
      if Fits(toks, first, k) && !Matches(js, toks, first, k, key) {
        j := WalkEnds(js, toks, first, m, k + 1, key);
      }
    }
  }

  lemma BehindIff(toks: seq<Token>, p: nat)
    requires Rooted(toks) && p < |toks|
    ensures p + 1 < |toks| <==> Units(toks, p + 1) >= 1
  {
    if p + 1 < |toks| {
      assert Units(toks, p + 1) >= 1;
    }
  }

  /** On every array the tokeniser can leave, for every object and key: the lookup stays below the
      count if and only if each key it comes to fits. */
  lemma LookupStaysIff(js: string, toks: seq<Token>, obj: nat, key: string)
    requires Rooted(toks) && AllInText(js, toks) && obj < |toks|
    ensures var first, m := obj + 1, toks[obj].size;
            Stays(Walk(js, toks, first, m, key), |toks|) <==>
              forall k :: 0 <= k < m && Reached(js, toks, first, k, key) ==> Fits(toks, first, k)
  {
    hide Walk, Fits, Matches;
    var first, m := obj + 1, toks[obj].size;
    NoneBefore(js, toks, first, key);
    var j := WalkEnds(js, toks, first, m, 0, key);
    assert forall k :: j < k && Matches(js, toks, first, j, key) ==> !Reached(js, toks, first, k, key);
  }

  lemma NoneBefore(js: string, toks: seq<Token>, first: nat, key: string)
    requires AllInText(js, toks)
    ensures Reached(js, toks, first, 0, key)
  {
  }

  lemma {:induction false} KeySizesAtMost(toks: seq<Token>, first: nat, m: nat, k: nat)
    requires k <= m && forall j :: 0 <= j < m ==> KeySize(toks, first, j) <= 1
    ensures KeySizes(toks, first, k) <= k
    ensures (forall j :: 0 <= j < m ==> KeySize(toks, first, j) == 1) ==> KeySizes(toks, first, k) == k
    ensures k == m && KeySizes(toks, first, k) == k ==> forall j :: 0 <= j < m ==> KeySize(toks, first, j) == 1
    decreases k
  {
    hide KeySize;
    if k > 0 {
      KeySizesAtMost(toks, first, m, k - 1);
      if k == m && KeySizes(toks, first, k) == k {
        KeySizesAtMost(toks, first, m - 1, k - 1);
      }
    }
  }

  /** In particular, for an object with nothing behind it, whose keys have at most one value: looking
      for a key that is not there stays below the count if and only if every key has its value. */
  lemma AbsentStaysIff(js: string, toks: seq<Token>, obj: nat, key: string)
    requires Rooted(toks) && AllInText(js, toks) && obj < |toks| && Units(toks, obj) == 1
    requires var first := obj + 1;
             forall k :: 0 <= k < toks[obj].size ==> KeySize(toks, first, k) <= 1 && !Matches(js, toks, first, k, key)
    ensures var first, m := obj + 1, toks[obj].size;
            Stays(Walk(js, toks, first, m, key), |toks|) <==> forall k :: 0 <= k < m ==> KeySize(toks, first, k) == 1
  {
    hide Walk, KeySize, KeySizes, Matches, Units;
    var first, m := obj + 1, toks[obj].size;
    LookupStaysIff(js, toks, obj, key);
    ChildrenThere(toks, obj);
    KeySizesAtMost(toks, first, m, m);
    forall k | 0 <= k < m
      ensures Reached(js, toks, first, k, key)
      ensures (forall j :: 0 <= j < m ==> KeySize(toks, first, j) == 1) ==> Fits(toks, first, k)
    {
      KeySizesAtMost(toks, first, m, k);
    }
    if m > 0 {
      SizesStep(toks, first, m);
      assert KeySizes(toks, first, m) < m ==> !Fits(toks, first, m - 1);
    }
  }

  lemma SizesStep(toks: seq<Token>, first: nat, m: nat)
    requires m > 0
    ensures KeySizes(toks, first, m) == KeySizes(toks, first, m - 1) + KeySize(toks, first, m - 1)
  {
  }

  // ---- hello: the version list --------------------------------------------------------

  const PROTO_VERSION := "1.0"

  const RELEASES := {"1.1", "1.2", "1.3"}

  /** The two flags of cmd_hello's loop over supported_protocol_versions, on any array the tokeniser
      can leave: the loop never runs off it, and looks at the first token of each child in turn. */
  method OfferedVersions(js: string, toks: seq<Token>, arr: nat) returns (supports: bool, offeredRelease: bool)
    requires arr < |toks| && AllInText(js, toks) && Rooted(toks)
    ensures supports <==> SomeChild(js, toks, arr + 1, toks[arr].size, {PROTO_VERSION})
    ensures offeredRelease <==> SomeChild(js, toks, arr + 1, toks[arr].size, RELEASES)
  {
    hide SkipTo, Units, SomeChild;
    ChildrenThere(toks, arr);
    supports, offeredRelease := false, false;
    var count := toks[arr].size;
    var vi := arr + 1;
    var i := 0;
    NoChild(js, toks, arr + 1);
    SkipNone(toks, arr + 1);
    while i < count
      invariant 0 <= i <= count && vi <= |toks| && vi == SkipTo(toks, arr + 1, i)
      invariant supports <==> SomeChild(js, toks, arr + 1, i, {PROTO_VERSION})
      invariant offeredRelease <==> SomeChild(js, toks, arr + 1, i, RELEASES)
    {
      SkipExact(toks, arr + 1, i);
      SkipExact(toks, arr + 1, i + 1);
      SkipMore(toks, arr + 1, i, 1);
      EndUnits(toks);
      NextChild(js, toks, arr + 1, i);
      var t := toks[vi];
      if TokEq(js, t, PROTO_VERSION) {
        supports := true;
      } else if TokEq(js, t, "1.1") || TokEq(js, t, "1.2") || TokEq(js, t, "1.3") {
        offeredRelease := true;
      }
      vi := SkipChildren(toks, vi);
      i := i + 1;
    }
  }

  /** The inner loop: past the children of the token at `start`. */
  method SkipChildren(toks: seq<Token>, start: nat) returns (vi: nat)
    requires start < |toks| && Rooted(toks)
    ensures start < vi <= |toks| && vi == SkipTo(toks, start, 1)
  {
    SkipExact(toks, start, 1);
    var skip: int := toks[start].size;
    vi := start + 1;
    while skip > 0
      invariant 0 <= skip && start < vi <= |toks|
      invariant SkipTo(toks, vi, skip) == SkipTo(toks, start, 1)
      decreases |toks| - vi
    {
      skip := skip - 1;
      skip := skip + toks[vi].size;
      vi := vi + 1;
    }
  }

  /** One of the first `m` children from `first` on reads one of `texts`. */
  ghost predicate SomeChild(js: string, toks: seq<Token>, first: nat, m: nat, texts: set<string>)
    requires AllInText(js, toks)
  {
    exists k :: 0 <= k < m && ChildReads(js, toks, first, k, texts)
  }

  predicate ChildReads(js: string, toks: seq<Token>, first: nat, k: nat, texts: set<string>)
    requires AllInText(js, toks)
  {
    var p := SkipTo(toks, first, k);
    0 <= p < |toks| && js[toks[p].start..toks[p].end] in texts
  }

  lemma NoChild(js: string, toks: seq<Token>, first: nat)
    requires AllInText(js, toks)
    ensures forall texts :: !SomeChild(js, toks, first, 0, texts)
  {
  }

  lemma SkipNone(toks: seq<Token>, i: nat)
    ensures SkipTo(toks, i, 0) == i
  {
  }

  lemma NextChild(js: string, toks: seq<Token>, first: nat, i: nat)
    requires AllInText(js, toks)
    ensures forall texts :: SomeChild(js, toks, first, i + 1, texts) <==>
              SomeChild(js, toks, first, i, texts) || ChildReads(js, toks, first, i, texts)
  {
    hide ChildReads;
    forall texts
      ensures SomeChild(js, toks, first, i + 1, texts) <==>
              SomeChild(js, toks, first, i, texts) || ChildReads(js, toks, first, i, texts)
    {
      if ChildReads(js, toks, first, i, texts) {
        assert SomeChild(js, toks, first, i + 1, texts);
      }
    }
  }

  /** On the flattening of a well-formed array the children are its elements. */
  lemma ChildrenAreElems(js: string, toks: seq<Token>, arr: nat, v: Json, texts: set<string>)
    requires v.Arr? && Encoded(js, toks, arr, v) && AllInText(js, toks)
    ensures arr < |toks|
    ensures SomeChild(js, toks, arr + 1, toks[arr].size, texts) <==> AnyElem(v.elems, texts)
  {
    hide At, Text, ElemsText, Flat, FlatElems, WellFormed, WellFormedElems, TokenCount, EncodedAt, ElemsAt, SomeChild;
    var off: nat :| EncodedAt(js, toks, arr, v, off);
    ArrayContents(js, toks, arr, v, off);
    ElemChildren(js, toks, arr + 1, v.elems, off + 1 + |v.ws|, texts);
  }

  lemma {:induction false} ElemChildren(js: string, toks: seq<Token>, i: nat, es: Elems, off: nat, texts: set<string>)
    requires (es.ECons? ==> ElemsAt(js, toks, i, es, off)) && AllInText(js, toks)
    ensures SomeChild(js, toks, i, ElemsLen(es), texts) <==> AnyElem(es, texts)
    decreases es
  {
    hide At, Text, ElemsText, Flat, FlatElems, WellFormed, WellFormedElems, TokenCount, EncodedAt, ElemsAt, SkipTo;
    if es.ECons? {
      FirstElem(js, toks, i, es, off);
      SpanOfFirst(js, toks, i, es.value);
      var j, m := i + TokenCount(es.value), ElemsLen(es.rest);
      ElemChildren(js, toks, j, es.rest, off + |es.pre| + |Text(es.value)| + |es.post| + 1, texts);
      SkipNone(toks, i);
      forall k | 0 <= k < m
        ensures ChildReads(js, toks, i, k + 1, texts) <==> ChildReads(js, toks, j, k, texts)
      {
        SkipAfter(js, toks, i, es.value, off + |es.pre|, k);
      }
      ShiftChildren(js, toks, i, j, m, texts);
    }
  }

  lemma SkipAfter(js: string, toks: seq<Token>, i: nat, v: Json, off: nat, k: nat)
    requires EncodedAt(js, toks, i, v, off)
    ensures SkipTo(toks, i, k + 1) == SkipTo(toks, i + TokenCount(v), k)
  {
    hide At, Text, Flat, WellFormed, SkipTo;
    SkipValue(toks, i, v, off, k);
  }

  lemma ShiftChildren(js: string, toks: seq<Token>, i: nat, j: nat, m: nat, texts: set<string>)
    requires AllInText(js, toks)
    requires forall k :: 0 <= k < m ==> (ChildReads(js, toks, i, k + 1, texts) <==> ChildReads(js, toks, j, k, texts))
    ensures SomeChild(js, toks, i, m + 1, texts) <==>
              ChildReads(js, toks, i, 0, texts) || SomeChild(js, toks, j, m, texts)
  {
    hide ChildReads;
    if k :| 0 <= k < m + 1 && ChildReads(js, toks, i, k, texts) {
      if k > 0 {
        assert ChildReads(js, toks, i, k - 1 + 1, texts);
        assert ChildReads(js, toks, j, k - 1, texts);
      }
    }
    if k :| 0 <= k < m && ChildReads(js, toks, j, k, texts) {
      assert ChildReads(js, toks, i, k + 1, texts);
    }
  }

  // ---- The request envelope -----------------------------------------------------------

  const MAX_JSON_TOKENS := 256

  /** `Overrun` when the loop reads a token at or behind the count. */
  datatype Envelope = Malformed | MissingField | NotRequest | Request(id: string, command: string) | Overrun

  function Truncated(s: string, cap: nat): string
    requires cap > 0
  {
    if |s| < cap then s else s[..cap - 1]
  }

  /** What a message should be taken for, read off its tree. */
  function EnvelopeOf(v: Json): Envelope {
    if !v.Obj? || TokenCount(v) > MAX_JSON_TOKENS then Malformed
    else
      match (Lookup(v.members, "type"), Lookup(v.members, "id"), Lookup(v.members, "command"))
      case (Some(t), Some(id), Some(cmd)) =>
        if SpanText(t) != "request" then NotRequest
        else Request(Truncated(SpanText(id), 128), Truncated(SpanText(cmd), 64))
      case _ => MissingField
  }

  /** What the three lookups make of a frame. */
  function Fields(js: string, toks: seq<Token>, t: Find, i: Find, c: Find): Envelope
    requires AllInText(js, toks)
  {
    if t.PastEnd? || i.PastEnd? || c.PastEnd? then Overrun
    else if t.Absent? || i.Absent? || c.Absent? then MissingField
    else if t.at >= |toks| then Overrun
    else if !TokEq(js, toks[t.at], "request") then NotRequest
    else if i.at >= |toks| || c.at >= |toks| then Overrun
    else Request(TokStr(js, toks[i.at], 128), TokStr(js, toks[c.at], 64))
  }

  /** One frame of cp_session_thread on arbitrary bytes. */
  ghost function EnvelopeRead(js: string): Envelope {
    ParsedInText(js);
    var r := Run(js, MAX_JSON_TOKENS, START);
    if !r.Count? || r.n < 1 || r.st.toks[0].kind != Object then Malformed
    else
      var toks := r.st.toks;
      Fields(js, toks, Walk(js, toks, 1, toks[0].size, "type"), Walk(js, toks, 1, toks[0].size, "id"),
             Walk(js, toks, 1, toks[0].size, "command"))
  }

  lemma ParsedInText(js: string)
    ensures var r := Run(js, MAX_JSON_TOKENS, START);
            r.Count? ==> r.n == |r.st.toks| && AllInText(js, r.st.toks)
  {
    hide Run;
    ParseIsSafe(js, MAX_JSON_TOKENS);
    var r := Run(js, MAX_JSON_TOKENS, START);
    if r.Count? {
      forall i | 0 <= i < |r.st.toks|
        ensures InText(js, r.st.toks[i])
      {
        assert SpanOk(js, r.st.toks[i], |js|);
      }
    }
  }

  /** One frame of cp_session_thread, from payload to id and command, whatever the payload. */
  method ReadEnvelope(js: string) returns (e: Envelope, toks: seq<Token>)
    ensures e == EnvelopeRead(js)
    ensures e.Request? ==> toks == Run(js, MAX_JSON_TOKENS, START).st.toks && toks != []
  {
    hide Run, Walk, Rooted;
    var tokens := new Token[MAX_JSON_TOKENS](_ => Token(Undefined, -1, -1, 0));
    var parser := new Parser();
    ParsedInText(js);
    ParseRooted(js, MAX_JSON_TOKENS);
    assert tokens[..parser.toknext] == [];
    var ntok, _ := parser.Parse(js, tokens);
    if ntok < 1 || tokens[0].kind != Object {
      return Malformed, [];
    }
    toks := tokens[..ntok];
    var t := FindKey(js, toks, 0, "type");
    var i := FindKey(js, toks, 0, "id");
    var c := FindKey(js, toks, 0, "command");
    if t.PastEnd? || i.PastEnd? || c.PastEnd? {
      return Overrun, [];
    }
    if t.Absent? || i.Absent? || c.Absent? {
      return MissingField, [];
    }
    if t.at >= ntok {
      return Overrun, [];
    }
    if !TokEq(js, toks[t.at], "request") {
      return NotRequest, [];
    }
    if i.at >= ntok || c.at >= ntok {
      return Overrun, [];
    }
    return Request(TokStr(js, toks[i.at], 128), TokStr(js, toks[c.at], 64)), toks;
  }

  /** Every well-formed frame is taken for what its tree says, and never read past its tokens. */
  lemma EnvelopeOnTree(pre: string, v: Json, post: string)
    requires AllSpace(pre) && WellFormed(v) && AllSpace(post)
    ensures EnvelopeRead(pre + Text(v) + post) == EnvelopeOf(v)
  {
    hide Run, Walk, Lookup, Flat, Text, WellFormed, AllSpace, TokenCount, EncodedAt;
    var js := pre + Text(v) + post;
    var r := Run(js, MAX_JSON_TOKENS, START);
    ParseFlattens(pre, v, post, MAX_JSON_TOKENS);
    FlatKind(v, |pre|);
    if r.Count? && v.Obj? {
      var toks := r.st.toks;
      ParsedInText(js);
      WholeEncoded(js, pre, v, post, toks);
      WalkFinds(js, toks, 0, "type", v);
      WalkFinds(js, toks, 0, "id", v);
      WalkFinds(js, toks, 0, "command", v);
      FieldsOnTree(js, toks, v);
    }
  }

  lemma WholeEncoded(js: string, pre: string, v: Json, post: string, toks: seq<Token>)
    requires js == pre + Text(v) + post && WellFormed(v) && toks == Flat(v, |pre|)
    ensures Encoded(js, toks, 0, v)
  {
    hide At, Text, Flat, WellFormed;
    TextAt(js, pre, Text(v), post);
    assert toks[0..0 + TokenCount(v)] == Flat(v, |pre|);
    assert EncodedAt(js, toks, 0, v, |pre|);
  }

  /** The lookups found what the tree has; the fields then read as its texts. */
  lemma FieldsOnTree(js: string, toks: seq<Token>, v: Json)
    requires v.Obj? && |toks| == TokenCount(v) <= MAX_JSON_TOKENS && Encoded(js, toks, 0, v) && AllInText(js, toks)
    ensures var m := toks[0].size;
            Fields(js, toks, Walk(js, toks, 1, m, "type"), Walk(js, toks, 1, m, "id"), Walk(js, toks, 1, m, "command"))
              == EnvelopeOf(v)
  {
    hide Walk, Lookup, EncodedAt;
    var m := toks[0].size;
    WalkFinds(js, toks, 0, "type", v);
    WalkFinds(js, toks, 0, "id", v);
    WalkFinds(js, toks, 0, "command", v);
    var t, i, c := Walk(js, toks, 1, m, "type"), Walk(js, toks, 1, m, "id"), Walk(js, toks, 1, m, "command");
    if t.ValueAt? && i.ValueAt? && c.ValueAt? {
      SpanOfFirst(js, toks, t.at, Lookup(v.members, "type").value);
      SpanOfFirst(js, toks, i.at, Lookup(v.members, "id").value);
      SpanOfFirst(js, toks, c.at, Lookup(v.members, "command").value);
      TokStrTruncates(js, toks[i.at], 128);
      TokStrTruncates(js, toks[c.at], 64);
    }
  }

  lemma FlatKind(v: Json, off: nat)
    ensures |Flat(v, off)| >= 1
    ensures Flat(v, off)[0].kind == Object <==> v.Obj?
  {
  }

  lemma TextAt(js: string, pre: string, t: string, post: string)
    requires js == pre + t + post
    ensures At(js, |pre|, t)
  {
  }

  lemma TokStrTruncates(js: string, t: Token, cap: nat)
    requires InText(js, t) && cap > 0
    ensures TokStr(js, t, cap) == Truncated(js[t.start..t.end], cap)
  {
    if t.end - t.start >= cap {
      var x, y := TokStr(js, t, cap), js[t.start..t.end][..cap - 1];
      assert |x| == |y| && forall k :: 0 <= k < |x| ==> x[k] == y[k];
    }
  }

  // ---- A key without a value ----------------------------------------------------------

  const KEY_ALONE := "{\"type\"}"

  const KEY_ALONE_TOKENS := [Token(Object, 0, 8, 1), Token(String, 2, 6, 0)]

  lemma KeyAloneScans()
    ensures ScanString(KEY_ALONE, 2) == Found(6)
  {
    var js := KEY_ALONE;
    assert js[2] == 't' && js[3] == 'y' && js[4] == 'p' && js[5] == 'e' && js[6] == '"';
    assert ScanString(js, 6) == Found(6);
    assert ScanString(js, 5) == Found(6);
    assert ScanString(js, 4) == Found(6);
    assert ScanString(js, 3) == Found(6);
  }

  lemma KeyAloneSteps()
    ensures CharStep(KEY_ALONE, MAX_JSON_TOKENS, START) == Next(State(1, [Token(Object, 0, -1, 0)], 0))
    ensures CharStep(KEY_ALONE, MAX_JSON_TOKENS, State(1, [Token(Object, 0, -1, 0)], 0)) ==
              Next(State(7, [Token(Object, 0, -1, 1), Token(String, 2, 6, 0)], 0))
  {
    hide ScanString;
    KeyAloneScans();
  }

  lemma KeyAloneCloses()
    ensures var st := State(7, [Token(Object, 0, -1, 1), Token(String, 2, 6, 0)], 0);
            CharStep(KEY_ALONE, MAX_JSON_TOKENS, st) == Next(State(8, KEY_ALONE_TOKENS, -1))
    ensures LastOpen(KEY_ALONE_TOKENS) == -1
  {
    hide ScanString, ScanPrimitive, LastOpen;
    var st := State(7, [Token(Object, 0, -1, 1), Token(String, 2, 6, 0)], 0);
    assert KEY_ALONE[7] == '}' && LastOpen(st.toks) == 0 && LastOpen(st.toks[..0]) == -1;
    assert st.toks[0 := st.toks[0].(end := 8)] == KEY_ALONE_TOKENS;
    var _ := LastOpen(KEY_ALONE_TOKENS);
  }

  /** The tokeniser accepts it: an object of size 1 and a key of size 0. */
  lemma KeyAloneParses()
    ensures Run(KEY_ALONE, MAX_JSON_TOKENS, START) == Count(2, State(8, KEY_ALONE_TOKENS, -1))
  {
    hide CharStep, LastOpen;
    KeyAloneSteps();
    KeyAloneCloses();
    var s1 := State(1, [Token(Object, 0, -1, 0)], 0);
    var s2 := State(7, [Token(Object, 0, -1, 1), Token(String, 2, 6, 0)], 0);
    assert Run(KEY_ALONE, MAX_JSON_TOKENS, s2) == Run(KEY_ALONE, MAX_JSON_TOKENS, State(8, KEY_ALONE_TOKENS, -1));
    assert Run(KEY_ALONE, MAX_JSON_TOKENS, s1) == Run(KEY_ALONE, MAX_JSON_TOKENS, s2);
  }

  /** The lookup of its one key answers an index behind the last token, that of any other key reads
      there, and so does the session thread. */
  lemma KeyAloneOverruns()
    ensures AllInText(KEY_ALONE, KEY_ALONE_TOKENS)
    ensures Walk(KEY_ALONE, KEY_ALONE_TOKENS, 1, 1, "type") == ValueAt(2)
    ensures Walk(KEY_ALONE, KEY_ALONE_TOKENS, 1, 1, "id") == PastEnd
    ensures EnvelopeRead(KEY_ALONE) == Overrun
  {
    hide Run;
    KeyAloneParses();
    assert KEY_ALONE[2..6] == "type";
    assert SkipTo(KEY_ALONE_TOKENS, 2, 1) == -1;
  }
}
