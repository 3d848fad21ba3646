/** Printer and tokeniser together: what the builder writes, the tokeniser and a reader of its
    flat array turn back into the same document. */
module JsonRoundTrip {
  import opened JsonText
  import opened JsonEscape
  import opened JsonBuilder
  import opened Jsmn
  import opened JsmnFlatten
  import opened TokLookup

  datatype Read<T> = Fail | Got(value: T, next: nat)

  // ---- Numbers ------------------------------------------------------------------------

  predicate IsDigits(s: string) {
    s != "" && forall i :: 0 <= i < |s| ==> '0' <= s[i] <= '9'
  }

  function ParseDigits(s: string): nat
    requires IsDigits(s)
  {
    var d := s[|s| - 1] as int - '0' as int;
    if |s| == 1 then d else ParseDigits(s[..|s| - 1]) * 10 + d
  }

  function ParseDecimal(s: string): Read<int> {
    if IsDigits(s) then
      var n: int := ParseDigits(s);
      Got(n, 0)
    else if s != "" && s[0] == '-' && IsDigits(s[1..]) then
      var n: int := ParseDigits(s[1..]);
      Got(-n, 0)
    else Fail
  }

  lemma {:induction false} DigitsParse(n: nat)
    ensures IsDigits(Digits(n)) && ParseDigits(Digits(n)) == n
  {
    if n >= 10 {
      DigitsParse(n / 10);
      var s := Digits(n);
      assert s[..|s| - 1] == Digits(n / 10);
    }
  }

  lemma DecimalParses(n: int)
    ensures ParseDecimal(Decimal(n)) == Got(n, 0)
  {
    hide Digits, ParseDigits;
    if n < 0 {
      DigitsParse(-n);
      assert Decimal(n)[1..] == Digits(-n);
      assert !IsDigits(Decimal(n)) by {
        assert Decimal(n)[0] == '-';
      }
    } else {
      DigitsParse(n);
    }
  }

  // ---- Reading a document off the token array -----------------------------------------

  function ReadLeaf(t: Token, text: string): Read<Doc> {
    if t.kind == String then
      if IsRaw(text) then Got(DStr(Unescape(text)), 0) else Fail
    else if text == "null" then Got(DNull, 0)
    else if text == "true" then Got(DBool(true), 0)
    else if text == "false" then Got(DBool(false), 0)
    else
      var n := ParseDecimal(text);
      if n.Got? then Got(DInt(n.value), 0) else Fail
  }

  function ReadDoc(js: string, toks: seq<Token>, i: nat): (r: Read<Doc>)
    ensures r.Got? ==> i < r.next <= |toks|
    decreases |toks| - i, 0
  {
    if i >= |toks| || !InText(js, toks[i]) then Fail
    else
      var t := toks[i];
      if t.kind == Array then
        var ds := ReadDocs(js, toks, i + 1, t.size);
        if ds.Got? then Got(DArr(ds.value), ds.next) else Fail
      else if t.kind == Object then
        var ps := ReadPairs(js, toks, i + 1, t.size);
        if ps.Got? then Got(DObj(ps.value), ps.next) else Fail
      else
        var d := ReadLeaf(t, js[t.start..t.end]);
        if d.Got? then Got(d.value, i + 1) else Fail
  }

  function ReadDocs(js: string, toks: seq<Token>, i: nat, k: nat): (r: Read<Docs>)
    requires i <= |toks|
    ensures r.Got? ==> i <= r.next <= |toks|
    decreases |toks| - i, 1
  {
    if k == 0 then Got(NoDocs, i)
    else
      var d := ReadDoc(js, toks, i);
      if d.Fail? then Fail
      else
        var ds := ReadDocs(js, toks, d.next, k - 1);
        if ds.Got? then Got(Docs(d.value, ds.value), ds.next) else Fail
  }

  function ReadPairs(js: string, toks: seq<Token>, i: nat, k: nat): (r: Read<Pairs>)
    requires i <= |toks|
    ensures r.Got? ==> i <= r.next <= |toks|
    decreases |toks| - i, 1
  {
    if k == 0 then Got(NoPairs, i)
    else if i >= |toks| || toks[i].kind != String || !InText(js, toks[i]) then Fail
    else
      var key := js[toks[i].start..toks[i].end];
      var d := ReadDoc(js, toks, i + 1);
      if d.Fail? || !IsRaw(key) then Fail
      else
        var ps := ReadPairs(js, toks, d.next, k - 1);
        if ps.Got? then Got(Pairs(Unescape(key), d.value, ps.value), ps.next) else Fail
  }

  // ---- It is the inverse of the flattening --------------------------------------------

  lemma LeafReads(d: Doc, t: Token)
    requires !d.DArr? && !d.DObj?
    requires t.kind == if d.DStr? then String else Primitive
    ensures ReadLeaf(t, SpanText(ToJson(d))) == Got(d, 0)
  {
    hide ParseDecimal, Escape, Unescape, Digits;
    match d
    case DNull =>
    case DBool(_) =>
    case DStr(s) =>
      EscapeRoundTrip(s, false);
    case DInt(n) =>
      DecimalParses(n);
      assert "null"[0] == 'n' && "true"[0] == 't' && "false"[0] == 'f';
      assert Decimal(n)[0] == '-' || '0' <= Decimal(n)[0] <= '9';
  }

  lemma {:induction false} ReadsBack(js: string, toks: seq<Token>, i: nat, d: Doc, off: nat)
    requires EncodedAt(js, toks, i, ToJson(d), off)
    ensures ReadDoc(js, toks, i) == Got(d, i + TokenCount(ToJson(d)))
    decreases d
  {
    hide EncodedAt, ReadLeaf, Unescape, Escape, ReadDocs, ReadPairs;
    SpanOfFirst(js, toks, i, ToJson(d));
    match d
    case DArr(items) =>
      ArrayContents(js, toks, i, ToJson(d), off);
      ReadsBackItems(js, toks, i + 1, items, off + 1);
    case DObj(pairs) =>
      ObjectContents(js, toks, i, ToJson(d), off);
      ReadsBackPairs(js, toks, i + 1, pairs, off + 1);
    case _ =>
      LeafReads(d, toks[i]);
  }

  lemma {:induction false} ReadsBackItems(js: string, toks: seq<Token>, i: nat, ds: Docs, off: nat)
    requires i <= |toks| && (ds.Docs? ==> ElemsAt(js, toks, i, ToElems(ds), off))
    ensures ReadDocs(js, toks, i, ElemsLen(ToElems(ds))) == Got(ds, i + ElemsTokenCount(ToElems(ds)))
    decreases ds
  {
    hide ElemsAt, EncodedAt, ToJson, TokenCount, ReadDoc, Text;
    if ds.Docs? {
      var es := ToElems(ds);
      FirstElem(js, toks, i, es, off);
      ReadsBack(js, toks, i, ds.head, off);
      ReadsBackItems(js, toks, i + TokenCount(es.value), ds.tail, off + |Text(es.value)| + 1);
    }
  }

  lemma {:induction false} ReadsBackPairs(js: string, toks: seq<Token>, i: nat, ps: Pairs, off: nat)
    requires i <= |toks| && (ps.Pairs? ==> MembersAt(js, toks, i, ToMembers(ps), off))
    ensures ReadPairs(js, toks, i, MembersLen(ToMembers(ps))) == Got(ps, i + MembersTokenCount(ToMembers(ps)))
    decreases ps
  {
    hide MembersAt, EncodedAt, ToJson, TokenCount, ReadDoc, Text, Escape, Unescape, IsRaw;
    if ps.Pairs? {
      var ms := ToMembers(ps);
      FirstPair(js, toks, i, ms, off);
      EscapeRoundTrip(ps.key, false);
      ReadsBack(js, toks, i + 1, ps.value, ValueOffset(ms, off));
      ReadsBackPairs(js, toks, i + 1 + TokenCount(ms.value), ps.tail, ValueOffset(ms, off) + |Text(ms.value)| + 1);
    }
  }

  /** Print, tokenise, read: for every document the builder prints faithfully and every token
      budget, either the very same document comes back or the budget was too small. */
  lemma PrintParseRoundTrip(d: Doc, n: nat)
    requires !Crowded(d, 0)
    ensures var js := Written(d, 0);
            var r := Run(js, n, START);
            if TokenCount(ToJson(d)) <= n
            then r.Count? && r.st.toks == Flat(ToJson(d), 0) && ReadDoc(js, r.st.toks, 0) == Got(d, r.n)
            else OutOfTokens(r)
  {
    hide Crowded, Text, Written, Run, Flat, ReadDoc, ToJson, TokenCount;
    var js, v := Written(d, 0), ToJson(d);
    CanonicalIff(d);
    ToJsonWellFormed(d);
    ParseFlattens("", v, "", n);
    assert "" + Text(v) + "" == js;
    if TokenCount(v) <= n {
      var toks := Flat(v, 0);
      TextAt(js, "", Text(v), "");
      assert toks[0..0 + TokenCount(v)] == toks;
      assert EncodedAt(js, toks, 0, v, 0);
      ReadsBack(js, toks, 0, d, 0);
    }
  }

  /** Two documents with the same printed text are the same document. */
  lemma PrintInjective(d: Doc, e: Doc)
    requires !Crowded(d, 0) && !Crowded(e, 0) && Written(d, 0) == Written(e, 0)
    ensures d == e
  {
    hide Crowded, Written, Run, Flat, ReadDoc, ToJson, TokenCount;
    var n := TokenCount(ToJson(d)) + TokenCount(ToJson(e));
    PrintParseRoundTrip(d, n);
    PrintParseRoundTrip(e, n);
  }
}
