/** The tokeniser on well-formed text: the token array is the preorder flattening of the
    value, or the budget was too small. */
module JsmnFlatten {
  import opened JsonText
  import opened Jsmn

  // ---- The reference: tokens of a value whose text starts at `off` --------------------

  function Flat(v: Json, off: nat): (r: seq<Token>)
    ensures |r| == TokenCount(v)
    ensures forall i :: 0 <= i < |r| ==> !IsOpen(r[i])
  {
    match v
    case Prim(text) => [Token(Primitive, off, off + |text|, 0)]
    case Str(raw) => [Token(String, off + 1, off + 1 + |raw|, 0)]
    case Arr(ws, elems) =>
      [Token(Array, off, off + |Text(v)|, ElemsLen(elems))] + FlatElems(elems, off + 1 + |ws|)
    case Obj(ws, members) =>
      [Token(Object, off, off + |Text(v)|, MembersLen(members))] + FlatMembers(members, off + 1 + |ws|)
  }

  function FlatElems(es: Elems, off: nat): (r: seq<Token>)
    ensures |r| == ElemsTokenCount(es)
    ensures forall i :: 0 <= i < |r| ==> !IsOpen(r[i])
  {
    match es
    case ENil => []
    case ECons(pre, v, post, rest) =>
      Flat(v, off + |pre|) + FlatElems(rest, off + |pre| + |Text(v)| + |post| + 1)
  }

  /** A key token counts its value: size 1. */
  function FlatMembers(ms: Members, off: nat): (r: seq<Token>)
    ensures |r| == MembersTokenCount(ms)
    ensures forall i :: 0 <= i < |r| ==> !IsOpen(r[i])
  {
    match ms
    case MNil => []
    case MCons(pre, key, mid, gap, v, post, rest) =>
      var k := off + |pre| + 1;
      var vo := ValueOffset(ms, off);
      [Token(String, k, k + |key|, 1)] + Flat(v, vo)
      + FlatMembers(rest, vo + |Text(v)| + |post| + 1)
  }

  /** Where the value of the first pair starts. */
  function ValueOffset(ms: Members, off: nat): nat
    requires ms.MCons?
  {
    off + |ms.pre| + 1 + |ms.key| + 1 + |ms.mid| + 1 + |ms.gap|
  }

  // ---- Text at a position -------------------------------------------------------------

  /** `t` is what `js` reads from `p` on. */
  predicate At(js: string, p: nat, t: string) {
    p + |t| <= |js| && js[p..p + |t|] == t
  }

  lemma AtSplit(js: string, p: nat, s: string, t: string)
    requires At(js, p, s + t)
    ensures At(js, p, s) && At(js, p + |s|, t)
  {
    assert js[p..p + |s| + |t|][..|s|] == s;
    assert js[p..p + |s| + |t|][|s|..] == t;
  }

  lemma AtChar(js: string, p: nat, t: string, i: nat)
    requires At(js, p, t) && i < |t|
    ensures js[p + i] == t[i]
  {
    assert js[p..p + |t|][i] == t[i];
  }

  /** A primitive may end here. */
  predicate Boundary(js: string, p: nat) {
    p == |js| || (p < |js| && EndsPrimitive(js[p]))
  }

  // ---- Inside one token ---------------------------------------------------------------

  lemma {:induction false} ScanPrimText(js: string, p: nat, t: string)
    requires At(js, p, t) && Boundary(js, p + |t|)
    requires forall i :: 0 <= i < |t| ==> IsPrimChar(t[i])
    ensures ScanPrimitive(js, p) == Found(p + |t|)
    decreases |t|
  {
    if t != "" {
      AtChar(js, p, t, 0);
      assert t == t[..1] + t[1..];
      AtSplit(js, p, t[..1], t[1..]);
      ScanPrimText(js, p + 1, t[1..]);
    }
  }

  /** How many characters the first item of string content takes. */
  function ItemLen(raw: string): (k: nat)
    requires IsRaw(raw) && raw != ""
    ensures 1 <= k <= |raw| && IsRaw(raw[k..])
  {
    if raw[0] != '\\' then 1 else if IsSimpleEscape(raw[1]) then 2 else 6
  }

  lemma ScanItem(js: string, p: nat, raw: string)
    requires IsRaw(raw) && raw != "" && p + |raw| <= |js|
    requires forall i :: 0 <= i < |raw| ==> js[p + i] == raw[i]
    ensures ScanString(js, p) == ScanString(js, p + ItemLen(raw))
  {
    assert js[p + 0] == raw[0];
    if raw[0] == '\\' {
      assert js[p + 1] == raw[1];
      if !IsSimpleEscape(raw[1]) {
        assert js[p + 2] == raw[2] && js[p + 3] == raw[3] && js[p + 4] == raw[4] && js[p + 5] == raw[5];
        FourHex(js, p + 2);
      }
    }
  }

  lemma FourHex(js: string, p: nat)
    requires p + 4 <= |js| && IsHex(js[p]) && IsHex(js[p + 1]) && IsHex(js[p + 2]) && IsHex(js[p + 3])
    ensures ScanHex(js, p, 4) == Found(p + 4)
  {
    assert ScanHex(js, p + 2, 2) == ScanHex(js, p + 3, 1) == Found(p + 4);
  }

  lemma {:induction false} ScanRaw(js: string, p: nat, raw: string)
    requires IsRaw(raw) && At(js, p, raw + "\"")
    ensures ScanString(js, p) == Found(p + |raw|)
    decreases |raw|
  {
    hide IsRaw;
    var t := raw + "\"";
    if raw == "" {
      AtChar(js, p, t, 0);
    } else {
      hide ScanString, At;
      forall i | 0 <= i < |raw|
        ensures js[p + i] == raw[i]
      {
        AtChar(js, p, t, i);
      }
      ScanItem(js, p, raw);
      var k := ItemLen(raw);
      assert t == raw[..k] + (raw[k..] + "\"");
      AtSplit(js, p, raw[..k], raw[k..] + "\"");
      ScanRaw(js, p + k, raw[k..]);
    }
  }

  // ---- One step of the main loop, by its first character --------------------------------

  lemma OneStep(js: string, n: nat, st: State)
    requires ValidState(st) && st.pos < |js| && js[st.pos] != '\0'
    ensures var r := CharStep(js, n, st);
            Run(js, n, st) == if r.Next? then Run(js, n, r.st) else Failed(r.error, r.st)
  {
    hide CharStep;
  }

  lemma StepSpace(js: string, n: nat, st: State)
    requires ValidState(st) && st.pos < |js| && IsSpace(js[st.pos])
    ensures Run(js, n, st) == Run(js, n, st.(pos := st.pos + 1))
  {
    hide Run;
    OneStep(js, n, st);
  }

  lemma StepColon(js: string, n: nat, st: State)
    requires ValidState(st) && st.pos < |js| && js[st.pos] == ':'
    ensures Run(js, n, st) == Run(js, n, State(st.pos + 1, st.toks, |st.toks| - 1))
  {
    hide Run;
    OneStep(js, n, st);
  }

  lemma StepComma(js: string, n: nat, st: State)
    requires ValidState(st) && st.pos < |js| && js[st.pos] == ','
    ensures Run(js, n, st) == Run(js, n, CommaStep(st).st)
  {
    hide Run, CommaStep;
    OneStep(js, n, st);
  }

  lemma StepOpen(js: string, n: nat, st: State)
    requires ValidState(st) && st.pos < |js| && (js[st.pos] == '[' || js[st.pos] == '{')
    ensures var kind := if js[st.pos] == '[' then Array else Object;
            Reaches(js, n, st, State(st.pos + 1, Bump(st.toks, st.super) + [Token(kind, st.pos, -1, 0)], |st.toks|), 1)
  {
    hide Run;
    OneStep(js, n, st);
  }

  lemma StepClose(js: string, n: nat, st: State, c: nat)
    requires ValidState(st) && st.pos < |js| && (js[st.pos] == ']' || js[st.pos] == '}')
    requires LastOpen(st.toks) == c
    requires st.toks[c].kind == if js[st.pos] == ']' then Array else Object
    ensures Run(js, n, st) == Run(js, n, State(st.pos + 1, CloseAt(st.toks, c, st.pos + 1), LastOpen(st.toks[..c])))
  {
    hide Run, LastOpen;
    OneStep(js, n, st);
  }

  lemma StepString(js: string, n: nat, st: State, end: nat)
    requires ValidState(st) && st.pos < |js| && js[st.pos] == '"'
    requires ScanString(js, st.pos + 1) == Found(end)
    ensures end < |js|
    ensures Reaches(js, n, st, State(end + 1, Bump(st.toks, st.super) + [Token(String, st.pos + 1, end, 0)],
            st.super), 1)
  {
    hide Run, ScanString;
    OneStep(js, n, st);
  }

  lemma StepPrim(js: string, n: nat, st: State, end: nat)
    requires ValidState(st) && st.pos < |js| && IsPrimChar(js[st.pos])
    requires js[st.pos] != '{' && js[st.pos] != '[' && js[st.pos] != '"'
    requires ScanPrimitive(js, st.pos) == Found(end)
    ensures end <= |js|
    ensures Reaches(js, n, st, State(end, Bump(st.toks, st.super) + [Token(Primitive, st.pos, end, 0)], st.super), 1)
  {
    hide Run, ScanPrimitive;
    OneStep(js, n, st);
  }

  lemma {:induction false} SkipSpace(js: string, n: nat, st: State, w: string)
    requires ValidState(st) && At(js, st.pos, w) && AllSpace(w)
    ensures Run(js, n, st) == Run(js, n, st.(pos := st.pos + |w|))
    decreases |w|
  {
    hide Run;
    if w == "" {
      assert st == st.(pos := st.pos + |w|);
    } else {
      AtChar(js, st.pos, w, 0);
      assert w == w[..1] + w[1..];
      AtSplit(js, st.pos, w[..1], w[1..]);
      StepSpace(js, n, st);
      SkipSpace(js, n, st.(pos := st.pos + 1), w[1..]);
    }
  }

  // ---- Effects on the token array -----------------------------------------------------

  /** `k` more children at token `c`. */
  function BumpBy(toks: seq<Token>, c: nat, k: nat): (r: seq<Token>)
    requires c < |toks|
    ensures |r| == |toks|
  {
    toks[c := toks[c].(size := toks[c].size + k)]
  }

  function CloseAt(toks: seq<Token>, c: nat, end: nat): (r: seq<Token>)
    requires c < |toks|
    ensures |r| == |toks|
  {
    toks[c := toks[c].(end := end)]
  }

  /** Open tokens are containers, in every state reachable by Run. */
  predicate OpenAreContainers(toks: seq<Token>) {
    forall i :: 0 <= i < |toks| ==> IsOpen(toks[i]) ==> IsContainer(toks[i])
  }

  /** Inside the container at `c`: it is the innermost open one. */
  predicate Inside(st: State, c: int) {
    && ValidState(st) && OpenAreContainers(st.toks)
    && LastOpen(st.toks) == c
  }

  /** The state after a value has been read. */
  function AfterValue(st: State, v: Json): (r: State)
    requires ValidState(st)
  {
    State(st.pos + |Text(v)|,
          Bump(st.toks, st.super) + Flat(v, st.pos),
          if v.Arr? || v.Obj? then LastOpen(st.toks) else st.super)
  }

  /** The state after the rest of a container, closing bracket included: `k` children more,
      the tokens `inner`, and the container closed. */
  function AfterClose(st: State, c: nat, k: nat, inner: seq<Token>, len: nat): (r: State)
    requires c < |st.toks|
  {
    var end := st.pos + len;
    State(end, CloseAt(BumpBy(st.toks, c, k), c, end) + inner, LastOpen(st.toks[..c]))
  }

  ghost predicate OutOfTokens(r: Outcome) {
    r.Failed? && r.error == NoMem
  }

  /** From `st`, the tokeniser goes on as from `after`, unless the `need` tokens do not fit. */
  ghost predicate Reaches(js: string, n: nat, st: State, after: State, need: nat) {
    && ValidState(st) && ValidState(after) && st.pos <= |js| && after.pos <= |js|
    && if |st.toks| + need <= n then Run(js, n, st) == Run(js, n, after)
       else OutOfTokens(Run(js, n, st))
  }

  // ---- Values -------------------------------------------------------------------------

  lemma {:induction false} ReadValue(js: string, n: nat, st: State, v: Json)
    requires WellFormed(v) && ValidState(st) && OpenAreContainers(st.toks)
    requires At(js, st.pos, Text(v)) && Boundary(js, st.pos + |Text(v)|)
    ensures Inside(AfterValue(st, v), LastOpen(st.toks))
    ensures Reaches(js, n, st, AfterValue(st, v), TokenCount(v))
    decreases v, 2
  {
    hide Run;
    AfterValueInside(st, v);
    match v
    case Prim(text) =>
      ReadPrim(js, n, st, v);
    case Str(raw) =>
      ReadStr(js, n, st, v);
    case Arr(ws, elems) =>
      ReadArray(js, n, st, v);
    case Obj(ws, members) =>
      ReadObject(js, n, st, v);
  }

  lemma AfterValueInside(st: State, v: Json)
    requires ValidState(st) && OpenAreContainers(st.toks)
    ensures Inside(AfterValue(st, v), LastOpen(st.toks))
  {
    hide LastOpen, Flat;
    BumpKeeps(st.toks, st.super);
    AppendClosed(Bump(st.toks, st.super), Flat(v, st.pos));
  }

  lemma ReadPrim(js: string, n: nat, st: State, v: Json)
    requires v.Prim? && WellFormed(v) && ValidState(st)
    requires At(js, st.pos, Text(v)) && Boundary(js, st.pos + |Text(v)|)
    ensures Reaches(js, n, st, AfterValue(st, v), TokenCount(v))
  {
    hide Run, At;
    AtChar(js, st.pos, v.text, 0);
    ScanPrimText(js, st.pos, v.text);
    AtInside(js, st.pos, v.text);
    StepPrim(js, n, st, st.pos + |v.text|);
  }

  lemma ReadStr(js: string, n: nat, st: State, v: Json)
    requires v.Str? && WellFormed(v) && ValidState(st)
    requires At(js, st.pos, Text(v))
    ensures Reaches(js, n, st, AfterValue(st, v), TokenCount(v))
  {
    hide Run, At, IsRaw;
    assert Text(v) == "\"" + (v.raw + "\"");
    AtChar(js, st.pos, Text(v), 0);
    AtInside(js, st.pos, Text(v));
    AtSplit(js, st.pos, "\"", v.raw + "\"");
    ScanRaw(js, st.pos + 1, v.raw);
    StepString(js, n, st, st.pos + 1 + |v.raw|);
  }

  /** Just inside an opening bracket. */
  function AfterOpen(st: State, kind: Kind, ws: string): (r: State)
    requires ValidState(st)
  {
    State(st.pos + 1 + |ws|, Bump(st.toks, st.super) + [Token(kind, st.pos, -1, 0)], |st.toks|)
  }

  lemma ReadOpen(js: string, n: nat, st: State, kind: Kind, ws: string, tail: string)
    requires ValidState(st) && OpenAreContainers(st.toks)
    requires kind == Array || kind == Object
    requires At(js, st.pos, (if kind == Array then "[" else "{") + (ws + tail)) && AllSpace(ws)
    ensures Reaches(js, n, st, AfterOpen(st, kind, ws), 1)
    ensures Inside(AfterOpen(st, kind, ws), |st.toks|)
    ensures At(js, st.pos + 1 + |ws|, tail)
  {
    hide Run, At, LastOpen;
    var open := if kind == Array then "[" else "{";
    AtChar(js, st.pos, open + (ws + tail), 0);
    AtInside(js, st.pos, open + (ws + tail));
    AtSplit(js, st.pos, open, ws + tail);
    AtSplit(js, st.pos + 1, ws, tail);
    StepOpen(js, n, st);
    BumpKeeps(st.toks, st.super);
    var st1 := AfterOpen(st, kind, "");
    LastOpenIs(st1.toks, |st.toks|);
    SkipSpace(js, n, st1, ws);
    assert st1.(pos := st1.pos + |ws|) == AfterOpen(st, kind, ws);
  }

  lemma {:induction false} ReadArray(js: string, n: nat, st: State, v: Json)
    requires v.Arr? && WellFormed(v) && ValidState(st) && OpenAreContainers(st.toks)
    requires At(js, st.pos, Text(v))
    ensures Reaches(js, n, st, AfterValue(st, v), TokenCount(v))
    decreases v, 1
  {
    hide Run, At, LastOpen, ElemsText, FlatElems;
    var tail := ElemsText(v.elems);
    assert Text(v) == "[" + (v.ws + tail);
    AtInside(js, st.pos, Text(v));
    ReadOpen(js, n, st, Array, v.ws, tail);
    var st1 := AfterOpen(st, Array, v.ws);
    ArrayClosed(st, v);
    if |st1.toks| <= n {
      ReadElems(js, n, st1, v.elems, |st.toks|);
    }
  }

  lemma ArrayClosed(st: State, v: Json)
    requires v.Arr? && ValidState(st)
    ensures ValidState(AfterValue(st, v))
    ensures var st1 := AfterOpen(st, Array, v.ws);
            AfterClose(st1, |st.toks|, ElemsLen(v.elems), FlatElems(v.elems, st1.pos), |ElemsText(v.elems)|)
            == AfterValue(st, v)
  {
    hide LastOpen, ElemsText, FlatElems;
    var st1 := AfterOpen(st, Array, v.ws);
    BumpKeeps(st.toks, st.super);
    assert st1.toks[..|st.toks|] == Bump(st.toks, st.super);
    assert |Text(v)| == 1 + |v.ws| + |ElemsText(v.elems)|;
  }

  lemma {:induction false} ReadObject(js: string, n: nat, st: State, v: Json)
    requires v.Obj? && WellFormed(v) && ValidState(st) && OpenAreContainers(st.toks)
    requires At(js, st.pos, Text(v))
    ensures Reaches(js, n, st, AfterValue(st, v), TokenCount(v))
    decreases v, 1
  {
    hide Run, At, LastOpen, MembersText, FlatMembers;
    var tail := MembersText(v.members);
    assert Text(v) == "{" + (v.ws + tail);
    AtInside(js, st.pos, Text(v));
    ReadOpen(js, n, st, Object, v.ws, tail);
    var st1 := AfterOpen(st, Object, v.ws);
    ObjectClosed(st, v);
    if |st1.toks| <= n {
      ReadMembers(js, n, st1, v.members, |st.toks|);
    }
  }

  lemma ObjectClosed(st: State, v: Json)
    requires v.Obj? && ValidState(st)
    ensures ValidState(AfterValue(st, v))
    ensures var st1 := AfterOpen(st, Object, v.ws);
            AfterClose(st1, |st.toks|, MembersLen(v.members), FlatMembers(v.members, st1.pos), |MembersText(v.members)|)
            == AfterValue(st, v)
  {
    hide LastOpen, MembersText, FlatMembers;
    var st1 := AfterOpen(st, Object, v.ws);
    BumpKeeps(st.toks, st.super);
    assert st1.toks[..|st.toks|] == Bump(st.toks, st.super);
    assert |Text(v)| == 1 + |v.ws| + |MembersText(v.members)|;
  }

  // ---- Container contents, closing bracket included -----------------------------------

  lemma ReadClose(js: string, n: nat, st: State, c: nat, bracket: string)
    requires Inside(st, c) && At(js, st.pos, bracket)
    requires bracket == if st.toks[c].kind == Array then "]" else "}"
    ensures st.pos < |js| && Run(js, n, st) == Run(js, n, AfterClose(st, c, 0, [], 1))
  {
    hide Run, At, LastOpen;
    AtChar(js, st.pos, bracket, 0);
    AtInside(js, st.pos, bracket);
    assert BumpBy(st.toks, c, 0) == st.toks;
    assert CloseAt(st.toks, c, st.pos + 1) + [] == CloseAt(st.toks, c, st.pos + 1);
    StepClose(js, n, st, c);
  }

  lemma {:induction false} ReadElems(js: string, n: nat, st: State, es: Elems, c: nat)
    requires WellFormedElems(es) && Inside(st, c) && st.toks[c].kind == Array
    requires |st.toks| <= n && (es.ECons? ==> st.super == c)
    requires At(js, st.pos, ElemsText(es))
    ensures Reaches(js, n, st, AfterClose(st, c, ElemsLen(es), FlatElems(es, st.pos), |ElemsText(es)|),
                    ElemsTokenCount(es))
    decreases es, 0
  {
    hide Run, At, LastOpen, Text, Flat, FlatElems, WellFormed;
    match es
    case ENil =>
      ReadClose(js, n, st, c, "]");
    case ECons(pre, v, post, rest) =>
      AtInside(js, st.pos, ElemsText(es));
      ReadItem(js, n, st, c, pre, v, post, AfterElem(rest));
      if |st.toks| + TokenCount(v) <= n {
        var st1 := AfterItem(st, pre, v, post);
        var st2 := if rest.ENil? then st1 else st1.(pos := st1.pos + 1);
        if rest.ECons? {
          ReadComma(js, n, st1, ElemsText(rest), c);
        }
        ReadElems(js, n, st2, rest, c);
        JoinElems(st, st2, es, c);
      }
  }

  /** The state after a value and the white space around it. */
  function AfterItem(st: State, pre: string, v: Json, post: string): (r: State)
    requires ValidState(st)
  {
    var r := AfterValue(st.(pos := st.pos + |pre|), v);
    r.(pos := r.pos + |post|)
  }

  lemma {:induction false} ReadItem(js: string, n: nat, st: State, c: nat, pre: string, v: Json, post: string,
      more: string)
    requires AllSpace(pre) && WellFormed(v) && AllSpace(post)
    requires more != "" && EndsPrimitive(more[0])
    requires Inside(st, c) && At(js, st.pos, pre + (Text(v) + (post + more)))
    ensures Reaches(js, n, st, AfterItem(st, pre, v, post), TokenCount(v))
    ensures Inside(AfterItem(st, pre, v, post), c)
    ensures At(js, st.pos + |pre| + |Text(v)| + |post|, more)
    decreases v, 3
  {
    hide Run, At, LastOpen, Text, Flat, WellFormed, TokenCount;
    AtInside(js, st.pos, pre + (Text(v) + (post + more)));
    AtSplit(js, st.pos, pre, Text(v) + (post + more));
    SkipSpace(js, n, st, pre);
    var st1 := st.(pos := st.pos + |pre|);
    AtSplit(js, st1.pos, Text(v), post + more);
    EndOfValue(js, st1.pos + |Text(v)|, post, more);
    ReadValue(js, n, st1, v);
    var st2 := AfterValue(st1, v);
    AtSplit(js, st2.pos, post, more);
    SkipSpace(js, n, st2, post);
  }

  /** The pieces of a pair's text, in place. */
  ghost predicate PairAt(js: string, p: nat, ms: Members, more: string)
    requires ms.MCons?
  {
    var quote := p + |ms.pre|;
    var colon := quote + 1 + |ms.key| + 1 + |ms.mid|;
    && At(js, p, ms.pre)
    && At(js, quote, "\"")
    && At(js, quote + 1, ms.key + "\"")
    && At(js, quote + 1 + |ms.key| + 1, ms.mid)
    && At(js, colon, ":")
    && At(js, colon + 1, ms.gap + (Text(ms.value) + (ms.post + more)))
  }

  lemma PairSplits(js: string, p: nat, ms: Members)
    requires ms.MCons? && At(js, p, MembersText(ms))
    ensures PairAt(js, p, ms, AfterPair(ms.rest))
  {
    hide At, Text;
    var item := ms.gap + (Text(ms.value) + (ms.post + AfterPair(ms.rest)));
    var fromMid := ms.mid + (":" + item);
    var fromKey := (ms.key + "\"") + fromMid;
    AtSplit(js, p, ms.pre, "\"" + fromKey);
    AtSplit(js, p + |ms.pre|, "\"", fromKey);
    AtSplit(js, p + |ms.pre| + 1, ms.key + "\"", fromMid);
    AtSplit(js, p + |ms.pre| + 1 + |ms.key| + 1, ms.mid, ":" + item);
    AtSplit(js, p + |ms.pre| + 1 + |ms.key| + 1 + |ms.mid|, ":", item);
  }

  lemma {:induction false} ReadMembers(js: string, n: nat, st: State, ms: Members, c: nat)
    requires WellFormedMembers(ms) && Inside(st, c) && st.toks[c].kind == Object
    requires |st.toks| <= n && (ms.MCons? ==> st.super == c)
    requires At(js, st.pos, MembersText(ms))
    ensures Reaches(js, n, st, AfterClose(st, c, MembersLen(ms), FlatMembers(ms, st.pos), |MembersText(ms)|),
                    MembersTokenCount(ms))
    decreases ms, 0
  {
    hide Run, At, LastOpen, Text, Flat, FlatMembers, WellFormed, IsRaw;
    AtInside(js, st.pos, MembersText(ms));
    match ms
    case MNil =>
      ReadClose(js, n, st, c, "}");
    case MCons(pre, key, mid, gap, v, post, rest) =>
      PairSplits(js, st.pos, ms);
      ReadKey(js, n, st, ms, c);
      var st1 := AfterKey(st, ms);
      var need := 1 + TokenCount(v);
      if |st.toks| < n {
        ReadItem(js, n, st1, c, gap, v, post, AfterPair(ms.rest));
        if |st.toks| + need <= n {
          var st2 := AfterItem(st1, gap, v, post);
          var st3 := if rest.MNil? then st2 else State(st2.pos + 1, st2.toks, c);
          AfterPairState(st, ms, c);
          if rest.MCons? {
            ReadComma(js, n, st2, MembersText(rest), c);
          }
          ReadMembers(js, n, st3, rest, c);
          JoinMembers(st, st3, ms, c);
        }
      }
  }

  /** After `"key":` the key is superior, and the object counted it. */
  function AfterKey(st: State, ms: Members): (r: State)
    requires ValidState(st) && ms.MCons?
    ensures ValidState(r)
  {
    var k := st.pos + |ms.pre| + 1;
    State(k + |ms.key| + 1 + |ms.mid| + 1,
          Bump(st.toks, st.super) + [Token(String, k, k + |ms.key|, 0)],
          |st.toks|)
  }

  lemma AfterPairState(st: State, ms: Members, c: nat)
    requires ms.MCons? && ValidState(st) && st.super == c && LastOpen(AfterKey(st, ms).toks) == c
    ensures var k := st.pos + |ms.pre| + 1;
            var st2 := AfterItem(AfterKey(st, ms), ms.gap, ms.value, ms.post);
            && st2.toks == Bump(st.toks, c) +
               ([Token(String, k, k + |ms.key|, 1)] + Flat(ms.value, ValueOffset(ms, st.pos)))
            && st2.pos == ValueOffset(ms, st.pos) + |Text(ms.value)| + |ms.post|
            && (st2.super == c || st2.super == |st.toks|)
            && st2.toks[|st.toks|].kind == String
  {
    hide Text, Flat, LastOpen;
  }

  lemma ReadComma(js: string, n: nat, st: State, more: string, c: nat)
    requires Inside(st, c) && st.super != -1 && (IsContainer(st.toks[st.super]) ==> st.super == c)
    requires At(js, st.pos, "," + more)
    ensures Run(js, n, st) == Run(js, n, State(st.pos + 1, st.toks, c))
    ensures At(js, st.pos + 1, more)
  {
    hide Run, At, LastOpen;
    AtChar(js, st.pos, "," + more, 0);
    AtInside(js, st.pos, "," + more);
    AtSplit(js, st.pos, ",", more);
    CommaReturns(st, c);
    StepComma(js, n, st);
  }

  lemma ReadKey(js: string, n: nat, st: State, ms: Members, c: nat)
    requires ms.MCons? && AllSpace(ms.pre) && IsRaw(ms.key) && AllSpace(ms.mid) && Inside(st, c)
    requires At(js, st.pos, ms.pre) && At(js, st.pos + |ms.pre|, "\"")
    requires At(js, st.pos + |ms.pre| + 1, ms.key + "\"")
    requires At(js, st.pos + |ms.pre| + 1 + |ms.key| + 1, ms.mid)
    requires At(js, st.pos + |ms.pre| + 1 + |ms.key| + 1 + |ms.mid|, ":")
    ensures Reaches(js, n, st, AfterKey(st, ms), 1)
    ensures Inside(AfterKey(st, ms), c)
  {
    hide Run, At, LastOpen, IsRaw, AllSpace, Bump, ScanString;
    var q := st.pos + |ms.pre|;
    AtChar(js, q, "\"", 0);
    AtInside(js, q, "\"");
    SkipSpace(js, n, st, ms.pre);
    ScanRaw(js, q + 1, ms.key);
    var st1 := st.(pos := q);
    StepString(js, n, st1, q + 1 + |ms.key|);
    var tok := Token(String, q + 1, q + 1 + |ms.key|, 0);
    var toks := Bump(st.toks, st.super) + [tok];
    BumpKeeps(st.toks, st.super);
    AppendClosed(Bump(st.toks, st.super), [tok]);
    ReadColon(js, n, State(q + 1 + |ms.key| + 1, toks, st.super), ms.mid);
  }

  lemma ReadColon(js: string, n: nat, st: State, mid: string)
    requires ValidState(st) && AllSpace(mid) && At(js, st.pos, mid) && At(js, st.pos + |mid|, ":")
    ensures st.pos + |mid| + 1 <= |js|
    ensures Run(js, n, st) == Run(js, n, State(st.pos + |mid| + 1, st.toks, |st.toks| - 1))
  {
    hide Run, At, LastOpen;
    AtChar(js, st.pos + |mid|, ":", 0);
    AtInside(js, st.pos + |mid|, ":");
    SkipSpace(js, n, st, mid);
    StepColon(js, n, st.(pos := st.pos + |mid|));
  }

  // ---- Small facts --------------------------------------------------------------------

  lemma AtInside(js: string, p: nat, t: string)
    requires At(js, p, t)
    ensures p + |t| <= |js|
  {
  }

  lemma AppendClosed(toks: seq<Token>, more: seq<Token>)
    requires forall i :: 0 <= i < |more| ==> !IsOpen(more[i])
    ensures LastOpen(toks + more) == LastOpen(toks)
    ensures OpenAreContainers(toks) ==> OpenAreContainers(toks + more)
  {
    hide LastOpen;
    LastOpenIs(toks + more, LastOpen(toks));
  }

  lemma BumpKeeps(toks: seq<Token>, super: int)
    requires -1 <= super < |toks|
    ensures LastOpen(Bump(toks, super)) == LastOpen(toks)
    ensures OpenAreContainers(toks) ==> OpenAreContainers(Bump(toks, super))
  {
    hide LastOpen;
    LastOpenIs(Bump(toks, super), LastOpen(toks));
  }

  /** What follows a value inside a container ends a primitive. */
  lemma EndOfValue(js: string, p: nat, post: string, more: string)
    requires At(js, p, post + more) && AllSpace(post)
    requires more != "" && EndsPrimitive(more[0])
    ensures Boundary(js, p)
  {
    AtChar(js, p, post + more, 0);
  }

  /** A comma makes the innermost open container superior again. */
  lemma CommaReturns(st: State, c: nat)
    requires Inside(st, c) && st.super != -1
    requires IsContainer(st.toks[st.super]) ==> st.super == c
    ensures CommaStep(st) == Next(State(st.pos + 1, st.toks, c))
  {
    hide LastOpen, LastOpenContainer;
    LastOpenContainerIs(st.toks, c);
  }

  lemma JoinTokens(toks: seq<Token>, c: nat, k: nat, end: nat, first: seq<Token>, rest: seq<Token>)
    requires c < |toks|
    ensures CloseAt(BumpBy(Bump(toks, c) + first, c, k), c, end) + rest
         == CloseAt(BumpBy(toks, c, k + 1), c, end) + (first + rest)
    ensures (Bump(toks, c) + first)[..c] == toks[..c]
  {
  }

  lemma ElemsUnfold(es: Elems, off: nat)
    requires es.ECons?
    ensures var next := off + |es.pre| + |Text(es.value)| + |es.post| + (if es.rest.ENil? then 0 else 1);
            && FlatElems(es, off) == Flat(es.value, off + |es.pre|) + FlatElems(es.rest, next)
            && off + |ElemsText(es)| == next + |ElemsText(es.rest)|
  {
    hide Text, Flat;
  }

  lemma JoinElems(st: State, st2: State, es: Elems, c: nat)
    requires es.ECons? && c < |st.toks|
    requires st2.toks == Bump(st.toks, c) + Flat(es.value, st.pos + |es.pre|)
    requires st2.pos == st.pos + |es.pre| + |Text(es.value)| + |es.post| + (if es.rest.ENil? then 0 else 1)
    ensures AfterClose(st2, c, ElemsLen(es.rest), FlatElems(es.rest, st2.pos), |ElemsText(es.rest)|)
         == AfterClose(st, c, ElemsLen(es), FlatElems(es, st.pos), |ElemsText(es)|)
  {
    hide LastOpen, Text, Flat, CloseAt, BumpBy, Bump, ElemsText, FlatElems;
    var first := Flat(es.value, st.pos + |es.pre|);
    var rest := FlatElems(es.rest, st2.pos);
    ElemsUnfold(es, st.pos);
    JoinTokens(st.toks, c, ElemsLen(es.rest), st.pos + |ElemsText(es)|, first, rest);
  }

  lemma MembersUnfold(ms: Members, off: nat)
    requires ms.MCons?
    ensures var k := off + |ms.pre| + 1;
            var next := ValueOffset(ms, off) + |Text(ms.value)| + |ms.post| + (if ms.rest.MNil? then 0 else 1);
            && FlatMembers(ms, off) ==
                 [Token(String, k, k + |ms.key|, 1)] + Flat(ms.value, ValueOffset(ms, off)) + FlatMembers(ms.rest, next)
            && off + |MembersText(ms)| == next + |MembersText(ms.rest)|
  {
    hide Text, Flat;
  }

  lemma JoinMembers(st: State, st3: State, ms: Members, c: nat)
    requires ms.MCons? && c < |st.toks|
    requires var k := st.pos + |ms.pre| + 1;
             st3.toks == Bump(st.toks, c) +
               ([Token(String, k, k + |ms.key|, 1)] + Flat(ms.value, ValueOffset(ms, st.pos)))
    requires st3.pos == ValueOffset(ms, st.pos) + |Text(ms.value)| + |ms.post| + (if ms.rest.MNil? then 0 else 1)
    ensures AfterClose(st3, c, MembersLen(ms.rest), FlatMembers(ms.rest, st3.pos), |MembersText(ms.rest)|)
         == AfterClose(st, c, MembersLen(ms), FlatMembers(ms, st.pos), |MembersText(ms)|)
  {
    hide LastOpen, Text, Flat, CloseAt, BumpBy, Bump;
    hide MembersText, FlatMembers;
    var k := st.pos + |ms.pre| + 1;
    var first := [Token(String, k, k + |ms.key|, 1)] + Flat(ms.value, ValueOffset(ms, st.pos));
    var rest := FlatMembers(ms.rest, st3.pos);
    MembersUnfold(ms, st.pos);
    JoinTokens(st.toks, c, MembersLen(ms.rest), st.pos + |MembersText(ms)|, first, rest);
  }

  // ---- The main result ----------------------------------------------------------------

  /** Every well-formed text, with any white space around it and any token budget: enough
      tokens give exactly the flattening and its length, too few give NoMem. */
  lemma ParseFlattens(pre: string, v: Json, post: string, n: nat)
    requires AllSpace(pre) && WellFormed(v) && AllSpace(post)
    ensures var r := Run(pre + Text(v) + post, n, START);
            if TokenCount(v) <= n
            then r.Count? && r.n == TokenCount(v) && r.st.toks == Flat(v, |pre|)
            else OutOfTokens(r)
  {
    hide At, LastOpen, Text, Flat, WellFormed, TokenCount, CharStep, AllSpace, Boundary;
    var js := pre + Text(v) + post;
    assert js == pre + (Text(v) + post);
    AtWhole(js, pre + (Text(v) + post));
    AtSplit(js, 0, pre, Text(v) + post);
    SkipSpace(js, n, START, pre);
    var st := State(|pre|, [], -1);
    AtSplit(js, |pre|, Text(v), post);
    EndOfText(js, |pre| + |Text(v)|, post);
    ReadValue(js, n, st, v);
    if TokenCount(v) <= n {
      var st1 := AfterValue(st, v);
      SkipSpace(js, n, st1, post);
      assert st1.toks == Flat(v, |pre|);
    }
  }

  lemma AtWhole(js: string, t: string)
    requires js == t
    ensures At(js, 0, t)
  {
  }

  lemma EndOfText(js: string, p: nat, post: string)
    requires At(js, p, post) && p + |post| == |js| && AllSpace(post)
    ensures Boundary(js, p)
  {
    if post != "" {
      AtChar(js, p, post, 0);
    }
  }
}
