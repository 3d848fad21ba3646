/** The tokeniser on arbitrary bytes: whatever it is given, it stays in bounds, and on
    success its token spans form a forest over the text. */
module JsmnSafety {
  import opened JsonText
  import opened Jsmn
  import opened JsmnFlatten

  /** A closed token spans what its kind says, within the text read so far. */
  predicate SpanOk(js: string, t: Token, pos: nat) {
    && 0 <= t.start <= t.end <= pos <= |js|
    && match t.kind
       case Undefined => false
       case Object => t.start + 2 <= t.end && js[t.start] == '{' && js[t.end - 1] == '}'
       case Array => t.start + 2 <= t.end && js[t.start] == '[' && js[t.end - 1] == ']'
       case String =>
         && 1 <= t.start && t.end < pos && js[t.start - 1] == '"' && js[t.end] == '"'
         && IsRaw(js[t.start..t.end])
       case Primitive => IsPrimText(js[t.start..t.end])
  }

  /** A container still waiting for its bracket. */
  predicate OpenOk(js: string, t: Token, pos: nat) {
    && IsOpen(t) && IsContainer(t)
    && 0 <= t.start < pos <= |js|
    && js[t.start] == if t.kind == Object then '{' else '['
  }

  predicate Disjoint(a: Token, b: Token) {
    a.end <= b.start
  }

  predicate Encloses(a: Token, b: Token) {
    a.start <= b.start && b.end <= a.end
  }

  /** How an earlier token `a` lies to a later token `b`. */
  predicate Ordered(a: Token, b: Token) {
    if IsOpen(a) then a.start <= b.start
    else if IsOpen(b) then Disjoint(a, b)
    else Disjoint(a, b) || Encloses(a, b)
  }

  predicate Forest(js: string, st: State) {
    && ValidState(st) && st.pos <= |js|
    && (forall i :: 0 <= i < |st.toks| ==> OpenOk(js, st.toks[i], st.pos) || SpanOk(js, st.toks[i], st.pos))
    && (forall i, j :: 0 <= i < j < |st.toks| ==> Ordered(st.toks[i], st.toks[j]))
  }

  /** A token added behind the text read so far keeps the forest. */
  lemma AddKeeps(js: string, st: State, t: Token, pos: nat, super: int)
    requires Forest(js, st) && st.pos <= t.start && st.pos <= pos
    requires OpenOk(js, t, pos) || SpanOk(js, t, pos)
    requires -1 <= super <= |st.toks|
    ensures Forest(js, State(pos, Bump(st.toks, st.super) + [t], super))
  {
    var toks := Bump(st.toks, st.super) + [t];
    forall i | 0 <= i < |toks|
      ensures OpenOk(js, toks[i], pos) || SpanOk(js, toks[i], pos)
    {
      if i < |st.toks| {
        assert OpenOk(js, st.toks[i], st.pos) || SpanOk(js, st.toks[i], st.pos);
      }
    }
    forall i, j | 0 <= i < j < |toks|
      ensures Ordered(toks[i], toks[j])
    {
      if j < |st.toks| {
        assert Ordered(st.toks[i], st.toks[j]);
      } else {
        assert OpenOk(js, st.toks[i], st.pos) || SpanOk(js, st.toks[i], st.pos);
      }
    }
  }

  /** Closing the innermost open container keeps the forest. */
  lemma CloseKeeps(js: string, st: State, c: nat, super: int)
    requires Forest(js, st) && LastOpen(st.toks) == c && st.pos < |js|
    requires js[st.pos] == if st.toks[c].kind == Object then '}' else ']'
    requires -1 <= super < |st.toks|
    ensures Forest(js, State(st.pos + 1, st.toks[c := st.toks[c].(end := st.pos + 1)], super))
  {
    hide LastOpen;
    var toks := st.toks[c := st.toks[c].(end := st.pos + 1)];
    assert OpenOk(js, st.toks[c], st.pos);
    forall i | 0 <= i < |toks|
      ensures OpenOk(js, toks[i], st.pos + 1) || SpanOk(js, toks[i], st.pos + 1)
    {
      assert OpenOk(js, st.toks[i], st.pos) || SpanOk(js, st.toks[i], st.pos);
    }
    forall i, j | 0 <= i < j < |toks|
      ensures Ordered(toks[i], toks[j])
    {
      assert Ordered(st.toks[i], st.toks[j]);
      assert j > c ==> SpanOk(js, st.toks[j], st.pos);
    }
  }

  lemma MoveKeeps(js: string, st: State, pos: nat, super: int)
    requires Forest(js, st) && st.pos <= pos <= |js| && -1 <= super < |st.toks|
    ensures Forest(js, State(pos, st.toks, super))
  {
    forall i | 0 <= i < |st.toks|
      ensures OpenOk(js, st.toks[i], pos) || SpanOk(js, st.toks[i], pos)
    {
      assert OpenOk(js, st.toks[i], st.pos) || SpanOk(js, st.toks[i], st.pos);
    }
  }

  /** One more character, or one more escape, before a raw body makes it longer. */
  lemma RawLonger(js: string, p: nat, k: nat, q: nat)
    requires p < k <= q <= |js| && IsRaw(js[k..q])
    requires var c := js[p];
             if c != '\\' then c != '"' && k == p + 1
             else || (k == p + 2 && IsSimpleEscape(js[p + 1]))
                  || (k == p + 6 && js[p + 1] == 'u' && forall i :: p + 2 <= i < p + 6 ==> IsHex(js[i]))
    ensures IsRaw(js[p..q])
  {
    var s := js[p..q];
    assert s[k - p..] == js[k..q];
    if k == p + 6 {
      assert forall i :: 2 <= i < 6 ==> s[i] == js[p + i];
      assert !IsSimpleEscape('u');
    }
  }

  /** Hex digits up to where the scan stops, which is short of four only at the end of the text. */
  lemma {:induction false} HexFound(js: string, p: nat, k: nat)
    requires p <= |js| && ScanHex(js, p, k).Found?
    ensures var h := ScanHex(js, p, k).at;
            && (h == p + k || h == |js|) && forall i :: p <= i < h ==> IsHex(js[i])
    decreases k
  {
    if k > 0 && p < |js| {
      HexFound(js, p + 1, k - 1);
    }
  }

  /** The string scan stops at a quote, and only behind a raw body. */
  lemma {:induction false} FoundIsRaw(js: string, p: nat)
    requires p <= |js| && ScanString(js, p).Found?
    ensures var q := ScanString(js, p).at; p <= q < |js| && js[q] == '"' && IsRaw(js[p..q])
    decreases |js| - p
  {
    hide IsRaw, IsHex;
    var q := ScanString(js, p).at;
    if js[p] == '"' {
      EmptyRaw(js, p);
    } else if js[p] != '\\' || p + 1 == |js| {
      FoundIsRaw(js, p + 1);
      RawLonger(js, p, p + 1, q);
    } else if IsSimpleEscape(js[p + 1]) {
      FoundIsRaw(js, p + 2);
      RawLonger(js, p, p + 2, q);
    } else {
      HexFound(js, p + 2, 4);
      FoundIsRaw(js, ScanHex(js, p + 2, 4).at);
      RawLonger(js, p, p + 6, q);
    }
  }

  lemma EmptyRaw(js: string, p: nat)
    requires p <= |js|
    ensures IsRaw(js[p..p])
  {
  }

  /** Which strings are taken, and as far as where: those whose body is raw, up to their quote. */
  lemma StringTakenIff(js: string, p: nat, q: nat)
    requires p <= |js|
    ensures ScanString(js, p) == Found(q) <==> p <= q < |js| && js[q] == '"' && IsRaw(js[p..q])
  {
    hide IsRaw, ScanString;
    if ScanString(js, p) == Found(q) {
      FoundIsRaw(js, p);
    } else if p <= q < |js| && js[q] == '"' && IsRaw(js[p..q]) {
      assert At(js, p, js[p..q] + "\"") by {
        assert js[p..q + 1] == js[p..q] + "\"";
      }
      ScanRaw(js, p, js[p..q]);
    }
  }

  /** Which numbers and literals: printable characters, up to a delimiter or the end. */
  lemma {:induction false} PrimitiveTakenIff(js: string, p: nat, q: nat)
    requires p <= |js|
    ensures ScanPrimitive(js, p) == Found(q) <==>
              && p <= q <= |js| && (forall i :: p <= i < q ==> IsPrimChar(js[i]))
              && (q == |js| || js[q] == '\0' || EndsPrimitive(js[q]))
    decreases |js| - p
  {
    if p < |js| {
      PrimitiveTakenIff(js, p + 1, q);
    }
  }

  lemma LeafKeeps(js: string, n: nat, st: State, scan: Scan, kind: Kind, start: nat, resume: nat)
    requires Forest(js, st) && st.pos <= start && st.pos <= scan.at <= |js| && |st.toks| <= n
    requires scan.Found? ==> st.pos <= resume && SpanOk(js, Token(kind, start, scan.at, 0), resume)
    ensures Forest(js, LeafStep(n, st, scan, kind, start, resume).st)
    ensures |LeafStep(n, st, scan, kind, start, resume).st.toks| <= n
  {
    if scan.Stopped? {
      MoveKeeps(js, st, scan.at, st.super);
    } else {
      AddKeeps(js, st, Token(kind, start, scan.at, 0), resume, st.super);
    }
  }

  lemma StepKeeps(js: string, n: nat, st: State)
    requires Forest(js, st) && |st.toks| <= n && st.pos < |js| && js[st.pos] != '\0'
    ensures Forest(js, CharStep(js, n, st).st)
    ensures |CharStep(js, n, st).st.toks| <= n
  {
    hide Forest, ScanString, ScanPrimitive, LastOpen, LastOpenContainer, Bump;
    ForestValid(js, st);
    var c := js[st.pos];
    if c == '{' || c == '[' {
      if |st.toks| < n {
        AddKeeps(js, st, Token(if c == '{' then Object else Array, st.pos, -1, 0), st.pos + 1, |st.toks|);
      }
    } else if c == '}' || c == ']' {
      var i := LastOpen(st.toks);
      if i >= 0 && st.toks[i].kind == if c == '}' then Object else Array {
        CloseKeeps(js, st, i, LastOpen(st.toks[..i]));
      }
    } else if c == '"' {
      var s := ScanString(js, st.pos + 1);
      if s.Found? {
        FoundIsRaw(js, st.pos + 1);
      }
      LeafKeeps(js, n, st, s, String, st.pos + 1, s.at + 1);
    } else if IsSpace(c) || c == ':' || c == ',' {
      MoveKeeps(js, st, st.pos + 1, CharStep(js, n, st).st.super);
    } else {
      var s := ScanPrimitive(js, st.pos);
      PrimitiveTakenIff(js, st.pos, s.at);
      LeafKeeps(js, n, st, s, Primitive, st.pos, s.at);
    }
  }

  lemma ForestValid(js: string, st: State)
    requires Forest(js, st)
    ensures ValidState(st) && st.pos <= |js|
  {
  }

  lemma {:induction false} RunKeeps(js: string, n: nat, st: State)
    requires Forest(js, st) && |st.toks| <= n
    ensures Forest(js, Run(js, n, st).st)
    ensures |Run(js, n, st).st.toks| <= n
    ensures Run(js, n, st).Count? ==> && Run(js, n, st).n == |Run(js, n, st).st.toks|
                                      && LastOpen(Run(js, n, st).st.toks) == -1
    decreases |js| - st.pos
  {
    hide Forest, CharStep, LastOpen;
    ForestValid(js, st);
    if st.pos < |js| && js[st.pos] != '\0' {
      StepKeeps(js, n, st);
      var r := CharStep(js, n, st);
      if r.Next? {
        RunKeeps(js, n, r.st);
      }
    }
  }

  /** For every byte string and token budget: the superior index is -1 or a filled slot and
      no slot past the budget is filled; on success the return value is the number of filled
      slots, every token spans well-bracketed text inside the input, and any two spans are
      nested or disjoint. */
  lemma ParseIsSafe(js: string, n: nat)
    ensures var r := Run(js, n, START);
            && r.st.pos <= |js| && |r.st.toks| <= n && -1 <= r.st.super < |r.st.toks|
            && (r.Count? ==>
                  && r.n == |r.st.toks|
                  && (forall i :: 0 <= i < r.n ==> SpanOk(js, r.st.toks[i], |js|))
                  && (forall i, j :: 0 <= i < j < r.n ==>
                        Disjoint(r.st.toks[i], r.st.toks[j]) || Encloses(r.st.toks[i], r.st.toks[j])))
  {
    hide Run, LastOpen;
    RunKeeps(js, n, START);
    var r := Run(js, n, START);
    if r.Count? {
      forall i | 0 <= i < r.n
        ensures SpanOk(js, r.st.toks[i], |js|) && !IsOpen(r.st.toks[i])
      {
        assert OpenOk(js, r.st.toks[i], r.st.pos) || SpanOk(js, r.st.toks[i], r.st.pos);
      }
      forall i, j | 0 <= i < j < r.n
        ensures Disjoint(r.st.toks[i], r.st.toks[j]) || Encloses(r.st.toks[i], r.st.toks[j])
      {
        assert Ordered(r.st.toks[i], r.st.toks[j]);
      }
    }
  }
}
