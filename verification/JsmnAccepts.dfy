/** Which texts the tokeniser accepts, and why it refuses the others: a recogniser with a stack of open
    brackets, and the proof that the search through the token array does the same on every text. */
module JsmnAccepts {
  import opened JsonText
  import opened Jsmn
  import opened JsmnSafety

  // ---- The recogniser -----------------------------------------------------------------

  datatype Verdict = Accepted | Refused(error: Error)

  /** What becomes of the text from `p` on, with `open` brackets waiting and `left` tokens to spend. */
  function Judge(js: string, p: nat, open: seq<Kind>, left: nat): Verdict
    requires p <= |js|
    decreases |js| - p
  {
    if p == |js| || js[p] == '\0' then if open == [] then Accepted else Refused(Part)
    else
      var c := js[p];
      if c == '{' || c == '[' then
        if left == 0 then Refused(NoMem) else Judge(js, p + 1, open + [Bracket(c)], left - 1)
      else if c == '}' || c == ']' then
        if open == [] || open[|open| - 1] != Bracket(c) then Refused(Inval)
        else Judge(js, p + 1, open[..|open| - 1], left)
      else if IsSpace(c) || c == ':' || c == ',' then Judge(js, p + 1, open, left)
      else
        var s := if c == '"' then ScanString(js, p + 1) else ScanPrimitive(js, p);
        if s.Stopped? then Refused(s.error)
        else if left == 0 then Refused(NoMem)
        else Judge(js, if c == '"' then s.at + 1 else s.at, open, left - 1)
  }

  function Bracket(c: char): Kind {
    if c == '{' || c == '}' then Object else Array
  }

  // ---- Open tokens are a stack --------------------------------------------------------

  /** Kinds of the open tokens, in order. */
  function OpenKinds(toks: seq<Token>): seq<Kind> {
    if toks == [] then []
    else
      var rest := OpenKinds(toks[..|toks| - 1]);
      if IsOpen(toks[|toks| - 1]) then rest + [toks[|toks| - 1].kind] else rest
  }

  lemma OneMore(toks: seq<Token>, t: Token)
    ensures OpenKinds(toks + [t]) == if IsOpen(t) then OpenKinds(toks) + [t.kind] else OpenKinds(toks)
  {
    assert (toks + [t])[..|toks|] == toks;
  }

  /** Counts do not matter. */
  lemma {:induction false} SameKinds(a: seq<Token>, b: seq<Token>)
    requires |a| == |b| && forall i :: 0 <= i < |a| ==> b[i] == a[i].(size := b[i].size)
    ensures OpenKinds(a) == OpenKinds(b)
    decreases |a|
  {
    if a != [] {
      SameKinds(a[..|a| - 1], b[..|b| - 1]);
    }
  }

  /** Behind the last open token nothing is open. */
  lemma {:induction false} TopOfStack(toks: seq<Token>)
    ensures var i, ks := LastOpen(toks), OpenKinds(toks);
            if i == -1 then ks == []
            else ks != [] && ks[|ks| - 1] == toks[i].kind && OpenKinds(toks[..i]) == ks[..|ks| - 1]
    decreases |toks|
  {
    if toks != [] {
      var init := toks[..|toks| - 1];
      TopOfStack(init);
      var i := LastOpen(toks);
      if 0 <= i < |init| {
        assert toks[..i] == init[..i];
      }
    }
  }

  /** Closing the last open token takes the top off. */
  lemma {:induction false} Popped(toks: seq<Token>, c: nat, t: Token)
    requires c < |toks| && LastOpen(toks) == c && !IsOpen(t)
    ensures OpenKinds(toks[c := t]) == OpenKinds(toks[..c])
    decreases |toks|
  {
    var init := toks[..|toks| - 1];
    if c == |init| {
      assert toks[c := t][..c] == toks[..c];
    } else {
      Popped(init, c, t);
      assert toks[c := t][..|init|] == init[c := t];
      assert init[..c] == toks[..c];
    }
  }

  lemma BumpedKinds(toks: seq<Token>, super: int, t: Token)
    requires -1 <= super < |toks|
    ensures OpenKinds(Bump(toks, super) + [t]) == if IsOpen(t) then OpenKinds(toks) + [t.kind] else OpenKinds(toks)
  {
    SameKinds(toks, Bump(toks, super));
    OneMore(Bump(toks, super), t);
  }

  // ---- The machine does what the recogniser does --------------------------------------

  function Outcome(r: Jsmn.Outcome): Verdict {
    if r.Count? then Accepted else Refused(r.error)
  }

  ghost predicate Agrees(js: string, n: nat, st: State)
    requires ValidState(st) && st.pos <= |js| && |st.toks| <= n
  {
    Outcome(Run(js, n, st)) == Judge(js, st.pos, OpenKinds(st.toks), n - |st.toks|)
  }

  /** One character: the machine's next state stands for the recogniser's. */
  lemma StepJudged(js: string, n: nat, st: State)
    requires ValidState(st) && |st.toks| <= n && st.pos < |js| && js[st.pos] != '\0'
    ensures var r := CharStep(js, n, st);
            && (r.Next? ==> |r.st.toks| <= n)
            && Judge(js, st.pos, OpenKinds(st.toks), n - |st.toks|) ==
                 if r.Abort? then Refused(r.error)
                 else Judge(js, r.st.pos, OpenKinds(r.st.toks), n - |r.st.toks|)
  {
    hide ScanString, ScanPrimitive, LastOpen, LastOpenContainer, Bump, OpenKinds;
    var c := js[st.pos];
    if c == '{' || c == '[' {
      BumpedKinds(st.toks, st.super, Token(Bracket(c), st.pos, -1, 0));
    } else if c == '}' || c == ']' {
      TopOfStack(st.toks);
      var i := LastOpen(st.toks);
      if i >= 0 {
        Popped(st.toks, i, st.toks[i].(end := st.pos + 1));
      }
    } else if c == '"' {
      var s := ScanString(js, st.pos + 1);
      BumpedKinds(st.toks, st.super, Token(String, st.pos + 1, s.at, 0));
    } else if !IsSpace(c) && c != ':' && c != ',' {
      var s := ScanPrimitive(js, st.pos);
      BumpedKinds(st.toks, st.super, Token(Primitive, st.pos, s.at, 0));
    }
  }

  lemma {:induction false} RunJudged(js: string, n: nat, st: State)
    requires ValidState(st) && st.pos <= |js| && |st.toks| <= n
    ensures Agrees(js, n, st)
    decreases |js| - st.pos
  {
    hide CharStep, LastOpen, OpenKinds, ScanString, ScanPrimitive;
    if st.pos == |js| || js[st.pos] == '\0' {
      TopOfStack(st.toks);
    } else {
      StepJudged(js, n, st);
      var r := CharStep(js, n, st);
      if r.Next? {
        hide Judge;
        RunJudged(js, n, r.st);
      }
    }
  }

  /** For every text and token budget: it is accepted, or refused with that error, exactly as the
      recogniser has it. */
  lemma ParseJudged(js: string, n: nat)
    ensures Outcome(Run(js, n, START)) == Judge(js, 0, [], n)
  {
    hide Run, Judge;
    RunJudged(js, n, START);
    assert OpenKinds([]) == [];
  }
}
