/** Child counts on arbitrary bytes: every token but a root is counted by exactly one earlier token,
    so walks that follow the counts cannot run off the array. */
module JsmnCounts {
  import opened JsonText
  import opened Jsmn

  /** Children counted by the tokens from `i` on. */
  function SizesFrom(toks: seq<Token>, i: nat): nat
    decreases |toks| - i
  {
    if i >= |toks| then 0 else toks[i].size + SizesFrom(toks, i + 1)
  }

  /** Tokens from `i` on that no token from `i` on counts. */
  function Units(toks: seq<Token>, i: nat): int {
    |toks| - i - SizesFrom(toks, i)
  }

  /** No token is counted by itself or a later one. */
  ghost predicate Rooted(toks: seq<Token>) {
    forall i :: 0 <= i < |toks| ==> Units(toks, i) >= 1
  }

  lemma {:induction false} SameSizes(a: seq<Token>, b: seq<Token>, i: nat)
    requires |a| == |b| && forall j :: 0 <= j < |a| ==> a[j].size == b[j].size
    ensures SizesFrom(a, i) == SizesFrom(b, i)
    decreases |a| - i
  {
    if i < |a| {
      SameSizes(a, b, i + 1);
    }
  }

  lemma {:induction false} AddedSizes(toks: seq<Token>, super: int, t: Token, i: nat)
    requires -1 <= super < |toks| && t.size == 0 && i <= |toks|
    ensures SizesFrom(Bump(toks, super) + [t], i) == SizesFrom(toks, i) + if i <= super then 1 else 0
    decreases |toks| - i
  {
    var all := Bump(toks, super) + [t];
    if i < |toks| {
      AddedSizes(toks, super, t, i + 1);
    } else {
      assert SizesFrom(all, |toks| + 1) == 0;
    }
  }

  lemma AddKeeps(toks: seq<Token>, super: int, t: Token)
    requires Rooted(toks) && -1 <= super < |toks| && t.size == 0
    ensures Rooted(Bump(toks, super) + [t])
  {
    var all := Bump(toks, super) + [t];
    forall i | 0 <= i < |all|
      ensures Units(all, i) >= 1
    {
      AddedSizes(toks, super, t, i);
      assert i < |toks| ==> Units(toks, i) >= 1;
    }
  }

  lemma SameKeeps(a: seq<Token>, b: seq<Token>)
    requires Rooted(a) && |a| == |b| && forall j :: 0 <= j < |a| ==> a[j].size == b[j].size
    ensures Rooted(b)
  {
    forall i | 0 <= i < |b|
      ensures Units(b, i) >= 1
    {
      SameSizes(a, b, i);
      assert Units(a, i) >= 1;
    }
  }

  lemma StepRooted(js: string, n: nat, st: State)
    requires ValidState(st) && Rooted(st.toks) && st.pos < |js| && js[st.pos] != '\0'
    ensures Rooted(CharStep(js, n, st).st.toks)
  {
    hide Rooted, ScanString, ScanPrimitive, LastOpen, LastOpenContainer, Bump;
    var c := js[st.pos];
    if c == '{' || c == '[' {
      AddKeeps(st.toks, st.super, Token(if c == '{' then Object else Array, st.pos, -1, 0));
    } else if c == '}' || c == ']' {
      SameKeeps(st.toks, CharStep(js, n, st).st.toks);
    } else if c == '"' {
      var s := ScanString(js, st.pos + 1);
      AddKeeps(st.toks, st.super, Token(String, st.pos + 1, s.at, 0));
    } else if IsSpace(c) || c == ':' || c == ',' {
    } else {
      var s := ScanPrimitive(js, st.pos);
      AddKeeps(st.toks, st.super, Token(Primitive, st.pos, s.at, 0));
    }
  }

  lemma {:induction false} RunRooted(js: string, n: nat, st: State)
    requires ValidState(st) && st.pos <= |js| && Rooted(st.toks)
    ensures Rooted(Run(js, n, st).st.toks)
    decreases |js| - st.pos
  {
    hide Rooted, CharStep, LastOpen;
    if st.pos < |js| && js[st.pos] != '\0' {
      StepRooted(js, n, st);
      var r := CharStep(js, n, st);
      if r.Next? {
        RunRooted(js, n, r.st);
      }
    }
  }

  /** Whatever the bytes and the budget, the counts the tokeniser leaves are rooted. */
  lemma ParseRooted(js: string, n: nat)
    ensures Rooted(Run(js, n, START).st.toks)
  {
    hide Run;
    RunRooted(js, n, START);
  }

  // ---- Walks by counts ----------------------------------------------------------------

  /** Where the skip loop stops when it still has `skip` tokens to pass, or -1 if it would
      run off the array. */
  function SkipTo(toks: seq<Token>, i: nat, skip: nat): (r: int)
    ensures r == -1 || i <= r <= |toks| || skip == 0
    decreases |toks| - i
  {
    if skip == 0 then i
    else if i >= |toks| then -1
    else SkipTo(toks, i + 1, skip - 1 + toks[i].size)
  }

  lemma SkipHead(toks: seq<Token>, i: nat, more: nat)
    requires i < |toks|
    ensures SkipTo(toks, i, more + 1) == SkipTo(toks, i + 1, more + toks[i].size)
  {
  }

  /** A walk over `k` units ends inside the array exactly when there are that many, and leaves that
      many fewer. */
  lemma {:induction false} SkipExact(toks: seq<Token>, i: nat, k: nat)
    requires Rooted(toks) && i <= |toks|
    ensures SkipTo(toks, i, k) != -1 <==> k <= Units(toks, i)
    ensures k <= Units(toks, i) ==>
              i <= SkipTo(toks, i, k) <= |toks| && Units(toks, SkipTo(toks, i, k)) == Units(toks, i) - k
    ensures 0 < k <= Units(toks, i) ==> i < SkipTo(toks, i, k)
    decreases |toks| - i
  {
    if i < |toks| {
      assert Units(toks, i) >= 1;
      if k > 0 {
        SkipExact(toks, i + 1, k - 1 + toks[i].size);
      }
    }
  }

  lemma {:induction false} SkipMore(toks: seq<Token>, i: nat, k: nat, l: nat)
    requires Rooted(toks) && i <= |toks| && k <= Units(toks, i)
    ensures 0 <= SkipTo(toks, i, k) && SkipTo(toks, i, k + l) == SkipTo(toks, SkipTo(toks, i, k), l)
    decreases |toks| - i
  {
    SkipExact(toks, i, k);
    if i < |toks| && k > 0 {
      SkipMore(toks, i + 1, k - 1 + toks[i].size, l);
    }
  }

  /** What an array or object counts is there behind it. */
  lemma ChildrenThere(toks: seq<Token>, i: nat)
    requires Rooted(toks) && i < |toks|
    ensures toks[i].size <= Units(toks, i + 1)
    ensures Units(toks, i + 1) == Units(toks, i) - 1 + toks[i].size
  {
    assert Units(toks, i) >= 1;
  }
}
