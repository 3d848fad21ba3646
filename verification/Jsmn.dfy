/** The in-place JSON tokeniser: the pure machine it is specified by, and the object that
    runs it over a token array.  Neither JSMN_STRICT nor JSMN_PARENT_LINKS is compiled in. */
module Jsmn {
  import opened JsonText

  datatype Kind = Undefined | Object | Array | String | Primitive

  datatype Token = Token(kind: Kind, start: int, end: int, size: nat)

  datatype Error = NoMem | Inval | Part

  /** What the parser struct and the filled part of the token array hold between two characters. */
  datatype State = State(pos: nat, toks: seq<Token>, super: int)

  datatype Outcome = Count(n: nat, st: State) | Failed(error: Error, st: State)

  datatype Scan = Found(at: nat) | Stopped(error: Error, at: nat)

  datatype Status = Ok | Err(error: Error)

  datatype Step = Next(st: State) | Abort(error: Error, st: State)

  // ---- Scanning inside one token ------------------------------------------------------

  predicate EndsPrimitive(c: char) {
    c == ':' || c == ',' || c == ']' || c == '}' || IsSpace(c)
  }

  function ScanPrimitive(js: string, p: nat): (r: Scan)
    requires p <= |js|
    ensures p <= r.at <= |js|
    ensures p < |js| && !EndsPrimitive(js[p]) && js[p] != '\0' && r.Found? ==> p < r.at
    decreases |js| - p
  {
    if p == |js| || js[p] == '\0' || EndsPrimitive(js[p]) then Found(p)
    else if js[p] as int < 32 || js[p] as int >= 127 then Stopped(Inval, p)
    else ScanPrimitive(js, p + 1)
  }

  /** Up to `k` hex digits from `p`; running out of text is not an error here. */
  function ScanHex(js: string, p: nat, k: nat): (r: Scan)
    requires p <= |js|
    ensures p <= r.at <= |js|
    decreases k
  {
    if k == 0 || p == |js| then Found(p)
    else if !IsHex(js[p]) then Stopped(Inval, p)
    else ScanHex(js, p + 1, k - 1)
  }

  /** The closing quote of the string whose content continues at `p`. */
  function ScanString(js: string, p: nat): (r: Scan)
    requires p <= |js|
    ensures p <= r.at <= |js|
    ensures r.Found? ==> r.at < |js|
    decreases |js| - p
  {
    if p == |js| then Stopped(Part, p)
    else if js[p] == '"' then Found(p)
    else if js[p] == '\\' && p + 1 < |js| then
      if IsSimpleEscape(js[p + 1]) then ScanString(js, p + 2)
      else if js[p + 1] == 'u' then
        var h := ScanHex(js, p + 2, 4);
        if h.Found? then ScanString(js, h.at) else h
      else Stopped(Inval, p + 1)
    else ScanString(js, p + 1)
  }

  lemma ScanOver(js: string, p: nat)
    requires p < |js| && js[p] != '"'
    requires js[p] == '\\' ==> p + 1 == |js|
    ensures ScanString(js, p) == ScanString(js, p + 1)
  {
  }

  lemma ScanEnds(js: string, p: nat)
    requires p == |js| || (p < |js| && js[p] == '"')
    ensures ScanString(js, p) == if p == |js| then Stopped(Part, p) else Found(p)
  {
  }

  // ---- The flat token array -----------------------------------------------------------

  /** A container whose closing bracket has not been read. */
  predicate IsOpen(t: Token) {
    t.start != -1 && t.end == -1
  }

  predicate IsContainer(t: Token) {
    t.kind == Array || t.kind == Object
  }

  /** The highest index holding an open token, or -1. */
  function LastOpen(toks: seq<Token>): (i: int)
    ensures -1 <= i < |toks|
    ensures i >= 0 ==> IsOpen(toks[i])
    ensures forall j :: i < j < |toks| ==> !IsOpen(toks[j])
  {
    if toks == [] then -1
    else if IsOpen(toks[|toks| - 1]) then |toks| - 1
    else LastOpen(toks[..|toks| - 1])
  }

  /** The same search, restricted to arrays and objects. */
  function LastOpenContainer(toks: seq<Token>): (i: int)
    ensures -1 <= i < |toks|
    ensures i >= 0 ==> IsOpen(toks[i]) && IsContainer(toks[i])
    ensures forall j :: i < j < |toks| ==> !(IsOpen(toks[j]) && IsContainer(toks[j]))
  {
    if toks == [] then -1
    else if IsOpen(toks[|toks| - 1]) && IsContainer(toks[|toks| - 1]) then |toks| - 1
    else LastOpenContainer(toks[..|toks| - 1])
  }

  /** One more child for the superior token, if there is one. */
  function Bump(toks: seq<Token>, super: int): (r: seq<Token>)
    requires -1 <= super < |toks|
    ensures |r| == |toks|
  {
    if super == -1 then toks else toks[super := toks[super].(size := toks[super].size + 1)]
  }

  predicate ValidState(st: State) {
    -1 <= st.super < |st.toks|
  }

  // ---- One character of the main loop -------------------------------------------------

  function OpenStep(n: nat, st: State, kind: Kind): (r: Step)
    requires ValidState(st)
    ensures ValidState(r.st)
    ensures r.Next? ==> r.st.pos == st.pos + 1
  {
    if |st.toks| >= n then Abort(NoMem, st)
    else Next(State(st.pos + 1,
                    Bump(st.toks, st.super) + [Token(kind, st.pos, -1, 0)],
                    |st.toks|))
  }

  function CloseStep(st: State, kind: Kind): (r: Step)
    requires ValidState(st)
    ensures ValidState(r.st)
    ensures r.Next? ==> r.st.pos == st.pos + 1
  {
    var i := LastOpen(st.toks);
    if i == -1 then Abort(Inval, st)
    else if st.toks[i].kind != kind then Abort(Inval, st)
    else Next(State(st.pos + 1,
                    st.toks[i := st.toks[i].(end := st.pos + 1)],
                    LastOpen(st.toks[..i])))
  }

  /** A string or primitive token found by `scan`; `resume` is where the main loop goes on. */
  function LeafStep(n: nat, st: State, scan: Scan, kind: Kind, start: nat, resume: nat): (r: Step)
    requires ValidState(st)
    ensures ValidState(r.st)
    ensures r.Next? ==> r.st.pos == resume
  {
    match scan
    case Stopped(e, at) => Abort(e, st.(pos := at))
    case Found(at) =>
      if |st.toks| >= n then Abort(NoMem, st)
      else Next(State(resume, Bump(st.toks, st.super) + [Token(kind, start, at, 0)], st.super))
  }

  function CommaStep(st: State): (r: Step)
    requires ValidState(st)
    ensures ValidState(r.st)
    ensures r.Next? && r.st.pos == st.pos + 1 && r.st.toks == st.toks
  {
    if st.super != -1 && !IsContainer(st.toks[st.super]) && LastOpenContainer(st.toks) != -1 then
      Next(State(st.pos + 1, st.toks, LastOpenContainer(st.toks)))
    else Next(st.(pos := st.pos + 1))
  }

  function CharStep(js: string, n: nat, st: State): (r: Step)
    requires ValidState(st) && st.pos < |js| && js[st.pos] != '\0'
    ensures ValidState(r.st)
    ensures r.st.pos <= |js|
    ensures r.Next? ==> st.pos < r.st.pos
  {
    var c := js[st.pos];
    if c == '{' then OpenStep(n, st, Object)
    else if c == '[' then OpenStep(n, st, Array)
    else if c == '}' then CloseStep(st, Object)
    else if c == ']' then CloseStep(st, Array)
    else if c == '"' then
      var s := ScanString(js, st.pos + 1);
      LeafStep(n, st, s, String, st.pos + 1, s.at + 1)
    else if IsSpace(c) then Next(st.(pos := st.pos + 1))
    else if c == ':' then Next(State(st.pos + 1, st.toks, |st.toks| - 1))
    else if c == ',' then CommaStep(st)
    else
      var s := ScanPrimitive(js, st.pos);
      LeafStep(n, st, s, Primitive, st.pos, s.at)
  }

  /** The main loop and the final check that nothing is left open. */
  function Run(js: string, n: nat, st: State): (r: Outcome)
    requires ValidState(st) && st.pos <= |js|
    ensures ValidState(r.st)
    decreases |js| - st.pos
  {
    if st.pos == |js| || js[st.pos] == '\0' then
      if LastOpen(st.toks) != -1 then Failed(Part, st) else Count(|st.toks|, st)
    else
      match CharStep(js, n, st)
      case Abort(e, st') => Failed(e, st')
      case Next(st') => Run(js, n, st')
  }

  /** What the two leaf scanners owe the main loop: all of LeafStep but the count at the
      superior token, and the position one short of `resume` because the loop adds it. */
  ghost predicate LeafResult(r: Status, before: State, after: State, n: nat,
                             scan: Scan, kind: Kind, start: nat, resume: nat)
    requires ValidState(before)
  {
    var want := LeafStep(n, before, scan, kind, start, resume);
    && (r.Err? <==> want.Abort?)
    && (r.Err? ==> r.error == want.error && after == want.st)
    && (r.Ok? ==> && after.pos + 1 == resume
                  && after.toks == before.toks + [Token(kind, start, scan.at, 0)]
                  && after.super == before.super
                  && want.st == State(resume, Bump(after.toks, after.super), after.super))
  }

  const START := State(0, [], -1)

  // ---- The parser object --------------------------------------------------------------

  class Parser {
    var pos: nat
    var toknext: nat
    var toksuper: int

    constructor ()
      ensures pos == 0 && toknext == 0 && toksuper == -1
    {
      pos, toknext, toksuper := 0, 0, -1;
    }

    ghost predicate Valid(tokens: array<Token>)
      reads this
    {
      toknext <= tokens.Length && -1 <= toksuper < toknext
    }

    ghost function View(tokens: array<Token>): (st: State)
      requires Valid(tokens)
      reads this, tokens
    {
      State(pos, tokens[..toknext], toksuper)
    }

    /** Takes the next free slot; -1 stands for NULL. */
    method AllocToken(tokens: array<Token>) returns (i: int)
      requires Valid(tokens)
      modifies this`toknext, tokens
      ensures Valid(tokens)
      ensures old(toknext) == tokens.Length ==> i == -1 && View(tokens) == old(View(tokens))
      ensures old(toknext) < tokens.Length ==> i == old(toknext) && toknext == i + 1
      ensures i >= 0 ==> tokens[i].start == -1 && tokens[i].end == -1 && tokens[i].size == 0
      ensures i >= 0 ==> tokens[i + 1..] == old(tokens[toknext + 1..])
      ensures tokens[..old(toknext)] == old(tokens[..toknext])
    {
      if toknext >= tokens.Length {
        return -1;
      }
      i := toknext;
      toknext := toknext + 1;
      tokens[i] := Token(tokens[i].kind, -1, -1, 0);
    }

    /** Counts a child at the superior token. */
    method CountChild(tokens: array<Token>)
      requires Valid(tokens)
      modifies tokens
      ensures tokens[..toknext] == Bump(old(tokens[..toknext]), toksuper)
    {
      if toksuper != -1 {
        var t := tokens[toksuper];
        tokens[toksuper] := t.(size := t.size + 1);
      }
    }

    method ParsePrimitive(js: string, tokens: array<Token>) returns (r: Status)
      requires Valid(tokens) && pos < |js|
      requires js[pos] != '\0' && !EndsPrimitive(js[pos])
      modifies this`pos, this`toknext, tokens
      ensures Valid(tokens)
      ensures var scan := ScanPrimitive(js, old(pos));
              LeafResult(r, old(View(tokens)), View(tokens), tokens.Length, scan, Primitive, old(pos), scan.at)
    {
      var start := pos;
      ghost var was := tokens[..toknext];
      while pos < |js| && js[pos] != '\0' && !EndsPrimitive(js[pos])
        invariant start <= pos <= |js|
        invariant ScanPrimitive(js, pos) == ScanPrimitive(js, start)
        modifies this`pos
      {
        if js[pos] as int < 32 || js[pos] as int >= 127 {
          return Err(Inval);
        }
        pos := pos + 1;
      }
      assert ScanPrimitive(js, start) == Found(pos);
      hide ScanPrimitive, EndsPrimitive;
      var i := AllocToken(tokens);
      if i == -1 {
        pos := start;
        return Err(NoMem);
      }
      tokens[i] := Token(Primitive, start, pos, 0);
      assert tokens[..toknext] == was + [Token(Primitive, start, pos, 0)];
      pos := pos - 1;
      return Ok;
    }

    /** The character after a backslash, and the four hex digits after a `u`; leaves the
        position on the last character of the escape. */
    method SkipEscape(js: string) returns (ok: bool)
      requires pos + 1 < |js| && js[pos] == '\\'
      modifies this`pos
      ensures pos <= |js|
      ensures ok ==> old(pos) < pos + 1 <= |js| && ScanString(js, pos + 1) == ScanString(js, old(pos))
      ensures !ok ==> ScanString(js, old(pos)) == Stopped(Inval, pos)
    {
      pos := pos + 1;
      if IsSimpleEscape(js[pos]) {
      } else if js[pos] == 'u' {
        pos := pos + 1;
        var i, from := 0, pos;
        while i < 4 && pos < |js|
          invariant 0 <= i <= 4 && from <= pos <= |js|
          invariant ScanHex(js, pos, 4 - i) == ScanHex(js, from, 4)
        {
          if !IsHex(js[pos]) {
            return false;
          }
          i, pos := i + 1, pos + 1;
        }
        pos := pos - 1;
      } else {
        return false;
      }
      return true;
    }

    method ParseString(js: string, tokens: array<Token>) returns (r: Status)
      requires Valid(tokens) && pos < |js|
      modifies this`pos, this`toknext, tokens
      ensures Valid(tokens)
      ensures var scan := ScanString(js, old(pos) + 1);
              LeafResult(r, old(View(tokens)), View(tokens), tokens.Length, scan, String, old(pos) + 1, scan.at + 1)
    {
      hide ScanString;
      var start := pos;
      ghost var was := tokens[..toknext];
      pos := pos + 1;
      while pos < |js| && js[pos] != '"'
        invariant start < pos <= |js|
        invariant ScanString(js, pos) == ScanString(js, start + 1)
        modifies this`pos
      {
        if js[pos] == '\\' && pos + 1 < |js| {
          var ok := SkipEscape(js);
          if !ok {
            return Err(Inval);
          }
        } else {
          ScanOver(js, pos);
        }
        pos := pos + 1;
      }
      ScanEnds(js, pos);
      if pos == |js| {
        return Err(Part);
      }
      var i := AllocToken(tokens);
      if i == -1 {
        pos := start;
        return Err(NoMem);
      }
      tokens[i] := Token(String, start + 1, pos, 0);
      assert tokens[..toknext] == was + [Token(String, start + 1, pos, 0)];
      return Ok;
    }

    /** An opening bracket: a new open token, counted by its superior and superior from now on. */
    method OpenContainer(tokens: array<Token>, kind: Kind) returns (ok: bool)
      requires Valid(tokens)
      modifies this`toknext, this`toksuper, tokens
      ensures Valid(tokens)
      ensures ok <==> OpenStep(tokens.Length, old(View(tokens)), kind).Next?
      ensures !ok ==> View(tokens) == old(View(tokens))
      ensures ok ==> View(tokens).(pos := pos + 1) == OpenStep(tokens.Length, old(View(tokens)), kind).st
    {
      ghost var was := tokens[..toknext];
      var i := AllocToken(tokens);
      if i == -1 {
        return false;
      }
      CountChild(tokens);
      tokens[i] := Token(kind, pos, -1, 0);
      assert tokens[..toknext] == Bump(was, toksuper) + [Token(kind, pos, -1, 0)];
      toksuper := toknext - 1;
      return true;
    }

    /** A closing bracket: close the innermost open token, then find the one around it. */
    method CloseContainer(tokens: array<Token>, kind: Kind) returns (ok: bool)
      requires Valid(tokens)
      modifies this`toksuper, tokens
      ensures Valid(tokens)
      ensures ok <==> CloseStep(old(View(tokens)), kind).Next?
      ensures !ok ==> View(tokens) == old(View(tokens))
      ensures ok ==> View(tokens).(pos := pos + 1) == CloseStep(old(View(tokens)), kind).st
    {
      ghost var was := tokens[..toknext];
      var i := toknext - 1;
      while i >= 0 && !IsOpen(tokens[i])
        invariant -1 <= i < toknext && toksuper == old(toksuper)
        invariant tokens[..toknext] == was
        invariant forall j :: i < j < toknext ==> !IsOpen(was[j])
      {
        i := i - 1;
      }
      LastOpenIs(was, i);
      if i == -1 || tokens[i].kind != kind {
        return false;
      }
      toksuper := -1;
      tokens[i] := tokens[i].(end := pos + 1);
      ghost var closed := i;
      i := i - 1;
      while i >= 0
        invariant -1 <= i < closed && toksuper == -1
        invariant tokens[..toknext] == was[closed := was[closed].(end := pos + 1)]
        invariant forall j :: i < j < closed ==> !IsOpen(was[j])
      {
        if IsOpen(tokens[i]) {
          toksuper := i;
          break;
        }
        i := i - 1;
      }
      LastOpenIs(was[..closed], i);
      return true;
    }

    /** A comma after the value of a pair: back to the object around it. */
    method Comma(tokens: array<Token>)
      requires Valid(tokens)
      modifies this`toksuper
      ensures Valid(tokens)
      ensures View(tokens).(pos := pos + 1) == CommaStep(old(View(tokens))).st
    {
      if toksuper != -1 && !IsContainer(tokens[toksuper]) {
        ghost var was := tokens[..toknext];
        var i := toknext - 1;
        while i >= 0
          invariant -1 <= i < toknext
          invariant toksuper == old(toksuper)
          invariant forall j :: i < j < toknext ==> !(IsOpen(was[j]) && IsContainer(was[j]))
        {
          if IsContainer(tokens[i]) && IsOpen(tokens[i]) {
            toksuper := i;
            break;
          }
          i := i - 1;
        }
        LastOpenContainerIs(was, i);
      }
    }

    /** The switch of the main loop; `counted` is what it adds to the return value. */
    method ParseChar(js: string, tokens: array<Token>) returns (r: Status, counted: nat)
      requires Valid(tokens) && pos < |js| && js[pos] != '\0'
      modifies this, tokens
      ensures Valid(tokens)
      ensures r.Err? <==> CharStep(js, tokens.Length, old(View(tokens))).Abort?
      ensures r.Err? ==> && r.error == CharStep(js, tokens.Length, old(View(tokens))).error
                         && View(tokens) == CharStep(js, tokens.Length, old(View(tokens))).st
      ensures r.Ok? ==> View(tokens).(pos := pos + 1) == CharStep(js, tokens.Length, old(View(tokens))).st
      ensures r.Ok? ==> toknext == old(toknext) + counted
    {
      hide ScanString, ScanPrimitive, LastOpen, LastOpenContainer;
      var c := js[pos];
      r, counted := Ok, 0;
      if c == '{' || c == '[' {
        counted := 1;
        var ok := OpenContainer(tokens, if c == '{' then Object else Array);
        if !ok {
          return Err(NoMem), 0;
        }
      } else if c == '}' || c == ']' {
        var ok := CloseContainer(tokens, if c == '}' then Object else Array);
        if !ok {
          return Err(Inval), 0;
        }
      } else if c == '"' {
        r := ParseString(js, tokens);
        if r.Err? {
          return;
        }
        counted := 1;
        CountChild(tokens);
      } else if IsSpace(c) {
      } else if c == ':' {
        toksuper := toknext - 1;
      } else if c == ',' {
        Comma(tokens);
      } else {
        r := ParsePrimitive(js, tokens);
        if r.Err? {
          return;
        }
        counted := 1;
        CountChild(tokens);
      }
    }

    /** jsmn_parse over a caller's token array; a negative count reports `error`. */
    method Parse(js: string, tokens: array<Token>) returns (count: int, error: Error)
      requires Valid(tokens) && pos <= |js|
      modifies this, tokens
      ensures Valid(tokens)
      ensures View(tokens) == Run(js, tokens.Length, old(View(tokens))).st
      ensures count >= 0 <==> Run(js, tokens.Length, old(View(tokens))).Count?
      ensures count >= 0 ==> count == toknext == Run(js, tokens.Length, old(View(tokens))).n
      ensures count < 0 ==> error == Run(js, tokens.Length, old(View(tokens))).error
    {
      hide CharStep, LastOpen;
      error := Inval;
      count := toknext;
      while pos < |js| && js[pos] != '\0'
        invariant Valid(tokens) && pos <= |js|
        invariant count == toknext
        invariant Run(js, tokens.Length, View(tokens)) == Run(js, tokens.Length, old(View(tokens)))
        decreases |js| - pos
      {
        var r, counted := ParseChar(js, tokens);
        if r.Err? {
          return -1, r.error;
        }
        count := count + counted;
        pos := pos + 1;
      }
      var closed := AllClosed(tokens);
      if !closed {
        return -1, Part;
      }
    }

    method AllClosed(tokens: array<Token>) returns (closed: bool)
      requires Valid(tokens)
      ensures closed <==> LastOpen(View(tokens).toks) == -1
    {
      ghost var was := tokens[..toknext];
      var i := toknext - 1;
      while i >= 0
        invariant -1 <= i < toknext
        invariant forall j :: i < j < toknext ==> !IsOpen(was[j])
      {
        if IsOpen(tokens[i]) {
          LastOpenIs(was, i);
          return false;
        }
        i := i - 1;
      }
      LastOpenIs(was, -1);
      return true;
    }
  }

  // ---- The two searches are what the loops compute ------------------------------------

  lemma LastOpenIs(toks: seq<Token>, i: int)
    requires -1 <= i < |toks|
    requires i >= 0 ==> IsOpen(toks[i])
    requires forall j :: i < j < |toks| ==> !IsOpen(toks[j])
    ensures LastOpen(toks) == i
  {
    var _ := LastOpen(toks);
  }

  lemma LastOpenContainerIs(toks: seq<Token>, i: int)
    requires -1 <= i < |toks|
    requires i >= 0 ==> IsOpen(toks[i]) && IsContainer(toks[i])
    requires forall j :: i < j < |toks| ==> !(IsOpen(toks[j]) && IsContainer(toks[j]))
    ensures LastOpenContainer(toks) == i
  {
    var _ := LastOpenContainer(toks);
  }
}
