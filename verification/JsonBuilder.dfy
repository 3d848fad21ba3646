/** The JSON printer: a fixed buffer, sticky overflow and one comma flag per nesting level. */
module JsonBuilder {
  import opened JsonText
  import opened JsonEscape

  // ---- Documents and their canonical text ---------------------------------------------

  datatype Doc = DNull | DBool(b: bool) | DInt(n: int) | DStr(s: string) | DArr(items: Docs) | DObj(pairs: Pairs)

  datatype Docs = NoDocs | Docs(head: Doc, tail: Docs)

  datatype Pairs = NoPairs | Pairs(key: string, value: Doc, tail: Pairs)

  function Digits(n: nat): (s: string)
    ensures s != "" && forall i :: 0 <= i < |s| ==> '0' <= s[i] <= '9'
  {
    var d := ['0' + (n % 10) as char];
    if n < 10 then d else Digits(n / 10) + d
  }

  function Decimal(n: int): (s: string)
    ensures IsPrimText(s)
  {
    if n < 0 then "-" + Digits(-n) else Digits(n)
  }

  /** A document as JSON text without white space. */
  function ToJson(d: Doc): Json {
    match d
    case DNull => Prim("null")
    case DBool(b) => Prim(if b then "true" else "false")
    case DInt(n) => Prim(Decimal(n))
    case DStr(s) => Str(Escape(s, false))
    case DArr(items) => Arr("", ToElems(items))
    case DObj(pairs) => Obj("", ToMembers(pairs))
  }

  function ToElems(ds: Docs): Elems {
    match ds
    case NoDocs => ENil
    case Docs(d, rest) => ECons("", ToJson(d), "", ToElems(rest))
  }

  function ToMembers(ps: Pairs): Members {
    match ps
    case NoPairs => MNil
    case Pairs(k, d, rest) => MCons("", Escape(k, false), "", "", ToJson(d), "", ToMembers(rest))
  }

  lemma {:induction false} ToJsonWellFormed(d: Doc)
    ensures WellFormed(ToJson(d))
    decreases d
  {
    match d
    case DNull =>
    case DBool(_) =>
    case DInt(_) =>
    case DStr(s) => EscapeRoundTrip(s, false);
    case DArr(items) => ToElemsWellFormed(items);
    case DObj(pairs) => ToMembersWellFormed(pairs);
  }

  lemma {:induction false} ToElemsWellFormed(ds: Docs)
    ensures WellFormedElems(ToElems(ds))
    decreases ds
  {
    if ds.Docs? {
      ToJsonWellFormed(ds.head);
      ToElemsWellFormed(ds.tail);
    }
  }

  lemma {:induction false} ToMembersWellFormed(ps: Pairs)
    ensures WellFormedMembers(ToMembers(ps))
    decreases ps
  {
    if ps.Pairs? {
      EscapeRoundTrip(ps.key, false);
      ToJsonWellFormed(ps.value);
      ToMembersWellFormed(ps.tail);
    }
  }

  // ---- What the builder writes, by nesting level --------------------------------------

  /** need_comma is a uint16_t: levels 0 to 15 have a flag, deeper ones do not. */
  const MAX_FLAG := 15

  function Quoted(s: string): string {
    "\"" + Escape(s, false) + "\""
  }

  /** The calls for `d` made at nesting level `l`, a leading comma apart. */
  function Written(d: Doc, l: nat): string {
    match d
    case DNull => "null"
    case DBool(b) => if b then "true" else "false"
    case DInt(n) => Decimal(n)
    case DStr(s) => Quoted(s)
    case DArr(items) => "[" + WrittenItems(items, l + 1, false) + "]"
    case DObj(pairs) => "{" + WrittenPairs(pairs, l + 1, false) + "}"
  }

  function WrittenItems(ds: Docs, l: nat, comma: bool): string {
    match ds
    case NoDocs => ""
    case Docs(d, rest) =>
      (if comma then "," else "") + Written(d, l) + WrittenItems(rest, l, l <= MAX_FLAG)
  }

  function PairHead(key: string, comma: bool): string {
    (if comma then "," else "") + Quoted(key) + ":"
  }

  function WrittenPairs(ps: Pairs, l: nat, comma: bool): string {
    match ps
    case NoPairs => ""
    case Pairs(k, d, rest) =>
      PairHead(k, comma) + Written(d, l) + WrittenPairs(rest, l, l <= MAX_FLAG)
  }

  lemma WrittenContainer(d: Doc, l: nat)
    ensures d.DArr? ==> Written(d, l) == "[" + WrittenItems(d.items, l + 1, false) + "]"
    ensures d.DObj? ==> Written(d, l) == "{" + WrittenPairs(d.pairs, l + 1, false) + "}"
  {
  }

  lemma PairsStep(ps: Pairs, l: nat, comma: bool)
    ensures WrittenPairs(ps, l, comma) ==
              if ps.NoPairs? then ""
              else PairHead(ps.key, comma) + Written(ps.value, l) + WrittenPairs(ps.tail, l, l <= MAX_FLAG)
  {
    hide Quoted, Written;
  }

  function Max(a: nat, b: nat): nat { if a < b then b else a }

  /** How many levels a document opens. */
  function Height(d: Doc): nat {
    match d
    case DArr(items) => 1 + ItemsHeight(items)
    case DObj(pairs) => 1 + PairsHeight(pairs)
    case _ => 0
  }

  function ItemsHeight(ds: Docs): nat {
    match ds
    case NoDocs => 0
    case Docs(d, rest) => Max(Height(d), ItemsHeight(rest))
  }

  function PairsHeight(ps: Pairs): nat {
    match ps
    case NoPairs => 0
    case Pairs(_, d, rest) => Max(Height(d), PairsHeight(rest))
  }

  /** Some container below the last flagged level holds two or more items. */
  predicate Crowded(d: Doc, l: nat) {
    match d
    case DArr(items) => CrowdedItems(items, l + 1)
    case DObj(pairs) => CrowdedPairs(pairs, l + 1)
    case _ => false
  }

  predicate CrowdedItems(ds: Docs, l: nat) {
    ds.Docs? && ((l > MAX_FLAG && ds.tail.Docs?) || Crowded(ds.head, l) || CrowdedItems(ds.tail, l))
  }

  predicate CrowdedPairs(ps: Pairs, l: nat) {
    ps.Pairs? && ((l > MAX_FLAG && ps.tail.Pairs?) || Crowded(ps.value, l) || CrowdedPairs(ps.tail, l))
  }

  // ---- Exactly when that is the canonical text ----------------------------------------

  /** `w` is `t`, or strictly shorter, as `lossy` says. */
  predicate Match(w: string, t: string, lossy: bool) {
    if lossy then |w| < |t| else w == t
  }

  lemma MatchConcat(w1: string, t1: string, l1: bool, w2: string, t2: string, l2: bool)
    requires Match(w1, t1, l1) && Match(w2, t2, l2)
    ensures Match(w1 + w2, t1 + t2, l1 || l2)
  {
  }

  lemma {:induction false} WrittenCases(d: Doc, l: nat)
    ensures Match(Written(d, l), Text(ToJson(d)), Crowded(d, l))
    decreases d
  {
    match d
    case DNull =>
    case DBool(_) =>
    case DInt(_) =>
    case DStr(_) =>
    case DArr(items) =>
      ItemsCases(items, l + 1);
      ArrayParts(items, l);
      MatchConcat("[", "[", false, WrittenItems(items, l + 1, false) + "]", ElemsText(ToElems(items)),
          CrowdedItems(items, l + 1));
    case DObj(pairs) =>
      PairsCases(pairs, l + 1);
      ObjectParts(pairs, l);
      MatchConcat("{", "{", false, WrittenPairs(pairs, l + 1, false) + "}", MembersText(ToMembers(pairs)),
          CrowdedPairs(pairs, l + 1));
  }

  lemma ArrayParts(items: Docs, l: nat)
    ensures Text(ToJson(DArr(items))) == "[" + ElemsText(ToElems(items))
    ensures Written(DArr(items), l) == "[" + (WrittenItems(items, l + 1, false) + "]")
  {
    hide ElemsText, ToElems, WrittenItems;
  }

  lemma ObjectParts(pairs: Pairs, l: nat)
    ensures Text(ToJson(DObj(pairs))) == "{" + MembersText(ToMembers(pairs))
    ensures Written(DObj(pairs), l) == "{" + (WrittenPairs(pairs, l + 1, false) + "}")
  {
    hide MembersText, ToMembers, WrittenPairs;
  }

  lemma {:induction false} ItemsCases(ds: Docs, l: nat)
    ensures Match(WrittenItems(ds, l, false) + "]", ElemsText(ToElems(ds)), CrowdedItems(ds, l))
    decreases ds
  {
    hide *;
    if ds.NoDocs? {
      NoItems(l);
    } else {
      WrittenCases(ds.head, l);
      ItemsCases(ds.tail, l);
      FirstItem(ds, l);
      CanonItem(ds);
      ItemsCrowding(ds, l);
      MatchList("", Written(ds.head, l), Text(ToJson(ds.head)), Crowded(ds.head, l), ds.tail.Docs?, l > MAX_FLAG,
                WrittenItems(ds.tail, l, false), "]", ElemsText(ToElems(ds.tail)), CrowdedItems(ds.tail, l));
    }
  }

  /** One item, a separator that level `l` may lose, and the rest of the list. */
  lemma MatchList(key: string, w: string, t: string, lw: bool, more: bool, deep: bool,
                  rest: string, close: string, rt: string, lr: bool)
    requires Match(w, t, lw) && Match(rest + close, rt, lr)
    ensures Match((key + w + (if more && !deep then "," else "") + rest) + close,
                  key + (t + ((if more then "," else "") + rt)),
                  (deep && more) || lw || lr)
  {
    var c, c' := if more && !deep then "," else "", if more then "," else "";
    assert (key + w + c + rest) + close == key + (w + (c + (rest + close)));
  }

  lemma NoItems(l: nat)
    ensures Match(WrittenItems(NoDocs, l, false) + "]", ElemsText(ToElems(NoDocs)), CrowdedItems(NoDocs, l))
  {
  }

  lemma ItemsCrowding(ds: Docs, l: nat)
    requires ds.Docs?
    ensures CrowdedItems(ds, l) <==> (l > MAX_FLAG && ds.tail.Docs?) || Crowded(ds.head, l) || CrowdedItems(ds.tail, l)
  {
  }

  lemma CanonItem(ds: Docs)
    requires ds.Docs?
    ensures ElemsText(ToElems(ds))
         == "" + (Text(ToJson(ds.head)) + ((if ds.tail.Docs? then "," else "") + ElemsText(ToElems(ds.tail))))
  {
    hide Text, ToJson;
    assert AfterElem(ToElems(ds.tail)) == (if ds.tail.Docs? then "," else "") + ElemsText(ToElems(ds.tail));
  }

  /** A leading comma is all that separates the rest of a list from the list itself. */
  lemma FirstItem(ds: Docs, l: nat)
    requires ds.Docs?
    ensures WrittenItems(ds, l, false)
         == "" + Written(ds.head, l) + (if ds.tail.Docs? && !(l > MAX_FLAG) then "," else "")
            + WrittenItems(ds.tail, l, false)
  {
    hide Written;
    if ds.tail.Docs? {
      var r := ds.tail;
      var x, y := Written(r.head, l), WrittenItems(r.tail, l, l <= MAX_FLAG);
      assert WrittenItems(r, l, false) == x + y;
      assert WrittenItems(r, l, true) == "," + x + y;
    }
  }

  lemma {:induction false} PairsCases(ps: Pairs, l: nat)
    ensures Match(WrittenPairs(ps, l, false) + "}", MembersText(ToMembers(ps)), CrowdedPairs(ps, l))
    decreases ps
  {
    hide *;
    if ps.NoPairs? {
      NoMembers(l);
    } else {
      WrittenCases(ps.value, l);
      PairsCases(ps.tail, l);
      FirstPairWritten(ps, l);
      CanonPair(ps);
      PairsCrowding(ps, l);
      MatchList(Quoted(ps.key) + ":", Written(ps.value, l), Text(ToJson(ps.value)), Crowded(ps.value, l),
                ps.tail.Pairs?, l > MAX_FLAG, WrittenPairs(ps.tail, l, false), "}", MembersText(ToMembers(ps.tail)),
                CrowdedPairs(ps.tail, l));
    }
  }

  lemma NoMembers(l: nat)
    ensures Match(WrittenPairs(NoPairs, l, false) + "}", MembersText(ToMembers(NoPairs)), CrowdedPairs(NoPairs, l))
  {
  }

  lemma PairsCrowding(ps: Pairs, l: nat)
    requires ps.Pairs?
    ensures CrowdedPairs(ps, l) <==>
              (l > MAX_FLAG && ps.tail.Pairs?) || Crowded(ps.value, l) || CrowdedPairs(ps.tail, l)
  {
  }

  lemma Regroup(a: string, b: string, c: string, d: string)
    ensures (a + b) + c + d == a + (b + c + d) && a + b + (c + d) == a + b + c + d
    ensures a + ((b + c) + d) == ((a + b) + c) + d
  {
  }

  lemma HeadComma(key: string)
    ensures PairHead(key, false) == Quoted(key) + ":" && PairHead(key, true) == "," + PairHead(key, false)
  {
    hide Quoted;
  }

  lemma CommaFirst(ps: Pairs, l: nat)
    requires ps.Pairs?
    ensures WrittenPairs(ps, l, true) == "," + WrittenPairs(ps, l, false)
  {
    hide Written, PairHead, WrittenPairs;
    PairsStep(ps, l, false);
    PairsStep(ps, l, true);
    HeadComma(ps.key);
    Regroup(",", PairHead(ps.key, false), Written(ps.value, l), WrittenPairs(ps.tail, l, l <= MAX_FLAG));
  }

  lemma FirstPairWritten(ps: Pairs, l: nat)
    requires ps.Pairs?
    ensures WrittenPairs(ps, l, false)
         == (Quoted(ps.key) + ":") + Written(ps.value, l)
            + (if ps.tail.Pairs? && !(l > MAX_FLAG) then "," else "") + WrittenPairs(ps.tail, l, false)
  {
    hide Written, Quoted, PairHead, WrittenPairs;
    PairsStep(ps, l, false);
    HeadComma(ps.key);
    var head, value, rest := PairHead(ps.key, false), Written(ps.value, l), WrittenPairs(ps.tail, l, false);
    if ps.tail.Pairs? && l <= MAX_FLAG {
      CommaFirst(ps.tail, l);
      Regroup(head, value, ",", rest);
    } else {
      PairsStep(ps.tail, l, true);
      PairsStep(ps.tail, l, false);
      assert head + value + "" == head + value;
    }
  }

  lemma CanonPair(ps: Pairs)
    requires ps.Pairs?
    ensures MembersText(ToMembers(ps))
         == (Quoted(ps.key) + ":")
            + (Text(ToJson(ps.value)) + ((if ps.tail.Pairs? then "," else "") + MembersText(ToMembers(ps.tail))))
  {
    hide Text, ToJson, Escape, MembersText, AfterPair;
    var k, v, more := Escape(ps.key, false), Text(ToJson(ps.value)), AfterPair(ToMembers(ps.tail));
    CanonParts(ps);
    var q := "\"";
    Regroup(q, k, q, ":" + (v + more));
    Regroup(q + k, q, ":", v + more);
  }

  lemma CanonParts(ps: Pairs)
    requires ps.Pairs?
    ensures var k, v, more := Escape(ps.key, false), Text(ToJson(ps.value)), AfterPair(ToMembers(ps.tail));
            && MembersText(ToMembers(ps)) == "\"" + ((k + "\"") + (":" + (v + more)))
            && more == (if ps.tail.Pairs? then "," else "") + MembersText(ToMembers(ps.tail))
  {
    hide Text, ToJson, Escape;
  }

  /** The builder writes a document's canonical text if and only if no container on level 16 or
      deeper holds two items; otherwise commas are missing. */
  lemma CanonicalIff(d: Doc)
    ensures Written(d, 0) == Text(ToJson(d)) <==> !Crowded(d, 0)
  {
    WrittenCases(d, 0);
  }

  /** In particular for everything nested at most 15 deep. */
  lemma {:induction false} ShallowNotCrowded(d: Doc, l: nat)
    requires l + Height(d) <= MAX_FLAG
    ensures !Crowded(d, l)
    decreases d
  {
    match d
    case DArr(items) => ShallowItems(items, l + 1);
    case DObj(pairs) => ShallowPairs(pairs, l + 1);
    case _ =>
  }

  lemma {:induction false} ShallowItems(ds: Docs, l: nat)
    requires l + ItemsHeight(ds) <= MAX_FLAG
    ensures !CrowdedItems(ds, l)
    decreases ds
  {
    if ds.Docs? {
      ShallowNotCrowded(ds.head, l);
      ShallowItems(ds.tail, l);
    }
  }

  lemma {:induction false} ShallowPairs(ps: Pairs, l: nat)
    requires l + PairsHeight(ps) <= MAX_FLAG
    ensures !CrowdedPairs(ps, l)
    decreases ps
  {
    if ps.Pairs? {
      ShallowNotCrowded(ps.value, l);
      ShallowPairs(ps.tail, l);
    }
  }

  /** `k` arrays around a pair of nulls. */
  function Nest(k: nat): Doc {
    if k == 0 then DArr(Docs(DNull, Docs(DNull, NoDocs))) else DArr(Docs(Nest(k - 1), NoDocs))
  }

  lemma {:induction false} NestCrowded(k: nat, l: nat)
    ensures Crowded(Nest(k), l) <==> l + k + 1 > MAX_FLAG
  {
    if k == 0 {
      var one := Docs(DNull, NoDocs);
      assert !CrowdedItems(one, l + 1);
      assert CrowdedItems(Docs(DNull, one), l + 1) <==> l + 1 > MAX_FLAG;
    } else {
      NestCrowded(k - 1, l + 1);
      var items := Docs(Nest(k - 1), NoDocs);
      assert CrowdedItems(items, l + 1) <==> Crowded(Nest(k - 1), l + 1);
    }
  }

  /** Sixteen levels are one too many: the innermost comma is lost. */
  lemma SixteenDeepLosesComma()
    ensures Height(Nest(15)) == 16 && Written(Nest(15), 0) != Text(ToJson(Nest(15)))
  {
    NestCrowded(15, 0);
    CanonicalIff(Nest(15));
    NestHeight(15);
  }

  lemma {:induction false} NestHeight(k: nat)
    ensures Height(Nest(k)) == k + 1
  {
    if k == 0 {
      assert ItemsHeight(Docs(DNull, Docs(DNull, NoDocs))) == 0;
    } else {
      NestHeight(k - 1);
      assert ItemsHeight(Docs(Nest(k - 1), NoDocs)) == Height(Nest(k - 1));
    }
  }

  // ---- The builder object -------------------------------------------------------------

  class Builder {
    var buf: array<char>
    var pos: nat
    var overflow: bool
    /** need_comma, bit by bit. */
    var needComma: seq<bool>
    var depth: int
    /** Everything the calls so far meant to write. */
    ghost var out: string

    ghost predicate Valid()
      reads this, buf
    {
      && |needComma| == MAX_FLAG + 1
      && (if buf.Length == 0 then pos == 0 else pos < buf.Length && buf[pos] == '\0')
      && (if overflow then buf[..pos] <= out && buf.Length <= |out| else buf[..pos] == out)
    }

    /** `1u << l` kept in sixteen bits. */
    predicate Flag(l: int)
      reads this
    {
      0 <= l < |needComma| && needComma[l]
    }

    constructor (buf: array<char>)
      modifies buf
      ensures Valid() && this.buf == buf && out == "" && depth == 0 && !overflow
      ensures forall l :: !Flag(l)
    {
      this.buf := buf;
      pos, overflow, depth, out := 0, false, 0, "";
      needComma := seq(MAX_FLAG + 1, _ => false);
      new;
      if buf.Length > 0 {
        buf[0] := '\0';
      }
    }

    method Putc(c: char)
      requires Valid()
      modifies this`pos, this`overflow, this`out, buf
      ensures Valid() && out == old(out) + [c]
    {
      out := out + [c];
      if overflow {
        return;
      }
      if pos + 1 >= buf.Length {
        overflow := true;
        return;
      }
      buf[pos] := c;
      pos := pos + 1;
      buf[pos] := '\0';
    }

    method Puts(s: string)
      requires Valid() && s != ""
      modifies this`pos, this`overflow, this`out, buf
      ensures Valid() && out == old(out) + s
    {
      out := out + s;
      if overflow {
        return;
      }
      if pos + |s| >= buf.Length {
        overflow := true;
        return;
      }
      CopyInto(buf, pos, s);
      pos := pos + |s|;
      buf[pos] := '\0';
      assert buf[..pos] == out;
    }

    method SetFlag(on: bool)
      requires |needComma| == MAX_FLAG + 1 && 0 <= depth
      modifies this`needComma
      ensures |needComma| == MAX_FLAG + 1
      ensures needComma == if depth <= MAX_FLAG then old(needComma)[depth := on] else old(needComma)
    {
      if depth <= MAX_FLAG {
        needComma := needComma[depth := on];
      }
    }

    /** The comma due before the next value. */
    ghost function Lead(): string
      reads this
    {
      if depth > 0 && Flag(depth) then "," else ""
    }

    method Sep()
      requires Valid() && 0 <= depth
      modifies this`pos, this`overflow, this`out, this`needComma, buf
      ensures Valid() && out == old(out) + old(Lead())
      ensures needComma == if depth <= MAX_FLAG then old(needComma)[depth := true] else old(needComma)
    {
      if depth > 0 && Flag(depth) {
        Putc(',');
      }
      SetFlag(true);
    }

    method Begin(c: char)
      requires Valid() && 0 <= depth
      modifies this, buf
      ensures Valid() && buf == old(buf) && out == old(out) + old(Lead()) + [c]
      ensures depth == old(depth) + 1 && !Flag(depth)
      ensures forall l :: l < old(depth) ==> Flag(l) == old(Flag(l))
      ensures Flag(old(depth)) == (old(depth) <= MAX_FLAG)
    {
      Sep();
      Putc(c);
      depth := depth + 1;
      SetFlag(false);
    }

    method End(c: char)
      requires Valid() && 0 < depth
      modifies this, buf
      ensures Valid() && buf == old(buf) && out == old(out) + [c]
      ensures depth == old(depth) - 1
      ensures forall l :: l <= depth ==> Flag(l) == old(Flag(l))
    {
      SetFlag(false);
      depth := depth - 1;
      Putc(c);
    }

    /** jb_str: quotes, and each character escaped. */
    method Str(s: string)
      requires Valid() && 0 <= depth
      requires forall i :: 0 <= i < |s| ==> s[i] != '\0'
      modifies this`pos, this`overflow, this`out, this`needComma, buf
      ensures Valid() && out == old(out) + old(Lead()) + Quoted(s)
      ensures needComma == if depth <= MAX_FLAG then old(needComma)[depth := true] else old(needComma)
    {
      hide EscapeChar, Escape, Valid, Lead;
      Sep();
      Putc('"');
      ghost var base, flags := out, needComma;
      assert s[..0] == "";
      EscapeNothing();
      for i := 0 to |s|
        invariant Valid() && needComma == flags
        invariant out == base + Escape(s[..i], false)
      {
        assert s[..i + 1] == s[..i] + [s[i]];
        EscapeAppend(s[..i], s[i], false);
        Puts(EscapeChar(s[i], false));
      }
      assert s[..|s|] == s;
      Putc('"');
    }

    method Literal(text: string)
      requires Valid() && 0 <= depth && text != ""
      modifies this`pos, this`overflow, this`out, this`needComma, buf
      ensures Valid() && out == old(out) + old(Lead()) + text
      ensures needComma == if depth <= MAX_FLAG then old(needComma)[depth := true] else old(needComma)
    {
      Sep();
      Puts(text);
    }

    method Key(k: string)
      requires Valid() && 0 <= depth
      requires forall i :: 0 <= i < |k| ==> k[i] != '\0'
      modifies this`pos, this`overflow, this`out, this`needComma, buf
      ensures Valid() && out == old(out) + old(Lead()) + Quoted(k) + ":"
      ensures !Flag(depth) && forall l :: l < depth ==> Flag(l) == old(Flag(l))
    {
      Str(k);
      Putc(':');
      SetFlag(false);
    }

    /** The calls a caller makes for a whole document.  Beyond level 31 the shift of
        `1u` is not defined. */
    method Emit(d: Doc)
      requires Valid() && 0 <= depth && NoNul(d) && depth + Height(d) <= 31
      modifies this, buf
      ensures Valid() && buf == old(buf) && depth == old(depth)
      ensures out == old(out) + old(Lead()) + Written(d, depth)
      ensures forall l :: l < depth ==> Flag(l) == old(Flag(l))
      ensures Flag(depth) == (depth <= MAX_FLAG)
      decreases d, 1
    {
      if d.DArr? || d.DObj? {
        EmitContainer(d);
      } else {
        hide Valid, Escape, Decimal;
        match d {
          case DNull => Literal("null");
          case DBool(b) => Literal(if b then "true" else "false");
          case DInt(n) => Literal(Decimal(n));
          case DStr(s) => Str(s);
        }
      }
    }

    method EmitContainer(d: Doc)
      requires Valid() && 0 <= depth && NoNul(d) && (d.DArr? || d.DObj?) && depth + Height(d) <= 31
      modifies this, buf
      ensures Valid() && buf == old(buf) && depth == old(depth)
      ensures out == old(out) + old(Lead()) + Written(d, depth)
      ensures forall l :: l < depth ==> Flag(l) == old(Flag(l))
      ensures Flag(depth) == (depth <= MAX_FLAG)
      decreases d, 0
    {
      hide Valid, Flag, Lead, WrittenItems, WrittenPairs, NoNulItems, NoNulPairs, ItemsHeight, PairsHeight, Written;
      WrittenContainer(d, depth);
      if d.DArr? {
        Begin('[');
        EmitItems(d.items);
        End(']');
      } else {
        Begin('{');
        EmitPairs(d.pairs);
        End('}');
      }
    }

    method EmitItems(ds: Docs)
      requires Valid() && 0 < depth && NoNulItems(ds) && depth + ItemsHeight(ds) <= 31
      modifies this, buf
      ensures Valid() && buf == old(buf) && depth == old(depth)
      ensures out == old(out) + WrittenItems(ds, depth, old(Flag(depth)))
      ensures forall l :: l < depth ==> Flag(l) == old(Flag(l))
      decreases ds
    {
      hide Valid, Flag, Written, Height, NoNul;
      if ds.Docs? {
        Emit(ds.head);
        EmitItems(ds.tail);
      }
    }

    method EmitPair(ps: Pairs)
      requires ps.Pairs? && Valid() && 0 < depth && NoNulPairs(ps) && depth + PairsHeight(ps) <= 31
      modifies this, buf
      ensures Valid() && buf == old(buf) && depth == old(depth)
      ensures out == old(out) + (PairHead(ps.key, old(Flag(depth))) + Written(ps.value, depth))
      ensures Flag(depth) == (depth <= MAX_FLAG) && forall l :: l < depth ==> Flag(l) == old(Flag(l))
      decreases ps, 0
    {
      hide Valid, Flag, Written, Height, NoNul, Quoted;
      ghost var before, head := out, PairHead(ps.key, Flag(depth));
      Key(ps.key);
      assert out == before + head;
      Emit(ps.value);
      assert out == before + head + Written(ps.value, depth);
    }

    method EmitPairs(ps: Pairs)
      requires Valid() && 0 < depth && NoNulPairs(ps) && depth + PairsHeight(ps) <= 31
      modifies this, buf
      ensures Valid() && buf == old(buf) && depth == old(depth)
      ensures out == old(out) + WrittenPairs(ps, depth, old(Flag(depth)))
      ensures forall l :: l < depth ==> Flag(l) == old(Flag(l))
      decreases ps
    {
      hide Valid, Flag, Written, Height, NoNul, PairHead, WrittenPairs;
      PairsStep(ps, depth, Flag(depth));
      if ps.Pairs? {
        EmitPair(ps);
        EmitPairs(ps.tail);
      }
    }
  }

  lemma EscapeNothing()
    ensures Escape("", false) == ""
  {
  }

  /** C strings hold no NUL. */
  predicate NoNul(d: Doc) {
    match d
    case DStr(s) => forall i :: 0 <= i < |s| ==> s[i] != '\0'
    case DArr(items) => NoNulItems(items)
    case DObj(pairs) => NoNulPairs(pairs)
    case _ => true
  }

  predicate NoNulItems(ds: Docs) {
    ds.Docs? ==> NoNul(ds.head) && NoNulItems(ds.tail)
  }

  predicate NoNulPairs(ps: Pairs) {
    ps.Pairs? ==> (forall i :: 0 <= i < |ps.key| ==> ps.key[i] != '\0') && NoNul(ps.value) && NoNulPairs(ps.tail)
  }

  /** Printing into a buffer: all of the text and a NUL when it fits; otherwise the overflow mark
      and a NUL-terminated proper prefix. */
  method Print(d: Doc, buf: array<char>) returns (overflow: bool, len: nat)
    requires NoNul(d) && Height(d) <= 31
    modifies buf
    ensures overflow <==> buf.Length <= |Written(d, 0)|
    ensures len <= buf.Length && buf[..len] <= Written(d, 0)
    ensures !overflow ==> buf[..len] == Written(d, 0)
    ensures buf.Length > 0 ==> len < buf.Length && buf[len] == '\0'
  {
    var jb := new Builder(buf);
    jb.Emit(d);
    assert jb.out == Written(d, 0);
    WrittenNonEmpty(d);
    return jb.overflow, jb.pos;
  }

  lemma WrittenNonEmpty(d: Doc)
    ensures |Written(d, 0)| > 0
  {
  }
}
