/** Concrete JSON text as a tree: what a well-formed message looks like, what its
    characters are, and how many tokens it holds.  Independent of the tokeniser. */
module JsonText {

  /** A JSON value together with the white space written inside it.  `raw` and `key` are the
      characters between the quotes, escapes included. */
  datatype Json =
    | Prim(text: string)
    | Str(raw: string)
    | Arr(ws: string, elems: Elems)
    | Obj(ws: string, members: Members)

  datatype Elems = ENil | ECons(pre: string, value: Json, post: string, rest: Elems)

  datatype Members =
    | MNil
    | MCons(pre: string, key: string, mid: string, gap: string, value: Json, post: string, rest: Members)

  predicate IsSpace(c: char) {
    c == ' ' || c == '\t' || c == '\r' || c == '\n'
  }

  predicate AllSpace(s: string) {
    forall i :: 0 <= i < |s| ==> IsSpace(s[i])
  }

  predicate IsHex(c: char) {
    '0' <= c <= '9' || 'A' <= c <= 'F' || 'a' <= c <= 'f'
  }

  /** The characters that may follow a backslash, `u` aside. */
  predicate IsSimpleEscape(c: char) {
    c == '"' || c == '/' || c == '\\' || c == 'b' || c == 'f' || c == 'r' || c == 'n' || c == 't'
  }

  /** String content: no bare quote or backslash, every escape complete. */
  predicate IsRaw(s: string) {
    if s == "" then true
    else if s[0] == '"' then false
    else if s[0] != '\\' then IsRaw(s[1..])
    else if |s| < 2 then false
    else if IsSimpleEscape(s[1]) then IsRaw(s[2..])
    else s[1] == 'u' && |s| >= 6 && (forall i :: 2 <= i < 6 ==> IsHex(s[i])) && IsRaw(s[6..])
  }

  predicate IsPrimChar(c: char) {
    32 < c as int < 127 && c != ':' && c != ',' && c != ']' && c != '}'
  }

  /** A number or a literal.  Only the characters matter to the tokeniser, so this covers
      every RFC 8259 number, `true`, `false` and `null`, and more. */
  predicate IsPrimText(s: string) {
    && s != ""
    && s[0] != '{' && s[0] != '[' && s[0] != '"'
    && forall i :: 0 <= i < |s| ==> IsPrimChar(s[i])
  }

  predicate WellFormed(v: Json) {
    match v
    case Prim(text) => IsPrimText(text)
    case Str(raw) => IsRaw(raw)
    case Arr(ws, elems) => AllSpace(ws) && WellFormedElems(elems)
    case Obj(ws, members) => AllSpace(ws) && WellFormedMembers(members)
  }

  predicate WellFormedElems(es: Elems) {
    match es
    case ENil => true
    case ECons(pre, v, post, rest) =>
      AllSpace(pre) && WellFormed(v) && AllSpace(post) && WellFormedElems(rest)
  }

  predicate WellFormedMembers(ms: Members) {
    match ms
    case MNil => true
    case MCons(pre, key, mid, gap, v, post, rest) =>
      && AllSpace(pre) && IsRaw(key) && AllSpace(mid) && AllSpace(gap)
      && WellFormed(v) && AllSpace(post) && WellFormedMembers(rest)
  }

  /** The characters of a value. */
  function Text(v: Json): string
    decreases v, 0
  {
    match v
    case Prim(text) => text
    case Str(raw) => "\"" + raw + "\""
    case Arr(ws, elems) => "[" + (ws + ElemsText(elems))
    case Obj(ws, members) => "{" + (ws + MembersText(members))
  }

  /** The elements of an array up to and including its closing bracket. */
  function ElemsText(es: Elems): string
    decreases es, 0
  {
    match es
    case ENil => "]"
    case ECons(pre, v, post, rest) => pre + (Text(v) + (post + AfterElem(rest)))
  }

  function AfterElem(rest: Elems): string
    decreases rest, 1
  {
    if rest.ENil? then "]" else "," + ElemsText(rest)
  }

  /** The pairs of an object up to and including its closing brace. */
  function MembersText(ms: Members): string
    decreases ms, 0
  {
    match ms
    case MNil => "}"
    case MCons(pre, key, mid, gap, v, post, rest) =>
      pre + ("\"" + ((key + "\"") + (mid + (":" + (gap + (Text(v) + (post + AfterPair(rest))))))))
  }

  function AfterPair(rest: Members): string
    decreases rest, 1
  {
    if rest.MNil? then "}" else "," + MembersText(rest)
  }

  function ElemsLen(es: Elems): nat {
    match es
    case ENil => 0
    case ECons(_, _, _, rest) => 1 + ElemsLen(rest)
  }

  function MembersLen(ms: Members): nat {
    match ms
    case MNil => 0
    case MCons(_, _, _, _, _, _, rest) => 1 + MembersLen(rest)
  }

  /** How many tokens a value needs: one per container, string and primitive, keys included. */
  function TokenCount(v: Json): nat {
    match v
    case Prim(_) => 1
    case Str(_) => 1
    case Arr(_, elems) => 1 + ElemsTokenCount(elems)
    case Obj(_, members) => 1 + MembersTokenCount(members)
  }

  function ElemsTokenCount(es: Elems): nat {
    match es
    case ENil => 0
    case ECons(_, v, _, rest) => TokenCount(v) + ElemsTokenCount(rest)
  }

  function MembersTokenCount(ms: Members): nat {
    match ms
    case MNil => 0
    case MCons(_, _, _, _, v, _, rest) => 1 + TokenCount(v) + MembersTokenCount(rest)
  }
}
