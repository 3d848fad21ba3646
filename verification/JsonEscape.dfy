/** String escaping: what the builder and the response helpers write between quotes, and its inverse. */
module JsonEscape {
  import opened JsonText

  function HexDigit(n: nat): (c: char)
    requires n < 16
    ensures IsHex(c) && HexValue(c) == n
  {
    if n < 10 then '0' + n as char else 'a' + (n - 10) as char
  }

  function HexValue(c: char): (n: nat)
    requires IsHex(c)
    ensures n < 16
  {
    if c <= '9' then c as int - '0' as int
    else if c <= 'F' then c as int - 'A' as int + 10
    else c as int - 'a' as int + 10
  }

  /** One character as written inside a JSON string.  `full` is the table of json_escape;
      jb_str has no short form for backspace and form feed. */
  function EscapeChar(c: char, full: bool): (r: string)
    ensures 1 <= |r| <= 6
  {
    if c == '"' then "\\\""
    else if c == '\\' then "\\\\"
    else if c == '\n' then "\\n"
    else if c == '\r' then "\\r"
    else if c == '\t' then "\\t"
    else if full && c == 8 as char then "\\b"
    else if full && c == 12 as char then "\\f"
    else if c as int < 0x20 then "\\u00" + [HexDigit(c as int / 16), HexDigit(c as int % 16)]
    else [c]
  }

  function Escape(s: string, full: bool): string {
    if s == "" then "" else EscapeChar(s[0], full) + Escape(s[1..], full)
  }

  /** The character a `\u` escape stands for; what is not a character becomes U+FFFD. */
  function CodePoint(h: string): char
    requires |h| == 4 && forall i :: 0 <= i < 4 ==> IsHex(h[i])
  {
    var n := ((HexValue(h[0]) * 16 + HexValue(h[1])) * 16 + HexValue(h[2])) * 16 + HexValue(h[3]);
    if n < 0xD800 || 0xE000 <= n then n as char else '\U{FFFD}'
  }

  function SimpleEscape(c: char): char
    requires IsSimpleEscape(c)
  {
    if c == 'b' then 8 as char
    else if c == 'f' then 12 as char
    else if c == 'n' then '\n'
    else if c == 'r' then '\r'
    else if c == 't' then '\t'
    else c
  }

  /** What a JSON reader makes of string content. */
  function Unescape(raw: string): string
    requires IsRaw(raw)
  {
    if raw == "" then ""
    else if raw[0] != '\\' then [raw[0]] + Unescape(raw[1..])
    else if IsSimpleEscape(raw[1]) then [SimpleEscape(raw[1])] + Unescape(raw[2..])
    else [CodePoint(raw[2..6])] + Unescape(raw[6..])
  }

  lemma EscapeCharReads(c: char, full: bool, rest: string)
    requires IsRaw(rest)
    ensures IsRaw(EscapeChar(c, full) + rest)
    ensures Unescape(EscapeChar(c, full) + rest) == [c] + Unescape(rest)
  {
    var e := EscapeChar(c, full);
    var t := e + rest;
    assert |e| == 1 ==> t[1..] == rest;
    assert |e| == 2 ==> t[2..] == rest;
    assert |e| == 6 ==> t[6..] == rest;
    if |e| == 6 {
      assert t[2..6] == ['0', '0', HexDigit(c as int / 16), HexDigit(c as int % 16)];
    }
  }

  /** Escaping writes valid string content, and reading it back gives the string. */
  lemma {:induction false} EscapeRoundTrip(s: string, full: bool)
    ensures IsRaw(Escape(s, full))
    ensures Unescape(Escape(s, full)) == s
  {
    hide EscapeChar, IsRaw, Unescape;
    if s == "" {
      EmptyRaw();
    } else {
      EscapeRoundTrip(s[1..], full);
      EscapeCharReads(s[0], full, Escape(s[1..], full));
    }
  }

  lemma EmptyRaw()
    ensures IsRaw("") && Unescape("") == ""
  {
  }

  lemma {:induction false} EscapeAppend(s: string, c: char, full: bool)
    ensures Escape(s + [c], full) == Escape(s, full) + EscapeChar(c, full)
  {
    hide EscapeChar;
    if s == "" {
      assert s + [c] == [c];
      assert Escape([c], full) == EscapeChar(c, full) + Escape([c][1..], full);
    } else {
      assert (s + [c])[1..] == s[1..] + [c];
      EscapeAppend(s[1..], c, full);
    }
  }

  /** json_escape into a buffer: the longest prefix of the input whose escaped form leaves room
      for the NUL, so the output is always valid string content. */
  method JsonEscapeInto(input: string, out: array<char>)
    requires forall i :: 0 <= i < |input| ==> input[i] != '\0'
    modifies out
    ensures out.Length > 0 ==>
              exists k :: 0 <= k <= |input| && |Escape(input[..k], true)| < out.Length
                          && out[..|Escape(input[..k], true)|] == Escape(input[..k], true)
                          && out[|Escape(input[..k], true)|] == '\0'
                          && (k < |input| ==> |Escape(input[..k + 1], true)| >= out.Length)
  {
    hide EscapeChar, Escape;
    if out.Length == 0 {
      return;
    }
    var o, k := 0, 0;
    EscapeNone();
    assert input[..0] == "";
    while k < |input|
      invariant 0 <= k <= |input| && 0 <= o < out.Length
      invariant out[..o] == Escape(input[..k], true)
    {
      var esc := EscapeChar(input[k], true);
      assert input[..k + 1] == input[..k] + [input[k]];
      EscapeAppend(input[..k], input[k], true);
      if o + |esc| >= out.Length {
        break;
      }
      CopyInto(out, o, esc);
      o := o + |esc|;
      k := k + 1;
    }
    out[o] := '\0';
    assert out[..o] == Escape(input[..k], true);
  }

  lemma EscapeNone()
    ensures Escape("", true) == ""
  {
  }

  /** memcpy. */
  method CopyInto(out: array<char>, at: nat, s: string)
    requires at + |s| <= out.Length
    modifies out
    ensures out[..] == old(out[..at]) + s + old(out[at + |s|..])
  {
    for i := 0 to |s|
      invariant out[..] == old(out[..at]) + s[..i] + old(out[at + i..])
    {
      out[at + i] := s[i];
    }
  }
}
