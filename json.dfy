/**
 * JSON string literals as `JSON.stringify` writes them and `JSON.parse`
 * reads them back (section 7 of RFC 8259), enough for the flat objects of
 * string fields the x402 endpoints exchange.
 */
module JsonText {
  import opened Wrappers
  import opened Strings

  const BACKSPACE: char := '\U{8}'
  const FORM_FEED: char := '\U{C}'

  /** One character of a string literal as `JSON.stringify` escapes it. */
  function EscapeChar(c: char): (r: string)
    ensures |r| >= 1
  {
    if c == '"' then "\\\""
    else if c == '\\' then "\\\\"
    else if c == BACKSPACE then "\\b"
    else if c == FORM_FEED then "\\f"
    else if c == '\n' then "\\n"
    else if c == '\r' then "\\r"
    else if c == '\t' then "\\t"
    else if c < ' ' then "\\u00" + [HexDigit(c as int / 16), HexDigit(c as int % 16)]
    else [c]
  }

  /** The body of a string literal, quotes excluded. */
  function Escape(s: string): string {
    if |s| == 0 then "" else EscapeChar(s[0]) + Escape(s[1..])
  }

  /** `JSON.stringify(s)` for a string `s`. */
  function Quote(s: string): (r: string)
    ensures |r| >= 2 && r[0] == '"' && r[|r| - 1] == '"'
  {
    "\"" + Escape(s) + "\""
  }

  /** The character a one-letter escape stands for; `None` for an invalid escape. */
  function Unescape(c: char): Option<char> {
    if c == '"' then Some('"')
    else if c == '\\' then Some('\\')
    else if c == '/' then Some('/')
    else if c == 'b' then Some(BACKSPACE)
    else if c == 'f' then Some(FORM_FEED)
    else if c == 'n' then Some('\n')
    else if c == 'r' then Some('\r')
    else if c == 't' then Some('\t')
    else None
  }

  /** The value of four hex digits of a `\u` escape, either case. */
  function HexQuad(s: string): Option<nat>
    requires |s| == 4
  {
    if forall i :: 0 <= i < 4 ==> IsHexDigit(LowerChar(s[i])) then
      Some(((HexValue(LowerChar(s[0])) * 16 + HexValue(LowerChar(s[1]))) * 16
            + HexValue(LowerChar(s[2]))) * 16 + HexValue(LowerChar(s[3])))
    else None
  }

  /**
   * Reads the rest of a string literal whose opening quote is already
   * consumed: the text up to the closing quote, and what follows it.
   * Raw control characters and malformed escapes are errors, as in
   * `JSON.parse`.
   */
  function ReadString(s: string): Option<(string, string)>
    decreases |s|
  {
    if |s| == 0 then None
    else if s[0] == '"' then Some(("", s[1..]))
    else if s[0] < ' ' then None
    else if s[0] != '\\' then
      match ReadString(s[1..])
      case None => None
      case Some((t, rest)) => Some(([s[0]] + t, rest))
    else if |s| < 2 then None
    else if s[1] == 'u' then
      if |s| < 6 then None
      else match HexQuad(s[2..6])
        case None => None
        case Some(code) =>
          // a lone surrogate has no `char`
          if 0xD800 <= code < 0xE000 then None
          else match ReadString(s[6..])
            case None => None
            case Some((t, rest)) => Some(([code as char] + t, rest))
    else match Unescape(s[1])
      case None => None
      case Some(c) =>
        match ReadString(s[2..])
        case None => None
        case Some((t, rest)) => Some(([c] + t, rest))
  }

  /** What the reader leaves is the text after the closing quote, at the end of its input. */
  lemma {:induction false} ReadStringSuffix(s: string)
    requires ReadString(s).Some?
    ensures var rest := ReadString(s).value.1;
      |rest| < |s| && s[|s| - |rest| - 1..] == "\"" + rest
    decreases |s|
  {
    if s[0] == '"' {
    } else if s[0] != '\\' {
      ReadStringSuffix(s[1..]);
    } else if s[1] == 'u' {
      ReadStringSuffix(s[6..]);
    } else {
      ReadStringSuffix(s[2..]);
    }
  }

  /** An escaped character reads back as itself, whatever follows it. */
  lemma ReadEscapedChar(c: char, rest: string)
    ensures ReadString(EscapeChar(c) + rest) ==
      match ReadString(rest)
      case None => None
      case Some((t, after)) => Some(([c] + t, after))
  {
    var e := EscapeChar(c) + rest;
    if c < ' ' && c != BACKSPACE && c != FORM_FEED && c != '\n' && c != '\r' && c != '\t' {
      var hi, lo := HexDigit(c as int / 16), HexDigit(c as int % 16);
      assert e == ['\\', 'u', '0', '0', hi, lo] + rest;
      assert e[2..6] == ['0', '0', hi, lo];
      assert e[6..] == rest;
      assert LowerChar(hi) == hi && LowerChar(lo) == lo;
    } else if c == '"' || c == '\\' || c == BACKSPACE || c == FORM_FEED || c == '\n' || c == '\r' || c == '\t' {
      assert e[2..] == rest;
    } else {
      assert e[1..] == rest;
    }
  }

  /** Reading back a quoted string gives the string and leaves what follows the closing quote. */
  lemma {:induction false} ReadQuoted(s: string, rest: string)
    ensures ReadString(Escape(s) + "\"" + rest) == Some((s, rest))
  {
    if |s| == 0 {
      assert Escape(s) + "\"" + rest == "\"" + rest;
    } else {
      var tail := Escape(s[1..]) + "\"" + rest;
      assert Escape(s) + "\"" + rest == EscapeChar(s[0]) + tail;
      ReadQuoted(s[1..], rest);
      ReadEscapedChar(s[0], tail);
      assert [s[0]] + s[1..] == s;
    }
  }
}
