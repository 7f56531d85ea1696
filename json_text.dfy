/**
  The text payload of an A2A request: Python's `json.dumps({"user": user,
  "prompt": prompt})` with its default settings (`ensure_ascii=True`,
  separators `", "` and `": "`, keys in insertion order), and a reference
  reader for that text, as `json.loads` on the specialist side reads it.
 */
module JsonText {
  import opened Wrappers
  import Hex

  /** What the two-key object carries. */
  datatype AgentInput = AgentInput(user: string, prompt: string)

  predicate IsPrintableAscii(c: char) {
    ' ' <= c <= '~'
  }

  predicate AllPrintableAscii(s: string) {
    forall i :: 0 <= i < |s| ==> IsPrintableAscii(s[i])
  }

  /** `\u` followed by four lowercase hexadecimal digits. */
  function UnicodeEscape(n: nat): (s: string)
    requires n < 0x10000
    ensures |s| == 6 && AllPrintableAscii(s)
  {
    assert Hex.Pow16(4) == 0x10000;
    "\\u" + Hex.Digits(n, 4)
  }

  /**
    The escape of one character under `ensure_ascii`: quote and backslash and
    the five control characters with a short form are escaped by name, other
    characters outside `' '..'~'` by their UTF-16 code units, and a
    character above U+FFFF by a surrogate pair.
   */
  function EscapeChar(c: char): (s: string)
    ensures |s| > 0 && s[0] != '"'
    ensures AllPrintableAscii(s)
  {
    if c == '\\' then "\\\\"
    else if c == '"' then "\\\""
    else if c == '\U{8}' then "\\b"
    else if c == '\U{C}' then "\\f"
    else if c == '\n' then "\\n"
    else if c == '\r' then "\\r"
    else if c == '\t' then "\\t"
    else if ' ' <= c <= '~' then [c]
    else if (c as int) < 0x10000 then UnicodeEscape(c as int)
    else SurrogatePair(c as int)
  }

  /** The two `\u` escapes of the UTF-16 surrogate pair for a code point above U+FFFF. */
  function SurrogatePair(n: int): (s: string)
    requires 0x10000 <= n < 0x110000
    ensures |s| == 12 && AllPrintableAscii(s)
  {
    var v := n - 0x10000;
    UnicodeEscape(0xD800 + v / 0x400) + UnicodeEscape(0xDC00 + v % 0x400)
  }

  /** The escaped body of a JSON string literal. */
  function Escape(s: string): string
  {
    if s == [] then [] else EscapeChar(s[0]) + Escape(s[1..])
  }

  function Quote(s: string): string {
    "\"" + Escape(s) + "\""
  }

  /** The text `json.dumps` makes of `{"user": user, "prompt": prompt}`. */
  function EncodeInput(user: string, prompt: string): (r: string)
    ensures |r| >= 24 && r[0] == '{' && r[|r| - 1] == '}'
  {
    "{\"user\": " + Quote(user) + ", \"prompt\": " + Quote(prompt) + "}"
  }

  lemma {:induction false} EscapeIsAscii(s: string)
    ensures AllPrintableAscii(Escape(s))
  {
    if s != [] {
      EscapeIsAscii(s[1..]);
    }
  }

  /** Under `ensure_ascii` the payload is printable ASCII throughout, whatever the user and prompt hold. */
  lemma EncodedInputIsAscii(user: string, prompt: string)
    ensures AllPrintableAscii(EncodeInput(user, prompt))
  {
    EscapeIsAscii(user);
    EscapeIsAscii(prompt);
  }

  // ---------------------------------------------------------------------
  // Reading the text back
  // ---------------------------------------------------------------------

  /** The four hexadecimal digits at the front of `t`, if there are four. */
  function Hex4(t: string): (r: Option<nat>)
    ensures r.Some? ==> r.value < 0x10000
  {
    assert Hex.Pow16(4) == 0x10000;
    if |t| < 4 then None else Hex.Value(t[..4])
  }

  /**
    The character after `\u`: a code unit outside the surrogate range, or a
    high surrogate followed by `\u` and a low surrogate. A lone surrogate,
    which a Dafny string cannot hold, is not read.
   */
  function ParseUnicode(t: string): (r: Option<(char, string)>)
    ensures r.Some? ==> |r.value.1| < |t|
  {
    match Hex4(t)
    case None => None
    case Some(n) =>
      if 0xD800 <= n < 0xDC00 then
        var rest := t[4..];
        if |rest| >= 2 && rest[0] == '\\' && rest[1] == 'u' then
          match Hex4(rest[2..])
          case Some(m) =>
            if 0xDC00 <= m < 0xE000 then
              Some(((0x10000 + (n - 0xD800) * 0x400 + (m - 0xDC00)) as char, rest[6..]))
            else None
          case None => None
        else None
      else if 0xDC00 <= n < 0xE000 then None
      else Some((n as char, t[4..]))
  }

  /** The character after a backslash. */
  function ParseEscape(t: string): (r: Option<(char, string)>)
    ensures r.Some? ==> |r.value.1| < |t|
  {
    if |t| == 0 then None
    else if t[0] == '"' then Some(('"', t[1..]))
    else if t[0] == '\\' then Some(('\\', t[1..]))
    else if t[0] == '/' then Some(('/', t[1..]))
    else if t[0] == 'b' then Some(('\U{8}', t[1..]))
    else if t[0] == 'f' then Some(('\U{C}', t[1..]))
    else if t[0] == 'n' then Some(('\n', t[1..]))
    else if t[0] == 'r' then Some(('\r', t[1..]))
    else if t[0] == 't' then Some(('\t', t[1..]))
    else if t[0] == 'u' then ParseUnicode(t[1..])
    else None
  }

  /** One character of a string body; unescaped control characters are refused. */
  function ParseChar(t: string): (r: Option<(char, string)>)
    requires |t| > 0
    ensures r.Some? ==> |r.value.1| < |t|
  {
    if t[0] == '\\' then ParseEscape(t[1..])
    else if t[0] < ' ' || t[0] == '"' then None
    else Some((t[0], t[1..]))
  }

  /** A string body up to and including the closing quote; returns the text after it. */
  function ParseBody(t: string): Option<(string, string)>
    decreases |t|
  {
    if |t| == 0 then None
    else if t[0] == '"' then Some(([], t[1..]))
    else match ParseChar(t)
      case None => None
      case Some((c, rest)) =>
        match ParseBody(rest)
        case None => None
        case Some((s, after)) => Some(([c] + s, after))
  }

  function ParseString(t: string): Option<(string, string)> {
    if |t| > 0 && t[0] == '"' then ParseBody(t[1..]) else None
  }

  /** The text after `lit`, when `t` starts with it. */
  function Expect(lit: string, t: string): Option<string> {
    if lit <= t then Some(t[|lit|..]) else None
  }

  /** Reads a whole payload of the layout `json.dumps` gives the two-key object. */
  function DecodeInput(t: string): Option<AgentInput> {
    match Expect("{\"user\": ", t)
    case None => None
    case Some(t1) =>
      match ParseString(t1)
      case None => None
      case Some((user, t2)) =>
        match Expect(", \"prompt\": ", t2)
        case None => None
        case Some(t3) =>
          match ParseString(t3)
          case None => None
          case Some((prompt, t4)) =>
            if t4 == "}" then Some(AgentInput(user, prompt)) else None
  }

  // ---------------------------------------------------------------------
  // Round trip
  // ---------------------------------------------------------------------

  lemma UnicodeEscapeParses(n: nat, rest: string)
    requires n < 0x10000
    ensures Hex4((UnicodeEscape(n) + rest)[2..]) == Some(n)
    ensures (UnicodeEscape(n) + rest)[6..] == rest
  {
    var t := UnicodeEscape(n) + rest;
    assert Hex.Pow16(4) == 0x10000;
    assert t[2..][..4] == Hex.Digits(n, 4);
    Hex.DigitsRoundTrip(n, 4);
  }

  /** A `\uXXXX` escape of a code point outside the surrogate range reads back as that character. */
  lemma BmpEscapeParses(c: char, rest: string)
    requires (c as int) < 0x10000
    ensures ParseChar(UnicodeEscape(c as int) + rest) == Some((c, rest))
  {
    var t := UnicodeEscape(c as int) + rest;
    UnicodeEscapeParses(c as int, rest);
    assert t[1..][1..] == t[2..];
    assert t[2..][4..] == rest;
  }

  /** A surrogate pair reads back as the character above U+FFFF it encodes. */
  lemma SurrogatePairParses(n: int, rest: string)
    requires 0x10000 <= n < 0x110000
    ensures ParseChar(SurrogatePair(n) + rest) == Some((n as char, rest))
  {
    var t := SurrogatePair(n) + rest;
    var v := n - 0x10000;
    var hi, lo := 0xD800 + v / 0x400, 0xDC00 + v % 0x400;
    var tail := UnicodeEscape(lo) + rest;
    assert t == UnicodeEscape(hi) + tail;
    UnicodeEscapeParses(hi, tail);
    UnicodeEscapeParses(lo, rest);
    assert t[1..][1..] == t[2..];
    assert t[2..][4..] == tail;
    assert 0x10000 + (hi - 0xD800) * 0x400 + (lo - 0xDC00) == n;
  }

  /** Every escape reads back as the character it escapes. */
  lemma EscapeCharParses(c: char, rest: string)
    ensures ParseChar(EscapeChar(c) + rest) == Some((c, rest))
  {
    var t := EscapeChar(c) + rest;
    if c == '\\' || c == '"' || c == '\U{8}' || c == '\U{C}' || c == '\n' || c == '\r' || c == '\t' {
      assert t[1..][1..] == rest;
    } else if ' ' <= c <= '~' {
      assert t[1..] == rest;
    } else if (c as int) < 0x10000 {
      BmpEscapeParses(c, rest);
    } else {
      SurrogatePairParses(c as int, rest);
    }
  }

  /** A body that does not start with the closing quote reads one character and then the rest. */
  lemma ParseBodyCons(t: string, c: char, rest: string)
    requires |t| > 0 && t[0] != '"' && ParseChar(t) == Some((c, rest))
    ensures ParseBody(t) ==
      match ParseBody(rest)
      case None => None
      case Some((s, after)) => Some(([c] + s, after))
  {
  }

  lemma {:induction false} EscapeParses(s: string, rest: string)
    ensures ParseBody(Escape(s) + "\"" + rest) == Some((s, rest))
  {
    if s == [] {
      assert Escape(s) + "\"" + rest == "\"" + rest;
    } else {
      var tail := Escape(s[1..]) + "\"" + rest;
      var t := EscapeChar(s[0]) + tail;
      assert Escape(s) + "\"" + rest == t;
      EscapeCharParses(s[0], tail);
      ParseBodyCons(t, s[0], tail);
      EscapeParses(s[1..], rest);
      assert [s[0]] + s[1..] == s;
    }
  }

  lemma QuoteParses(s: string, rest: string)
    ensures ParseString(Quote(s) + rest) == Some((s, rest))
  {
    assert (Quote(s) + rest)[1..] == Escape(s) + "\"" + rest;
    EscapeParses(s, rest);
  }

  lemma ExpectPrefix(lit: string, rest: string)
    ensures Expect(lit, lit + rest) == Some(rest)
  {
    assert (lit + rest)[..|lit|] == lit;
    assert (lit + rest)[|lit|..] == rest;
  }

  /** `DecodeInput` accepts a text whose four pieces parse in turn. */
  lemma DecodeInputSteps(t: string, t1: string, user: string, t2: string, t3: string, prompt: string)
    requires Expect("{\"user\": ", t) == Some(t1)
    requires ParseString(t1) == Some((user, t2))
    requires Expect(", \"prompt\": ", t2) == Some(t3)
    requires ParseString(t3) == Some((prompt, "}"))
    ensures DecodeInput(t) == Some(AgentInput(user, prompt))
  {
  }

  /** The payload split after each of its four pieces. */
  lemma EncodeInputSplit(user: string, prompt: string)
    ensures EncodeInput(user, prompt) == "{\"user\": " + (Quote(user) + (", \"prompt\": " + (Quote(prompt) + "}")))
  {
  }

  /** The receiving side reads back exactly the user and prompt that were sent. */
  lemma InputRoundTrip(user: string, prompt: string)
    ensures DecodeInput(EncodeInput(user, prompt)) == Some(AgentInput(user, prompt))
  {
    var p1, p2 := "{\"user\": ", ", \"prompt\": ";
    var q1, q2 := Quote(user), Quote(prompt);
    var rest2 := p2 + (q2 + "}");
    EncodeInputSplit(user, prompt);
    ExpectPrefix(p1, q1 + rest2);
    QuoteParses(user, rest2);
    ExpectPrefix(p2, q2 + "}");
    QuoteParses(prompt, "}");
    DecodeInputSteps(p1 + (q1 + rest2), q1 + rest2, user, rest2, q2 + "}", prompt);
  }
}
