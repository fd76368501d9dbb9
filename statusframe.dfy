/** The status frame the bootstrap helper writes on its WebTransport stream
    (`bootstrap.py`, `_send_update`): Python's `json.dumps` of a three-key
    object with its default settings (`ensure_ascii`, ", " and ": "
    separators), followed by a newline. The decoder is the inverse the
    client relies on when it splits the stream into lines and parses each. */
module StatusFrame {
  import opened Wrappers
  import opened Text

  // ------------------------------------------------------------------- hex

  predicate IsHex(c: char)
  {
    '0' <= c <= '9' || 'a' <= c <= 'f' || 'A' <= c <= 'F'
  }

  function HexValue(c: char): (v: nat)
    requires IsHex(c)
    ensures v < 16
  {
    if '0' <= c <= '9' then (c as int) - ('0' as int)
    else if 'a' <= c <= 'f' then (c as int) - ('a' as int) + 10
    else (c as int) - ('A' as int) + 10
  }

  /** A lower-case hex digit, as `format(i, "04x")` prints it. */
  function HexDigit(d: nat): (c: char)
    requires d < 16
    ensures IsHex(c) && HexValue(c) == d
  {
    if d < 10 then (d + '0' as int) as char else (d - 10 + 'a' as int) as char
  }

  /** `'{0:04x}'.format(n)`. */
  function Hex4(n: nat): (s: string)
    requires n < 0x10000
    ensures |s| == 4 && forall i :: 0 <= i < 4 ==> IsHex(s[i])
  {
    var m1 := n / 0x10;
    var m2 := m1 / 0x10;
    [HexDigit(m2 / 0x10), HexDigit(m2 % 0x10), HexDigit(m1 % 0x10), HexDigit(n % 0x10)]
  }

  function Hex4Value(s: string): (v: nat)
    requires |s| == 4 && forall i :: 0 <= i < 4 ==> IsHex(s[i])
    ensures v < 0x10000
  {
    ((HexValue(s[0]) * 0x10 + HexValue(s[1])) * 0x10 + HexValue(s[2])) * 0x10 + HexValue(s[3])
  }

  lemma Hex4RoundTrip(n: nat)
    requires n < 0x10000
    ensures Hex4Value(Hex4(n)) == n
  {
    var m1 := n / 0x10;
    var m2 := m1 / 0x10;
    assert n == m1 * 0x10 + n % 0x10;
    assert m1 == m2 * 0x10 + m1 % 0x10;
    assert m2 == m2 / 0x10 * 0x10 + m2 % 0x10;
  }

  // -------------------------------------------------------------- escaping

  /** One character as `json.dumps` writes it inside a string literal with
      `ensure_ascii`: the two-character escapes for quote, backslash,
      backspace, form feed, newline, carriage return and tab; printable
      ASCII as itself; anything else as `\uXXXX`, above the Basic
      Multilingual Plane as a surrogate pair. */
  function EscapeChar(c: char): (s: string)
    ensures |s| > 0
    ensures forall i :: 0 <= i < |s| ==> ' ' <= s[i] <= '~'
    ensures s[0] != '"'
  {
    if c == '"' then "\\\""
    else if c == '\\' then "\\\\"
    else if c == '\n' then "\\n"
    else if c == '\r' then "\\r"
    else if c == '\t' then "\\t"
    else if c == '\U{8}' then "\\b"
    else if c == '\U{c}' then "\\f"
    else if ' ' <= c <= '~' then [c]
    else if (c as int) < 0x10000 then "\\u" + Hex4(c as int)
    else
      var n := (c as int) - 0x10000;
      "\\u" + Hex4(0xD800 + n / 0x400) + "\\u" + Hex4(0xDC00 + n % 0x400)
  }

  /** The body of the string literal `json.dumps` writes for s. */
  function Escape(s: string): (r: string)
    ensures forall i :: 0 <= i < |r| ==> ' ' <= r[i] <= '~'
    ensures |r| >= |s|
  {
    if |s| == 0 then "" else EscapeChar(s[0]) + Escape(s[1..])
  }

  // -------------------------------------------------------------- decoding

  function SimpleEscape(e: char): Option<char>
  {
    if e == '"' then Some('"')
    else if e == '\\' then Some('\\')
    else if e == '/' then Some('/')
    else if e == 'b' then Some('\U{8}')
    else if e == 'f' then Some('\U{c}')
    else if e == 'n' then Some('\n')
    else if e == 'r' then Some('\r')
    else if e == 't' then Some('\t')
    else None
  }

  predicate HexAt(t: string, i: nat)
  {
    i + 4 <= |t| && forall k :: i <= k < i + 4 ==> IsHex(t[k])
  }

  function Cons(c: char, r: Option<(string, string)>): Option<(string, string)>
  {
    match r
    case None => None
    case Some((v, rest)) => Some(([c] + v, rest))
  }

  /** Reads a JSON string literal body up to its closing quote: the decoded
      value and what follows the quote, or None when the text is not a
      well-formed literal (or holds a lone surrogate, which no string of
      scalar values can carry). */
  function DecodeString(t: string): Option<(string, string)>
    decreases |t|
  {
    if |t| == 0 then None
    else if t[0] == '"' then Some(("", t[1..]))
    else if t[0] == '\\' then
      if |t| < 2 then None
      else if t[1] == 'u' then
        if !HexAt(t, 2) then None
        else
          var v := Hex4Value(t[2..6]);
          if 0xD800 <= v < 0xDC00 then
            if 12 <= |t| && t[6] == '\\' && t[7] == 'u' && HexAt(t, 8) && 0xDC00 <= Hex4Value(t[8..12]) < 0xE000 then
              var w := Hex4Value(t[8..12]);
              Cons((0x10000 + (v - 0xD800) * 0x400 + (w - 0xDC00)) as char, DecodeString(t[12..]))
            else None
          else if 0xDC00 <= v < 0xE000 then None
          else Cons(v as char, DecodeString(t[6..]))
      else
        match SimpleEscape(t[1])
        case None => None
        case Some(c) => Cons(c, DecodeString(t[2..]))
    else if t[0] < ' ' then None
    else Cons(t[0], DecodeString(t[1..]))
  }

  lemma DecodeEscapedChar(c: char, t: string)
    ensures DecodeString(EscapeChar(c) + t) == Cons(c, DecodeString(t))
  {
    if c == '"' || c == '\\' || c == '\n' || c == '\r' || c == '\t' || c == '\U{8}' || c == '\U{c}' {
      DecodeShortEscape(c, t);
    } else if ' ' <= c <= '~' {
      assert (EscapeChar(c) + t)[1..] == t;
    } else if (c as int) < 0x10000 {
      DecodeBmpEscape(c, t);
    } else {
      DecodeSurrogatePair(c, t);
    }
  }

  lemma DecodeShortEscape(c: char, t: string)
    requires c == '"' || c == '\\' || c == '\n' || c == '\r' || c == '\t' || c == '\U{8}' || c == '\U{c}'
    ensures DecodeString(EscapeChar(c) + t) == Cons(c, DecodeString(t))
  {
    var u := EscapeChar(c) + t;
    assert |EscapeChar(c)| == 2 && EscapeChar(c)[0] == '\\';
    assert u[0] == '\\' && u[2..] == t;
    assert SimpleEscape(u[1]) == Some(c);
  }

  lemma UnicodeEscapeSlices(h: string, t: string)
    requires |h| == 4
    ensures var u := "\\u" + h + t;
      u[0] == '\\' && u[1] == 'u' && u[2..6] == h && u[6..] == t
  {
  }

  lemma DecodeBmpEscape(c: char, t: string)
    requires !(' ' <= c <= '~') && c != '\n' && c != '\r' && c != '\t' && c != '\U{8}' && c != '\U{c}'
    requires (c as int) < 0x10000
    ensures DecodeString(EscapeChar(c) + t) == Cons(c, DecodeString(t))
  {
    var h := Hex4(c as int);
    Hex4RoundTrip(c as int);
    assert EscapeChar(c) == "\\u" + h;
    UnicodeEscapeSlices(h, t);
  }

  /** The pair `json.dumps` writes for a code point above U+FFFF. */
  lemma SurrogateHalves(n: int)
    requires 0 <= n < 0x100000
    ensures 0xD800 <= 0xD800 + n / 0x400 < 0xDC00 && 0xDC00 <= 0xDC00 + n % 0x400 < 0xE000
    ensures 0x10000 + n / 0x400 * 0x400 + n % 0x400 == n + 0x10000
  {
  }

  /** Two `\\uXXXX` escapes forming a surrogate pair decode to one
      character above U+FFFF. */
  lemma DecodePairText(h: string, l: string, t: string, c: char)
    requires |h| == 4 && |l| == 4 && forall i :: 0 <= i < 4 ==> IsHex(h[i]) && IsHex(l[i])
    requires 0xD800 <= Hex4Value(h) < 0xDC00 && 0xDC00 <= Hex4Value(l) < 0xE000
    requires c as int == 0x10000 + (Hex4Value(h) - 0xD800) * 0x400 + (Hex4Value(l) - 0xDC00)
    ensures DecodeString("\\u" + h + "\\u" + l + t) == Cons(c, DecodeString(t))
  {
    var u := "\\u" + h + "\\u" + l + t;
    assert u[0] == '\\' && u[1] == 'u' && u[2..6] == h;
    assert u[6] == '\\' && u[7] == 'u' && u[8..12] == l && u[12..] == t;
    assert HexAt(u, 2) && HexAt(u, 8);
  }

  /** The escape of a character above U+FFFF, in terms of its halves. */
  lemma EscapeAstral(c: char, hi: nat, lo: nat)
    requires (c as int) >= 0x10000
    requires hi == 0xD800 + ((c as int) - 0x10000) / 0x400 < 0xDC00
    requires lo == 0xDC00 + ((c as int) - 0x10000) % 0x400 < 0xE000
    ensures EscapeChar(c) == "\\u" + Hex4(hi) + "\\u" + Hex4(lo)
  {
  }

  lemma DecodeSurrogatePair(c: char, t: string)
    requires (c as int) >= 0x10000
    ensures DecodeString(EscapeChar(c) + t) == Cons(c, DecodeString(t))
  {
    var n := (c as int) - 0x10000;
    SurrogateHalves(n);
    var hi, lo := 0xD800 + n / 0x400, 0xDC00 + n % 0x400;
    EscapeAstral(c, hi, lo);
    Hex4RoundTrip(hi);
    Hex4RoundTrip(lo);
    DecodePairText(Hex4(hi), Hex4(lo), t, c);
  }

  /** Decoding undoes escaping: the literal ends at the first unescaped
      quote, whatever follows it. */
  lemma {:induction false} DecodeEscaped(s: string, rest: string)
    ensures DecodeString(Escape(s) + ("\"" + rest)) == Some((s, rest))
  {
    if |s| == 0 {
      assert Escape(s) + ("\"" + rest) == "\"" + rest;
    } else {
      DecodeEscaped(s[1..], rest);
      AppendAssoc(EscapeChar(s[0]), Escape(s[1..]), "\"" + rest);
      DecodeEscapedChar(s[0], Escape(s[1..]) + ("\"" + rest));
      assert [s[0]] + s[1..] == s;
    }
  }

  /** Escaping is injective: distinct messages give distinct frames. */
  lemma EscapeInjective(s: string, s': string)
    requires Escape(s) == Escape(s')
    ensures s == s'
  {
    DecodeEscaped(s, "");
    DecodeEscaped(s', "");
  }

  // ----------------------------------------------------------------- frame

  const FramePrefix: string := "{\"type\": \"status\", \"message\": \""
  const FrameMiddle: string := ", \"vad_state\": \""
  const FrameEnd: string := "}\n"

  /** `json.dumps({"type": "status", "message": m, "vad_state": v}) + "\n"`. */
  function Frame(message: string, vadState: string): (f: string)
    ensures EndsWith(f, "\n")
  {
    FramePrefix + (Escape(message) + ("\"" + (FrameMiddle + (Escape(vadState) + ("\"" + FrameEnd)))))
  }

  predicate Printable(s: string)
  {
    forall i :: 0 <= i < |s| ==> ' ' <= s[i] <= '~'
  }

  /** The only newline of `f` is its last character. */
  predicate OneLine(f: string)
  {
    |f| > 0 && f[|f| - 1] == '\n' && forall i :: 0 <= i < |f| - 1 ==> f[i] != '\n'
  }

  lemma PrependPrintable(a: string, f: string)
    requires Printable(a) && OneLine(f)
    ensures OneLine(a + f)
  {
  }

  /** A frame is one line: its only newline is the last character. */
  lemma FrameIsOneLine(message: string, vadState: string)
    ensures var f := Frame(message, vadState);
      f[|f| - 1] == '\n' && forall i :: 0 <= i < |f| - 1 ==> f[i] != '\n'
  {
    var q := "\"";
    assert Printable(FramePrefix) && Printable(FrameMiddle) && Printable(q) && OneLine(FrameEnd);
    var f1 := q + FrameEnd;
    PrependPrintable(q, FrameEnd);
    var f2 := Escape(vadState) + f1;
    PrependPrintable(Escape(vadState), f1);
    var f3 := FrameMiddle + f2;
    PrependPrintable(FrameMiddle, f2);
    var f4 := q + f3;
    PrependPrintable(q, f3);
    var f5 := Escape(message) + f4;
    PrependPrintable(Escape(message), f4);
    PrependPrintable(FramePrefix, f5);
    assert Frame(message, vadState) == FramePrefix + f5;
  }

  /** The inverse of `Frame`: the message and VAD state of a status frame. */
  function DecodeFrame(f: string): Option<(string, string)>
  {
    if !StartsWith(f, FramePrefix) then None
    else
      match DecodeString(f[|FramePrefix|..])
      case None => None
      case Some((message, rest)) =>
        if !StartsWith(rest, FrameMiddle) then None
        else
          match DecodeString(rest[|FrameMiddle|..])
          case None => None
          case Some((vadState, tail)) => if tail == FrameEnd then Some((message, vadState)) else None
  }

  lemma DropPrefix(a: string, b: string)
    ensures StartsWith(a + b, a) && (a + b)[|a|..] == b
  {
    assert (a + b)[..|a|] == a;
  }

  /** Every frame decodes to the message and state it was built from. */
  lemma FrameRoundTrip(message: string, vadState: string)
    ensures DecodeFrame(Frame(message, vadState)) == Some((message, vadState))
  {
    var tail := Escape(vadState) + ("\"" + FrameEnd);
    var rest := FrameMiddle + tail;
    DropPrefix(FramePrefix, Escape(message) + ("\"" + rest));
    DecodeEscaped(message, rest);
    DropPrefix(FrameMiddle, tail);
    DecodeEscaped(vadState, FrameEnd);
  }
}
