/** The tour table keeps a tour's tags as JSON text: `JSON.stringify` of the
    list when a tour is written, `JSON.parse` when it is read back. This module
    models both for lists of strings, following the JSON grammar of RFC 8259
    (section 5, arrays; section 7, strings) and the escaping rules of
    ECMAScript's `JSON.stringify`. */
module TagsJson {
  import opened Options
  import JsStrings
  import Seqs

  // ---- JSON.stringify ----

  function HexDigit(d: nat): char
    requires d < 16
  {
    "0123456789abcdef"[d]
  }

  /** How `JSON.stringify` writes one character inside a string literal. */
  function EscapeChar(c: char): (r: string)
    ensures |r| >= 1
  {
    if c == '"' then "\\\""
    else if c == '\\' then "\\\\"
    else if c == '\U{8}' then "\\b"
    else if c == '\U{C}' then "\\f"
    else if c == '\n' then "\\n"
    else if c == '\r' then "\\r"
    else if c == '\t' then "\\t"
    else if (c as int) < 0x20 then "\\u00" + [HexDigit((c as int) / 16), HexDigit((c as int) % 16)]
    else [c]
  }

  function Escape(s: string): string
  {
    if s == [] then "" else EscapeChar(s[0]) + Escape(s[1..])
  }

  /** A JSON string literal for `s`. */
  function Quote(s: string): string
  {
    "\"" + Escape(s) + "\""
  }

  /** `JSON.stringify(tags)`: `[`, the quoted strings separated by commas, `]`. */
  function Encode(tags: seq<string>): string
  {
    "[" + JsStrings.Join(Seqs.Map(tags, Quote), ",") + "]"
  }

  // ---- JSON.parse, for a JSON text whose value is an array of strings ----

  /** Insignificant whitespace between JSON tokens (RFC 8259, section 2). */
  predicate IsJsonWhitespace(c: char) {
    c == ' ' || c == '\t' || c == '\n' || c == '\r'
  }

  function SkipWhitespace(s: string): (r: string)
    ensures |r| <= |s|
    ensures r == [] || !IsJsonWhitespace(r[0])
  {
    if s != [] && IsJsonWhitespace(s[0]) then SkipWhitespace(s[1..]) else s
  }

  /** The value of four hexadecimal digits, if they are. */
  function Hex4(s: string): Option<nat>
    requires |s| == 4
  {
    var d := Seqs.Map(s, (c: char) => JsStrings.DigitValue(c, 16));
    if d[0].Some? && d[1].Some? && d[2].Some? && d[3].Some? then
      Some(((d[0].value * 16 + d[1].value) * 16 + d[2].value) * 16 + d[3].value)
    else None
  }

  /** The character an escape sequence at the start of `s` (just after the
      backslash) stands for, and how many characters it occupies. */
  function Unescape(s: string): (r: Option<(char, nat)>)
    ensures r.Some? ==> 1 <= r.value.1 <= |s|
  {
    if s == [] then None
    else if s[0] == '"' || s[0] == '\\' || s[0] == '/' then Some((s[0], 1))
    else if s[0] == 'b' then Some(('\U{8}', 1))
    else if s[0] == 'f' then Some(('\U{C}', 1))
    else if s[0] == 'n' then Some(('\n', 1))
    else if s[0] == 'r' then Some(('\r', 1))
    else if s[0] == 't' then Some(('\t', 1))
    else if s[0] == 'u' && |s| >= 5 then
      match Hex4(s[1..5])
      case Some(v) =>
        if v < 0xD800 || 0xE000 <= v then Some((v as char, 5)) else None
      case None => None
    else None
  }

  /** The characters of a string literal up to its closing quote, and the text
      after it; `None` for a malformed literal. */
  function ParseChars(s: string): (r: Option<(string, string)>)
    ensures r.Some? ==> |r.value.1| < |s|
    decreases |s|
  {
    if s == [] then None
    else if s[0] == '"' then Some(("", s[1..]))
    else if s[0] == '\\' then
      match Unescape(s[1..])
      case None => None
      case Some((c, n)) =>
        match ParseChars(s[1 + n..])
        case None => None
        case Some((t, rest)) => Some(([c] + t, rest))
    else if (s[0] as int) < 0x20 then None
    else
      match ParseChars(s[1..])
      case None => None
      case Some((t, rest)) => Some(([s[0]] + t, rest))
  }

  function ParseString(s: string): (r: Option<(string, string)>)
    ensures r.Some? ==> |r.value.1| < |s|
  {
    if s != [] && s[0] == '"' then ParseChars(s[1..]) else None
  }

  /** The strings of an array after its `[` (and any whitespace), up to and
      including the closing `]`; the text after the array. */
  function ParseElements(s: string): (r: Option<(seq<string>, string)>)
    ensures r.Some? ==> |r.value.1| < |s|
    decreases |s|
  {
    match ParseString(s)
    case None => None
    case Some((t, rest)) =>
      var after := SkipWhitespace(rest);
      if after != [] && after[0] == ']' then Some(([t], after[1..]))
      else if after != [] && after[0] == ',' then
        match ParseElements(SkipWhitespace(after[1..]))
        case None => None
        case Some((ts, rest')) => Some(([t] + ts, rest'))
      else None
  }

  /** `JSON.parse(text)` where the text holds an array of strings; `None` where
      `JSON.parse` throws (or the value is not such an array). */
  function Decode(text: string): Option<seq<string>>
  {
    var s := SkipWhitespace(text);
    if s == [] || s[0] != '[' then None
    else
      var body := SkipWhitespace(s[1..]);
      var parsed: Option<(seq<string>, string)> :=
        if body != [] && body[0] == ']' then Some(([], body[1..]))
        else ParseElements(body);
      match parsed
      case None => None
      case Some((tags, rest)) => if SkipWhitespace(rest) == [] then Some(tags) else None
  }

  // ---- round trip ----

  lemma HexPair(c: char)
    requires (c as int) < 0x20
    ensures Hex4(['0', '0', HexDigit((c as int) / 16), HexDigit((c as int) % 16)]) == Some(c as int)
  {
    var n := c as int;
    var h := ['0', '0', HexDigit(n / 16), HexDigit(n % 16)];
    assert JsStrings.DigitValue('0', 16) == Some(0);
    assert JsStrings.DigitValue(HexDigit(n / 16), 16) == Some(n / 16);
    assert JsStrings.DigitValue(HexDigit(n % 16), 16) == Some(n % 16);
  }

  /** Each escaped character reads back as itself. */
  lemma EscapeCharRoundTrip(c: char, tail: string)
    ensures ParseChars(EscapeChar(c) + tail)
         == match ParseChars(tail)
            case None => None
            case Some((t, rest)) => Some(([c] + t, rest))
  {
    var e := EscapeChar(c);
    if (c as int) < 0x20 && c != '\U{8}' && c != '\U{C}' && c != '\n' && c != '\r' && c != '\t' {
      HexPair(c);
      var s := e + tail;
      assert s[1..][1..5] == ['0', '0', HexDigit((c as int) / 16), HexDigit((c as int) % 16)];
      assert s[6..] == tail;
    } else if |e| == 2 {
      assert (e + tail)[2..] == tail;
    } else {
      assert (e + tail)[1..] == tail;
    }
  }

  lemma {:induction false} EscapeRoundTrip(s: string, tail: string)
    ensures ParseChars(Escape(s) + "\"" + tail) == Some((s, tail))
  {
    if s == [] {
      assert Escape(s) + "\"" + tail == "\"" + tail;
    } else {
      EscapeRoundTrip(s[1..], tail);
      assert Escape(s) + "\"" + tail == EscapeChar(s[0]) + (Escape(s[1..]) + "\"" + tail);
      EscapeCharRoundTrip(s[0], Escape(s[1..]) + "\"" + tail);
      assert [s[0]] + s[1..] == s;
    }
  }

  /** A quoted string reads back as itself, leaving the text after it. */
  lemma QuoteRoundTrip(s: string, tail: string)
    ensures ParseString(Quote(s) + tail) == Some((s, tail))
  {
    EscapeRoundTrip(s, tail);
    assert (Quote(s) + tail)[1..] == Escape(s) + "\"" + tail;
  }

  lemma {:induction false} ElementsRoundTrip(tags: seq<string>, tail: string)
    requires |tags| >= 1
    ensures ParseElements(JsStrings.Join(Seqs.Map(tags, Quote), ",") + "]" + tail) == Some((tags, tail))
  {
    var q := Seqs.Map(tags, Quote);
    if |tags| == 1 {
      assert JsStrings.Join(q, ",") == Quote(tags[0]);
      QuoteRoundTrip(tags[0], "]" + tail);
      assert JsStrings.Join(q, ",") + "]" + tail == Quote(tags[0]) + ("]" + tail);
      assert SkipWhitespace("]" + tail) == "]" + tail;
      assert ("]" + tail)[1..] == tail;
      assert tags == [tags[0]];
    } else {
      var more := JsStrings.Join(Seqs.Map(tags[1..], Quote), ",") + "]" + tail;
      assert q[1..] == Seqs.Map(tags[1..], Quote);
      assert JsStrings.Join(q, ",") + "]" + tail == Quote(tags[0]) + ("," + more);
      QuoteRoundTrip(tags[0], "," + more);
      assert ("," + more)[1..] == more;
      ElementsRoundTrip(tags[1..], tail);
      assert more != [] && more[0] == '"';
      assert [tags[0]] + tags[1..] == tags;
    }
  }

  /** `JSON.parse(JSON.stringify(tags))` gives back `tags`, for every list of strings. */
  lemma DecodeEncode(tags: seq<string>)
    ensures Decode(Encode(tags)) == Some(tags)
  {
    var text := Encode(tags);
    assert SkipWhitespace(text) == text;
    if tags == [] {
      assert text == "[]";
    } else {
      ElementsRoundTrip(tags, "");
      var body := JsStrings.Join(Seqs.Map(tags, Quote), ",") + "]";
      assert text[1..] == body + "";
      assert body[0] == '"';
    }
  }
}
