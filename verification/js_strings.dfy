/** The JavaScript string operations the site relies on, as the ECMAScript
    language specification defines them: `trim`, `split` on one character,
    `join`, `includes`, `repeat`, `String(n)` for integers and `parseInt`
    without a radix. Strings are sequences of Unicode scalar values. */
module JsStrings {
  import opened Options

  /** ECMAScript WhiteSpace and LineTerminator code points (what `trim` removes). */
  const Whitespace: set<char> := {
    '\t', '\n', '\U{B}', '\U{C}', '\r', ' ', '\U{A0}', '\U{1680}',
    '\U{2000}', '\U{2001}', '\U{2002}', '\U{2003}', '\U{2004}', '\U{2005}',
    '\U{2006}', '\U{2007}', '\U{2008}', '\U{2009}', '\U{200A}',
    '\U{2028}', '\U{2029}', '\U{202F}', '\U{205F}', '\U{3000}', '\U{FEFF}'
  }

  predicate IsWhitespace(c: char) {
    c in Whitespace
  }

  predicate AllWhitespace(s: string) {
    forall i :: 0 <= i < |s| ==> IsWhitespace(s[i])
  }

  /** Neither starts nor ends with whitespace (what `trim` returns). */
  predicate IsTrimmed(s: string) {
    s == [] || (!IsWhitespace(s[0]) && !IsWhitespace(s[|s| - 1]))
  }

  /** The number of whitespace characters that `s` starts with. */
  function LeadingWhitespace(s: string): (k: nat)
    ensures k <= |s| && AllWhitespace(s[..k])
    ensures k == |s| || !IsWhitespace(s[k])
  {
    if s == [] || !IsWhitespace(s[0]) then 0
    else
      var k := LeadingWhitespace(s[1..]);
      k + 1
  }

  /** The number of whitespace characters that `s` ends with. */
  function TrailingWhitespace(s: string): (k: nat)
    ensures k <= |s| && AllWhitespace(s[|s| - k..])
    ensures k == |s| || !IsWhitespace(s[|s| - k - 1])
  {
    if s == [] || !IsWhitespace(s[|s| - 1]) then 0
    else
      var k := TrailingWhitespace(s[..|s| - 1]);
      k + 1
  }

  /** `s.trimStart()`: the suffix left after dropping leading whitespace. */
  function TrimStart(s: string): (r: string)
    ensures r == [] || !IsWhitespace(r[0])
  {
    s[LeadingWhitespace(s)..]
  }

  /** `s.trimEnd()`: the prefix left after dropping trailing whitespace. */
  function TrimEnd(s: string): (r: string)
    ensures r == [] || !IsWhitespace(r[|r| - 1])
  {
    s[..|s| - TrailingWhitespace(s)]
  }

  /** `s.trim()`: a piece of `s` with no whitespace at either end. */
  function Trim(s: string): (r: string)
    ensures IsTrimmed(r)
    ensures forall i :: 0 <= i < |r| ==> r[i] in s
  {
    TrimEnd(TrimStart(s))
  }

  /** Trimming removes exactly the whitespace around an already trimmed text. */
  lemma {:induction false} TrimAround(lead: string, t: string)
    requires AllWhitespace(lead) && IsTrimmed(t)
    ensures Trim(lead + t) == t
  {
    LeadingAround(lead, t);
    assert TrimStart(lead + t) == t;
    if t != [] {
      assert TrailingWhitespace(t) == 0;
    }
  }

  lemma {:induction false} LeadingAround(lead: string, t: string)
    requires AllWhitespace(lead) && IsTrimmed(t)
    ensures LeadingWhitespace(lead + t) == |lead|
  {
    if lead == [] {
      assert lead + t == t;
    } else {
      assert (lead + t)[1..] == lead[1..] + t;
      LeadingAround(lead[1..], t);
    }
  }

  /** Text made only of whitespace trims to the empty string, and only such text does. */
  lemma TrimEmptyIffWhitespace(s: string)
    ensures Trim(s) == [] <==> AllWhitespace(s)
  {
    var k := LeadingWhitespace(s);
    if AllWhitespace(s) {
      assert k == |s|;
    }
    if Trim(s) == [] {
      assert k == |s|;
      assert s == s[..k];
    }
  }

  /** `pieces.join(sep)`; the empty list joins to "". */
  function Join(pieces: seq<string>, sep: string): string
  {
    if |pieces| == 0 then ""
    else if |pieces| == 1 then pieces[0]
    else pieces[0] + sep + Join(pieces[1..], sep)
  }

  /** A character of a joined string comes from a piece or from the separator,
      and every character of every piece is in the joined string. */
  lemma {:induction false} JoinChars(pieces: seq<string>, sep: string)
    ensures forall c :: c in Join(pieces, sep) ==> c in sep || exists i :: 0 <= i < |pieces| && c in pieces[i]
    ensures forall i, c :: 0 <= i < |pieces| && c in pieces[i] ==> c in Join(pieces, sep)
  {
    if |pieces| >= 2 {
      JoinChars(pieces[1..], sep);
      var j := Join(pieces, sep);
      assert j == pieces[0] + sep + Join(pieces[1..], sep);
      forall c | c in j ensures c in sep || exists i :: 0 <= i < |pieces| && c in pieces[i] {
        if c !in pieces[0] && c !in sep {
          var i :| 0 <= i < |pieces[1..]| && c in pieces[1..][i];
          assert c in pieces[i + 1];
        }
      }
      forall i, c | 0 <= i < |pieces| && c in pieces[i] ensures c in j {
        if i > 0 {
          assert c in pieces[1..][i - 1];
        }
      }
    }
  }

  /** `s.split(sep)` for a one-character separator: the maximal separator-free
      pieces between the separators, so there is always at least one. */
  function Split(s: string, sep: char): (r: seq<string>)
    ensures |r| >= 1
    ensures forall i :: 0 <= i < |r| ==> sep !in r[i]
    ensures Join(r, [sep]) == s
  {
    if s == [] then [""]
    else
      var rest := Split(s[1..], sep);
      if s[0] == sep then
        assert ([""] + rest)[1..] == rest;
        [""] + rest
      else
        var r := [[s[0]] + rest[0]] + rest[1..];
        assert |rest| > 1 ==> r[1..] == rest[1..];
        assert Join(r, [sep]) == [s[0]] + Join(rest, [sep]);
        r
  }

  /** Splitting text without the separator gives the text itself. */
  lemma {:induction false} SplitNoSeparator(s: string, sep: char)
    requires sep !in s
    ensures Split(s, sep) == [s]
  {
    if s != [] {
      SplitNoSeparator(s[1..], sep);
    }
  }

  /** Splitting at the first separator. */
  lemma {:induction false} SplitAtFirst(a: string, sep: char, b: string)
    requires sep !in a
    ensures Split(a + [sep] + b, sep) == [a] + Split(b, sep)
  {
    if a == [] {
      assert a + [sep] + b == [sep] + b;
      assert ([sep] + b)[1..] == b;
    } else {
      assert (a + [sep] + b)[1..] == a[1..] + [sep] + b;
      SplitAtFirst(a[1..], sep, b);
      assert [a[0]] + a[1..] == a;
    }
  }

  /** `split` undoes `join` on separator-free pieces. */
  lemma {:induction false} SplitJoin(pieces: seq<string>, sep: char)
    requires |pieces| >= 1
    requires forall i :: 0 <= i < |pieces| ==> sep !in pieces[i]
    ensures Split(Join(pieces, [sep]), sep) == pieces
  {
    if |pieces| == 1 {
      SplitNoSeparator(pieces[0], sep);
    } else {
      SplitJoin(pieces[1..], sep);
      SplitAtFirst(pieces[0], sep, Join(pieces[1..], [sep]));
      assert pieces == [pieces[0]] + pieces[1..];
    }
  }

  /** The last piece of a split is the text after the last separator. */
  lemma {:induction false} SplitLastPiece(a: string, sep: char, b: string)
    requires sep !in b
    ensures |Split(a + [sep] + b, sep)| >= 2
    ensures Split(a + [sep] + b, sep)[|Split(a + [sep] + b, sep)| - 1] == b
  {
    var s := a + [sep] + b;
    if a == [] {
      assert s[1..] == b;
      SplitNoSeparator(b, sep);
    } else {
      assert s[1..] == a[1..] + [sep] + b;
      SplitLastPiece(a[1..], sep, b);
    }
  }

  /** `s.includes(sub)`: `sub` occurs in `s` at some position. */
  function Contains(s: string, sub: string): (r: bool)
    ensures r <==> exists i :: 0 <= i <= |s| && sub <= s[i..]
  {
    if sub <= s then
      assert sub <= s[0..];
      true
    else if s == [] then false
    else
      var r := Contains(s[1..], sub);
      assert forall i :: 1 <= i <= |s| ==> s[i..] == s[1..][i - 1..];
      r
  }

  /** Text lacking one of the characters of `sub` does not include `sub`. */
  lemma MissingCharNotContained(s: string, sub: string, k: nat)
    requires k < |sub| && sub[k] !in s
    ensures !Contains(s, sub)
  {
  }

  /** `ch.repeat(n)`. */
  function Repeat(ch: char, n: nat): (r: string)
    ensures |r| == n && forall i :: 0 <= i < n ==> r[i] == ch
  {
    seq(n, _ => ch)
  }

  // ---- integers as text ----

  function DigitChar(d: nat): char
    requires d < 10
  {
    "0123456789"[d]
  }

  predicate IsDecimalDigit(c: char) {
    '0' <= c <= '9'
  }

  /** `String(n)` for a non-negative integer below 10^21 (the source's guest
      counts): its shortest decimal numeral. */
  function DecimalString(n: nat): (r: string)
    ensures |r| >= 1
    ensures forall i :: 0 <= i < |r| ==> IsDecimalDigit(r[i])
    decreases n
  {
    if n < 10 then [DigitChar(n)] else DecimalString(n / 10) + [DigitChar(n % 10)]
  }

  /** `String(n)` for an integer: a minus sign before the numeral of a negative. */
  function IntString(n: int): (r: string)
    ensures |r| >= 1
  {
    if n < 0 then "-" + DecimalString(-n) else DecimalString(n)
  }

  /** The value of a digit in base `radix` (10 or 16), if it is one. */
  function DigitValue(c: char, radix: nat): Option<nat>
  {
    if '0' <= c <= '9' && (c as int) - ('0' as int) < radix then Some((c as int) - ('0' as int))
    else if radix == 16 && 'a' <= c <= 'f' then Some((c as int) - ('a' as int) + 10)
    else if radix == 16 && 'A' <= c <= 'F' then Some((c as int) - ('A' as int) + 10)
    else None
  }

  /** The longest prefix made of digits of base `radix`. */
  function DigitPrefix(s: string, radix: nat): (r: string)
    ensures r <= s
    ensures forall i :: 0 <= i < |r| ==> DigitValue(r[i], radix).Some?
  {
    if s == [] || DigitValue(s[0], radix).None? then [] else [s[0]] + DigitPrefix(s[1..], radix)
  }

  /** The value of a numeral all of whose characters are digits of `radix`. */
  function NumeralValue(s: string, radix: nat): nat
    requires forall i :: 0 <= i < |s| ==> DigitValue(s[i], radix).Some?
  {
    if s == [] then 0
    else NumeralValue(s[..|s| - 1], radix) * radix + DigitValue(s[|s| - 1], radix).value
  }

  /** `parseInt(s)` with no radix: skip leading whitespace, take an optional sign,
      read base 16 after a `0x`/`0X` prefix and base 10 otherwise, and stop at
      the first non-digit; `None` stands for `NaN` (no digit at all). */
  function ParseInt(s: string): (r: Option<int>)
  {
    var t := TrimStart(s);
    var negative := t != [] && t[0] == '-';
    var u := if t != [] && (t[0] == '-' || t[0] == '+') then t[1..] else t;
    var hex := |u| >= 2 && u[0] == '0' && (u[1] == 'x' || u[1] == 'X');
    var radix := if hex then 16 else 10;
    var digits := DigitPrefix(if hex then u[2..] else u, radix);
    if digits == [] then None
    else
      var v: int := NumeralValue(digits, radix);
      Some(if negative then -v else v)
  }

  lemma {:induction false} DigitPrefixAll(s: string, radix: nat)
    requires forall i :: 0 <= i < |s| ==> DigitValue(s[i], radix).Some?
    ensures DigitPrefix(s, radix) == s
  {
    if s != [] {
      DigitPrefixAll(s[1..], radix);
    }
  }

  lemma {:induction false} DecimalStringValue(n: nat)
    ensures NumeralValue(DecimalString(n), 10) == n
    decreases n
  {
    if n >= 10 {
      DecimalStringValue(n / 10);
      var s := DecimalString(n);
      assert s[..|s| - 1] == DecimalString(n / 10);
    }
  }

  /** `parseInt` of a decimal numeral is its value. */
  lemma ParseIntNumeral(s: string)
    requires |s| >= 1 && forall i :: 0 <= i < |s| ==> DigitValue(s[i], 10).Some?
    ensures ParseInt(s) == Some(NumeralValue(s, 10))
  {
    assert '0' <= s[0] <= '9';
    assert s[0] !in Whitespace;
    assert LeadingWhitespace(s) == 0;
    assert TrimStart(s) == s;
    assert s[0] != '-' && s[0] != '+';
    assert |s| >= 2 ==> DigitValue(s[1], 10).Some? && s[1] != 'x' && s[1] != 'X';
    DigitPrefixAll(s, 10);
  }

  /** `parseInt(String(n)) == n`: the decimal text of a count parses back to it. */
  lemma ParseIntDecimalString(n: nat)
    ensures ParseInt(DecimalString(n)) == Some(n)
  {
    var s := DecimalString(n);
    assert forall i :: 0 <= i < |s| ==> DigitValue(s[i], 10).Some?;
    ParseIntNumeral(s);
    DecimalStringValue(n);
  }

  /** `parseInt` of a minus sign and a decimal numeral is minus its value. */
  lemma {:induction false} ParseIntNegated(d: string)
    requires |d| >= 1 && forall i :: 0 <= i < |d| ==> DigitValue(d[i], 10).Some?
    ensures ParseInt("-" + d) == Some(0 - NumeralValue(d, 10) as int)
  {
    var s := "-" + d;
    assert s[0] !in Whitespace;
    assert LeadingWhitespace(s) == 0;
    assert TrimStart(s) == s;
    assert s[1..] == d;
    assert |d| >= 2 ==> DigitValue(d[1], 10).Some? && d[1] != 'x' && d[1] != 'X';
    DigitPrefixAll(d, 10);
  }

  /** `parseInt(String(n)) == n` for every integer. */
  lemma {:induction false} ParseIntIntString(n: int)
    ensures ParseInt(IntString(n)) == Some(n)
  {
    if n >= 0 {
      assert IntString(n) == DecimalString(n);
      ParseIntDecimalString(n);
    } else {
      var d := DecimalString(-n);
      assert IntString(n) == "-" + d;
      assert forall i :: 0 <= i < |d| ==> DigitValue(d[i], 10).Some?;
      DecimalStringValue(-n);
      assert NumeralValue(d, 10) == -n;
      ParseIntNegated(d);
    }
  }

  /** `parseFloat(s)` for text whose number has no fraction or exponent: skip
      leading whitespace, take an optional sign and the longest run of decimal
      digits; `None` stands for `NaN`. */
  function ParseFloat(s: string): (r: Option<int>)
  {
    var t := TrimStart(s);
    var negative := t != [] && t[0] == '-';
    var u := if t != [] && (t[0] == '-' || t[0] == '+') then t[1..] else t;
    var digits := DigitPrefix(u, 10);
    if digits == [] then None
    else
      var v: int := NumeralValue(digits, 10);
      Some(if negative then -v else v)
  }

  lemma {:induction false} ParseFloatNumeral(d: string)
    requires |d| >= 1 && forall i :: 0 <= i < |d| ==> DigitValue(d[i], 10).Some?
    ensures ParseFloat(d) == Some(NumeralValue(d, 10))
  {
    assert '0' <= d[0] <= '9';
    assert d[0] !in Whitespace;
    assert LeadingWhitespace(d) == 0;
    assert TrimStart(d) == d;
    assert d[0] != '-' && d[0] != '+';
    DigitPrefixAll(d, 10);
  }

  lemma {:induction false} ParseFloatNegated(d: string)
    requires |d| >= 1 && forall i :: 0 <= i < |d| ==> DigitValue(d[i], 10).Some?
    ensures ParseFloat("-" + d) == Some(0 - NumeralValue(d, 10) as int)
  {
    var s := "-" + d;
    assert s[0] !in Whitespace;
    assert LeadingWhitespace(s) == 0;
    assert TrimStart(s) == s;
    assert s[1..] == d;
    DigitPrefixAll(d, 10);
  }

  /** `parseFloat(String(n)) == n` for every integer. */
  lemma {:induction false} ParseFloatIntString(n: int)
    ensures ParseFloat(IntString(n)) == Some(n)
  {
    var d := DecimalString(if n < 0 then -n else n);
    assert forall i :: 0 <= i < |d| ==> DigitValue(d[i], 10).Some?;
    DecimalStringValue(if n < 0 then -n else n);
    if n < 0 {
      assert IntString(n) == "-" + d;
      ParseFloatNegated(d);
    } else {
      assert IntString(n) == d;
      ParseFloatNumeral(d);
    }
  }
}
