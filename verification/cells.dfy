/**
 * Cell values of a table and the few text operations the keyword tables need:
 * numeric coercion with NaN propagation, ASCII case folding, whitespace stripping,
 * suffix and substring tests, and joining with a separator.
 */
module Cells {
  import opened Wrappers

  /** One cell as the CSV/Excel reader types it: a number, a text, or empty (NaN). */
  datatype Cell = Num(value: real) | Text(text: string) | Blank

  /** `pd.to_numeric(..., errors='coerce')` on one cell: a number stays, anything else is NaN. */
  function ToNumeric(c: Cell): Option<real> {
    if c.Num? then Some(c.value) else None
  }

  /** Subtraction on values that may be NaN: NaN in, NaN out. */
  function Minus(a: Option<real>, b: Option<real>): Option<real> {
    if a.Some? && b.Some? then Some(a.value - b.value) else None
  }

  /** Multiplication on values that may be NaN. */
  function Times(a: Option<real>, b: Option<real>): Option<real> {
    if a.Some? && b.Some? then Some(a.value * b.value) else None
  }

  /** Division on values that may be NaN; a zero divisor (pandas' inf or NaN) also yields None. */
  function Quotient(a: Option<real>, b: Option<real>): Option<real> {
    if a.Some? && b.Some? && b.value != 0.0 then Some(a.value / b.value) else None
  }

  /** A defined quotient times its divisor gives back the dividend. */
  lemma QuotientTimes(a: Option<real>, b: Option<real>)
    ensures Quotient(a, b).Some? ==> a.Some? && b.Some? && Quotient(a, b).value * b.value == a.value
  {
    if Quotient(a, b).Some? {
      assert Quotient(a, b).value == a.value / b.value;
    }
  }

  /** Python's `int(x)` on a float: truncation toward zero. */
  function Trunc(x: real): int {
    if x >= 0.0 then x.Floor else -((-x).Floor)
  }

  // ---------------------------------------------------------------------------
  // Text
  // ---------------------------------------------------------------------------

  /**
   * The characters Python's `str.strip()` removes: those `str.isspace()` accepts, that is the
   * ASCII whitespace, the information separators U+001C to U+001F, and the Unicode spaces and
   * line separators.
   */
  predicate IsWhitespace(c: char) {
    c == ' ' || ('\t' <= c <= '\r') || ('\U{001C}' <= c <= '\U{001F}') ||
    c == '\U{0085}' || c == '\U{00A0}' || c == '\U{1680}' || ('\U{2000}' <= c <= '\U{200A}') ||
    c == '\U{2028}' || c == '\U{2029}' || c == '\U{202F}' || c == '\U{205F}' || c == '\U{3000}'
  }

  predicate AllWhitespace(s: string) {
    forall i :: 0 <= i < |s| ==> IsWhitespace(s[i])
  }

  function StripLeft(s: string): string {
    if s != [] && IsWhitespace(s[0]) then StripLeft(s[1..]) else s
  }

  function StripRight(s: string): string {
    if s != [] && IsWhitespace(s[|s| - 1]) then StripRight(s[..|s| - 1]) else s
  }

  /** Python's `s.strip()`. */
  function Strip(s: string): string {
    StripRight(StripLeft(s))
  }

  function LowerChar(c: char): char {
    if 'A' <= c <= 'Z' then (c as int + 32) as char else c
  }

  function UpperChar(c: char): char {
    if 'a' <= c <= 'z' then (c as int - 32) as char else c
  }

  /** Python's `s.lower()` on ASCII letters. */
  function Lower(s: string): string {
    seq(|s|, i requires 0 <= i < |s| => LowerChar(s[i]))
  }

  /** Python's `s.upper()` on ASCII letters. */
  function Upper(s: string): string {
    seq(|s|, i requires 0 <= i < |s| => UpperChar(s[i]))
  }

  /** Python's `s.endswith(suffix)`. */
  predicate EndsWith(s: string, suffix: string) {
    |suffix| <= |s| && s[|s| - |suffix|..] == suffix
  }

  /** Python's `pattern in text` (plain substring test). */
  predicate Contains(text: string, pattern: string) {
    pattern <= text || (text != [] && Contains(text[1..], pattern))
  }

  /** Python's `sep.join(parts)`. */
  function Join(sep: string, parts: seq<string>): string {
    if parts == [] then ""
    else if |parts| == 1 then parts[0]
    else parts[0] + sep + Join(sep, parts[1..])
  }

  // ---------------------------------------------------------------------------
  // Lemmas about the text helpers
  // ---------------------------------------------------------------------------

  lemma {:induction false} StripLeftPadding(p: string, s: string)
    requires AllWhitespace(p)
    ensures StripLeft(p + s) == StripLeft(s)
  {
    if p != [] {
      assert (p + s)[1..] == p[1..] + s;
      StripLeftPadding(p[1..], s);
    } else {
      assert p + s == s;
    }
  }

  lemma {:induction false} StripRightPadding(s: string, q: string)
    requires AllWhitespace(q)
    ensures StripRight(s + q) == StripRight(s)
  {
    if q != [] {
      assert (s + q)[..|s + q| - 1] == s + q[..|q| - 1];
      StripRightPadding(s, q[..|q| - 1]);
    } else {
      assert s + q == s;
    }
  }

  lemma {:induction false} StripLeftConcat(s: string, q: string)
    ensures AllWhitespace(s) ==> StripLeft(s + q) == StripLeft(q)
    ensures !AllWhitespace(s) ==> StripLeft(s + q) == StripLeft(s) + q
  {
    if s != [] {
      assert (s + q)[1..] == s[1..] + q;
      StripLeftConcat(s[1..], q);
    } else {
      assert s + q == q;
    }
  }

  lemma {:induction false} StripLeftAllWhitespace(s: string)
    requires AllWhitespace(s)
    ensures StripLeft(s) == []
  {
    if s != [] {
      StripLeftAllWhitespace(s[1..]);
    }
  }

  lemma {:induction false} StripRightAllWhitespace(s: string)
    requires AllWhitespace(s)
    ensures StripRight(s) == []
  {
    if s != [] {
      StripRightAllWhitespace(s[..|s| - 1]);
    }
  }

  /** Surrounding whitespace never changes what `strip()` yields. */
  lemma StripIgnoresPadding(p: string, s: string, q: string)
    requires AllWhitespace(p) && AllWhitespace(q)
    ensures Strip(p + s + q) == Strip(s)
  {
    assert p + s + q == p + (s + q);
    StripLeftPadding(p, s + q);
    StripLeftConcat(s, q);
    if AllWhitespace(s) {
      StripLeftAllWhitespace(s);
      StripLeftAllWhitespace(q);
      StripRightAllWhitespace(q);
    } else {
      StripRightPadding(StripLeft(s), q);
    }
  }

  /** Lower-casing forgets whether letters were upper case. */
  lemma LowerOfUpper(s: string)
    ensures Lower(Upper(s)) == Lower(s)
  {
    assert forall i :: 0 <= i < |s| ==> LowerChar(UpperChar(s[i])) == LowerChar(s[i]);
  }
}
