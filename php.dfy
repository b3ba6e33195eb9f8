/**
 * The few pieces of PHP's own semantics that the inventory quick form relies
 * on: truthiness of scalar values (used by `if ($x)`, `$x ? a : b` and
 * `empty()`), `is_numeric` on strings (PHP 8 rules), the conversion of NULL
 * to a string, and `strtr` with an array of replacements, which is how
 * translated messages substitute their `@placeholder` arguments.
 */
module Php {
  import opened Wrappers

  /** A PHP scalar as it can come out of a submitted form (floats are not modelled). */
  datatype Scalar = Null | Bool(b: bool) | Int(i: int) | Str(s: string)

  /** A text form value: a string, or NULL when the form has no value for it. */
  type Text = Option<string>

  /** PHP's conversion to bool: NULL, false, 0, "" and "0" are false. */
  predicate Truthy(v: Scalar)
    ensures Truthy(v) <==> v !in {Null, Bool(false), Int(0), Str(""), Str("0")}
  {
    match v
    case Null => false
    case Bool(b) => b
    case Int(i) => i != 0
    case Str(s) => s != "" && s != "0"
  }

  function TextScalar(t: Text): Scalar {
    match t
    case None => Null
    case Some(s) => Str(s)
  }

  predicate TextTruthy(t: Text)
    ensures TextTruthy(t) <==> t !in {None, Some(""), Some("0")}
  {
    Truthy(TextScalar(t))
  }

  /** The string PHP makes of a text value in `.` and `.=`: NULL becomes "". */
  function TextOf(t: Text): string {
    t.GetOr("")
  }

  /** A text value is truthy exactly when it is a string other than "" and "0". */
  lemma TextTruthyIff(t: Text)
    ensures TextTruthy(t) <==> t.Some? && t.value != "" && t.value != "0"
  {
  }

  // ---------------------------------------------------------------------
  // is_numeric
  // ---------------------------------------------------------------------

  /** The white space PHP 8 allows around a numeric string: " \t\n\r\v\f". */
  predicate IsWhitespace(c: char) {
    c == ' ' || c == '\t' || c == '\n' || c == '\r' || c == 11 as char || c == 12 as char
  }

  predicate IsDigit(c: char) {
    '0' <= c <= '9'
  }

  function TrimLeading(s: string): (r: string)
    ensures |r| <= |s| && r == s[|s| - |r|..]
    ensures r != [] ==> !IsWhitespace(r[0])
  {
    if s != [] && IsWhitespace(s[0]) then TrimLeading(s[1..]) else s
  }

  function TrimTrailing(s: string): (r: string)
    ensures |r| <= |s| && r == s[..|r|]
    ensures r != [] ==> !IsWhitespace(r[|r| - 1])
  {
    if s != [] && IsWhitespace(s[|s| - 1]) then TrimTrailing(s[..|s| - 1]) else s
  }

  /** The length of the run of decimal digits that starts the string. */
  function DigitRun(s: string): (n: nat)
    ensures n <= |s|
    ensures forall k :: 0 <= k < n ==> IsDigit(s[k])
    ensures n < |s| ==> !IsDigit(s[n])
  {
    if s != [] && IsDigit(s[0]) then 1 + DigitRun(s[1..]) else 0
  }

  predicate AllDigits(s: string) {
    forall k :: 0 <= k < |s| ==> IsDigit(s[k])
  }

  /** An optional exponent: nothing, or `e`/`E`, an optional sign and at least one digit. */
  predicate OptExponent(e: string) {
    e == [] ||
    ((e[0] == 'e' || e[0] == 'E') &&
     var d := if |e| > 1 && (e[1] == '+' || e[1] == '-') then e[2..] else e[1..];
     d != [] && DigitRun(d) == |d|)
  }

  /**
   * An unsigned PHP number literal: digits (LNUM), or a decimal with at least
   * one digit on either side of the point (DNUM), either one optionally
   * followed by an exponent.
   */
  predicate UnsignedNumber(t: string) {
    var m := DigitRun(t);
    var rest := t[m..];
    if rest != [] && rest[0] == '.' then
      var f := DigitRun(rest[1..]);
      (m > 0 || f > 0) && OptExponent(rest[1 + f..])
    else
      m > 0 && OptExponent(rest)
  }

  predicate SignedNumber(t: string) {
    if t != [] && (t[0] == '+' || t[0] == '-') then UnsignedNumber(t[1..]) else UnsignedNumber(t)
  }

  /** PHP 8's numeric strings: a signed number with optional white space on both sides. */
  predicate IsNumericString(s: string) {
    SignedNumber(TrimTrailing(TrimLeading(s)))
  }

  /** `is_numeric` on a scalar: integers are numeric, NULL and booleans are not. */
  predicate IsNumeric(v: Scalar)
    ensures IsNumeric(v) ==> v.Int? || (v.Str? && HasDigit(v.s))
  {
    match v
    case Null => false
    case Bool(_) => false
    case Int(_) => true
    case Str(s) => if IsNumericString(s) then NumericStringHasDigit(s); true else false
  }

  lemma {:induction false} DigitRunAll(s: string)
    requires AllDigits(s)
    ensures DigitRun(s) == |s|
  {
    if s != [] {
      assert AllDigits(s[1..]) by {
        forall k | 0 <= k < |s[1..]| ensures IsDigit(s[1..][k]) {
          assert s[1..][k] == s[k + 1];
        }
      }
      DigitRunAll(s[1..]);
    }
  }

  /** Every non-empty string of decimal digits (an entity id, say) is numeric. */
  lemma DigitStringIsNumeric(s: string)
    requires s != [] && AllDigits(s)
    ensures IsNumericString(s)
  {
    assert !IsWhitespace(s[0]);
    assert TrimLeading(s) == s;
    assert !IsWhitespace(s[|s| - 1]);
    assert TrimTrailing(s) == s;
    DigitRunAll(s);
    assert s[|s|..] == [];
  }

  predicate HasDigit(s: string) {
    exists k :: 0 <= k < |s| && IsDigit(s[k])
  }

  lemma SliceHasDigit(s: string, a: nat, b: nat)
    requires a <= b <= |s| && HasDigit(s[a..b])
    ensures HasDigit(s)
  {
    var k :| 0 <= k < b - a && IsDigit(s[a..b][k]);
    assert s[a + k] == s[a..b][k];
  }

  lemma UnsignedHasDigit(u: string)
    requires UnsignedNumber(u)
    ensures HasDigit(u)
  {
    var m := DigitRun(u);
    if m > 0 {
      assert IsDigit(u[0]);
    } else {
      assert u[m..] == u;
      assert DigitRun(u[1..]) > 0;
      assert IsDigit(u[1..][0]);
      assert IsDigit(u[1]);
    }
  }

  lemma SignedHasDigit(t: string)
    requires SignedNumber(t)
    ensures HasDigit(t)
  {
    if t != [] && (t[0] == '+' || t[0] == '-') {
      UnsignedHasDigit(t[1..]);
      assert t[1..] == t[1..|t|];
      SliceHasDigit(t, 1, |t|);
    } else {
      UnsignedHasDigit(t);
    }
  }

  /** A numeric string holds at least one digit; so "" and pure white space are not numeric. */
  lemma NumericStringHasDigit(s: string)
    requires IsNumericString(s)
    ensures HasDigit(s)
  {
    SignedHasDigit(TrimTrailing(TrimLeading(s)));
    TrimmedDigitIsDigit(s);
  }

  /** A digit of the trimmed string is a digit of the string. */
  lemma TrimmedDigitIsDigit(s: string)
    requires HasDigit(TrimTrailing(TrimLeading(s)))
    ensures HasDigit(s)
  {
    var a := TrimLeading(s);
    var t := TrimTrailing(a);
    assert t == a[0..|t|];
    SliceHasDigit(a, 0, |t|);
    assert a == s[|s| - |a|..|s|];
    SliceHasDigit(s, |s| - |a|, |s|);
  }

  // ---------------------------------------------------------------------
  // strtr
  // ---------------------------------------------------------------------

  /** Replacement pairs as `strtr` applies them: non-empty keys, longest first. */
  predicate ValidPairs(pairs: seq<(string, string)>) {
    (forall i :: 0 <= i < |pairs| ==> pairs[i].0 != []) &&
    (forall i, j :: 0 <= i < j < |pairs| ==> |pairs[j].0| <= |pairs[i].0|)
  }

  /** The first key (so, with longest-first pairs, the longest key) that starts `s`. */
  function FirstMatch(s: string, pairs: seq<(string, string)>): (r: Option<nat>)
    ensures r.Some? ==> r.value < |pairs| && pairs[r.value].0 <= s
    ensures r.Some? ==> forall i :: 0 <= i < r.value ==> !(pairs[i].0 <= s)
    ensures r.None? ==> forall i :: 0 <= i < |pairs| ==> !(pairs[i].0 <= s)
  {
    if pairs == [] then None
    else if pairs[0].0 <= s then Some(0)
    else match FirstMatch(s, pairs[1..])
      case None => None
      case Some(i) => Some(i + 1)
  }

  /** A matching key is never longer than the one `FirstMatch` picks. */
  lemma FirstMatchIsLongest(s: string, pairs: seq<(string, string)>, j: nat)
    requires ValidPairs(pairs) && j < |pairs| && pairs[j].0 <= s
    ensures FirstMatch(s, pairs).Some?
    ensures |pairs[j].0| <= |pairs[FirstMatch(s, pairs).value].0|
  {
  }

  /**
   * `strtr($s, $pairs)`: scans `s` once from the left; where a key starts, its
   * replacement is emitted and the key skipped, so replacements are never
   * themselves rescanned.
   */
  function Strtr(s: string, pairs: seq<(string, string)>): (r: string)
    requires ValidPairs(pairs)
    decreases |s|
  {
    if s == [] then []
    else match FirstMatch(s, pairs)
      case Some(i) => pairs[i].1 + Strtr(s[|pairs[i].0|..], pairs)
      case None => [s[0]] + Strtr(s[1..], pairs)
  }

  /** No key starts with any character of `p`. */
  predicate KeyFree(p: string, pairs: seq<(string, string)>)
    requires ValidPairs(pairs)
  {
    forall j, i :: 0 <= j < |p| && 0 <= i < |pairs| ==> p[j] != pairs[i].0[0]
  }

  /** Text in which no key can start is copied through unchanged. */
  lemma {:induction false} StrtrCopies(p: string, rest: string, pairs: seq<(string, string)>)
    requires ValidPairs(pairs) && KeyFree(p, pairs)
    ensures Strtr(p + rest, pairs) == p + Strtr(rest, pairs)
  {
    if p == [] {
      assert p + rest == rest;
    } else {
      var s := p + rest;
      assert s[0] == p[0];
      assert s[1..] == p[1..] + rest;
      StrtrCopies(p[1..], rest, pairs);
    }
  }

  /** A key that `FirstMatch` picks is replaced, and scanning resumes after it. */
  lemma StrtrReplaces(i: nat, rest: string, pairs: seq<(string, string)>)
    requires ValidPairs(pairs) && i < |pairs|
    requires FirstMatch(pairs[i].0 + rest, pairs) == Some(i)
    ensures Strtr(pairs[i].0 + rest, pairs) == pairs[i].1 + Strtr(rest, pairs)
  {
    assert (pairs[i].0 + rest)[|pairs[i].0|..] == rest;
  }
}
