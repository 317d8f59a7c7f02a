/**
 The string operations the prompts and messages are built from: Python's
 `str()` of an integer (`Decimal`), `str.lower()` (`Lower`), and what it
 means for strings to occur in a text in a given order.
 */
module Text {
  import opened Wrappers

  predicate IsDigit(c: char) {
    '0' <= c <= '9'
  }

  predicate AllDigits(s: string) {
    forall i :: 0 <= i < |s| ==> IsDigit(s[i])
  }

  function DigitChar(d: nat): (c: char)
    requires d < 10
    ensures IsDigit(c) && c as int - '0' as int == d
  {
    "0123456789"[d]
  }

  /** The decimal digits of a natural number, most significant first, with no
      leading zero. */
  function Digits(n: nat): (s: string)
    ensures |s| >= 1 && AllDigits(s)
    ensures n >= 10 <==> |s| >= 2
    ensures n >= 1 ==> s[0] != '0'
  {
    if n < 10 then [DigitChar(n)] else Digits(n / 10) + [DigitChar(n % 10)]
  }

  /** The form Python gives an integer: an optional minus sign, then one or
      more digits with no leading zero, except for "0" itself; "-0" is not
      of this form. */
  predicate Canonical(s: string) {
    if |s| >= 1 && s[0] == '-' then |s| >= 2 && AllDigits(s[1..]) && s[1] != '0'
    else |s| >= 1 && AllDigits(s) && (|s| >= 2 ==> s[0] != '0')
  }

  /** Python's `str(n)` for an integer `n`: in canonical form, with a minus
      sign exactly for a negative `n`. */
  function Decimal(n: int): (s: string)
    ensures Canonical(s)
    ensures s[0] == '-' <==> n < 0
  {
    Sign(n) + Digits(Abs(n))
  }

  function Sign(n: int): string {
    if n < 0 then "-" else ""
  }

  function Abs(n: int): nat {
    if n < 0 then -n else n
  }

  /** The value of a non-empty string of decimal digits. */
  function DigitsValue(s: string): nat
    requires |s| >= 1 && AllDigits(s)
  {
    var last := s[|s| - 1] as int - '0' as int;
    if |s| == 1 then last else 10 * DigitsValue(s[..|s| - 1]) + last
  }

  /** Reads an optionally signed decimal integer. */
  function ParseDecimal(s: string): Option<int> {
    if |s| >= 2 && s[0] == '-' && AllDigits(s[1..]) then Some(-(DigitsValue(s[1..]) as int))
    else if |s| >= 1 && AllDigits(s) then Some(DigitsValue(s))
    else None
  }

  lemma {:induction false} DigitsRoundTrip(n: nat)
    ensures DigitsValue(Digits(n)) == n
  {
    if n >= 10 {
      var s := Digits(n);
      assert s[..|s| - 1] == Digits(n / 10);
      DigitsRoundTrip(n / 10);
    }
  }

  /** `Decimal` loses nothing: the integer can be read back from it. */
  lemma DecimalRoundTrip(n: int)
    ensures ParseDecimal(Decimal(n)) == Some(n)
  {
    if n < 0 {
      NegativeRoundTrip(Abs(n));
    } else {
      assert Sign(n) + Digits(Abs(n)) == Digits(n);
      NonNegativeRoundTrip(n);
    }
  }

  lemma NegativeRoundTrip(m: nat)
    requires m > 0
    ensures ParseDecimal("-" + Digits(m)) == Some(-(m as int))
  {
    ParseSigned(Digits(m));
    DigitsRoundTrip(m);
  }

  lemma NonNegativeRoundTrip(n: nat)
    ensures ParseDecimal(Digits(n)) == Some(n)
  {
    var d := Digits(n);
    assert IsDigit(d[0]);
    DigitsRoundTrip(n);
  }

  /** A minus sign before a digit string reads as the negated value. */
  lemma ParseSigned(d: string)
    requires |d| >= 1 && AllDigits(d)
    ensures ParseDecimal("-" + d) == Some(-(DigitsValue(d) as int))
  {
    assert ("-" + d)[0] == '-' && ("-" + d)[1..] == d;
  }

  lemma DecimalInjective(m: int, n: int)
    ensures Decimal(m) == Decimal(n) <==> m == n
  {
    DecimalRoundTrip(m);
    DecimalRoundTrip(n);
  }

  predicate IsUpper(c: char) {
    'A' <= c <= 'Z'
  }

  function LowerChar(c: char): char {
    if IsUpper(c) then (c as int + ('a' as int - 'A' as int)) as char else c
  }

  /** `str.lower()` on the letters A to Z; every other character is kept. */
  function Lower(s: string): (r: string)
    ensures |r| == |s|
    ensures forall i :: 0 <= i < |s| ==> r[i] == LowerChar(s[i])
  {
    if s == [] then [] else [LowerChar(s[0])] + Lower(s[1..])
  }

  /** Lower-casing leaves no capital letter, changes only capital letters,
      and doing it twice is doing it once. */
  lemma LowerProperties(s: string)
    ensures forall i :: 0 <= i < |s| ==> !IsUpper(Lower(s)[i])
    ensures forall i :: 0 <= i < |s| && !IsUpper(s[i]) ==> Lower(s)[i] == s[i]
    ensures Lower(Lower(s)) == Lower(s)
  {
  }

  /** `part` occurs in `s` starting at position `i`. */
  ghost predicate OccursAt(s: string, part: string, i: int) {
    0 <= i && i + |part| <= |s| && s[i..i + |part|] == part
  }

  /** The strings of `parts` occur in `s` one after another, in that order and
      without overlapping. */
  ghost predicate AppearInOrder(s: string, parts: seq<string>)
    decreases |parts|
  {
    parts == [] ||
    exists i :: OccursAt(s, parts[0], i) && AppearInOrder(s[i + |parts[0]|..], parts[1..])
  }

  /** Putting text and one more part in front keeps the order of the parts. */
  lemma {:induction false} AppearInOrderPrepend(text: string, part: string, rest: string, parts: seq<string>)
    requires AppearInOrder(rest, parts)
    ensures AppearInOrder(text + part + rest, [part] + parts)
  {
    var s := text + part + rest;
    var i := |text|;
    assert s[i..i + |part|] == part;
    assert s[i + |part|..] == rest;
    var all := [part] + parts;
    assert all[0] == part && all[1..] == parts;
    assert OccursAt(s, all[0], i) && AppearInOrder(s[i + |all[0]|..], all[1..]);
  }

  /** In a text's suffix the parts occur in the text itself. */
  lemma {:induction false} AppearInOrderInSuffix(s: string, j: nat, parts: seq<string>)
    requires j <= |s| && AppearInOrder(s[j..], parts)
    ensures AppearInOrder(s, parts)
  {
    if parts != [] {
      var i :| OccursAt(s[j..], parts[0], i) && AppearInOrder(s[j..][i + |parts[0]|..], parts[1..]);
      assert s[j..][i..i + |parts[0]|] == s[j + i..j + i + |parts[0]|];
      assert s[j..][i + |parts[0]|..] == s[j + i + |parts[0]|..];
      assert OccursAt(s, parts[0], j + i);
    }
  }

  /** Dropping the first part keeps the others in order. */
  lemma AppearInOrderDropFirst(s: string, parts: seq<string>)
    requires parts != [] && AppearInOrder(s, parts)
    ensures AppearInOrder(s, parts[1..])
  {
    var i :| OccursAt(s, parts[0], i) && AppearInOrder(s[i + |parts[0]|..], parts[1..]);
    AppearInOrderInSuffix(s, i + |parts[0]|, parts[1..]);
  }

  predicate StartsWith(s: string, prefix: string) {
    |prefix| <= |s| && s[..|prefix|] == prefix
  }

  /** The summed length of a list of strings. */
  function TotalLength(ss: seq<string>): nat {
    if ss == [] then 0 else |ss[0]| + TotalLength(ss[1..])
  }

  /** An f-string: the literal pieces with the formatted values between them,
      `pieces[0] + values[0] + pieces[1] + ... + pieces[n]`. */
  function Interpolate(pieces: seq<string>, values: seq<string>): string
    requires |pieces| == |values| + 1
    decreases |values|
  {
    if values == [] then pieces[0]
    else pieces[0] + values[0] + Interpolate(pieces[1..], values[1..])
  }

  /** An f-string adds nothing beyond its pieces and values: its length is
      theirs summed. */
  lemma {:induction false} InterpolateLength(pieces: seq<string>, values: seq<string>)
    requires |pieces| == |values| + 1
    ensures |Interpolate(pieces, values)| == TotalLength(pieces) + TotalLength(values)
    decreases |values|
  {
    if values != [] {
      InterpolateLength(pieces[1..], values[1..]);
    }
  }

  /** An f-string opens with its first piece and its first value. */
  lemma InterpolateOpening(pieces: seq<string>, values: seq<string>)
    requires |pieces| == |values| + 1 && values != []
    ensures StartsWith(Interpolate(pieces, values), pieces[0] + values[0])
  {
    var head := pieces[0] + values[0];
    assert (head + Interpolate(pieces[1..], values[1..]))[..|head|] == head;
  }

  /** Every interpolated value occurs in the result, in the order given. */
  lemma {:induction false} InterpolateKeepsOrder(pieces: seq<string>, values: seq<string>)
    requires |pieces| == |values| + 1
    ensures AppearInOrder(Interpolate(pieces, values), values)
    decreases |values|
  {
    if values != [] {
      InterpolateKeepsOrder(pieces[1..], values[1..]);
      AppearInOrderPrepend(pieces[0], values[0], Interpolate(pieces[1..], values[1..]), values[1..]);
      assert [values[0]] + values[1..] == values;
    }
  }
}
