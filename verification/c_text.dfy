/** The C library text routines the sources lean on, over `string`:
    `isspace`/`isdigit`, the integer prefix grammar shared by `sscanf("%d")`
    and `std::stoi`, `strchr` and `strstr`.  Strings carry no terminating
    NUL; the fixed-size buffers of the callers are not modelled. */
module CText {
  import opened Basics

  /** `isspace` in the "C" locale: space, \t, \n, \v, \f and \r. */
  predicate IsSpace(c: char) {
    c == ' ' || ('\t' <= c <= '\r')
  }

  predicate IsDigit(c: char) {
    '0' <= c <= '9'
  }

  function DigitValue(c: char): (d: nat)
    requires IsDigit(c)
    ensures d < 10
  {
    c as int - '0' as int
  }

  function DigitChar(d: nat): (c: char)
    requires d < 10
    ensures IsDigit(c) && DigitValue(c) == d
  {
    ('0' as int + d) as char
  }

  /** The number of leading white-space characters. */
  function SkipSpaces(s: string): (n: nat)
    ensures n <= |s|
    ensures forall i | 0 <= i < n :: IsSpace(s[i])
    ensures n < |s| ==> !IsSpace(s[n])
  {
    if |s| == 0 || !IsSpace(s[0]) then 0 else 1 + SkipSpaces(s[1..])
  }

  /** The length of the longest all-digit prefix. */
  function LeadingDigits(s: string): (n: nat)
    ensures n <= |s|
    ensures forall i | 0 <= i < n :: IsDigit(s[i])
    ensures n < |s| ==> !IsDigit(s[n])
  {
    if |s| == 0 || !IsDigit(s[0]) then 0 else 1 + LeadingDigits(s[1..])
  }

  predicate AllDigits(s: string) {
    forall i | 0 <= i < |s| :: IsDigit(s[i])
  }

  /** The decimal value of a digit string (most significant digit first). */
  function DigitsValue(s: string): nat
    requires AllDigits(s)
  {
    if |s| == 0 then 0 else DigitsValue(s[..|s| - 1]) * 10 + DigitValue(s[|s| - 1])
  }

  /** The decimal spelling of a natural number, without leading zeros. */
  function NatToString(n: nat): (s: string)
    ensures |s| >= 1 && AllDigits(s)
  {
    if n < 10 then [DigitChar(n)] else NatToString(n / 10) + [DigitChar(n % 10)]
  }

  /** An integer read from the front of a string, and how many characters it used. */
  datatype Scanned = Scanned(value: int, consumed: nat)

  /** The integer prefix grammar of `strtol` in base 10, which both
      `sscanf("%d")` and `std::stoi` follow: optional white space, an
      optional sign, then at least one digit.  `None` is "no conversion". */
  function ScanInt(s: string): (r: Option<Scanned>)
    ensures r.Some? ==> 0 < r.value.consumed <= |s| && IsDigit(s[r.value.consumed - 1])
    ensures r.Some? ==> r.value.consumed == |s| || !IsDigit(s[r.value.consumed])
  {
    var ws := SkipSpaces(s);
    var signed := ws < |s| && (s[ws] == '+' || s[ws] == '-');
    var start := if signed then ws + 1 else ws;
    var count := LeadingDigits(s[start..]);
    if count == 0 then None
    else
      var magnitude: int := DigitsValue(s[start..start + count]);
      Some(Scanned(if signed && s[ws] == '-' then -magnitude else magnitude, start + count))
  }

  /** No conversion happens exactly when no digit follows the white space
      and the optional sign. */
  lemma ScanIntFails(s: string)
    ensures ScanInt(s).None? <==>
      var ws := SkipSpaces(s);
      var start := if ws < |s| && (s[ws] == '+' || s[ws] == '-') then ws + 1 else ws;
      start == |s| || !IsDigit(s[start])
  {
  }

  lemma {:induction false} DigitsValueOfNatToString(n: nat)
    ensures DigitsValue(NatToString(n)) == n
  {
    if n >= 10 {
      var s := NatToString(n);
      assert s[..|s| - 1] == NatToString(n / 10);
      DigitsValueOfNatToString(n / 10);
    }
  }

  lemma {:induction false} LeadingDigitsOfPrefix(digits: string, rest: string)
    requires AllDigits(digits)
    requires rest == [] || !IsDigit(rest[0])
    ensures LeadingDigits(digits + rest) == |digits|
  {
    if |digits| > 0 {
      assert (digits + rest)[1..] == digits[1..] + rest;
      LeadingDigitsOfPrefix(digits[1..], rest);
    } else {
      assert digits + rest == rest;
    }
  }

  /** A digit string followed by a non-digit is read as its decimal value. */
  lemma ScanIntOfDigits(digits: string, rest: string)
    requires |digits| > 0 && AllDigits(digits)
    requires rest == [] || !IsDigit(rest[0])
    ensures ScanInt(digits + rest) == Some(Scanned(DigitsValue(digits), |digits|))
  {
    var s := digits + rest;
    assert !IsSpace(s[0]) && s[0] != '+' && s[0] != '-';
    assert SkipSpaces(s) == 0;
    assert s[0..] == s;
    LeadingDigitsOfPrefix(digits, rest);
    assert s[0..|digits|] == digits;
  }

  /** Reading back a spelled-out natural number gives the number, and stops
      right after its last digit. */
  lemma ScanIntOfNatToString(n: nat, rest: string)
    requires rest == [] || !IsDigit(rest[0])
    ensures ScanInt(NatToString(n) + rest) == Some(Scanned(n, |NatToString(n)|))
  {
    ScanIntOfDigits(NatToString(n), rest);
    DigitsValueOfNatToString(n);
  }

  /** `strchr(s, c)`: the index of the first occurrence of `c`, if any. */
  function FindChar(s: string, c: char): (r: Option<nat>)
    ensures r.None? <==> c !in s
    ensures r.Some? ==> r.value < |s| && s[r.value] == c && c !in s[..r.value]
  {
    if |s| == 0 then None
    else if s[0] == c then Some(0)
    else match FindChar(s[1..], c)
      case None => None
      case Some(i) => assert s[..i + 1] == [s[0]] + s[1..][..i]; Some(i + 1)
  }

  /** `strstr(text, pattern) != NULL`, scanning from the front. */
  predicate Contains(text: string, pattern: string)
    decreases |text|
  {
    pattern <= text || (|text| > 0 && Contains(text[1..], pattern))
  }

  /** `pattern` occurs in `text` starting at index `i`. */
  predicate OccursAt(text: string, pattern: string, i: int) {
    0 <= i <= |text| - |pattern| && text[i..i + |pattern|] == pattern
  }

  /** Dropping the first character shifts every occurrence down by one. */
  lemma OccursShift(text: string, pattern: string, i: nat)
    requires |text| > 0
    ensures OccursAt(text[1..], pattern, i) <==> OccursAt(text, pattern, i + 1)
  {
    if i + |pattern| <= |text| - 1 {
      assert text[1..][i..i + |pattern|] == text[i + 1..i + 1 + |pattern|];
    }
  }

  /** `Contains` is exactly "occurs at some position". */
  lemma {:induction false} ContainsOccurrence(text: string, pattern: string)
    ensures Contains(text, pattern) <==> exists i :: OccursAt(text, pattern, i)
  {
    if pattern <= text {
      assert OccursAt(text, pattern, 0);
    } else if |text| == 0 {
      assert forall i :: !OccursAt(text, pattern, i);
    } else {
      ContainsOccurrence(text[1..], pattern);
      if exists i :: OccursAt(text, pattern, i) {
        var i :| OccursAt(text, pattern, i);
        assert i != 0;
        OccursShift(text, pattern, i - 1);
      }
      if Contains(text[1..], pattern) {
        var i :| OccursAt(text[1..], pattern, i);
        OccursShift(text, pattern, i);
      }
    }
  }
}
