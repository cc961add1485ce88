/** The textual numbers the controllers keep in labels, annotations and status fields:
    base-10 integers, booleans and "n%" percentages, printed and parsed the way Go's
    `strconv` and the `(\d+)\%` regular expression do. */
module Strconv {
  import opened Wrappers

  const MIN_INT64: int := -0x8000_0000_0000_0000
  const MAX_INT64: int := 0x7FFF_FFFF_FFFF_FFFF

  predicate IsDigit(c: char) { '0' <= c <= '9' }

  predicate AllDigits(s: string) { forall i :: 0 <= i < |s| ==> IsDigit(s[i]) }

  function DigitChar(d: nat): char
    requires d < 10
  {
    ('0' as int + d) as char
  }

  function FormatNat(n: nat): string {
    if n < 10 then [DigitChar(n)] else FormatNat(n / 10) + [DigitChar(n % 10)]
  }

  /** `strconv.FormatInt(n, 10)` and `fmt.Sprintf("%d", n)`. */
  function FormatInt(n: int): string {
    if n < 0 then "-" + FormatNat(-n) else FormatNat(n)
  }

  function DigitsValue(s: string): nat
    requires AllDigits(s)
  {
    if s == "" then 0 else 10 * DigitsValue(s[..|s| - 1]) + (s[|s| - 1] as int - '0' as int)
  }

  /** `strconv.Atoi`: an optional sign and at least one digit, within 64 bits. */
  function Atoi(s: string): Option<int> {
    var signed := s != "" && (s[0] == '-' || s[0] == '+');
    var digits := if signed then s[1..] else s;
    if digits == "" || !AllDigits(digits) then None
    else
      var magnitude: int := DigitsValue(digits);
      var value := if s[0] == '-' then -magnitude else magnitude;
      if MIN_INT64 <= value <= MAX_INT64 then Some(value) else None
  }

  function FormatBool(b: bool): string { if b then "true" else "false" }

  function ParseBool(s: string): Option<bool> {
    if s in {"1", "t", "T", "TRUE", "true", "True"} then Some(true)
    else if s in {"0", "f", "F", "FALSE", "false", "False"} then Some(false)
    else None
  }

  /** Length of the run of digits at the start of `s`. */
  function DigitRun(s: string): (n: nat)
    ensures n <= |s| && AllDigits(s[..n])
    ensures n < |s| ==> !IsDigit(s[n])
  {
    if s == "" || !IsDigit(s[0]) then 0
    else
      var n := 1 + DigitRun(s[1..]);
      assert s[..n] == [s[0]] + s[1..][..n - 1];
      n
  }

  /** The digits of the leftmost match of `(\d+)\%`. */
  function FindPercent(s: string): (digits: Option<string>)
    ensures digits.Some? ==> digits.value != "" && AllDigits(digits.value)
    decreases |s|
  {
    if s == "" then None
    else
      var n := DigitRun(s);
      if n == 0 then FindPercent(s[1..])
      else if n < |s| && s[n] == '%' then Some(s[..n])
      else FindPercent(s[n..])
  }

  /** `ProgressStringToValue`: no match, or a number outside 64 bits, reads as 0. */
  function ProgressStringToValue(progress: string): (value: nat)
    ensures value <= MAX_INT64
  {
    var found := FindPercent(progress);
    if found.Some? && DigitsValue(found.value) <= MAX_INT64 then DigitsValue(found.value) else 0
  }

  /** `ProgressValueToString`. */
  function ProgressValueToString(value: int): string { FormatInt(value) + "%" }

  /** `MaxProgressString`. */
  function MaxProgressString(p1: string, p2: string): string {
    var v1, v2 := ProgressStringToValue(p1), ProgressStringToValue(p2);
    ProgressValueToString(if v1 < v2 then v2 else v1)
  }

  lemma {:induction false} FormatNatIsDigits(n: nat)
    ensures FormatNat(n) != "" && AllDigits(FormatNat(n)) && DigitsValue(FormatNat(n)) == n
  {
    if n < 10 {
      assert FormatNat(n)[..0] == "";
    } else {
      FormatNatIsDigits(n / 10);
      assert FormatNat(n)[..|FormatNat(n)| - 1] == FormatNat(n / 10);
    }
  }

  /** Printing then parsing gives back every 64-bit integer. */
  lemma AtoiFormatInt(n: int)
    requires MIN_INT64 <= n <= MAX_INT64
    ensures Atoi(FormatInt(n)) == Some(n)
  {
    FormatNatIsDigits(if n < 0 then -n else n);
    if n < 0 {
      assert FormatInt(n)[1..] == FormatNat(-n);
    }
  }

  lemma {:induction false} DigitRunOfDigits(s: string, rest: string)
    requires AllDigits(s) && (rest == "" || !IsDigit(rest[0]))
    ensures DigitRun(s + rest) == |s|
  {
    if s == "" {
      assert s + rest == rest;
    } else {
      assert (s + rest)[1..] == s[1..] + rest;
      DigitRunOfDigits(s[1..], rest);
    }
  }

  /** A printed percentage reads back as the value that was printed. */
  lemma ProgressRoundTrip(value: nat)
    requires value <= MAX_INT64
    ensures ProgressStringToValue(ProgressValueToString(value)) == value
  {
    var digits := FormatNat(value);
    FormatNatIsDigits(value);
    DigitRunOfDigits(digits, "%");
    assert (digits + "%")[..|digits|] == digits;
  }

  lemma MaxProgressValue(p1: string, p2: string)
    ensures var v1, v2 := ProgressStringToValue(p1), ProgressStringToValue(p2);
            ProgressStringToValue(MaxProgressString(p1, p2)) == if v1 < v2 then v2 else v1
  {
    var v1, v2 := ProgressStringToValue(p1), ProgressStringToValue(p2);
    ProgressRoundTrip(if v1 < v2 then v2 else v1);
  }

  /** What `Atoi` reads: digits with at most one sign, of a value within 64 bits. */
  lemma AtoiExactly(digits: string, sign: string)
    requires sign in {"", "+", "-"} && (digits == "" || digits[0] !in {'+', '-'})
    ensures var magnitude: int := if AllDigits(digits) then DigitsValue(digits) else 0;
            var value := if sign == "-" then -magnitude else magnitude;
            && (Atoi(sign + digits).Some? <==>
                  digits != "" && AllDigits(digits) && -0x8000_0000_0000_0000 <= value < 0x8000_0000_0000_0000)
            && (Atoi(sign + digits).Some? ==> Atoi(sign + digits).value == value)
  {
    if sign == "" {
      assert sign + digits == digits;
    } else {
      assert (sign + digits)[1..] == digits && (sign + digits)[0] == sign[0];
    }
  }

  /** A match of `(\d+)\%` ends after position j. */
  predicate MatchEnds(s: string, j: int) {
    0 <= j && j + 1 < |s| && IsDigit(s[j]) && s[j + 1] == '%'
  }

  /** The digits found are all those before the first '%' that follows a digit, and there is no match exactly
      when no '%' does. */
  ghost predicate Leftmost(s: string, digits: Option<string>) {
    match digits
    case None => forall j :: !MatchEnds(s, j)
    case Some(d) => exists i: nat :: MatchOf(s, d, i)
  }

  ghost predicate MatchOf(s: string, d: string, i: nat) {
    && d != "" && i + |d| < |s| && s[i..i + |d|] == d && s[i + |d|] == '%'
    && (i > 0 ==> !IsDigit(s[i - 1]))
    && (forall j :: MatchEnds(s, j) ==> j >= i + |d| - 1)
  }

  lemma {:induction false} FindPercentIsLeftmost(s: string)
    ensures Leftmost(s, FindPercent(s))
    decreases |s|
  {
    if s != "" {
      var n := DigitRun(s);
      assert forall j :: 0 <= j < n ==> s[..n][j] == s[j];
      if 0 < n < |s| && s[n] == '%' {
        assert s[0..0 + n] == s[..n];
        assert forall j :: MatchEnds(s, j) ==> j >= n - 1;
        assert MatchOf(s, s[..n], 0);
      } else {
        var k := if n == 0 then 1 else n;
        FindPercentIsLeftmost(s[k..]);
        LeftmostLater(s, k, FindPercent(s[k..]));
      }
    }
  }

  /** Nothing ends before k, and no digits run across it. */
  lemma LeftmostLater(s: string, k: nat, digits: Option<string>)
    requires 0 < k <= |s| && Leftmost(s[k..], digits)
    requires forall j :: MatchEnds(s, j) ==> j >= k
    requires k < |s| && IsDigit(s[k]) ==> !IsDigit(s[k - 1])
    requires digits.Some? ==> AllDigits(digits.value)
    ensures Leftmost(s, digits)
  {
    var rest := s[k..];
    assert forall j :: MatchEnds(s, j) ==> MatchEnds(rest, j - k);
    if digits.Some? {
      var d := digits.value;
      var i: nat :| MatchOf(rest, d, i);
      assert s[k + i..k + i + |d|] == rest[i..i + |d|];
      if i == 0 {
        assert d[0] == rest[0..0 + |d|][0] == s[k];
      } else {
        assert rest[i - 1] == s[k + i - 1];
      }
      assert MatchOf(s, d, k + i);
    }
  }

  /** What a progress text reads as: the number before its first '%' that follows a digit, and 0 when there
      is none or it does not fit into 64 bits. */
  lemma ProgressReads(progress: string, i: nat, d: string)
    ensures (forall j :: !MatchEnds(progress, j)) ==> ProgressStringToValue(progress) == 0
    ensures MatchOf(progress, d, i) && AllDigits(d) ==>
              ProgressStringToValue(progress) == if DigitsValue(d) < 0x8000_0000_0000_0000 then DigitsValue(d) else 0
  {
    FindPercentIsLeftmost(progress);
    var found := FindPercent(progress);
    if MatchOf(progress, d, i) && AllDigits(d) {
      MatchHasEnd(progress, d, i);
      assert found.Some?;
      var k: nat :| MatchOf(progress, found.value, k);
      MatchHasEnd(progress, found.value, k);
      SameMatch(progress, found.value, k, d, i);
    } else if found.Some? {
      var k: nat :| MatchOf(progress, found.value, k);
      MatchHasEnd(progress, found.value, k);
    }
  }

  lemma MatchHasEnd(s: string, d: string, i: nat)
    requires MatchOf(s, d, i) && AllDigits(d)
    ensures MatchEnds(s, i + |d| - 1) && forall j :: i <= j < i + |d| ==> IsDigit(s[j])
  {
    assert forall j :: i <= j < i + |d| ==> s[j] == s[i..i + |d|][j - i];
  }

  lemma SameMatch(s: string, d: string, i: nat, e: string, k: nat)
    requires MatchOf(s, d, i) && MatchOf(s, e, k) && AllDigits(d) && AllDigits(e)
    ensures d == e
  {
    MatchHasEnd(s, d, i);
    MatchHasEnd(s, e, k);
    assert i + |d| == k + |e| && i == k;
  }
}
