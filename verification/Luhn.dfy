/** The credit-card test of internal/pii/detect.go: digitsOnly, luhn and the case of matchesLabel.
    A Go string is a sequence of chars, one per byte. */
module Luhn {

  predicate IsDigit(c: char) {
    '0' <= c <= '9'
  }

  predicate AllDigits(s: string) {
    forall i | 0 <= i < |s| :: IsDigit(s[i])
  }

  /** `int(s[i] - '0')` on bytes, with the wrap-around of an unsigned byte. */
  function Digit(c: char): int {
    (c as int - '0' as int) % 256
  }

  /** What a digit contributes; every second one counted from the right is doubled. */
  function Value(n: int, doubled: bool): int {
    if !doubled then n
    else if 2 * n > 9 then 2 * n - 9
    else 2 * n
  }

  /** The Luhn sum of Annex B of ISO/IEC 7812-1, from the right. */
  function Sum(s: string, doubled: bool): int {
    if s == "" then 0
    else Value(Digit(s[|s| - 1]), doubled) + Sum(s[..|s| - 1], !doubled)
  }

  method Check(s: string) returns (ok: bool)
    ensures ok <==> 13 <= |s| <= 19 && Sum(s, false) % 10 == 0
    ensures ok <==> 13 <= |s| <= 19 && PlaceSum(s, |s|) % 10 == 0
  {
    SumByPlaces(s);
    if |s| < 13 || |s| > 19 {
      return false;
    }
    var sum, alternate := 0, false;
    var i := |s| - 1;
    assert s[..i + 1] == s;
    while i >= 0
      invariant -1 <= i < |s|
      invariant sum + Sum(s[..i + 1], alternate) == Sum(s, false)
      decreases i
    {
      assert s[..i + 1][..i] == s[..i];
      var n := Digit(s[i]);
      if alternate {
        n := n * 2;
        if n > 9 { n := n - 9; }
      }
      sum := sum + n;
      alternate := !alternate;
      i := i - 1;
    }
    return sum % 10 == 0;
  }

  function Digits(s: string): (d: string)
    ensures AllDigits(d)
  {
    if s == "" then ""
    else Digits(s[..|s| - 1]) + (if IsDigit(s[|s| - 1]) then [s[|s| - 1]] else "")
  }

  method DigitsOnly(s: string) returns (d: string)
    ensures d == Digits(s)
  {
    d := "";
    for i := 0 to |s|
      invariant d == Digits(s[..i])
    {
      assert s[..i + 1][..i] == s[..i];
      if '0' <= s[i] && s[i] <= '9' {
        d := d + [s[i]];
      }
    }
    assert s[..|s|] == s;
  }

  predicate CreditCard(s: string) {
    13 <= |Digits(s)| <= 19 && Sum(Digits(s), false) % 10 == 0
  }

  method MatchesCreditCard(value: string) returns (ok: bool)
    ensures ok <==> CreditCard(value)
    ensures ok <==> 13 <= |Digits(value)| <= 19 && PlaceSum(Digits(value), |Digits(value)|) % 10 == 0
  {
    SumByPlaces(Digits(value));
    var digits := DigitsOnly(value);
    ok := |digits| >= 13 && |digits| <= 19;
    if ok { ok := Check(digits); }
  }

  // ----- the sum by places -----

  /** What the character in place `n` from the right counts, for a digit: its value in an odd place, the sum of
      the digits of its double in an even one. A byte that is no digit is its distance from '0' around the
      range of a byte, and in an even place twice that less nine. */
  function Place(c: char, n: nat): int {
    var d := if c >= '0' then (c as int - 48) % 256 else 256 - (48 - c as int);
    if n % 2 == 1 then d
    else if d <= 9 then 2 * d / 10 + 2 * d % 10
    else 2 * d - 9
  }

  /** The sum over the first `n` places from the right. */
  function PlaceSum(s: string, n: nat): int
    requires n <= |s|
  {
    if n == 0 then 0 else PlaceSum(s, n - 1) + Place(s[|s| - n], n)
  }

  /** A doubled digit contributes the digit sum of its double. */
  lemma DoubledDigitSum(n: int)
    requires 0 <= n <= 9
    ensures Value(n, true) == 2 * n / 10 + 2 * n % 10 && Value(n, false) == n
  {
  }

  lemma ValueOfPlace(c: char, n: nat)
    ensures Place(c, n) == Value(Digit(c), n % 2 == 0)
  {
  }

  lemma {:induction false} PlacesFrom(s: string, n: nat)
    requires n <= |s|
    ensures Sum(s, false) == PlaceSum(s, n) + Sum(s[..|s| - n], n % 2 == 1)
  {
    if n == 0 {
      assert s[..|s|] == s;
    } else {
      PlacesFrom(s, n - 1);
      var rest := s[..|s| - (n - 1)];
      assert rest[..|rest| - 1] == s[..|s| - n];
      ValueOfPlace(s[|s| - n], n);
    }
  }

  /** The recursive sum is the sum by places: odd places as they are, even places by the digit sum of the
      double. */
  lemma SumByPlaces(s: string)
    ensures Sum(s, false) == PlaceSum(s, |s|)
  {
    PlacesFrom(s, |s|);
  }

  /** Zeros sum to zero at every length. */
  lemma {:induction false} ZerosSumToZero(s: string, n: nat)
    requires n <= |s| && forall i | 0 <= i < |s| :: s[i] == '0'
    ensures PlaceSum(s, n) == 0
  {
    if n > 0 { ZerosSumToZero(s, n - 1); }
  }

  /** digitsOnly, character by character: a digit stays, everything else goes. */
  lemma DigitsOneByOne(a: string, c: char)
    ensures Digits(a + [c]) == Digits(a) + (if c in "0123456789" then [c] else [])
  {
    assert (a + [c])[..|a|] == a;
  }

  lemma {:induction false} DigitsStay(s: string)
    requires AllDigits(s)
    ensures Digits(s) == s
  {
    if s != "" {
      DigitsStay(s[..|s| - 1]);
      assert s == s[..|s| - 1] + [s[|s| - 1]];
    }
  }

  lemma OneCounts(n: nat)
    requires n > 0
    ensures Place('1', n) == (if n % 2 == 1 then 1 else 2) == n + n / 2 - (n - 1 + (n - 1) / 2)
  {
  }

  lemma {:induction false} OnesSum(s: string, n: nat)
    requires n <= |s| && forall i | |s| - n <= i < |s| :: s[i] == '1'
    ensures PlaceSum(s, n) == n + n / 2
  {
    if n > 0 {
      OnesSum(s, n - 1);
      OneCounts(n);
    }
  }

  lemma FourAndOnes(s: string)
    requires |s| == 16 && s[0] == '4' && forall i | 1 <= i < 16 :: s[i] == '1'
    ensures PlaceSum(s, 16) == 30 && CreditCard(s)
  {
    OnesSum(s, 15);
    SumByPlaces(s);
    DigitsStay(s);
  }

  lemma GroupedByFour(a: string, b: string, c: string, d: string)
    ensures CreditCard(a + " " + b + " " + c + " " + d) <==> CreditCard(a + b + c + d)
  {
    SeparatorsIgnored(a, " ", b + " " + c + " " + d);
    SeparatorsIgnored(a + b, " ", c + " " + d);
    SeparatorsIgnored(a + b + c, " ", d);
    assert a + " " + (b + " " + c + " " + d) == a + " " + b + " " + c + " " + d;
    assert a + (b + " " + c + " " + d) == a + b + " " + (c + " " + d);
    assert a + b + (c + " " + d) == a + b + c + " " + d;
  }

  /** The test number of internal/pii/detect_test.go:61 is accepted, with its sum of 30. */
  lemma TestNumberAccepted(number: string)
    requires number == "4111 1111 1111 1111"
    ensures CreditCard(number)
  {
    GroupedByFour(number[..4], number[5..9], number[10..14], number[15..]);
    FourAndOnes(number[..4] + number[5..9] + number[10..14] + number[15..]);
    assert number == number[..4] + " " + number[5..9] + " " + number[10..14] + " " + number[15..];
  }

  // ----- the sum of a concatenation -----

  predicate Odd(n: int) {
    n % 2 == 1
  }

  lemma {:induction false} SumAppend(a: string, b: string, doubled: bool)
    ensures Sum(a + b, doubled) == Sum(b, doubled) + Sum(a, doubled != Odd(|b|))
  {
    if b == "" {
      assert a + b == a;
    } else {
      var b' := b[..|b| - 1];
      assert (a + b)[..|a + b| - 1] == a + b';
      SumAppend(a, b', !doubled);
      assert Odd(|b|) <==> !Odd(|b'|);
    }
  }

  lemma SumOne(c: char, doubled: bool)
    ensures Sum([c], doubled) == Value(Digit(c), doubled)
  {
    assert [c][..0] == "";
  }

  /** Doubling permutes the ten digits. */
  lemma ValueInjective(a: char, b: char, doubled: bool)
    requires IsDigit(a) && IsDigit(b) && a != b
    ensures (Value(Digit(a), doubled) - Value(Digit(b), doubled)) % 10 != 0
  {
    var x, y := Value(Digit(a), doubled), Value(Digit(b), doubled);
    assert 0 <= x <= 9 && 0 <= y <= 9;
    assert x != y;
    SmallDifference(x, y);
  }

  lemma SmallDifference(x: int, y: int)
    requires 0 <= x <= 9 && 0 <= y <= 9 && x != y
    ensures (x - y) % 10 != 0
  {
  }

  // ----- main results -----

  /** Every error in a single digit is detected, in numbers of every length. */
  lemma SingleErrorDetected(a: string, x: char, y: char, b: string)
    requires IsDigit(x) && IsDigit(y) && x != y
    requires Sum(a + [x] + b, false) % 10 == 0
    ensures Sum(a + [y] + b, false) % 10 != 0
  {
    var d := Odd(|b|);
    SumAppend(a + [x], b, false);
    SumAppend(a + [y], b, false);
    SumAppend(a, [x], d);
    SumAppend(a, [y], d);
    SumOne(x, d);
    SumOne(y, d);
    ValueInjective(x, y, d);
    DifferenceMod(Sum(a + [x] + b, false), Sum(a + [y] + b, false));
  }

  lemma DifferenceMod(m: int, n: int)
    requires m % 10 == 0
    ensures n % 10 == 0 <==> (m - n) % 10 == 0
  {
  }

  /** Swapping two neighbouring digits of a valid number is detected unless they are equal or are 0
      and 9, in numbers of every length; and in exactly those cases it is not. */
  lemma SwapDetected(a: string, x: char, y: char, b: string)
    requires IsDigit(x) && IsDigit(y)
    requires Sum(a + [x, y] + b, false) % 10 == 0
    ensures Sum(a + [y, x] + b, false) % 10 == 0 <==> x == y || {x, y} == {'0', '9'}
  {
    var d := Odd(|b|);
    SumAppend(a + [x, y], b, false);
    SumAppend(a + [y, x], b, false);
    SumAppend(a, [x, y], d);
    SumAppend(a, [y, x], d);
    SumTwo(x, y, d);
    SumTwo(y, x, d);
    DifferenceMod(Sum(a + [x, y] + b, false), Sum(a + [y, x] + b, false));
    SwapDifference(x, y, d);
  }

  lemma SumTwo(x: char, y: char, doubled: bool)
    ensures Sum([x, y], doubled) == Value(Digit(y), doubled) + Value(Digit(x), !doubled)
  {
    assert [x, y] == [x] + [y];
    SumAppend([x], [y], doubled);
    SumOne(x, !doubled);
    SumOne(y, doubled);
  }

  lemma SwapDifference(x: char, y: char, doubled: bool)
    requires IsDigit(x) && IsDigit(y)
    ensures (Value(Digit(y), doubled) + Value(Digit(x), !doubled)
             - Value(Digit(x), doubled) - Value(Digit(y), !doubled)) % 10 == 0
            <==> x == y || {x, y} == {'0', '9'}
  {
    assert {x, y} == {'0', '9'} <==> (x == '0' && y == '9') || (x == '9' && y == '0') by {
      assert '0' in {'0', '9'} && '9' in {'0', '9'};
      if {x, y} == {'0', '9'} { assert x in {'0', '9'} && y in {'0', '9'} && '0' in {x, y} && '9' in {x, y}; }
    }
  }

  /** The check digit that makes a payload valid. */
  function CheckDigit(payload: string): (c: char)
    ensures IsDigit(c)
  {
    var n := (10 - Sum(payload, true) % 10) % 10;
    (n + '0' as int) as char
  }

  /** Every payload has exactly one check digit. */
  lemma UniqueCheckDigit(payload: string, c: char)
    requires IsDigit(c)
    ensures Sum(payload + [c], false) % 10 == 0 <==> c == CheckDigit(payload)
  {
    SumAppend(payload, [c], false);
    SumOne(c, false);
    var rest := Sum(payload, true);
    var n := c as int - '0' as int;
    assert Sum(payload + [c], false) == n + rest;
    Complement(rest, n);
  }

  lemma Complement(r: int, n: int)
    requires 0 <= n <= 9
    ensures (n + r) % 10 == 0 <==> n == (10 - r % 10) % 10
  {
    assert (n + r) % 10 == (n + r % 10) % 10 by {
      assert r == 10 * (r / 10) + r % 10;
    }
  }

  lemma {:induction false} DigitsAppend(a: string, b: string)
    ensures Digits(a + b) == Digits(a) + Digits(b)
  {
    if b == "" {
      assert a + b == a;
    } else {
      assert (a + b)[..|a + b| - 1] == a + b[..|b| - 1];
      DigitsAppend(a, b[..|b| - 1]);
    }
  }

  lemma {:induction false} NoDigits(s: string)
    requires forall i | 0 <= i < |s| :: !IsDigit(s[i])
    ensures Digits(s) == ""
  {
    if s != "" { NoDigits(s[..|s| - 1]); }
  }

  /** Separators do not change the verdict, wherever they are put. */
  lemma SeparatorsIgnored(a: string, sep: string, b: string)
    requires forall i | 0 <= i < |sep| :: !IsDigit(sep[i])
    ensures CreditCard(a + sep + b) <==> CreditCard(a + b)
  {
    DigitsAppend(a + sep, b);
    DigitsAppend(a, sep);
    DigitsAppend(a, b);
    NoDigits(sep);
    assert Digits(a + sep + b) == Digits(a + b);
  }
}
