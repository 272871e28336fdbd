/** Decimal printing and parsing of u128 amounts, as Rust's `Display` and `FromStr` do it. */
module Decimal {
  import opened Outcomes
  import opened Fee

  const ZERO: byte := 48
  const PLUS: byte := 43

  function Print(n: nat): bytes {
    if n < 10 then [ZERO + n] else Print(n / 10) + [ZERO + n % 10]
  }

  predicate IsDigit(c: byte) {
    ZERO <= c < ZERO + 10
  }

  /** The value of a digit string, None if it holds anything but digits. */
  function Digits(s: bytes): Option<nat> {
    if s == [] then Some(0)
    else
      var front :- Digits(s[..|s| - 1]);
      var c := s[|s| - 1];
      if IsDigit(c) then Some(10 * front + (c - ZERO)) else None
  }

  /** `str::parse::<u128>`: an optional plus sign, at least one digit, no overflow. */
  function ParseU128(s: bytes): Option<u128> {
    var t := if s != [] && s[0] == PLUS then s[1..] else s;
    if t == [] then None
    else
      var v :- Digits(t);
      if v <= U128_MAX then Some(v) else None
  }

  /** Digits without a sign or leading zeros. */
  predicate Canonical(s: bytes) {
    s != [] && (forall i | 0 <= i < |s| :: IsDigit(s[i])) && (|s| > 1 ==> s[0] != ZERO)
  }

  lemma {:induction false} DigitsOfPrint(n: nat)
    ensures Digits(Print(n)) == Some(n) && Canonical(Print(n))
    ensures n > 0 ==> Print(n)[0] != ZERO
  {
    var s := Print(n);
    if n >= 10 {
      DigitsOfPrint(n / 10);
      assert s[..|s| - 1] == Print(n / 10);
    } else {
      assert s[..0] == [];
    }
  }

  const DIGITS := "0123456789"

  function PowerOf10(k: nat): nat {
    if k == 0 then 1 else 10 * PowerOf10(k - 1)
  }

  /** The character at place `k` from the right is that of the digit at place `k`, and there are as
      many as the number needs. */
  lemma {:induction false} PrintIs(n: nat, k: nat)
    ensures |Print(n)| > 0
    ensures k < |Print(n)| ==>
              PowerOf10(k) > 0 && Print(n)[|Print(n)| - 1 - k] == DIGITS[n / PowerOf10(k) % 10] as int
    ensures k < |Print(n)| <==> k == 0 || PowerOf10(k) <= n
    decreases k
  {
    var s := Print(n);
    DigitCharacters(n % 10);
    if k == 0 {
    } else if n >= 10 {
      PrintIs(n / 10, k - 1);
      Places(n, PowerOf10(k - 1));
    } else {
      PowerPositive(k - 1);
    }
  }

  lemma {:induction false} DigitCharacters(d: nat)
    requires d < 10
    ensures DIGITS[d] as int == ZERO + d
  {
    assert DIGITS[0] == '0' && DIGITS[1] == '1' && DIGITS[2] == '2' && DIGITS[3] == '3' && DIGITS[4] == '4';
    assert DIGITS[5] == '5' && DIGITS[6] == '6' && DIGITS[7] == '7' && DIGITS[8] == '8' && DIGITS[9] == '9';
  }

  lemma {:induction false} PowerPositive(k: nat)
    ensures PowerOf10(k) > 0
  {
    if k > 0 { PowerPositive(k - 1); }
  }

  lemma {:induction false} Places(n: nat, p: nat)
    requires p > 0
    ensures n / 10 / p == n / (10 * p)
    ensures p <= n / 10 <==> 10 * p <= n
  {
    var q, r := n / 10 / p, n / 10 % p;
    assert n == 10 * (q * p + r) + n % 10;
    assert n == q * (10 * p) + (10 * r + n % 10);
    QuotientIs(n, 10 * p, q, 10 * r + n % 10);
  }

  lemma {:induction false} QuotientIs(n: nat, d: nat, q: nat, r: nat)
    requires r < d && n == q * d + r
    ensures n / d == q
  {
    assert (q - n / d) * d == n % d - r;
    SmallMultiple(q - n / d, d);
  }

  lemma {:induction false} SmallMultiple(k: int, d: int)
    requires -d < k * d < d
    ensures k == 0
  {
  }

  /** A leading plus sign is read past. */
  lemma {:induction false} PlusIsOptional(n: u128)
    ensures ParseU128(['+' as int] + Print(n)) == Some(n)
  {
    DigitsOfPrint(n);
    assert (['+' as int] + Print(n))[1..] == Print(n);
  }

  /** Every amount survives printing and parsing. */
  lemma {:induction false} ParsePrint(n: u128)
    ensures ParseU128(Print(n)) == Some(n)
  {
    DigitsOfPrint(n);
  }

  lemma {:induction false} PrintOfDigits(s: bytes)
    requires Canonical(s)
    ensures Digits(s).Some? && Print(Digits(s).value) == s
    ensures s[0] != ZERO ==> Digits(s).value > 0
  {
    var front := s[..|s| - 1];
    assert s == front + [s[|s| - 1]];
    if |s| > 1 {
      assert front[0] == s[0];
      PrintOfDigits(front);
      var v := Digits(front).value;
      var d := s[|s| - 1] - ZERO;
      assert (10 * v + d) / 10 == v && (10 * v + d) % 10 == d;
    }
  }

  /** A text that parses prints back unchanged exactly when it is canonical. */
  lemma PrintParse(s: bytes)
    requires ParseU128(s).Some?
    ensures Print(ParseU128(s).value) == s <==> Canonical(s)
  {
    if Canonical(s) {
      PrintOfDigits(s);
    } else {
      DigitsOfPrint(ParseU128(s).value);
    }
  }
}
