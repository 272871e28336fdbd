/** Well-formed UTF-8 as Rust's `str` accepts it (table 3-7 of the Unicode Standard). */
module Utf8 {
  import opened Outcomes

  predicate Continuation(b: byte) {
    0x80 <= b <= 0xBF
  }

  /** Length of the scalar value encoded at the front of `s`, 0 if there is none. */
  function ScalarLength(s: bytes): (n: nat)
    ensures n <= |s|
  {
    if |s| == 0 then 0
    else if s[0] <= 0x7F then 1
    else if 0xC2 <= s[0] <= 0xDF then
      if |s| >= 2 && Continuation(s[1]) then 2 else 0
    else if 0xE0 <= s[0] <= 0xEF then
      if |s| >= 3 && Continuation(s[1]) && Continuation(s[2]) &&
         (s[0] == 0xE0 ==> s[1] >= 0xA0) && (s[0] == 0xED ==> s[1] <= 0x9F)
      then 3 else 0
    else if 0xF0 <= s[0] <= 0xF4 then
      if |s| >= 4 && Continuation(s[1]) && Continuation(s[2]) && Continuation(s[3]) &&
         (s[0] == 0xF0 ==> s[1] >= 0x90) && (s[0] == 0xF4 ==> s[1] <= 0x8F)
      then 4 else 0
    else 0
  }

  predicate Valid(s: bytes) {
    s == [] || (ScalarLength(s) > 0 && Valid(s[ScalarLength(s)..]))
  }

  /** The encoding of one scalar value. */
  function Scalar(c: char): bytes {
    var n := c as int;
    if n < 0x80 then [n]
    else if n < 0x800 then [0xC0 + n / 0x40, 0x80 + n % 0x40]
    else if n < 0x1_0000 then [0xE0 + n / 0x1000, 0x80 + n / 0x40 % 0x40, 0x80 + n % 0x40]
    else [0xF0 + n / 0x4_0000, 0x80 + n / 0x1000 % 0x40, 0x80 + n / 0x40 % 0x40, 0x80 + n % 0x40]
  }

  /** The bytes of a Rust string. */
  function FromString(s: string): bytes {
    if s == "" then [] else Scalar(s[0]) + FromString(s[1..])
  }

  predicate NulFree(s: string) {
    '\0' !in s
  }

  lemma ScalarIsValid(c: char, rest: bytes)
    ensures ScalarLength(Scalar(c) + rest) == |Scalar(c)| > 0
    ensures 0 in Scalar(c) <==> c == '\0'
  {
    var n := c as int;
    if n < 0x80 {
    } else if n < 0x800 {
      assert 2 <= n / 0x40 < 0x20;
    } else if n < 0x1_0000 {
      ThreeOctets(n, n / 0x1000, n / 0x40 % 0x40);
    } else {
      FourOctets(n, n / 0x4_0000, n / 0x1000 % 0x40);
    }
  }

  /** No over-long form, no surrogate. */
  lemma ThreeOctets(n: int, a: int, b: int)
    requires 0x800 <= n < 0xD800 || 0xE000 <= n < 0x1_0000
    requires a == n / 0x1000 && b == n / 0x40 % 0x40
    ensures 0 <= a <= 15 && 0 <= b < 0x40 && (a == 0 ==> b >= 0x20) && (a == 0xD ==> b < 0x20)
  {
    assert n / 0x40 == 0x40 * a + b;
  }

  lemma FourOctets(n: int, a: int, b: int)
    requires 0x1_0000 <= n < 0x11_0000 && a == n / 0x4_0000 && b == n / 0x1000 % 0x40
    ensures 0 <= a <= 4 && 0 <= b < 0x40 && (a == 0 ==> b >= 0x10) && (a == 4 ==> b < 0x10)
  {
    assert n / 0x1000 == 0x40 * a + b;
  }

  /** A Rust string is well-formed UTF-8, and holds a NUL byte exactly when it holds a NUL. */
  lemma {:induction false} FromStringIsValid(s: string)
    ensures Valid(FromString(s)) && (0 in FromString(s) <==> !NulFree(s))
  {
    if s != "" {
      ScalarIsValid(s[0], FromString(s[1..]));
      FromStringIsValid(s[1..]);
      assert (Scalar(s[0]) + FromString(s[1..]))[|Scalar(s[0])|..] == FromString(s[1..]);
      assert s == [s[0]] + s[1..];
    }
  }

  lemma {:induction false} AsciiIsValid(s: bytes)
    requires forall i | 0 <= i < |s| :: s[i] <= 0x7F
    ensures Valid(s)
  {
    if s != [] { AsciiIsValid(s[1..]); }
  }

  /** ASCII text is encoded one byte to a character. */
  lemma {:induction false} AsciiBytes(s: string)
    requires forall i | 0 <= i < |s| :: s[i] as int <= 0x7F
    ensures |FromString(s)| == |s| && forall i | 0 <= i < |s| :: FromString(s)[i] == s[i] as int
  {
    if s != "" { AsciiBytes(s[1..]); }
  }

  // ---------- well-formed means encoded from a string ----------

  /** The scalar value at the front of `s`. */
  function FirstScalar(s: bytes): int
    requires ScalarLength(s) > 0
  {
    match ScalarLength(s)
    case 1 => s[0]
    case 2 => Bits(s[0], 0xC0) * 0x40 + Bits(s[1], 0x80)
    case 3 => Bits(s[0], 0xE0) * 0x1000 + Bits(s[1], 0x80) * 0x40 + Bits(s[2], 0x80)
    case _ =>
      Bits(s[0], 0xF0) * 0x4_0000 + Bits(s[1], 0x80) * 0x1000 + Bits(s[2], 0x80) * 0x40 + Bits(s[3], 0x80)
  }

  /** What a byte carries besides its marker bits. */
  function Bits(b: byte, marker: int): int {
    b - marker
  }

  predicate IsScalarValue(n: int) {
    0 <= n < 0xD800 || 0xE000 <= n < 0x11_0000
  }

  lemma FirstScalarIs(s: bytes)
    requires ScalarLength(s) > 0
    ensures IsScalarValue(FirstScalar(s)) && Scalar(FirstScalar(s) as char) == s[..ScalarLength(s)]
  {
    if ScalarLength(s) == 3 {
      ThreeOctetsRead(s);
    } else if ScalarLength(s) == 4 {
      FourOctetsRead(s);
    }
  }

  lemma ThreeOctetsRead(s: bytes)
    requires ScalarLength(s) == 3
    ensures IsScalarValue(FirstScalar(s)) && Scalar(FirstScalar(s) as char) == s[..3]
  {
    Thirds(FirstScalar(s), s[0] - 0xE0, s[1] - 0x80, s[2] - 0x80);
  }

  lemma FourOctetsRead(s: bytes)
    requires ScalarLength(s) == 4
    ensures IsScalarValue(FirstScalar(s)) && Scalar(FirstScalar(s) as char) == s[..4]
  {
    Fourths(FirstScalar(s), s[0] - 0xF0, s[1] - 0x80, s[2] - 0x80, s[3] - 0x80);
  }

  /** The digits of a three-place number in base 64. */
  lemma Thirds(n: int, a: int, b: int, c: int)
    requires 0 <= a && 0 <= b < 0x40 && 0 <= c < 0x40 && n == a * 0x1000 + b * 0x40 + c
    ensures n / 0x1000 == a && n / 0x40 % 0x40 == b && n % 0x40 == c
  {
    assert n / 0x40 == a * 0x40 + b;
  }

  lemma Fourths(n: int, a: int, b: int, c: int, d: int)
    requires 0 <= a && 0 <= b < 0x40 && 0 <= c < 0x40 && 0 <= d < 0x40
    requires n == a * 0x4_0000 + b * 0x1000 + c * 0x40 + d
    ensures n / 0x4_0000 == a && n / 0x1000 % 0x40 == b && n / 0x40 % 0x40 == c && n % 0x40 == d
  {
    assert n / 0x40 == a * 0x1000 + b * 0x40 + c;
    assert n / 0x1000 == a * 0x40 + b;
  }

  /** The string that well-formed bytes encode. */
  lemma {:induction false} Decoded(s: bytes) returns (t: string)
    requires Valid(s)
    ensures FromString(t) == s
  {
    hide ScalarLength, FirstScalar, Scalar;
    if s == [] {
      t := "";
    } else {
      FirstScalarIs(s);
      var rest := Decoded(s[ScalarLength(s)..]);
      t := [FirstScalar(s) as char] + rest;
      assert t[1..] == rest;
    }
  }

  /** Bytes are well-formed exactly when they are those of some string. */
  lemma {:induction false} ValidExactly(s: bytes)
    ensures Valid(s) <==> exists t :: FromString(t) == s
  {
    if Valid(s) {
      var t := Decoded(s);
    }
    forall t | FromString(t) == s ensures Valid(s) {
      FromStringIsValid(t);
    }
  }

  /** Different strings have different bytes. */
  lemma {:induction false} FromStringInjective(s: string, t: string)
    requires FromString(s) == FromString(t)
    ensures s == t
  {
    if s == "" || t == "" {
      if s != "" { ScalarIsValid(s[0], FromString(s[1..])); }
      if t != "" { ScalarIsValid(t[0], FromString(t[1..])); }
    } else {
      ScalarReadBack(s[0], FromString(s[1..]));
      ScalarReadBack(t[0], FromString(t[1..]));
      FromStringInjective(s[1..], t[1..]);
      assert s == [s[0]] + s[1..] && t == [t[0]] + t[1..];
    }
  }

  lemma ScalarReadBack(c: char, rest: bytes)
    ensures ScalarLength(Scalar(c) + rest) == |Scalar(c)| > 0
    ensures FirstScalar(Scalar(c) + rest) == c as int
    ensures (Scalar(c) + rest)[|Scalar(c)|..] == rest
  {
    hide ScalarLength;
    ScalarIsValid(c, rest);
    Regrouped(c as int);
  }

  lemma Regrouped(n: nat)
    ensures n == n / 0x40 * 0x40 + n % 0x40
    ensures n == n / 0x1000 * 0x1000 + n / 0x40 % 0x40 * 0x40 + n % 0x40
    ensures n == n / 0x4_0000 * 0x4_0000 + n / 0x1000 % 0x40 * 0x1000 + n / 0x40 % 0x40 * 0x40 + n % 0x40
  {
    assert n / 0x1000 == n / 0x40 / 0x40;
    assert n / 0x4_0000 == n / 0x1000 / 0x40;
  }

  /** One character of each length, as the Unicode Standard encodes them. */
  lemma EncodingExamples()
    ensures FromString("A") == [0x41] && FromString("\U{E9}") == [0xC3, 0xA9]
    ensures FromString("\U{20AC}") == [0xE2, 0x82, 0xAC] && FromString("\U{1F600}") == [0xF0, 0x9F, 0x98, 0x80]
  {
    OneCharacter('A'); OneCharacter('\U{E9}'); OneCharacter('\U{20AC}'); OneCharacter('\U{1F600}');
  }

  lemma {:induction false} OneCharacter(c: char)
    ensures FromString([c]) == Scalar(c)
  {
    assert [c][1..] == "";
  }
}
