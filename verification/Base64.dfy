/** Standard base64 with padding (section 4 of RFC 4648), as the two sides of the foreign
    function interface apply it. The Rust decoder is strict; the Go decoder skips CR and LF
    and ignores the unused bits of the last symbol. */
module Base64 {
  import opened Outcomes
  import Utf8

  type sextet = x: int | 0 <= x < 64

  const PAD: byte := 61

  function Symbol(v: sextet): byte {
    if v < 26 then 65 + v
    else if v < 52 then 97 + (v - 26)
    else if v < 62 then 48 + (v - 52)
    else if v == 62 then 43
    else 47
  }

  function Value(c: byte): Option<sextet> {
    if 65 <= c <= 90 then Some(c - 65)
    else if 97 <= c <= 122 then Some(c - 97 + 26)
    else if 48 <= c <= 57 then Some(c - 48 + 52)
    else if c == 43 then Some(62)
    else if c == 47 then Some(63)
    else None
  }

  function EncodeThree(a: byte, b: byte, c: byte): bytes {
    [Symbol(a / 4), Symbol(a % 4 * 16 + b / 16), Symbol(b % 16 * 4 + c / 64), Symbol(c % 64)]
  }

  function Encode(d: bytes): bytes {
    if |d| == 0 then []
    else if |d| == 1 then [Symbol(d[0] / 4), Symbol(d[0] % 4 * 16), PAD, PAD]
    else if |d| == 2 then
      [Symbol(d[0] / 4), Symbol(d[0] % 4 * 16 + d[1] / 16), Symbol(d[1] % 16 * 4), PAD]
    else EncodeThree(d[0], d[1], d[2]) + Encode(d[3..])
  }

  function DecodeFour(p: byte, q: byte, r: byte, s: byte): Option<bytes> {
    var a :- Value(p);
    var b :- Value(q);
    var c :- Value(r);
    var d :- Value(s);
    Some([a * 4 + b / 16, b % 16 * 16 + c / 4, c % 4 * 64 + d])
  }

  /** The last four symbols, which may be padded; `strict` refuses non-zero unused bits. */
  function DecodeLast(p: byte, q: byte, r: byte, s: byte, strict: bool): Option<bytes> {
    if s != PAD then DecodeFour(p, q, r, s)
    else if r != PAD then
      var a :- Value(p);
      var b :- Value(q);
      var c :- Value(r);
      if strict && c % 4 != 0 then None else Some([a * 4 + b / 16, b % 16 * 16 + c / 4])
    else
      var a :- Value(p);
      var b :- Value(q);
      if strict && b % 16 != 0 then None else Some([a * 4 + b / 16])
  }

  function Decode(t: bytes, strict: bool): Option<bytes> {
    if |t| == 0 then Some([])
    else if |t| < 4 then None
    else if |t| == 4 then DecodeLast(t[0], t[1], t[2], t[3], strict)
    else
      var front :- DecodeFour(t[0], t[1], t[2], t[3]);
      var rest :- Decode(t[4..], strict);
      Some(front + rest)
  }

  function SkipNewlines(t: bytes): bytes {
    if t == [] then []
    else (if t[0] == 10 || t[0] == 13 then [] else [t[0]]) + SkipNewlines(t[1..])
  }

  function RustDecode(t: bytes): Option<bytes> {
    Decode(t, true)
  }

  function GoDecode(t: bytes): Option<bytes> {
    Decode(SkipNewlines(t), false)
  }

  // ---------- one quantum ----------

  lemma SymbolValue(v: sextet)
    ensures Value(Symbol(v)) == Some(v)
    ensures Symbol(v) != PAD && Symbol(v) != 0 && Symbol(v) != 10 && Symbol(v) != 13
  {
  }

  /** Four sextets are three octets regrouped. */
  lemma Regroup(a: sextet, b: sextet, c: sextet, d: sextet)
    ensures var x, y, z := a * 4 + b / 16, b % 16 * 16 + c / 4, c % 4 * 64 + d;
      0 <= x < 256 && 0 <= y < 256 && 0 <= z < 256 &&
      x / 4 == a && x % 4 * 16 + y / 16 == b && y % 16 * 4 + z / 64 == c && z % 64 == d
  {
  }

  lemma Ungroup(x: byte, y: byte, z: byte)
    ensures var a, b, c, d := x / 4, x % 4 * 16 + y / 16, y % 16 * 4 + z / 64, z % 64;
      0 <= a < 64 && 0 <= b < 64 && 0 <= c < 64 && 0 <= d < 64 &&
      a * 4 + b / 16 == x && b % 16 * 16 + c / 4 == y && c % 4 * 64 + d == z
  {
  }

  lemma EncodeThreeOf(a: sextet, b: sextet, c: sextet, d: sextet)
    ensures EncodeThree(a * 4 + b / 16, b % 16 * 16 + c / 4, c % 4 * 64 + d) ==
            [Symbol(a), Symbol(b), Symbol(c), Symbol(d)]
  {
    Regroup(a, b, c, d);
  }

  lemma DecodeFourExact(p: byte, q: byte, r: byte, s: byte)
    requires DecodeFour(p, q, r, s).Some?
    ensures |DecodeFour(p, q, r, s).value| == 3
    ensures var d := DecodeFour(p, q, r, s).value; EncodeThree(d[0], d[1], d[2]) == [p, q, r, s]
  {
    SymbolOf(p); SymbolOf(q); SymbolOf(r); SymbolOf(s);
    EncodeThreeOf(Value(p).value, Value(q).value, Value(r).value, Value(s).value);
  }

  lemma SymbolOf(c: byte)
    requires Value(c).Some?
    ensures Symbol(Value(c).value) == c
  {
  }

  lemma DecodeFourUndoes(x: byte, y: byte, z: byte)
    ensures var t := EncodeThree(x, y, z); DecodeFour(t[0], t[1], t[2], t[3]) == Some([x, y, z])
    ensures EncodeThree(x, y, z)[3] != PAD
  {
    Ungroup(x, y, z);
    SymbolValue(x / 4); SymbolValue(x % 4 * 16 + y / 16); SymbolValue(y % 16 * 4 + z / 64); SymbolValue(z % 64);
  }

  lemma DecodeLastExact(p: byte, q: byte, r: byte, s: byte)
    requires DecodeLast(p, q, r, s, true).Some?
    ensures Encode(DecodeLast(p, q, r, s, true).value) == [p, q, r, s]
  {
    if s != PAD {
      DecodeFourExact(p, q, r, s);
      var d := DecodeFour(p, q, r, s).value;
      assert d[3..] == [];
    } else if r != PAD {
      TwoOctets(p, q, r);
    } else {
      OneOctet(p, q);
    }
  }

  lemma TwoOctets(p: byte, q: byte, r: byte)
    requires r != PAD && DecodeLast(p, q, r, PAD, true).Some?
    ensures Encode(DecodeLast(p, q, r, PAD, true).value) == [p, q, r, PAD]
  {
    SymbolOf(p); SymbolOf(q); SymbolOf(r);
    Regroup(Value(p).value, Value(q).value, Value(r).value, 0);
  }

  lemma OneOctet(p: byte, q: byte)
    requires DecodeLast(p, q, PAD, PAD, true).Some?
    ensures Encode(DecodeLast(p, q, PAD, PAD, true).value) == [p, q, PAD, PAD]
  {
    SymbolOf(p); SymbolOf(q);
    Regroup(Value(p).value, Value(q).value, 0, 0);
  }

  lemma {:induction false} DecodeLastUndoes(d: bytes, strict: bool)
    requires 1 <= |d| <= 2
    ensures Decode(Encode(d), strict) == Some(d)
  {
    var x, y := d[0], if |d| == 2 then d[1] else 0;
    Ungroup(x, y, 0);
    SymbolValue(x / 4); SymbolValue(x % 4 * 16 + y / 16); SymbolValue(y % 16 * 4);
    assert Decode(Encode(d), strict).value == d;
  }

  // ---------- the encoding named from outside ----------

  lemma AlphabetIs(c: char)
    ensures 'A' <= c <= 'Z' ==> Value(c as int) == Some(c as int - 'A' as int)
    ensures 'a' <= c <= 'z' ==> Value(c as int) == Some(26 + (c as int - 'a' as int))
    ensures '0' <= c <= '9' ==> Value(c as int) == Some(52 + (c as int - '0' as int))
    ensures Value('+' as int) == Some(62) && Value('/' as int) == Some(63) && PAD == '=' as int
  {
  }

  /** The 24 bits of the group that starts at byte `3 * i`, zero bytes past the end. */
  function GroupAt(d: bytes, i: nat): nat {
    ByteAt(d, 3 * i) * 0x1_0000 + ByteAt(d, 3 * i + 1) * 0x100 + ByteAt(d, 3 * i + 2)
  }

  function ByteAt(d: bytes, i: nat): byte {
    if i < |d| then d[i] else 0
  }

  /** The four symbols of a group of which the data holds `size` bytes. */
  predicate Quantum(t: bytes, g: nat, size: nat) {
    && |t| == 4 && Value(t[0]) == Some(g / 0x4_0000) && Value(t[1]) == Some(g / 0x1000 % 0x40)
    && (if size >= 2 then Value(t[2]) == Some(g / 0x40 % 0x40) else t[2] == PAD)
    && (if size >= 3 then Value(t[3]) == Some(g % 0x40) else t[3] == PAD)
  }

  /** Every group of three bytes becomes the symbols of its four sextets, in order; those that hold no
      bit of the data are replaced by padding. */
  lemma {:induction false} EncodeIs(d: bytes, i: nat)
    requires 3 * i < |d|
    ensures 4 * i + 4 <= |Encode(d)| && Quantum(Encode(d)[4 * i..4 * i + 4], GroupAt(d, i), |d| - 3 * i)
    decreases i
  {
    hide Encode, Quantum;
    if i == 0 {
      FirstQuantum(d);
    } else {
      EncodeIs(d[3..], i - 1);
      EncodeRest(d);
      assert Encode(d)[4 * i..4 * i + 4] == Encode(d)[4..][4 * (i - 1)..4 * (i - 1) + 4];
    }
  }

  lemma {:induction false} EncodeRest(d: bytes)
    requires |d| >= 3
    ensures |Encode(d)| >= 4 && Encode(d)[4..] == Encode(d[3..])
  {
    hide Symbol;
  }

  lemma {:induction false} FirstQuantum(d: bytes)
    requires d != []
    ensures 4 <= |Encode(d)| && Quantum(Encode(d)[..4], GroupAt(d, 0), |d|)
  {
    hide Symbol, Value;
    var x, y, z := d[0], ByteAt(d, 1), ByteAt(d, 2);
    Sextets(x, y, z);
    Ungroup(x, y, z);
    SymbolValue(x / 4); SymbolValue(x % 4 * 16 + y / 16); SymbolValue(y % 16 * 4 + z / 64); SymbolValue(z % 64);
  }

  lemma Sextets(x: byte, y: byte, z: byte)
    ensures var g := x * 0x1_0000 + y * 0x100 + z;
      && g / 0x4_0000 == x / 4 && g / 0x1000 % 0x40 == x % 4 * 16 + y / 16
      && g / 0x40 % 0x40 == y % 16 * 4 + z / 64 && g % 0x40 == z % 64
  {
    var a, b, c, d := x / 4, x % 4 * 16 + y / 16, y % 16 * 4 + z / 64, z % 64;
    Utf8.Fourths(a * 0x4_0000 + b * 0x1000 + c * 0x40 + d, a, b, c, d);
  }

  // ---------- whole texts ----------

  /** Either decoder undoes the encoder. */
  lemma {:induction false} DecodeEncode(d: bytes, strict: bool)
    ensures Decode(Encode(d), strict) == Some(d)
  {
    if 1 <= |d| <= 2 {
      DecodeLastUndoes(d, strict);
    } else if |d| >= 3 {
      DecodeFourUndoes(d[0], d[1], d[2]);
      DecodeEncode(d[3..], strict);
      EncodeLength(d[3..]);
      var t := Encode(d);
      assert t[4..] == Encode(d[3..]);
      assert t[..4] == EncodeThree(d[0], d[1], d[2]);
      var front := [d[0], d[1], d[2]];
      assert DecodeFour(t[0], t[1], t[2], t[3]) == Some(front);
      assert d == front + d[3..];
      if d[3..] == [] {
        assert d == front;
      } else {
        assert Decode(t, strict) == Some(front + d[3..]);
      }
    }
  }

  lemma {:induction false} EncodeLength(d: bytes)
    ensures |Encode(d)| == (|d| + 2) / 3 * 4
  {
    if |d| >= 3 {
      EncodeLength(d[3..]);
    }
  }

  /** The strict decoder accepts nothing but encoder output. */
  lemma {:induction false} StrictDecodeIsInverse(t: bytes)
    ensures RustDecode(t).Some? ==> Encode(RustDecode(t).value) == t
  {
    if RustDecode(t).None? {
    } else if |t| == 4 {
      DecodeLastExact(t[0], t[1], t[2], t[3]);
    } else if |t| > 4 {
      DecodeFourExact(t[0], t[1], t[2], t[3]);
      StrictDecodeIsInverse(t[4..]);
      var front := DecodeFour(t[0], t[1], t[2], t[3]).value;
      var rest := RustDecode(t[4..]).value;
      assert (front + rest)[3..] == rest;
      assert t == t[..4] + t[4..];
    }
  }

  lemma {:induction false} RustDecodeExactly(t: bytes, d: bytes)
    ensures RustDecode(t) == Some(d) <==> t == Encode(d)
  {
    StrictDecodeIsInverse(t);
    DecodeEncode(d, true);
  }

  /** Encoder output is ASCII, holds no NUL (so it survives a C string) and no line break. */
  lemma {:induction false} EncodeIsPlain(d: bytes)
    ensures forall i | 0 <= i < |Encode(d)| :: Encode(d)[i] !in {0, 10, 13} && Encode(d)[i] <= 0x7F
  {
    if |d| >= 3 {
      EncodeIsPlain(d[3..]);
    }
  }

  lemma {:induction false} SkipNewlinesId(t: bytes)
    requires forall i | 0 <= i < |t| :: t[i] !in {10, 13}
    ensures SkipNewlines(t) == t
  {
    if t != [] {
      SkipNewlinesId(t[1..]);
    }
  }

  lemma {:induction false} GoDecodeEncode(d: bytes)
    ensures GoDecode(Encode(d)) == Some(d)
  {
    EncodeIsPlain(d);
    SkipNewlinesId(Encode(d));
    DecodeEncode(d, false);
  }

  /** Whatever Rust accepts Go reads the same way; the converse fails. */
  lemma GoExtendsRust(t: bytes)
    ensures RustDecode(t).Some? ==> GoDecode(t) == RustDecode(t)
  {
    if RustDecode(t).Some? {
      StrictDecodeIsInverse(t);
      GoDecodeEncode(RustDecode(t).value);
    }
  }

  /** Go reads past line breaks wherever they stand. */
  lemma {:induction false} GoSkipsLineBreaks(t: bytes, c: char, u: bytes)
    requires c == '\n' || c == '\r'
    ensures GoDecode(t + [c as int] + u) == GoDecode(t + u)
  {
    hide Decode;
    SkipsLineBreak(t, c as int, u);
  }

  lemma {:induction false} SkipsLineBreak(t: bytes, c: byte, u: bytes)
    requires c == 10 || c == 13
    ensures SkipNewlines(t + [c] + u) == SkipNewlines(t + u)
  {
    if t == [] {
      assert ([] + [c] + u)[1..] == u && [] + u == u;
    } else {
      SkipsLineBreak(t[1..], c, u);
      assert (t + [c] + u)[1..] == t[1..] + [c] + u && (t + u)[1..] == t[1..] + u;
    }
  }

  lemma GoIsMoreLenient()
    ensures GoDecode([81, 82, 61, 61]) == Some([65]) && RustDecode([81, 82, 61, 61]).None?
  {
    SkipNewlinesId([81, 82, 61, 61]);
  }

  lemma {:induction false} EncodeInjective(d: bytes, d': bytes)
    requires Encode(d) == Encode(d')
    ensures d == d'
  {
    DecodeEncode(d, true);
    DecodeEncode(d', true);
  }
}
