/** The rolling 32-bit string hash that the identity ledger uses three times
    (checksum, block hash, user hash). Each step of the source loop is
    `hash = (hash << 5) - hash + char; hash = hash & hash`, evaluated with
    ECMAScript number semantics: `<<` and `&` convert their operands to
    signed 32-bit integers, and the `-`/`+` in between are exact because
    every intermediate value stays far below 2^53. */
module Hash32 {

  const TWO32: int := 0x1_0000_0000
  const TWO31: int := 0x8000_0000

  predicate IsInt32(x: int)
  {
    -TWO31 <= x < TWO31
  }

  /** ECMAScript ToInt32: the signed 32-bit integer congruent to `x` modulo 2^32. */
  function ToInt32(x: int): (r: int)
    ensures IsInt32(r)
    ensures (r - x) % TWO32 == 0
  {
    var m := x % TWO32;
    if m >= TWO31 then m - TWO32 else m
  }

  /** Two numbers congruent modulo 2^32 convert to the same 32-bit integer. */
  lemma ToInt32Congruent(a: int, b: int)
    requires (a - b) % TWO32 == 0
    ensures ToInt32(a) == ToInt32(b)
  {
    assert a % TWO32 == b % TWO32 by {
      var k := (a - b) / TWO32;
      assert a == b + k * TWO32;
      ModShift(b, k);
    }
  }

  lemma ModShift(b: int, k: int)
    ensures (b + k * TWO32) % TWO32 == b % TWO32
  {
  }

  /** `h << 5` for an operand that is already a 32-bit integer. */
  function ShiftLeft5(h: int): int
  {
    ToInt32(h * 32)
  }

  /** One iteration of the source loop, exactly as written. */
  function SourceStep(h: int, code: int): int
  {
    ToInt32(ShiftLeft5(h) - h + code)
  }

  /** `charCodeAt`: the code of one character. */
  function Code(c: char): nat
  {
    c as nat
  }

  /** The hash of `s` as the source loop computes it: a left fold from 0. */
  function RollingHash(s: string): (h: int)
    ensures IsInt32(h)
  {
    if s == [] then 0 else SourceStep(RollingHash(s[..|s| - 1]), Code(s[|s| - 1]))
  }

  /** The hash read as arithmetic: `s` as a base-31 numeral of character
      codes, with no wrap-around at all. */
  function Polynomial(s: string): int
  {
    if s == [] then 0 else 31 * Polynomial(s[..|s| - 1]) + Code(s[|s| - 1])
  }

  /** `(h << 5) - h + c` followed by `& hash` is `31 * h + c` wrapped to 32 bits. */
  lemma SourceStepIsMul31(h: int, code: int)
    ensures SourceStep(h, code) == ToInt32(31 * h + code)
  {
    var s := ShiftLeft5(h);
    assert (s - 32 * h) % TWO32 == 0;
    assert (s - h + code) - (31 * h + code) == s - 32 * h;
    ToInt32Congruent(s - h + code, 31 * h + code);
  }

  /** The rolling hash is the base-31 polynomial of the character codes,
      wrapped once to a signed 32-bit integer at the end. */
  lemma {:induction false} RollingHashIsPolynomial(s: string)
    ensures RollingHash(s) == ToInt32(Polynomial(s))
  {
    if s != [] {
      var p := s[..|s| - 1];
      var c := Code(s[|s| - 1]);
      RollingHashIsPolynomial(p);
      SourceStepIsMul31(RollingHash(p), c);
      var h := RollingHash(p);
      assert (h - Polynomial(p)) % TWO32 == 0;
      MulCongruent(h, Polynomial(p), c);
      ToInt32Congruent(31 * h + c, 31 * Polynomial(p) + c);
    }
  }

  lemma MulCongruent(a: int, b: int, c: int)
    requires (a - b) % TWO32 == 0
    ensures ((31 * a + c) - (31 * b + c)) % TWO32 == 0
  {
    var k := (a - b) / TWO32;
    assert a - b == k * TWO32;
    assert (31 * a + c) - (31 * b + c) == (31 * k) * TWO32;
  }

  function Abs(x: int): nat
  {
    if x < 0 then -x else x
  }

  /** `Math.abs(hash)`: the magnitude of the wrapped polynomial, so at most
      2^31 (reached only by the hash -2^31). */
  function AbsHash(s: string): (r: nat)
    ensures r <= TWO31
    ensures r == Abs(ToInt32(Polynomial(s)))
  {
    RollingHashIsPolynomial(s);
    Abs(RollingHash(s))
  }
}
