/** Positional notation as JavaScript prints it: `Number.prototype.toString(base)`
    on non-negative integers (lower-case digits, no leading zeros) and
    `String.prototype.padStart`. */
module Radix {

  import opened Strings

  function Pow(b: nat, k: nat): nat
  {
    if k == 0 then 1 else b * Pow(b, k - 1)
  }

  /** The digit character for `d`: `0`-`9`, then `a`-`z`. */
  function DigitChar(d: nat): (c: char)
    requires d < 36
  {
    if d < 10 then ('0' as int + d) as char else ('a' as int + d - 10) as char
  }

  /** The value of a lower-case digit character; other characters read as 0. */
  function DigitValue(c: char): nat
  {
    if '0' <= c <= '9' then c as int - '0' as int
    else if 'a' <= c <= 'z' then c as int - 'a' as int + 10
    else 0
  }

  predicate IsDigitOf(c: char, base: nat)
  {
    ('0' <= c <= '9' || 'a' <= c <= 'z') && DigitValue(c) < base
  }

  lemma DigitRoundTrip(d: nat)
    requires d < 36
    ensures DigitValue(DigitChar(d)) == d
    ensures IsDigitOf(DigitChar(d), d + 1)
    ensures d == 0 <==> DigitChar(d) == '0'
  {
  }

  /** The number a digit string denotes, read left to right (Horner). */
  function FromBase(s: string, base: nat): nat
  {
    if s == [] then 0 else FromBase(s[..|s| - 1], base) * base + DigitValue(s[|s| - 1])
  }

  /** `n.toString(base)`: the shortest digit string denoting `n`, which
      reads back as `n`. */
  function ToBase(n: nat, base: nat): (r: string)
    requires 2 <= base <= 36
    ensures 1 <= |r|
    ensures forall i :: 0 <= i < |r| ==> IsDigitOf(r[i], base)
    ensures r[0] == '0' <==> n == 0
    ensures n == 0 ==> r == "0"
    ensures FromBase(r, base) == n
    decreases n
  {
    if n < base then
      DigitRoundTrip(n);
      [DigitChar(n)]
    else
      var q, d := n / base, n % base;
      DivMod(n, base);
      var high := ToBase(q, base);
      var r := high + [DigitChar(d)];
      DigitRoundTrip(d);
      assert r[..|r| - 1] == high;
      assert FromBase(r, base) == q * base + d;
      r
  }

  lemma DivMod(n: nat, base: nat)
    requires 2 <= base <= n
    ensures 1 <= n / base < n
    ensures n % base < base
    ensures n == (n / base) * base + n % base
  {
  }

  lemma DivBelowPow(n: nat, base: nat, k: nat)
    requires 2 <= base && 1 <= k
    requires n < Pow(base, k)
    ensures n / base < Pow(base, k - 1)
  {
  }

  /** A number below `base^k` prints in at most `k` digits. */
  lemma ToBaseLength(n: nat, base: nat, k: nat)
    requires 2 <= base <= 36 && 1 <= k
    requires n < Pow(base, k)
    ensures |ToBase(n, base)| <= k
  {
    ToBaseHasDigitCount(n, base);
    DigitCountBelowPow(n, base, k);
  }

  /** How many digits `n` takes in base `base`. */
  function DigitCount(n: nat, base: nat): nat
    requires 2 <= base
    decreases n
  {
    if n < base then 1
    else
      DivMod(n, base);
      1 + DigitCount(n / base, base)
  }

  lemma {:induction false} ToBaseHasDigitCount(n: nat, base: nat)
    requires 2 <= base <= 36
    ensures |ToBase(n, base)| == DigitCount(n, base)
    decreases n
  {
    if n >= base {
      var q := n / base;
      assert q < n by {
        DivMod(n, base);
      }
      ToBaseHasDigitCount(q, base);
      ToBaseStep(n, base);
    }
  }

  lemma {:induction false} DigitCountBelowPow(n: nat, base: nat, k: nat)
    requires 2 <= base && 1 <= k
    requires n < Pow(base, k)
    ensures DigitCount(n, base) <= k
    decreases n
  {
    if n >= base {
      var q := n / base;
      assert k >= 2 by {
        MoreThanOneDigit(n, base, k);
      }
      assert q < Pow(base, k - 1) by {
        DivBelowPow(n, base, k);
      }
      assert q < n by {
        DivMod(n, base);
      }
      DigitCountBelowPow(q, base, k - 1);
    }
  }

  /** A number of at least `base` needs room for two digits. */
  lemma MoreThanOneDigit(n: nat, base: nat, k: nat)
    requires 2 <= base <= n && 1 <= k
    requires n < Pow(base, k)
    ensures 2 <= k
  {
    if k == 1 {
      PowAtLeastBase(base, k);
    }
  }

  lemma ToBaseStep(n: nat, base: nat)
    requires 2 <= base <= 36 && base <= n
    ensures |ToBase(n, base)| == |ToBase(n / base, base)| + 1
  {
  }

  lemma PowAtLeastBase(base: nat, k: nat)
    requires 2 <= base && 1 <= k
    ensures k == 1 ==> Pow(base, k) == base
  {
  }

  function Repeat(c: char, k: nat): (r: string)
    ensures |r| == k
    ensures forall i :: 0 <= i < k ==> r[i] == c
  {
    if k == 0 then [] else [c] + Repeat(c, k - 1)
  }

  /** `s.padStart(width, c)`. */
  function PadStart(s: string, width: nat, c: char): (r: string)
    ensures |r| == Max(|s|, width)
    ensures r[|r| - |s|..] == s
    ensures forall i :: 0 <= i < |r| - |s| ==> r[i] == c
  {
    if |s| >= width then s else Repeat(c, width - |s|) + s
  }

  /** Leading zeros do not change the value a digit string denotes. */
  lemma {:induction false} FromBaseLeadingZeros(k: nat, s: string, base: nat)
    ensures FromBase(Repeat('0', k) + s, base) == FromBase(s, base)
    decreases |s|
  {
    if s == [] {
      ZerosDenoteZero(k, base);
      assert Repeat('0', k) + s == Repeat('0', k);
    } else {
      var t := Repeat('0', k) + s;
      assert t[..|t| - 1] == Repeat('0', k) + s[..|s| - 1];
      FromBaseLeadingZeros(k, s[..|s| - 1], base);
    }
  }

  lemma {:induction false} ZerosDenoteZero(k: nat, base: nat)
    ensures FromBase(Repeat('0', k), base) == 0
  {
    if k > 0 {
      var z := Repeat('0', k);
      assert z[..k - 1] == Repeat('0', k - 1);
      ZerosDenoteZero(k - 1, base);
    }
  }
}
