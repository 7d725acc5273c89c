/** Hexadecimal printing and parsing, and the powers of two behind shifts and masks. */
module Hex {
  import opened Ordering

  // ---------------------------------------------------------------- digits

  function Digit(d: int): char
    requires 0 <= d < 16
  {
    "0123456789ABCDEF"[d]
  }

  predicate IsUpperHex(c: char) { '0' <= c <= '9' || 'A' <= c <= 'F' }

  predicate IsHex(c: char) { IsUpperHex(c) || 'a' <= c <= 'f' }

  function DigitValue(c: char): int
    requires IsHex(c)
  {
    if c <= '9' then c as int - '0' as int
    else if c <= 'F' then c as int - 'A' as int + 10
    else c as int - 'a' as int + 10
  }

  predicate AllHex(s: string) { forall i :: 0 <= i < |s| ==> IsHex(s[i]) }

  predicate AllUpperHex(s: string) { forall i :: 0 <= i < |s| ==> IsUpperHex(s[i]) }

  lemma DigitRoundTrip(d: int)
    requires 0 <= d < 16
    ensures IsUpperHex(Digit(d)) && DigitValue(Digit(d)) == d
  {
  }

  // ---------------------------------------------------------------- numbers

  /** `int(s, 16)`. */
  function Value(s: string): int
    requires AllHex(s)
    ensures 0 <= Value(s)
  {
    if s == [] then 0 else 16 * Value(s[..|s| - 1]) + DigitValue(s[|s| - 1])
  }

  /** The `X` format: upper case, no leading zeros, `0` for zero. */
  function ToHex(n: int): string
    requires 0 <= n
  {
    if n < 16 then [Digit(n)] else ToHex(n / 16) + [Digit(n % 16)]
  }

  function Zeros(n: nat): string { seq(n, _ => '0') }

  /** The `08X` format: at least eight digits. */
  function ToHex8(n: int): string
    requires 0 <= n
  {
    var s := ToHex(n);
    if |s| < 8 then Zeros(8 - |s|) + s else s
  }

  lemma {:induction false} ToHexRoundTrip(n: int)
    requires 0 <= n
    ensures |ToHex(n)| >= 1 && AllUpperHex(ToHex(n)) && Value(ToHex(n)) == n
  {
    DigitRoundTrip(n % 16);
    if n < 16 {
      assert ToHex(n) == [Digit(n)] && ToHex(n)[..0] == [];
    } else {
      ToHexRoundTrip(n / 16);
      var s := ToHex(n / 16);
      assert ToHex(n)[..|s|] == s;
    }
  }

  lemma Pow2Step(j: nat)
    ensures Pow2(j + 4) == 16 * Pow2(j)
  {
    assert Pow2(j + 4) == 2 * Pow2(j + 3) && Pow2(j + 3) == 2 * Pow2(j + 2) && Pow2(j + 2) == 2 * Pow2(j + 1);
  }

  /** A number prints in at most `k` digits exactly when it is below 16^k. */
  lemma {:induction false} DigitsIff(n: int, k: nat)
    requires 0 <= n && 1 <= k
    ensures |ToHex(n)| <= k <==> n < Pow2(4 * k)
  {
    Pow2Step(4 * (k - 1));
    if n >= 16 {
      ToHexRoundTrip(n / 16);
      if k == 1 {
        assert Pow2(0) == 1;
      } else {
        DigitsIff(n / 16, k - 1);
        var p := Pow2(4 * (k - 1));
        assert n / 16 < p <==> n < 16 * p;
      }
    }
  }

  lemma {:induction false} ZerosHaveNoValue(n: nat, s: string)
    requires AllHex(s)
    ensures AllHex(Zeros(n) + s) && Value(Zeros(n) + s) == Value(s)
  {
    var t := Zeros(n) + s;
    if s == [] {
      if n != 0 {
        ZerosHaveNoValue(n - 1, s);
        assert t[..|t| - 1] == Zeros(n - 1) + s;
      }
    } else {
      ZerosHaveNoValue(n, s[..|s| - 1]);
      assert t[..|t| - 1] == Zeros(n) + s[..|s| - 1];
    }
  }

  lemma ToHex8RoundTrip(n: int)
    requires 0 <= n
    ensures AllUpperHex(ToHex8(n)) && Value(ToHex8(n)) == n && |ToHex8(n)| >= 8
    ensures |ToHex8(n)| == 8 <==> n < Pow2(32)
  {
    ToHexRoundTrip(n);
    DigitsIff(n, 8);
    if |ToHex(n)| < 8 {
      ZerosHaveNoValue(8 - |ToHex(n)|, ToHex(n));
    }
  }

  // ---------------------------------------------------------------- order

  /** Comparing two strings block by block, when the first blocks are equally long. */
  lemma {:induction false} BlockOrder(a: string, b: string, c: string, d: string)
    requires |a| == |c|
    ensures StrLt(a + b, c + d) <==> StrLt(a, c) || (a == c && StrLt(b, d))
  {
    if a == [] {
      assert a + b == b && c + d == d;
    } else {
      BlockOrder(a[1..], b, c[1..], d);
      assert (a + b)[1..] == a[1..] + b && (c + d)[1..] == c[1..] + d;
      assert a == [a[0]] + a[1..] && c == [c[0]] + c[1..];
    }
  }

  /** Equally long upper-case hexadecimals compare as their values do. */
  lemma {:induction false} ValueOrder(s: string, t: string)
    requires |s| == |t| && AllUpperHex(s) && AllUpperHex(t)
    ensures StrLt(s, t) <==> Value(s) < Value(t)
    ensures s == t <==> Value(s) == Value(t)
  {
    if s != [] {
      var n := |s| - 1;
      ValueOrder(s[..n], t[..n]);
      BlockOrder(s[..n], [s[n]], t[..n], [t[n]]);
      assert s == s[..n] + [s[n]] && t == t[..n] + [t[n]];
      LastDigit(s[n], t[n]);
    }
  }

  lemma LastDigit(c: char, d: char)
    requires IsUpperHex(c) && IsUpperHex(d)
    ensures 0 <= DigitValue(c) < 16 && 0 <= DigitValue(d) < 16
    ensures StrLt([c], [d]) <==> DigitValue(c) < DigitValue(d)
    ensures c == d <==> DigitValue(c) == DigitValue(d)
  {
  }

  // ---------------------------------------------------------------- powers of two

  function Pow2(k: nat): int
    ensures Pow2(k) >= 1
  {
    if k == 0 then 1 else 2 * Pow2(k - 1)
  }

  lemma Pow2Small()
    ensures Pow2(4) == 16 && Pow2(8) == 256 && Pow2(16) == 65536 && Pow2(20) == 1048576
    ensures Pow2(30) == 1073741824 && Pow2(32) == 4294967296
  {
  }

  lemma {:induction false} Pow2Sum(a: nat, b: nat)
    ensures Pow2(a + b) == Pow2(a) * Pow2(b)
  {
    if b != 0 {
      Pow2Sum(a, b - 1);
      assert Pow2(a + b) == 2 * Pow2(a + (b - 1));
      assert Pow2(a) * Pow2(b) == Pow2(a) * (2 * Pow2(b - 1)) == 2 * (Pow2(a) * Pow2(b - 1));
    }
  }

  lemma {:induction false} Pow2Monotone(a: nat, b: nat)
    requires a <= b
    ensures Pow2(a) <= Pow2(b) && (a < b ==> Pow2(a) < Pow2(b))
  {
    if a < b {
      Pow2Monotone(a, b - 1);
    }
  }

  /** Python's `&` on non-negative integers, bit by bit. */
  function And(a: int, b: int): int
    requires 0 <= a && 0 <= b
    ensures 0 <= And(a, b)
  {
    if a == 0 || b == 0 then 0 else 2 * And(a / 2, b / 2) + (a % 2) * (b % 2)
  }

  function BitLength(v: int): nat
    requires 0 <= v
  {
    if v == 0 then 0 else 1 + BitLength(v / 2)
  }

  ghost predicate IsPow2(v: int) { exists k: nat :: v == Pow2(k) }

  lemma {:induction false} AndSelf(a: int)
    requires 0 <= a
    ensures And(a, a) == a
  {
    if a != 0 {
      AndSelf(a / 2);
    }
  }

  /** The bit trick: clearing the lowest set bit leaves nothing exactly for powers of two. */
  lemma {:induction false} ClearLowestBitIff(v: int)
    requires 1 <= v
    ensures And(v, v - 1) == 0 <==> IsPow2(v)
  {
    if v == 1 {
      assert v == Pow2(0);
    } else if v % 2 == 0 {
      ClearLowestBitIff(v / 2);
      assert And(v, v - 1) == 2 * And(v / 2, v / 2 - 1);
      DoubleIsPow2(v / 2);
    } else {
      AndSelf(v / 2);
      assert And(v, v - 1) == 2 * And(v / 2, v / 2) == v - 1;
      OddIsNotPow2(v);
    }
  }

  lemma DoubleIsPow2(w: int)
    requires 1 <= w
    ensures IsPow2(2 * w) <==> IsPow2(w)
  {
    if IsPow2(w) {
      var k: nat :| w == Pow2(k);
      assert 2 * w == Pow2(k + 1);
    }
    if IsPow2(2 * w) {
      var k: nat :| 2 * w == Pow2(k);
      assert w == Pow2(k - 1);
    }
  }

  lemma OddIsNotPow2(v: int)
    requires 1 < v && v % 2 == 1
    ensures !IsPow2(v)
  {
  }

  lemma {:induction false} BitLengthOfPow2(k: nat)
    ensures BitLength(Pow2(k)) == k + 1
  {
    if k != 0 {
      BitLengthOfPow2(k - 1);
    }
  }
}
