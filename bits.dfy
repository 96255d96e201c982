/**
 * Python's integer bit operations, as far as the driver uses them, and the
 * eight parallel data lines D0..D7 that carry one byte to the controller.
 *
 * Python integers are unbounded and behave as infinite two's complement
 * numbers under `>>`, `|` and `&`. The driver only ever looks at an integer
 * through `(v >> i) & 1` for i in 0..7, so the byte on the bus is made of the
 * low eight bits of whatever integer the caller passed.
 */
module Bits {

  /** 2 to the power i. */
  function Pow2(i: nat): (r: nat)
    ensures r > 0
  {
    if i == 0 then 1 else 2 * Pow2(i - 1)
  }

  /** Python's `v >> i`: floor division by 2^i, negative v included
      (Dafny's `/` by a positive divisor rounds down as Python's does). */
  function Shr(v: int, i: nat): int
    decreases i
  {
    if i == 0 then v else Shr(v / 2, i - 1)
  }

  /** Python's `(v >> i) & 1 == 1`: bit i of v in two's complement. */
  predicate PyBit(v: int, i: nat)
  {
    Shr(v, i) % 2 == 1
  }

  /** 0 and -1 are the two integers whose bits are all equal (all clear, all set). */
  predicate IsSign(x: int)
  {
    x == 0 || x == -1
  }

  /** Distance from the nearest of 0 and -1; halving brings every other integer closer. */
  function Magnitude(x: int): nat
  {
    if x >= 0 then x else -x - 1
  }

  /** Python's `a | b` on unbounded integers, one two's complement digit at a time. */
  function PyOr(a: int, b: int): int
    decreases Magnitude(a) + Magnitude(b)
  {
    if IsSign(a) && IsSign(b) then (if a == -1 || b == -1 then -1 else 0)
    else 2 * PyOr(a / 2, b / 2) + (if a % 2 == 1 || b % 2 == 1 then 1 else 0)
  }

  /** Python's `a & b` on unbounded integers. */
  function PyAnd(a: int, b: int): int
    decreases Magnitude(a) + Magnitude(b)
  {
    if IsSign(a) && IsSign(b) then (if a == -1 && b == -1 then -1 else 0)
    else 2 * PyAnd(a / 2, b / 2) + (if a % 2 == 1 && b % 2 == 1 then 1 else 0)
  }

  lemma OrStep(a: int, b: int)
    ensures PyOr(a, b) / 2 == PyOr(a / 2, b / 2)
    ensures PyOr(a, b) % 2 == (if a % 2 == 1 || b % 2 == 1 then 1 else 0)
  {
  }

  lemma AndStep(a: int, b: int)
    ensures PyAnd(a, b) / 2 == PyAnd(a / 2, b / 2)
    ensures PyAnd(a, b) % 2 == (if a % 2 == 1 && b % 2 == 1 then 1 else 0)
  {
  }

  /** Bit i of `a | b` is set exactly when it is set in a or in b. */
  lemma {:induction false} OrBit(a: int, b: int, i: nat)
    ensures PyBit(PyOr(a, b), i) <==> PyBit(a, i) || PyBit(b, i)
    decreases i
  {
    OrStep(a, b);
    if i > 0 {
      OrBit(a / 2, b / 2, i - 1);
    }
  }

  /** Bit i of `a & b` is set exactly when it is set in both a and b. */
  lemma {:induction false} AndBit(a: int, b: int, i: nat)
    ensures PyBit(PyAnd(a, b), i) <==> PyBit(a, i) && PyBit(b, i)
    decreases i
  {
    AndStep(a, b);
    if i > 0 {
      AndBit(a / 2, b / 2, i - 1);
    }
  }

  lemma {:induction false} AndZero(a: int)
    ensures PyAnd(a, 0) == 0
    decreases Magnitude(a)
  {
    if !IsSign(a) {
      AndZero(a / 2);
    }
  }

  lemma {:induction false} MulAtLeast(p: nat, d: nat)
    requires d >= 1
    ensures p * d >= p
    decreases d
  {
    if d > 1 {
      MulAtLeast(p, d - 1);
      assert p * d == p * (d - 1) + p;
    }
  }

  /** Quotient and remainder are the only ones: a == p * q + s with 0 <= s < p. */
  lemma DivModUnique(a: int, p: nat, q: int, s: int)
    requires p > 0 && a == p * q + s && 0 <= s < p
    ensures a / p == q && a % p == s
  {
    var q', s' := a / p, a % p;
    assert a == p * q' + s';
    if q > q' {
      assert p * q - p * q' == p * (q - q');
      MulAtLeast(p, q - q');
    } else if q < q' {
      assert p * q' - p * q == p * (q' - q);
      MulAtLeast(p, q' - q);
    }
  }

  lemma ModDouble(a: int, p: nat)
    requires p > 0
    ensures a % (2 * p) == 2 * ((a / 2) % p) + a % 2
  {
    var h, b := a / 2, a % 2;
    var q, r := h / p, h % p;
    assert a == 2 * h + b;
    assert h == p * q + r;
    assert a == (2 * p) * q + (2 * r + b);
    DivModUnique(a, 2 * p, q, 2 * r + b);
  }

  /** Python's `a & (2^k - 1)` is `a mod 2^k` for every integer a, negative
      ones included: masking keeps the low k bits. */
  lemma {:induction false} AndLowMask(a: int, k: nat)
    ensures PyAnd(a, Pow2(k) - 1) == a % Pow2(k)
    decreases k
  {
    if k == 0 {
      AndZero(a);
    } else {
      var m, p := Pow2(k) - 1, Pow2(k - 1);
      assert m / 2 == p - 1 && m % 2 == 1;
      AndLowMask(a / 2, k - 1);
      assert PyAnd(a, m) == 2 * PyAnd(a / 2, p - 1) + a % 2;
      ModDouble(a, p);
    }
  }

  lemma {:induction false} OrZero(a: int)
    ensures PyOr(a, 0) == a
    decreases Magnitude(a)
  {
    if !IsSign(a) {
      OrZero(a / 2);
    }
  }

  /** `hi | lo` is `hi + lo` when the low k bits of hi are clear and lo fits in
      them: disjoint flags combine by OR as by addition. */
  lemma {:induction false} OrDisjoint(hi: int, lo: int, k: nat)
    requires hi % Pow2(k) == 0 && 0 <= lo < Pow2(k)
    ensures PyOr(hi, lo) == hi + lo
    decreases k
  {
    if k == 0 {
      OrZero(hi);
    } else {
      var p := Pow2(k - 1);
      ModDouble(hi, p);
      assert hi % 2 == 0 && (hi / 2) % p == 0;
      OrDisjoint(hi / 2, lo / 2, k - 1);
      OrStep(hi, lo);
    }
  }

  /** 2^k shares no bit with a value below it: `2^k & x == 0`. */
  lemma {:induction false} AndDisjoint(k: nat, x: int)
    requires 0 <= x < Pow2(k)
    ensures PyAnd(Pow2(k), x) == 0
    decreases k
  {
    if k == 0 {
      AndZero(1);
    } else {
      AndDisjoint(k - 1, x / 2);
      AndStep(Pow2(k), x);
    }
  }

  /** A selector 2^k ORed with an option that fits below it is their sum. */
  lemma SelectorAdds(k: nat, c: int)
    ensures 0 <= c < Pow2(k) ==> PyOr(Pow2(k), c) == Pow2(k) + c
  {
    if 0 <= c < Pow2(k) {
      DivModUnique(Pow2(k), Pow2(k), 1, 0);
      OrDisjoint(Pow2(k), c, k);
    }
  }

  lemma {:induction false} ShrZero(i: nat)
    ensures Shr(0, i) == 0
    decreases i
  {
    if i > 0 {
      ShrZero(i - 1);
    }
  }

  /** 2^k has bit k set and no other. */
  lemma {:induction false} PowBit(k: nat, i: nat)
    ensures PyBit(Pow2(k), i) <==> i == k
    decreases k
  {
    if k == 0 {
      if i > 0 {
        ShrZero(i - 1);
      }
    } else if i > 0 {
      assert Pow2(k) / 2 == Pow2(k - 1);
      PowBit(k - 1, i - 1);
    }
  }

  /** ORing 2^k into c sets bit k and leaves every other bit of c as it was. */
  lemma SetBit(k: nat, c: int)
    ensures forall i: nat :: PyBit(PyOr(Pow2(k), c), i) <==> i == k || PyBit(c, i)
  {
    forall i: nat
      ensures PyBit(PyOr(Pow2(k), c), i) <==> i == k || PyBit(c, i)
    {
      OrBit(Pow2(k), c, i);
      PowBit(k, i);
    }
  }

  /** Bits at and above k of either operand do not affect `a | b` modulo 2^k. */
  lemma {:induction false} OrModulo(a: int, b: int, k: nat)
    ensures PyOr(a, b) % Pow2(k) == PyOr(a % Pow2(k), b % Pow2(k))
    decreases k
  {
    if k == 0 {
      assert a % 1 == 0 && b % 1 == 0;
    } else {
      var p := Pow2(k - 1);
      var a', b' := a % (2 * p), b % (2 * p);
      ModDouble(a, p);
      ModDouble(b, p);
      ModDouble(PyOr(a, b), p);
      OrStep(a, b);
      OrStep(a', b');
      OrModulo(a / 2, b / 2, k - 1);
      assert a' / 2 == (a / 2) % p && a' % 2 == a % 2;
      assert b' / 2 == (b / 2) % p && b' % 2 == b % 2;
    }
  }

  /** The byte of `a | b` depends only on the bytes of a and b. */
  lemma OrModuloByte(a: int, b: int)
    ensures PyOr(a, b) % 256 == PyOr(a % 256, b % 256)
  {
    assert Pow2(8) == 256 by {
      assert Pow2(4) == 16;
    }
    OrModulo(a, b, 8);
  }

  /** Python's `x & 1` is the parity of x, for negative x too. */
  lemma AndOne(x: int)
    ensures PyAnd(x, 1) == x % 2
  {
    AndLowMask(x, 1);
  }

  /** A value the eight data lines can carry. */
  type Byte = n: int | 0 <= n < 256

  /** Bits 0..k-1 of v, bit 0 first. */
  function Levels(v: int, k: nat): (lines: seq<bool>)
    ensures |lines| == k
  {
    seq(k, i requires 0 <= i < k => PyBit(v, i))
  }

  /** The levels _DATA_PIN_SET gives D0..D7 for the integer v: line i is high
      when `(v >> i) & 1` is 1. */
  function BusLevels(v: int): (lines: seq<bool>)
    ensures |lines| == 8
  {
    Levels(v, 8)
  }

  /** The number a row of lines stands for, the first line being bit 0. */
  function ValueOf(lines: seq<bool>): nat
  {
    if |lines| == 0 then 0 else (if lines[0] then 1 else 0) + 2 * ValueOf(lines[1..])
  }

  /** k lines carry a number below 2^k. */
  lemma {:induction false} ValueOfBound(lines: seq<bool>)
    ensures ValueOf(lines) < Pow2(|lines|)
    decreases |lines|
  {
    if |lines| > 0 {
      ValueOfBound(lines[1..]);
    }
  }

  lemma LevelsTail(v: int, k: nat)
    requires k > 0
    ensures Levels(v, k)[0] == (v % 2 == 1)
    ensures Levels(v, k)[1..] == Levels(v / 2, k - 1)
  {
    assert forall i | 0 <= i < k - 1 :: Shr(v, i + 1) == Shr(v / 2, i);
  }

  /** The lines driven from v stand for v mod 2^k. */
  lemma {:induction false} ValueOfLevels(v: int, k: nat)
    ensures ValueOf(Levels(v, k)) == v % Pow2(k)
    decreases k
  {
    if k == 0 {
      assert v % 1 == 0;
    } else {
      LevelsTail(v, k);
      ValueOfLevels(v / 2, k - 1);
      ModDouble(v, Pow2(k - 1));
    }
  }

  /** Driving the lines from the number they stand for reproduces them. */
  lemma {:induction false} LevelsOfValue(lines: seq<bool>)
    ensures Levels(ValueOf(lines), |lines|) == lines
    decreases |lines|
  {
    if |lines| > 0 {
      var v, w := ValueOf(lines), ValueOf(lines[1..]);
      assert v == (if lines[0] then 1 else 0) + 2 * w;
      assert v / 2 == w;
      LevelsTail(v, |lines|);
      LevelsOfValue(lines[1..]);
      assert Levels(v, |lines|) == [Levels(v, |lines|)[0]] + Levels(v, |lines|)[1..];
    }
  }

  /** The byte on the bus is v mod 256, and the levels are exactly those of
      that byte: the lines and the number they carry determine each other. */
  lemma BusRoundTrip(v: int)
    ensures ValueOf(BusLevels(v)) == v % 256
    ensures BusLevels(v % 256) == BusLevels(v)
  {
    assert Pow2(8) == 256 by {
      assert Pow2(4) == 16;
    }
    ValueOfLevels(v, 8);
    LevelsOfValue(BusLevels(v));
  }

  /** Only the low eight bits of an integer reach the bus: two integers drive
      the same levels exactly when they agree modulo 256. */
  lemma SameBusLevels(v: int, w: int)
    ensures BusLevels(v) == BusLevels(w) <==> v % 256 == w % 256
  {
    BusRoundTrip(v);
    BusRoundTrip(w);
  }
}
