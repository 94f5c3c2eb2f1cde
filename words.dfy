/**
 * Java `long` bitboards and the handful of Java operators the engine applies to them.
 *
 * A 64-bit word is represented by the set of positions (0..63) of its 1 bits: bit `i`
 * of the word is set exactly when `i` is in the set.  Every operator below has the meaning
 * the Java language gives it on `long` values, including the sign extension of `>>`,
 * the shift-count masking of `1L << n` and `numberOfTrailingZeros(0) == 64`.
 */
module Words {

  /** The bit positions that are 1 in a Java `long`. */
  type Word = w: set<int> | forall i :: i in w ==> 0 <= i < 64

  /** `-1L` / `~0L`: all 64 bits. */
  const Full: Word := set i | 0 <= i < 64

  /** `~a` */
  function Not(a: Word): (r: Word)
    ensures forall i :: i in r <==> 0 <= i < 64 && i !in a
  {
    Full - a
  }

  /** `a & b` */
  function And(a: Word, b: Word): (r: Word)
    ensures forall i {:trigger i in r} :: i in r <==> i in a && i in b
  {
    a * b
  }

  /** `a | b` */
  function Or(a: Word, b: Word): (r: Word)
    ensures forall i {:trigger i in r} :: i in r <==> i in a || i in b
  {
    a + b
  }

  /** `a << k` for a constant shift count `k` in 0..63: bits move up, bits shifted past 63 are lost. */
  function Shl(a: Word, k: nat): (r: Word)
    requires k < 64
    ensures forall i :: i in r <==> k <= i < 64 && i - k in a
  {
    set i | i in a && i + k < 64 :: i + k
  }

  /**
   * `a >> k` (arithmetic shift) for a constant shift count `k` in 0..63: bits move down,
   * and when bit 63 (the sign bit) is set the `k` top positions are filled with 1 bits.
   */
  function Sar(a: Word, k: nat): (r: Word)
    requires k < 64
    ensures forall i :: i in r <==> 0 <= i < 64 && ((i + k < 64 && i + k in a) || (64 - k <= i && 63 in a))
  {
    (set i | i in a && k <= i :: i - k) + (if 63 in a then set i | i in Full && 64 - k <= i else {})
  }

  /** `1L << n`: Java keeps only the low six bits of the shift count, that is `n` mod 64. */
  function Bit(n: int): (r: Word)
    ensures r == {n % 64}
  {
    {n % 64}
  }

  /** `(w & (1L << n)) != 0`: bit `n` (taken mod 64) of `w` is set. */
  predicate HasBit(w: Word, n: int) {
    n % 64 in w
  }

  /** HasBit is the Java test `(w & (1L << n)) != 0`. */
  lemma HasBitTest(w: Word, n: int)
    ensures HasBit(w, n) <==> And(w, Bit(n)) != {}
  {
    assert n % 64 in w ==> n % 64 in And(w, Bit(n));
  }

  /** Search for the lowest 1 bit at position `k` or above; 64 when there is none. */
  function LowestFrom(a: Word, k: nat): (r: int)
    requires k <= 64
    decreases 64 - k
    ensures k <= r <= 64
    ensures r < 64 ==> r in a
    ensures forall j :: k <= j < r ==> j !in a
  {
    if k == 64 then 64 else if k in a then k else LowestFrom(a, k + 1)
  }

  /** `Long.numberOfTrailingZeros(a)`: the lowest set position, 64 for the zero word. */
  function Ntz(a: Word): (r: int)
    ensures 0 <= r <= 64
    ensures r == 64 <==> a == {}
    ensures r < 64 ==> r in a && forall j :: j in a ==> r <= j
  {
    LowestFrom(a, 0)
  }

  /** `a & (a - 1)`: the word with its lowest 1 bit cleared (the zero word stays zero). */
  function ClearLowest(a: Word): (r: Word)
    ensures a != {} ==> r == a - {Ntz(a)} && |r| == |a| - 1
    ensures a == {} ==> r == {}
  {
    a - {Ntz(a)}
  }

  /**
   * The set positions of `a` from lowest to highest: the order in which the loop
   * `while (a != 0) { sq = numberOfTrailingZeros(a); a &= a - 1; ... }` visits them.
   */
  function Squares(a: Word): (r: seq<int>)
    decreases |a|
    ensures |r| == |a|
    ensures forall k :: 0 <= k < |r| ==> r[k] in a
  {
    if a == {} then [] else [Ntz(a)] + Squares(ClearLowest(a))
  }

  /** `s` is strictly increasing. */
  predicate Increasing(s: seq<int>) {
    forall i, j :: 0 <= i < j < |s| ==> s[i] < s[j]
  }

  /** The loop visits the positions in strictly increasing order, hence each at most once. */
  lemma {:induction false} SquaresIncreasing(a: Word)
    decreases |a|
    ensures Increasing(Squares(a))
  {
    if a != {} {
      var n, rest := Ntz(a), ClearLowest(a);
      var t := Squares(rest);
      SquaresIncreasing(rest);
      forall k | 0 <= k < |t| ensures n < t[k] {
        var x := t[k];
        assert x in rest;
        assert x in a && x != n;
      }
      PrependIncreasing(n, t);
    }
  }

  lemma PrependIncreasing(n: int, t: seq<int>)
    requires Increasing(t)
    requires forall k :: 0 <= k < |t| ==> n < t[k]
    ensures Increasing([n] + t)
  {
    var s := [n] + t;
    forall i, j | 0 <= i < j < |s| ensures s[i] < s[j] {
      if i > 0 {
        assert s[i] == t[i - 1];
      }
      assert s[j] == t[j - 1];
    }
  }

  /** The loop visits every set position. */
  lemma {:induction false} SquaresCover(a: Word, i: int)
    decreases |a|
    requires i in a
    ensures i in Squares(a)
  {
    var n := Ntz(a);
    assert Squares(a) == [n] + Squares(ClearLowest(a));
    if i != n {
      SquaresCover(ClearLowest(a), i);
    }
  }

  /** The loop visits exactly the set positions. */
  lemma SquaresMembers(a: Word, i: int)
    ensures i in Squares(a) <==> i in a
  {
    if i in a {
      SquaresCover(a, i);
    }
  }

  /** Java's `/` on `int` for a positive divisor: the quotient is truncated toward zero. */
  function JavaDiv(a: int, b: int): (q: int)
    requires b > 0
    ensures a >= 0 ==> q == a / b
    ensures a < 0 ==> q == -((-a) / b)
  {
    if a >= 0 then a / b else -((-a) / b)
  }

  /** Java's `%` on `int` for a positive divisor: the remainder takes the sign of `a`. */
  function JavaMod(a: int, b: int): (m: int)
    requires b > 0
    ensures a == JavaDiv(a, b) * b + m
    ensures a >= 0 ==> 0 <= m < b
    ensures a < 0 ==> -b < m <= 0
  {
    a - JavaDiv(a, b) * b
  }
}
