/**
 * The move value: origin and destination squares, a move kind and a promotion code, all
 * Java `int`s, with the kind predicates, the text form, equality and the hash code.
 */
module Moves {

  // Move kinds.
  const QuietMove := 0
  const DoublePawnPush := 1
  const KingCastle := 2
  const QueenCastle := 3
  const Capture := 4
  const EnPassantCapture := 5
  const Promotion := 6
  const PromotionCapture := 7

  // Promotion piece codes.
  const KnightPromotion := 0
  const BishopPromotion := 1
  const RookPromotion := 2
  const QueenPromotion := 3

  /** An immutable move; the fields are the four Java `int` fields of the same names. */
  datatype Move = Move(from: int, to: int, moveType: int, promotionPiece: int)

  /** The two-argument constructor: a quiet move with promotion code 0. */
  function QuietMoveOf(from: int, to: int): (m: Move)
    ensures m.from == from && m.to == to
    ensures m.moveType == QuietMove && m.promotionPiece == KnightPromotion
  {
    Move(from, to, QuietMove, 0)
  }

  /** The three-argument constructor: the given kind with promotion code 0. */
  function MoveOfKind(from: int, to: int, moveType: int): (m: Move)
    ensures m.from == from && m.to == to && m.moveType == moveType
    ensures m.promotionPiece == KnightPromotion
  {
    Move(from, to, moveType, 0)
  }

  predicate IsCapture(m: Move) {
    m.moveType == Capture || m.moveType == EnPassantCapture || m.moveType == PromotionCapture
  }

  predicate IsPromotion(m: Move) {
    m.moveType == Promotion || m.moveType == PromotionCapture
  }

  predicate IsCastling(m: Move) {
    m.moveType == KingCastle || m.moveType == QueenCastle
  }

  /**
   * The kind predicates split the eight kinds: quiet moves and double pushes are none of
   * them, castles are only castles, a promotion capture is both a capture and a promotion,
   * and a kind code outside 0..7 satisfies none.
   */
  lemma KindPredicates(m: Move)
    ensures IsCastling(m) ==> !IsCapture(m) && !IsPromotion(m)
    ensures IsCapture(m) && IsPromotion(m) <==> m.moveType == PromotionCapture
    ensures IsPromotion(m) && !IsCapture(m) <==> m.moveType == Promotion
    ensures IsCapture(m) && !IsPromotion(m) <==> m.moveType == Capture || m.moveType == EnPassantCapture
    ensures !IsCapture(m) && !IsPromotion(m) && !IsCastling(m) && 0 <= m.moveType < 8
            <==> m.moveType == QuietMove || m.moveType == DoublePawnPush
  {
  }

  /** Field-wise equality, which is exactly equality of move values. */
  predicate Equals(a: Move, b: Move)
    ensures Equals(a, b) <==> a == b
  {
    a.from == b.from && a.to == b.to && a.moveType == b.moveType && a.promotionPiece == b.promotionPiece
  }

  // ---------------------------------------------------------------------------------------
  // hashCode: `from | (to << 6) | (moveType << 12) | (promotionPiece << 15)` on Java `int`s.
  // A Java `int` is handled through its 32-bit two's-complement pattern, a natural below 2^32.

  const TwoTo32 := 0x1_0000_0000

  function Pow2(k: nat): (r: nat)
    ensures r >= 1
  {
    if k == 0 then 1 else 2 * Pow2(k - 1)
  }

  /** The 32-bit pattern of a Java `int`. */
  function Pattern(x: int): (u: nat)
    ensures u < TwoTo32
  {
    x % TwoTo32
  }

  /** The Java `int` whose pattern is `u`. */
  function Signed(u: nat): (x: int)
    requires u < TwoTo32
    ensures -0x8000_0000 <= x < 0x8000_0000 && Pattern(x) == u
  {
    if u < 0x8000_0000 then u else u - TwoTo32
  }

  /** Bitwise `|` on patterns, one low bit at a time. */
  function IntOr(a: nat, b: nat): (r: nat)
    decreases a + b
  {
    if a == 0 then b
    else if b == 0 then a
    else 2 * IntOr(a / 2, b / 2) + (if a % 2 == 1 || b % 2 == 1 then 1 else 0)
  }

  /** Bitwise `|` keeps a value within 32 bits. */
  lemma {:induction false} OrBelow(a: nat, b: nat, k: nat)
    requires a < Pow2(k) && b < Pow2(k)
    decreases a + b
    ensures IntOr(a, b) < Pow2(k)
  {
    if a != 0 && b != 0 {
      OrBelow(a / 2, b / 2, k - 1);
    }
  }

  /** `a | (b << k)` is the sum when `a` fits below bit `k`: the bit fields do not overlap. */
  lemma {:induction false} OrDisjoint(a: nat, b: nat, k: nat)
    requires a < Pow2(k)
    ensures IntOr(a, b * Pow2(k)) == a + b * Pow2(k)
  {
    if a != 0 && b != 0 {
      var c := b * Pow2(k - 1);
      assert b * Pow2(k) == 2 * c;
      OrDisjoint(a / 2, b, k - 1);
      assert IntOr(a, 2 * c) == 2 * IntOr(a / 2, c) + a % 2;
    }
  }

  /** `x << k` on a Java `int`, as a pattern. */
  function ShiftPattern(x: int, k: nat): (u: nat)
    ensures u < TwoTo32
  {
    (Pattern(x) * Pow2(k)) % TwoTo32
  }

  lemma Pow2Of32()
    ensures Pow2(32) == TwoTo32
  {
    assert Pow2(8) == 256;
    assert Pow2(16) == 256 * 256 by {
      assert forall j: nat :: j <= 8 ==> Pow2(8 + j) == Pow2(j) * 256 by {
        forall j: nat | j <= 8 ensures Pow2(8 + j) == Pow2(j) * 256 {
          Pow2Add(8, j);
        }
      }
    }
    Pow2Add(16, 16);
  }

  lemma {:induction false} Pow2Add(a: nat, b: nat)
    ensures Pow2(a + b) == Pow2(a) * Pow2(b)
  {
    if b > 0 {
      Pow2Add(a, b - 1);
    }
  }

  /** `hashCode()`: the four fields or-ed together at bit offsets 0, 6, 12 and 15. */
  function HashCode(m: Move): int {
    var low := IntOr(IntOr(Pattern(m.from), ShiftPattern(m.to, 6)), ShiftPattern(m.moveType, 12));
    var high := ShiftPattern(m.promotionPiece, 15);
    Pow2Of32();
    OrBelow(Pattern(m.from), ShiftPattern(m.to, 6), 32);
    OrBelow(IntOr(Pattern(m.from), ShiftPattern(m.to, 6)), ShiftPattern(m.moveType, 12), 32);
    OrBelow(low, high, 32);
    Signed(IntOr(low, high))
  }

  /** The fields of a move the engine creates: squares 0..63, kind 0..7, promotion code 0..3. */
  predicate InRange(m: Move) {
    0 <= m.from < 64 && 0 <= m.to < 64 && 0 <= m.moveType < 8 && 0 <= m.promotionPiece < 4
  }

  /** The packing of four in-range fields into bit fields at offsets 0, 6, 12 and 15. */
  function Packed(m: Move): int {
    m.from + 64 * m.to + 4096 * m.moveType + 32768 * m.promotionPiece
  }

  /** `x << k` for a small non-negative `x` does not wrap. */
  lemma ShiftSmall(x: int, k: nat, p: nat)
    requires Pow2(k) == p && 0 <= x && x * p < TwoTo32
    ensures ShiftPattern(x, k) == x * p
  {
    assert Pattern(x) == x;
  }

  /** For in-range moves the four fields occupy disjoint bit fields, so the hash is the packing. */
  lemma HashPacks(m: Move)
    requires InRange(m)
    ensures HashCode(m) == Packed(m)
  {
    ShiftsSmall(m);
    PackAll(m.from, m.to, m.moveType, m.promotionPiece);
  }

  /** In-range fields do not wrap when shifted to their offsets. */
  lemma ShiftsSmall(m: Move)
    requires InRange(m)
    ensures Pattern(m.from) == m.from
    ensures ShiftPattern(m.to, 6) == 64 * m.to
    ensures ShiftPattern(m.moveType, 12) == 4096 * m.moveType
    ensures ShiftPattern(m.promotionPiece, 15) == 32768 * m.promotionPiece
  {
    Pow2Small();
    ShiftSmall(m.to, 6, 64);
    ShiftSmall(m.moveType, 12, 4096);
    ShiftSmall(m.promotionPiece, 15, 32768);
  }

  /** The powers of two at the field offsets. */
  lemma Pow2Small()
    ensures Pow2(6) == 64 && Pow2(12) == 4096 && Pow2(15) == 32768
  {
    Pow2Add(6, 6);
    Pow2Add(12, 3);
  }

  /** `OrDisjoint` with the power of two given as a number. */
  lemma OrDisjointAt(a: nat, b: nat, k: nat, p: nat)
    requires Pow2(k) == p && a < p
    ensures IntOr(a, p * b) == a + p * b
  {
    OrDisjoint(a, b, k);
    assert b * Pow2(k) == p * b;
  }

  /** The from, to and kind fields or-ed at offsets 0, 6 and 12 add up. */
  lemma PackLow(f: nat, to: nat, kind: nat)
    requires f < 64 && to < 64 && kind < 8
    ensures IntOr(IntOr(f, 64 * to), 4096 * kind) == f + 64 * to + 4096 * kind
  {
    Pow2Small();
    OrDisjointAt(f, to, 6, 64);
    OrDisjointAt(f + 64 * to, kind, 12, 4096);
  }

  /** The four fields or-ed at offsets 0, 6, 12 and 15 add up. */
  lemma PackAll(f: nat, to: nat, kind: nat, piece: nat)
    requires f < 64 && to < 64 && kind < 8 && piece < 4
    ensures IntOr(IntOr(IntOr(f, 64 * to), 4096 * kind), 32768 * piece)
            == f + 64 * to + 4096 * kind + 32768 * piece
  {
    PackLow(f, to, kind);
    Pow2Small();
    OrDisjointAt(f + 64 * to + 4096 * kind, piece, 15, 32768);
  }

  /** Equal moves hash equally, and in-range moves with equal hashes are equal. */
  lemma HashInjective(a: Move, b: Move)
    requires InRange(a) && InRange(b)
    ensures Equals(a, b) <==> HashCode(a) == HashCode(b)
  {
    HashPacks(a);
    HashPacks(b);
    assert Packed(a) == Packed(b) ==> a == b;
  }

  // ---------------------------------------------------------------------------------------
  // toString

  datatype Option<T> = None | Some(value: T)

  const FileLetters := "abcdefgh"
  const RankDigits := "12345678"

  /** Decimal digits of a natural number, as `Integer.toString` writes them. */
  function NatText(n: nat): (s: string)
    ensures |s| > 0
    ensures forall i :: 0 <= i < |s| ==> '0' <= s[i] <= '9'
  {
    if n < 10 then [('0' as int + n) as char] else NatText(n / 10) + [('0' as int + n % 10) as char]
  }

  /** `Integer.toString` of any `int`. */
  function IntText(n: int): string {
    if n < 0 then "-" + NatText(-n) else NatText(n)
  }

  /**
   * The algebraic name of a square: `files[sq % 8] + ranks[sq / 8]`.  Java indexes the two
   * arrays with truncating `/` and `%`, so any square outside 0..63 raises an index error.
   */
  function SquareName(sq: int): (r: Option<string>)
    ensures r.Some? <==> 0 <= sq < 64
    ensures r.Some? ==> |r.value| == 2 && 'a' <= r.value[0] <= 'h' && '1' <= r.value[1] <= '8'
  {
    if 0 <= sq < 64 then Some([FileLetters[sq % 8], RankDigits[sq / 8]]) else None
  }

  /** Reads a square name back, the inverse of SquareName. */
  function ParseSquare(name: string): int
    requires |name| == 2
  {
    (name[1] as int - '1' as int) * 8 + (name[0] as int - 'a' as int)
  }

  lemma {:induction false} SquareNameRoundTrip(sq: int)
    requires 0 <= sq < 64
    ensures SquareName(sq).Some? && ParseSquare(SquareName(sq).value) == sq
  {
    var name := SquareName(sq).value;
    assert name[0] as int - 'a' as int == sq % 8;
    assert name[1] as int - '1' as int == sq / 8;
  }

  /** The letter appended for a promotion: n, b, r or q, nothing for another code. */
  function PromotionLetter(code: int): string {
    if code == KnightPromotion then "n"
    else if code == BishopPromotion then "b"
    else if code == RookPromotion then "r"
    else if code == QueenPromotion then "q"
    else ""
  }

  /**
   * `toString`: origin name, destination name, a space and the kind number, then the
   * promotion letter for the two promotion kinds.  None stands for the index error thrown
   * when a square is outside 0..63.
   */
  function ToString(m: Move): (r: Option<string>)
    ensures r.Some? <==> 0 <= m.from < 64 && 0 <= m.to < 64
  {
    match (SquareName(m.from), SquareName(m.to))
    case (Some(a), Some(b)) =>
      Some(a + b + " " + IntText(m.moveType) + (if IsPromotion(m) then PromotionLetter(m.promotionPiece) else ""))
    case _ => None
  }

  /** The text form starts with the two square names and a space, from which the squares read back. */
  lemma ToStringSquares(m: Move)
    requires 0 <= m.from < 64 && 0 <= m.to < 64
    ensures ToString(m).Some?
    ensures var s := ToString(m).value;
      |s| >= 6 && s[4] == ' ' && ParseSquare(s[0..2]) == m.from && ParseSquare(s[2..4]) == m.to
  {
    SquareNameRoundTrip(m.from);
    SquareNameRoundTrip(m.to);
    var a, b := SquareName(m.from).value, SquareName(m.to).value;
    var s := ToString(m).value;
    assert s[0..2] == a && s[2..4] == b;
  }

  /** A promotion letter is appended exactly for promotion kinds with a code in 0..3. */
  lemma ToStringLength(m: Move)
    requires 0 <= m.from < 64 && 0 <= m.to < 64 && 0 <= m.moveType < 8
    ensures |ToString(m).value| == (if IsPromotion(m) && 0 <= m.promotionPiece < 4 then 7 else 6)
  {
  }

  /**
   * After the space comes the kind digit, and a seventh character is present only for a
   * promotion kind with a code in 0..3, where it is that piece's letter.
   */
  lemma ToStringKind(m: Move)
    requires 0 <= m.from < 64 && 0 <= m.to < 64 && 0 <= m.moveType < 8
    ensures var s := ToString(m).value;
      |s| >= 6 && s[5] as int - '0' as int == m.moveType &&
      (|s| == 7 <==> IsPromotion(m) && 0 <= m.promotionPiece < 4) &&
      (|s| == 7 ==> s[6] == "nbrq"[m.promotionPiece])
  {
    ToStringLength(m);
  }

  /**
   * The text form tells moves apart by squares and kind, and promotions with a piece code
   * in 0..3 by the piece as well.
   */
  lemma ToStringInjective(m: Move, n: Move)
    requires 0 <= m.from < 64 && 0 <= m.to < 64 && 0 <= m.moveType < 8
    requires 0 <= n.from < 64 && 0 <= n.to < 64 && 0 <= n.moveType < 8
    requires ToString(m) == ToString(n)
    ensures m.from == n.from && m.to == n.to && m.moveType == n.moveType
    ensures IsPromotion(m) && 0 <= m.promotionPiece < 4 && 0 <= n.promotionPiece < 4
            ==> m.promotionPiece == n.promotionPiece
  {
    ToStringSquares(m);
    ToStringSquares(n);
    ToStringKind(m);
    ToStringKind(n);
  }
}
