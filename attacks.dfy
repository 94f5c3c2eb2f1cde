/**
 * Attack sets: the leaper tables of the king and the knight, the ray casting of the sliding
 * pieces, and the attack tests built from them (`isSquareAttacked`, `isKingInCheck` and the
 * static `isAttacked` of the move generator).
 *
 * The leaper functions and the tests are straight-line bit operations on Java `long`s and are
 * modelled as functions; the two ray casters are loops and are modelled as methods proved
 * equal to the ray functions below.
 */
module Attacks {
  import opened Words
  import opened BitboardConstants
  import opened Position

  // ---------------------------------------------------------------------------------------
  // Leapers

  /** `getKingAttacks(square)`: the eight one-step shifts of `1L << square`, edge-masked. */
  function KingAttacks(square: int): Word {
    var king := Bit(square);
    Or(Or(Or(Or(Or(Or(Or(Shl(king, 8), Sar(king, 8)),
                         And(Shl(king, 1), NotFileH)), And(Sar(king, 1), NotFileA)),
                And(Shl(king, 9), NotFileH)), And(Shl(king, 7), NotFileA)),
          And(Sar(king, 7), NotFileH)), And(Sar(king, 9), NotFileA))
  }

  /** `getKnightAttacks(square)`: the eight knight jumps of `1L << square`, edge-masked. */
  function KnightAttacks(square: int): Word {
    var knight := Bit(square);
    Or(Or(Or(Or(Or(Or(Or(And(Shl(knight, 17), NotFileH), And(Shl(knight, 15), NotFileA)),
                         And(Sar(knight, 17), NotFileA)), And(Sar(knight, 15), NotFileH)),
                And(Shl(knight, 10), NotFileGH)), And(Shl(knight, 6), NotFileAB)),
          And(Sar(knight, 10), NotFileAB)), And(Sar(knight, 6), NotFileGH))
  }

  /** Shifting a single bit below h8: no sign bit is set, so both shifts just move it. */
  lemma ShiftOfBit(s: int, k: nat, mask: Word, t: int)
    requires 0 <= s < 63 && 0 < k < 64
    ensures t in And(Shl(Bit(s), k), mask) <==> t == s + k && s + k < 64 && t in mask
    ensures t in And(Sar(Bit(s), k), mask) <==> t == s - k && s >= k && t in mask
  {
    assert Bit(s) == {s};
  }

  /** The edge masks by file number (position mod 8). */
  lemma EdgeMasks(t: int)
    ensures t in NotFileH <==> 0 <= t < 64 && t % 8 != 0
    ensures t in NotFileA <==> 0 <= t < 64 && t % 8 != 7
    ensures t in NotFileAB <==> 0 <= t < 64 && t % 8 < 6
    ensures t in NotFileGH <==> 0 <= t < 64 && t % 8 > 1
  {
  }

  /**
   * The king steps as offsets of the square number: one rank up or down, one file over, or
   * one diagonal step, on the board, where a step right may not land on file number 0 and a
   * step left may not land on file number 7.
   */
  predicate KingOffset(s: int, t: int) {
    (t == s + 8 && s < 56) || (t == s - 8 && s >= 8) ||
    (t == s + 1 && t % 8 != 0) || (t == s - 1 && s >= 1 && t % 8 != 7) ||
    (t == s + 9 && s < 55 && t % 8 != 0) || (t == s + 7 && s < 57 && t % 8 != 7) ||
    (t == s - 7 && s >= 7 && t % 8 != 0) || (t == s - 9 && s >= 9 && t % 8 != 7)
  }

  /**
   * The knight jumps as offsets of the square number: two ranks and one file (17, 15) or
   * one rank and two files (10, 6), on the board and without wrapping around the a/h edge.
   */
  predicate KnightOffset(s: int, t: int) {
    (t == s + 17 && s < 47 && t % 8 != 0) || (t == s + 15 && s < 49 && t % 8 != 7) ||
    (t == s - 17 && s >= 17 && t % 8 != 7) || (t == s - 15 && s >= 15 && t % 8 != 0) ||
    (t == s + 10 && s < 54 && t % 8 > 1) || (t == s + 6 && s < 58 && t % 8 < 6) ||
    (t == s - 10 && s >= 10 && t % 8 < 6) || (t == s - 6 && s >= 6 && t % 8 > 1)
  }

  /**
   * From any square but h8 the king reaches exactly the squares one rank up or down, one
   * file over, or one diagonal step away that lie on the board; a step across the a/h edge
   * (landing on file 0 after a step right, or on file 7 after a step left) is masked off.
   */
  lemma KingAttacksSteps(square: int, t: int)
    requires 0 <= square < 63
    ensures t in KingAttacks(square) <==> KingOffset(square, t)
  {
    var king := Bit(square);
    EdgeMasks(t);
    ShiftOfBit(square, 8, Full, t);
    assert Shl(king, 8) == And(Shl(king, 8), Full) && Sar(king, 8) == And(Sar(king, 8), Full);
    ShiftOfBit(square, 1, NotFileH, t);
    ShiftOfBit(square, 1, NotFileA, t);
    ShiftOfBit(square, 9, NotFileH, t);
    ShiftOfBit(square, 9, NotFileA, t);
    ShiftOfBit(square, 7, NotFileH, t);
    ShiftOfBit(square, 7, NotFileA, t);
  }

  /**
   * From any square but h8 the knight reaches exactly the on-board squares two ranks and one
   * file away (offsets 17, 15) or one rank and two files away (offsets 10, 6), never wrapping
   * around the a/h edge.
   */
  lemma KnightAttacksSteps(square: int, t: int)
    requires 0 <= square < 63
    ensures t in KnightAttacks(square) <==> KnightOffset(square, t)
  {
    EdgeMasks(t);
    ShiftOfBit(square, 17, NotFileH, t);
    ShiftOfBit(square, 17, NotFileA, t);
    ShiftOfBit(square, 15, NotFileA, t);
    ShiftOfBit(square, 15, NotFileH, t);
    ShiftOfBit(square, 10, NotFileGH, t);
    ShiftOfBit(square, 10, NotFileAB, t);
    ShiftOfBit(square, 6, NotFileAB, t);
    ShiftOfBit(square, 6, NotFileGH, t);
  }

  /**
   * On h8 the arithmetic shift `>>` copies the sign bit into the vacated top positions, so
   * both leaper tables of h8 contain h8 itself, and the knight table also contains a8, which
   * no knight move connects to h8.
   */
  lemma LeapersFromH8()
    ensures 63 in KingAttacks(63) && 63 in KnightAttacks(63) && 56 in KnightAttacks(63)
  {
    var b := Bit(63);
    assert 63 in Sar(b, 8);
    assert 63 in And(Sar(b, 15), NotFileH);
    assert 56 in And(Sar(b, 17), NotFileA);
  }

  /** A missing king is found on square 64, and `1L << 64` is a1: the tables of a1 are used. */
  lemma LeapersFromMissingSquare()
    ensures KingAttacks(64) == KingAttacks(0) && KnightAttacks(64) == KnightAttacks(0)
  {
    assert Bit(64) == Bit(0);
  }

  // ---------------------------------------------------------------------------------------
  // Rays

  /** A ray direction: each coordinate steps by -1, 0 or +1, and not both by 0. */
  predicate Direction(dr: int, df: int) {
    -1 <= dr <= 1 && -1 <= df <= 1 && (dr != 0 || df != 0)
  }

  /** The number of values `x, x + d, x + 2d, ...` that pass the loop bound `x < 8` or `x >= 0`. */
  function Span(x: int, d: int): int {
    if d > 0 then 8 - x else x + 1
  }

  /**
   * The number of squares a ray loop starting at (r, f) visits when nothing blocks it: the
   * loops test only the coordinates that move.
   */
  function Len(r: int, f: int, dr: int, df: int): nat
    requires Direction(dr, df)
  {
    var m := if dr == 0 then Span(f, df)
             else if df == 0 then Span(r, dr)
             else if Span(r, dr) < Span(f, df) then Span(r, dr) else Span(f, df);
    if m < 0 then 0 else m
  }

  /** The loop bound of a ray loop: each moving coordinate is still on the board. */
  predicate OnBoard(r: int, f: int, dr: int, df: int) {
    (dr > 0 ==> r < 8) && (dr < 0 ==> r >= 0) && (df > 0 ==> f < 8) && (df < 0 ==> f >= 0)
  }

  /** The loop bound holds exactly while the loop has squares left to visit. */
  lemma OnBoardLen(r: int, f: int, dr: int, df: int)
    requires Direction(dr, df)
    ensures OnBoard(r, f, dr, df) <==> Len(r, f, dr, df) > 0
  {
  }

  /**
   * One ray loop: starting at (r, f) and stepping by (dr, df) while the moving coordinates
   * stay on the board, each visited square `1L << (r * 8 + f)` joins the attacks and the ray
   * ends after the first square that is occupied.
   */
  function Ray(r: int, f: int, dr: int, df: int, occupied: Word): Word
    requires Direction(dr, df)
    decreases Len(r, f, dr, df)
  {
    if !OnBoard(r, f, dr, df) then {}
    else if HasBit(occupied, r * 8 + f) then Bit(r * 8 + f)
    else Or(Bit(r * 8 + f), Ray(r + dr, f + df, dr, df, occupied))
  }

  /** The k-th square (from 0) a ray loop visits, as the bit position `1L << s` sets. */
  function RaySquare(r: int, f: int, dr: int, df: int, k: nat): int
    decreases k
  {
    if k == 0 then (r * 8 + f) % 64 else RaySquare(r + dr, f + df, dr, df, k - 1)
  }

  /** None of the first `k` squares of the ray is occupied. */
  predicate ClearBefore(r: int, f: int, dr: int, df: int, occupied: Word, k: nat) {
    forall j: nat :: j < k ==> RaySquare(r, f, dr, df, j) !in occupied
  }

  lemma LenStep(r: int, f: int, dr: int, df: int)
    requires Direction(dr, df) && Len(r, f, dr, df) > 0
    ensures Len(r + dr, f + df, dr, df) == Len(r, f, dr, df) - 1
  {
  }

  /** Past an empty first square, the rest of the ray is clear exactly when the tail ray is. */
  lemma ClearShift(r: int, f: int, dr: int, df: int, occupied: Word, k: nat)
    requires RaySquare(r, f, dr, df, 0) !in occupied
    ensures ClearBefore(r, f, dr, df, occupied, k + 1) <==> ClearBefore(r + dr, f + df, dr, df, occupied, k)
  {
    var r1, f1 := r + dr, f + df;
    if ClearBefore(r, f, dr, df, occupied, k + 1) {
      forall j: nat | j < k ensures RaySquare(r1, f1, dr, df, j) !in occupied {
        assert RaySquare(r, f, dr, df, j + 1) == RaySquare(r1, f1, dr, df, j);
      }
    }
    if ClearBefore(r1, f1, dr, df, occupied, k) {
      forall j: nat | j < k + 1 ensures RaySquare(r, f, dr, df, j) !in occupied {
        if j > 0 {
          assert RaySquare(r, f, dr, df, j) == RaySquare(r1, f1, dr, df, j - 1);
        }
      }
    }
  }

  /** Every square of the ray is one the loop visits before it meets an occupied square. */
  lemma {:induction false} RayIndex(r: int, f: int, dr: int, df: int, occupied: Word, sq: int) returns (k: nat)
    requires Direction(dr, df)
    requires sq in Ray(r, f, dr, df, occupied)
    decreases Len(r, f, dr, df)
    ensures k < Len(r, f, dr, df) && sq == RaySquare(r, f, dr, df, k) && ClearBefore(r, f, dr, df, occupied, k)
  {
    OnBoardLen(r, f, dr, df);
    if sq == (r * 8 + f) % 64 {
      k := 0;
    } else {
      var r1, f1 := r + dr, f + df;
      assert !HasBit(occupied, r * 8 + f) && sq in Ray(r1, f1, dr, df, occupied);
      LenStep(r, f, dr, df);
      var k1 := RayIndex(r1, f1, dr, df, occupied, sq);
      ClearShift(r, f, dr, df, occupied, k1);
      k := k1 + 1;
      assert RaySquare(r, f, dr, df, k) == RaySquare(r1, f1, dr, df, k1);
    }
  }

  /** Every square the loop visits before it meets an occupied square is in the ray. */
  lemma {:induction false} RayHas(r: int, f: int, dr: int, df: int, occupied: Word, k: nat)
    requires Direction(dr, df)
    requires k < Len(r, f, dr, df) && ClearBefore(r, f, dr, df, occupied, k)
    decreases k
    ensures RaySquare(r, f, dr, df, k) in Ray(r, f, dr, df, occupied)
  {
    OnBoardLen(r, f, dr, df);
    if k > 0 {
      var r1, f1 := r + dr, f + df;
      assert RaySquare(r, f, dr, df, 0) !in occupied;
      LenStep(r, f, dr, df);
      ClearShift(r, f, dr, df, occupied, k - 1);
      RayHas(r1, f1, dr, df, occupied, k - 1);
    }
  }

  /**
   * The ray holds exactly the squares the loop visits up to and including the first
   * occupied one: a square is in the ray iff it is the k-th visited square for some k the
   * loop bounds allow, with none of the squares before it occupied.
   */
  lemma RayMembers(r: int, f: int, dr: int, df: int, occupied: Word, sq: int)
    requires Direction(dr, df)
    ensures sq in Ray(r, f, dr, df, occupied) <==>
      exists k: nat :: k < Len(r, f, dr, df) && sq == RaySquare(r, f, dr, df, k) && ClearBefore(r, f, dr, df, occupied, k)
  {
    if sq in Ray(r, f, dr, df, occupied) {
      var k := RayIndex(r, f, dr, df, occupied, sq);
    }
    if exists k: nat :: k < Len(r, f, dr, df) && sq == RaySquare(r, f, dr, df, k) && ClearBefore(r, f, dr, df, occupied, k) {
      var k: nat :| k < Len(r, f, dr, df) && sq == RaySquare(r, f, dr, df, k) && ClearBefore(r, f, dr, df, occupied, k);
      RayHas(r, f, dr, df, occupied, k);
    }
  }

  /** The four diagonal rays `getDiagonalAttacks` casts from `square`. */
  function DiagonalRays(square: int, occupied: Word): Word {
    DiagonalRaysFrom(JavaDiv(square, 8), JavaMod(square, 8), occupied)
  }

  /** The four diagonal rays from rank `rank` and file `file`. */
  function DiagonalRaysFrom(rank: int, file: int, occupied: Word): Word {
    Or(Or(Or(Ray(rank + 1, file + 1, 1, 1, occupied), Ray(rank + 1, file - 1, 1, -1, occupied)),
          Ray(rank - 1, file + 1, -1, 1, occupied)), Ray(rank - 1, file - 1, -1, -1, occupied))
  }

  /** The four orthogonal rays `getStraightAttacks` casts from `square`. */
  function StraightRays(square: int, occupied: Word): Word {
    StraightRaysFrom(JavaDiv(square, 8), JavaMod(square, 8), occupied)
  }

  /** The four orthogonal rays from rank `rank` and file `file`. */
  function StraightRaysFrom(rank: int, file: int, occupied: Word): Word {
    Or(Or(Or(Ray(rank + 1, file, 1, 0, occupied), Ray(rank - 1, file, -1, 0, occupied)),
          Ray(rank, file + 1, 0, 1, occupied)), Ray(rank, file - 1, 0, -1, occupied))
  }

  /**
   * One of the eight ray loops of `getDiagonalAttacks` and `getStraightAttacks`: from (r, f)
   * onwards in direction (dr, df), or in the square `1L << (r * 8 + f)` and stop after the
   * first occupied one.
   */
  method CastRay(r0: int, f0: int, dr: int, df: int, occupied: Word) returns (attacks: Word)
    requires Direction(dr, df)
    ensures attacks == Ray(r0, f0, dr, df, occupied)
  {
    attacks := {};
    var r, f := r0, f0;
    while OnBoard(r, f, dr, df)
      invariant Or(attacks, Ray(r, f, dr, df, occupied)) == Ray(r0, f0, dr, df, occupied)
      decreases Len(r, f, dr, df)
    {
      var targetSquare := r * 8 + f;
      attacks := Or(attacks, Bit(targetSquare));
      if HasBit(occupied, targetSquare) {
        break;
      }
      r, f := r + dr, f + df;
    }
  }

  /** `getDiagonalAttacks(square, occupied)`: the northeast, northwest, southeast and southwest rays. */
  method DiagonalAttacks(square: int, occupied: Word) returns (attacks: Word)
    ensures attacks == DiagonalRays(square, occupied)
  {
    var rank, file := JavaDiv(square, 8), JavaMod(square, 8);
    var northeast := CastRay(rank + 1, file + 1, 1, 1, occupied);
    var northwest := CastRay(rank + 1, file - 1, 1, -1, occupied);
    var southeast := CastRay(rank - 1, file + 1, -1, 1, occupied);
    var southwest := CastRay(rank - 1, file - 1, -1, -1, occupied);
    attacks := Or(Or(Or(northeast, northwest), southeast), southwest);
    DiagonalRaysJoin(rank, file, occupied, northeast, northwest, southeast, southwest);
  }

  lemma DiagonalRaysJoin(rank: int, file: int, occupied: Word, northeast: Word, northwest: Word, southeast: Word, southwest: Word)
    requires northeast == Ray(rank + 1, file + 1, 1, 1, occupied) && northwest == Ray(rank + 1, file - 1, 1, -1, occupied)
    requires southeast == Ray(rank - 1, file + 1, -1, 1, occupied) && southwest == Ray(rank - 1, file - 1, -1, -1, occupied)
    ensures Or(Or(Or(northeast, northwest), southeast), southwest) == DiagonalRaysFrom(rank, file, occupied)
  {
  }

  /** `getStraightAttacks(square, occupied)`: the north, south, east and west rays. */
  method StraightAttacks(square: int, occupied: Word) returns (attacks: Word)
    ensures attacks == StraightRays(square, occupied)
  {
    var rank, file := JavaDiv(square, 8), JavaMod(square, 8);
    var north := CastRay(rank + 1, file, 1, 0, occupied);
    var south := CastRay(rank - 1, file, -1, 0, occupied);
    var east := CastRay(rank, file + 1, 0, 1, occupied);
    var west := CastRay(rank, file - 1, 0, -1, occupied);
    attacks := Or(Or(Or(north, south), east), west);
    StraightRaysJoin(rank, file, occupied, north, south, east, west);
  }

  lemma StraightRaysJoin(rank: int, file: int, occupied: Word, north: Word, south: Word, east: Word, west: Word)
    requires north == Ray(rank + 1, file, 1, 0, occupied) && south == Ray(rank - 1, file, -1, 0, occupied)
    requires east == Ray(rank, file + 1, 0, 1, occupied) && west == Ray(rank, file - 1, 0, -1, occupied)
    ensures Or(Or(Or(north, south), east), west) == StraightRaysFrom(rank, file, occupied)
  {
  }

  /** `getQueenAttacks(square, occupied)`: the diagonal and the straight attacks together. */
  method QueenAttacks(square: int, occupied: Word) returns (attacks: Word)
    ensures attacks == Or(DiagonalRays(square, occupied), StraightRays(square, occupied))
  {
    var diagonal := DiagonalAttacks(square, occupied);
    var straight := StraightAttacks(square, occupied);
    attacks := Or(diagonal, straight);
  }

  /** The k-th square a ray loop visits, in closed form. */
  lemma {:induction false} RaySquareAt(r: int, f: int, dr: int, df: int, k: nat)
    decreases k
    ensures RaySquare(r, f, dr, df, k) == ((r + k * dr) * 8 + (f + k * df)) % 64
  {
    if k > 0 {
      RaySquareAt(r + dr, f + df, dr, df, k - 1);
      assert (r + dr) + (k - 1) * dr == r + k * dr;
      assert (f + df) + (k - 1) * df == f + k * df;
    }
  }

  /** Within its length, a ray loop keeps each moving coordinate inside its loop bound. */
  lemma RayBounds(r: int, f: int, dr: int, df: int, k: nat)
    requires Direction(dr, df) && k < Len(r, f, dr, df)
    ensures dr == 1 ==> r + k < 8
    ensures dr == -1 ==> r - k >= 0
    ensures df == 1 ==> f + k < 8
    ensures df == -1 ==> f - k >= 0
  {
  }

  /** The step `k * d` for a direction coordinate `d`, without multiplication. */
  lemma StepTimes(k: int, d: int)
    requires -1 <= d <= 1
    ensures k * d == (if d == 1 then k else if d == -1 then -k else 0)
  {
  }

  /** No square a ray loop visits from the neighbour of a square is that square itself. */
  lemma RaySquareNotStart(rank: int, file: int, dr: int, df: int, k: nat)
    requires 0 <= rank < 8 && 0 <= file < 8 && Direction(dr, df)
    requires k < Len(rank + dr, file + df, dr, df)
    ensures RaySquare(rank + dr, file + df, dr, df, k) != rank * 8 + file
  {
    var r0, f0 := rank + dr, file + df;
    RaySquareAt(r0, f0, dr, df, k);
    RayBounds(r0, f0, dr, df, k);
    StepTimes(k, dr);
    StepTimes(k, df);
    var r, f := r0 + k * dr, f0 + k * df;
    assert 0 <= r < 8 && 0 <= f < 8;
    assert r != rank || f != file;
    CellsDiffer(r, f, rank, file);
  }

  /** Two distinct on-board (rank, file) pairs give distinct square numbers. */
  lemma CellsDiffer(r: int, f: int, rank: int, file: int)
    requires 0 <= r < 8 && 0 <= f < 8 && 0 <= rank < 8 && 0 <= file < 8
    requires r != rank || f != file
    ensures (r * 8 + f) % 64 != rank * 8 + file
  {
    assert 0 <= r * 8 + f < 64;
  }

  /** A ray cast from the neighbour of a square in its own direction never comes back to it. */
  lemma RayAvoidsStart(rank: int, file: int, dr: int, df: int, occupied: Word)
    requires 0 <= rank < 8 && 0 <= file < 8 && Direction(dr, df)
    ensures rank * 8 + file !in Ray(rank + dr, file + df, dr, df, occupied)
  {
    RayMembers(rank + dr, file + df, dr, df, occupied, rank * 8 + file);
    forall k: nat {:trigger RaySquare(rank + dr, file + df, dr, df, k)} | k < Len(rank + dr, file + df, dr, df)
      ensures RaySquare(rank + dr, file + df, dr, df, k) != rank * 8 + file
    {
      RaySquareNotStart(rank, file, dr, df, k);
    }
  }

  /**
   * The sliding attacks never include the origin square: every ray starts one step away and
   * moves away from it.
   */
  lemma RaysExcludeOrigin(square: int, occupied: Word)
    requires 0 <= square < 64
    ensures square !in DiagonalRays(square, occupied) && square !in StraightRays(square, occupied)
  {
    var rank, file := JavaDiv(square, 8), JavaMod(square, 8);
    assert square == rank * 8 + file;
    RayAvoidsStart(rank, file, 1, 1, occupied);
    RayAvoidsStart(rank, file, 1, -1, occupied);
    RayAvoidsStart(rank, file, -1, 1, occupied);
    RayAvoidsStart(rank, file, -1, -1, occupied);
    RayAvoidsStart(rank, file, 1, 0, occupied);
    RayAvoidsStart(rank, file, -1, 0, occupied);
    RayAvoidsStart(rank, file, 0, 1, occupied);
    RayAvoidsStart(rank, file, 0, -1, occupied);
  }

  // ---------------------------------------------------------------------------------------
  // Attack tests

  /**
   * The squares the pawn test of `isSquareAttacked` and `isAttacked` looks at for a pawn of
   * the attacking colour, from the target bitboard: `target >> 9` masked with NOT_FILE_H and
   * `target >> 7` masked with NOT_FILE_A for white, `target << 9` with NOT_FILE_A and
   * `target << 7` with NOT_FILE_H for black.
   */
  function PawnSources(target: Word, byWhite: bool): Word {
    if byWhite then Or(And(Sar(target, 9), NotFileH), And(Sar(target, 7), NotFileA))
    else Or(And(Shl(target, 9), NotFileA), And(Shl(target, 7), NotFileH))
  }

  /**
   * `isSquareAttacked(board, square, byWhite)`: a pawn on one of the PawnSources squares, a
   * knight or the king on a square of the leaper tables of `square`, a bishop or queen on
   * the diagonal rays, or a rook or queen on the straight rays of `square` (all of the given
   * colour, rays blocked by every occupied square).
   */
  predicate SquareAttacked(st: BoardState, square: int, byWhite: bool) {
    var pawns := if byWhite then st.whitePawns else st.blackPawns;
    var knights := if byWhite then st.whiteKnights else st.blackKnights;
    var king := if byWhite then st.whiteKing else st.blackKing;
    var bishops := if byWhite then st.whiteBishops else st.blackBishops;
    var rooks := if byWhite then st.whiteRooks else st.blackRooks;
    var queens := if byWhite then st.whiteQueens else st.blackQueens;
    var occupied := Occupied(st);
    And(PawnSources(Bit(square), byWhite), pawns) != {} ||
    And(KnightAttacks(square), knights) != {} ||
    And(KingAttacks(square), king) != {} ||
    And(DiagonalRays(square, occupied), Or(bishops, queens)) != {} ||
    And(StraightRays(square, occupied), Or(rooks, queens)) != {}
  }

  /** The square of a king bitboard: its lowest set bit, 64 when the king is missing. */
  function KingSquare(st: BoardState, white: bool): int {
    Ntz(if white then st.whiteKing else st.blackKing)
  }

  /** `isKingInCheck(board, whiteKing)`: the king's square is attacked by the other colour. */
  predicate KingInCheck(st: BoardState, white: bool) {
    SquareAttacked(st, KingSquare(st, white), !white)
  }

  /**
   * The static `isAttacked(kingPosition, opponentPieces, board)`: the attacking colour is
   * white when the black king bitboard meets `kingPosition`; pawns, knights and sliders count
   * only inside `opponentPieces`, the king test does not; the pawn test shifts
   * `kingPosition` itself and the other tests use its lowest square.
   */
  predicate Attacked(st: BoardState, kingPosition: Word, opponentPieces: Word) {
    var kingSquare := Ntz(kingPosition);
    var byWhite := And(st.blackKing, kingPosition) != {};
    var pawns := And(if byWhite then st.whitePawns else st.blackPawns, opponentPieces);
    var knights := And(if byWhite then st.whiteKnights else st.blackKnights, opponentPieces);
    var king := if byWhite then st.whiteKing else st.blackKing;
    var bishops := if byWhite then st.whiteBishops else st.blackBishops;
    var rooks := if byWhite then st.whiteRooks else st.blackRooks;
    var queens := if byWhite then st.whiteQueens else st.blackQueens;
    var occupied := Occupied(st);
    And(PawnSources(kingPosition, byWhite), pawns) != {} ||
    And(KnightAttacks(kingSquare), knights) != {} ||
    And(KingAttacks(kingSquare), king) != {} ||
    And(DiagonalRays(kingSquare, occupied), And(Or(bishops, queens), opponentPieces)) != {} ||
    And(StraightRays(kingSquare, occupied), And(Or(rooks, queens), opponentPieces)) != {}
  }

  /**
   * Below h8 the pawn test looks exactly one rank towards the attacker's side and one file
   * over: for white at `square - 9` unless that square has file number 0 and at
   * `square - 7` unless it has file number 7; for black at `square + 9` unless file number 7
   * and at `square + 7` unless file number 0.
   */
  lemma PawnSourcesSquares(square: int, t: int)
    requires 0 <= square < 63
    ensures t in PawnSources(Bit(square), true) <==>
      (t == square - 9 && square >= 9 && t % 8 != 0) || (t == square - 7 && square >= 7 && t % 8 != 7)
    ensures t in PawnSources(Bit(square), false) <==>
      (t == square + 9 && square < 55 && t % 8 != 7) || (t == square + 7 && square < 57 && t % 8 != 0)
  {
    EdgeMasks(t);
    ShiftOfBit(square, 9, NotFileH, t);
    ShiftOfBit(square, 7, NotFileA, t);
    ShiftOfBit(square, 9, NotFileA, t);
    ShiftOfBit(square, 7, NotFileH, t);
  }

  /**
   * The pawn test has its edge masks swapped against the pawn captures of the move
   * generator: a white pawn on a2 captures on b3 but is not seen attacking b3, while a white
   * pawn on h1 is seen attacking a3 across the board edge; a black pawn on a7 captures on b6
   * but is not seen attacking b6.
   */
  lemma PawnSourcesMirrored()
    ensures A2 !in PawnSources(Bit(B3), true)
    ensures H1 in PawnSources(Bit(A3), true)
    ensures A7 !in PawnSources(Bit(B6), false)
  {
    PawnSourcesSquares(B3, A2);
    PawnSourcesSquares(A3, H1);
    PawnSourcesSquares(B6, A7);
  }

  /** `s` and `t` are squares a knight move apart: two ranks and one file, or one rank and two files. */
  predicate KnightMove(s: int, t: int) {
    0 <= s < 64 && 0 <= t < 64 &&
    var dr, df := Abs(t / 8 - s / 8), Abs(t % 8 - s % 8);
    (dr == 2 && df == 1) || (dr == 1 && df == 2)
  }

  /** `s` and `t` are distinct squares at most one rank and one file apart. */
  predicate KingMove(s: int, t: int) {
    0 <= s < 64 && 0 <= t < 64 && s != t && Abs(t / 8 - s / 8) <= 1 && Abs(t % 8 - s % 8) <= 1
  }

  /** The knight offsets are exactly the knight moves between two squares. */
  lemma KnightOffsetIsKnightMove(s: int, t: int)
    requires 0 <= s < 64
    ensures KnightOffset(s, t) <==> KnightMove(s, t)
  {
    var rs, fs := s / 8, s % 8;
    assert s == 8 * rs + fs;
    if 0 <= t < 64 {
      var rt, ft := t / 8, t % 8;
      assert t == 8 * rt + ft;
    }
  }

  /** The king offsets are exactly the king moves between two squares. */
  lemma KingOffsetIsKingMove(s: int, t: int)
    requires 0 <= s < 64
    ensures KingOffset(s, t) <==> KingMove(s, t)
  {
    var rs, fs := s / 8, s % 8;
    assert s == 8 * rs + fs;
    if 0 <= t < 64 {
      var rt, ft := t / 8, t % 8;
      assert t == 8 * rt + ft;
    }
  }

  /** From every square but h8 the knight table holds exactly the squares a knight move away. */
  lemma KnightAttacksAreKnightMoves(s: int, t: int)
    requires 0 <= s < 63
    ensures t in KnightAttacks(s) <==> KnightMove(s, t)
  {
    KnightAttacksSteps(s, t);
    KnightOffsetIsKnightMove(s, t);
  }

  /** From every square but h8 the king table holds exactly the squares one king step away. */
  lemma KingAttacksAreKingMoves(s: int, t: int)
    requires 0 <= s < 63
    ensures t in KingAttacks(s) <==> KingMove(s, t)
  {
    KingAttacksSteps(s, t);
    KingOffsetIsKingMove(s, t);
  }

  /** Being a knight move apart is symmetric. */
  lemma KnightMoveSymmetric(s: int, t: int)
    ensures KnightMove(s, t) <==> KnightMove(t, s)
  {
  }

  /** Below h8 the knight table is symmetric: a knight on `s` reaches `t` iff one on `t` reaches `s`. */
  lemma KnightAttacksSymmetric(s: int, t: int)
    requires 0 <= s < 63 && 0 <= t < 63
    ensures t in KnightAttacks(s) <==> s in KnightAttacks(t)
  {
    KnightAttacksAreKnightMoves(s, t);
    KnightAttacksAreKnightMoves(t, s);
    KnightMoveSymmetric(s, t);
  }

  /** Being a king step apart is symmetric. */
  lemma KingMoveSymmetric(s: int, t: int)
    ensures KingMove(s, t) <==> KingMove(t, s)
  {
  }

  /** Below h8 the king table is symmetric: a king on `s` reaches `t` iff one on `t` reaches `s`. */
  lemma KingAttacksSymmetric(s: int, t: int)
    requires 0 <= s < 63 && 0 <= t < 63
    ensures t in KingAttacks(s) <==> s in KingAttacks(t)
  {
    KingAttacksAreKingMoves(s, t);
    KingAttacksAreKingMoves(t, s);
    KingMoveSymmetric(s, t);
  }

  /**
   * A black knight on a8 makes h8 attacked: the sign extension of `>>` on h8 puts a8 into the
   * knight table of h8, although a8 and h8 are not a knight move apart.
   */
  lemma KnightOnA8AttacksH8(st: BoardState)
    requires A8 in st.blackKnights
    ensures SquareAttacked(st, H8, false) && !KnightMove(A8, H8)
  {
    LeapersFromH8();
    assert A8 in And(KnightAttacks(H8), st.blackKnights);
  }

  /** Masking the attackers with a superset of them changes no attack test. */
  lemma MaskedBySuperset(x: Word, a: Word, c: Word)
    requires forall i :: i in a ==> i in c
    ensures (And(x, And(a, c)) != {}) == (And(x, a) != {})
  {
    forall i ensures i in And(x, And(a, c)) <==> i in And(x, a) {
      assert i in And(a, c) <==> i in a;
    }
    assert And(x, And(a, c)) == And(x, a);
  }

  /**
   * For a king bitboard holding the single square `s`, not shared with the other king, the
   * static test `isAttacked(kingBitboard, opponentPieces, board)` with the opponent's pieces
   * gives the same answer as `isKingInCheck`.
   */
  lemma AttackedIsKingInCheck(st: BoardState, white: bool, s: int)
    requires 0 <= s < 64
    requires (if white then st.whiteKing else st.blackKing) == {s}
    requires s !in (if white then st.blackKing else st.whiteKing)
    ensures Attacked(st, if white then st.whiteKing else st.blackKing, if white then BlackPieces(st) else WhitePieces(st))
            == KingInCheck(st, white)
  {
    var kingPosition := if white then st.whiteKing else st.blackKing;
    var opponent := if white then BlackPieces(st) else WhitePieces(st);
    var byWhite := !white;
    assert Ntz(kingPosition) == s;
    assert Bit(s) == kingPosition;
    assert (And(st.blackKing, kingPosition) != {}) == byWhite by {
      assert !white ==> s in And(st.blackKing, kingPosition);
    }
    var pawns := if byWhite then st.whitePawns else st.blackPawns;
    var knights := if byWhite then st.whiteKnights else st.blackKnights;
    var bishops := if byWhite then st.whiteBishops else st.blackBishops;
    var rooks := if byWhite then st.whiteRooks else st.blackRooks;
    var queens := if byWhite then st.whiteQueens else st.blackQueens;
    var occupied := Occupied(st);
    MaskedBySuperset(PawnSources(kingPosition, byWhite), pawns, opponent);
    MaskedBySuperset(KnightAttacks(s), knights, opponent);
    MaskedBySuperset(DiagonalRays(s, occupied), Or(bishops, queens), opponent);
    MaskedBySuperset(StraightRays(s, occupied), Or(rooks, queens), opponent);
  }
}
