/**
 * The constant masks and square numbers of the engine.
 *
 * Squares are numbered `rank * 8 + file` with file a = 0 and rank 1 = 0, so a1 = 0, h1 = 7
 * and h8 = 63.  Each mask is written as the set of its 1-bit positions, with the hexadecimal
 * `long` literal it stands for beside it; FileMasksListed and RankMasksListed spell out the
 * positions of the file and rank masks.  The file masks are mirrored with respect to that
 * numbering: the mask called FILE_A holds positions 7, 15, ..., 63, which are the h-file
 * squares, and the mask called FILE_H holds the a-file squares 0, 8, ..., 56.
 */
module BitboardConstants {
  import opened Words

  // Files, as named by the engine (see the module comment about mirroring).
  const FileMaskA: Word := set i | 0 <= i < 64 && i % 8 == 7  // 0x8080808080808080
  const FileMaskB: Word := set i | 0 <= i < 64 && i % 8 == 6  // 0x4040404040404040
  const FileMaskC: Word := set i | 0 <= i < 64 && i % 8 == 5  // 0x2020202020202020
  const FileMaskD: Word := set i | 0 <= i < 64 && i % 8 == 4  // 0x1010101010101010
  const FileMaskE: Word := set i | 0 <= i < 64 && i % 8 == 3  // 0x0808080808080808
  const FileMaskF: Word := set i | 0 <= i < 64 && i % 8 == 2  // 0x0404040404040404
  const FileMaskG: Word := set i | 0 <= i < 64 && i % 8 == 1  // 0x0202020202020202
  const FileMaskH: Word := set i | 0 <= i < 64 && i % 8 == 0  // 0x0101010101010101

  // Ranks.
  const Rank1: Word := set i | 0 <= i < 8  // 0x00000000000000FF
  const Rank2: Word := set i | 8 <= i < 16  // 0x000000000000FF00
  const Rank3: Word := set i | 16 <= i < 24  // 0x0000000000FF0000
  const Rank4: Word := set i | 24 <= i < 32  // 0x00000000FF000000
  const Rank5: Word := set i | 32 <= i < 40  // 0x000000FF00000000
  const Rank6: Word := set i | 40 <= i < 48  // 0x0000FF0000000000
  const Rank7: Word := set i | 48 <= i < 56  // 0x00FF000000000000
  const Rank8: Word := set i | 56 <= i < 64  // 0xFF00000000000000

  // Initial piece placement.
  const WhitePawnsInitial: Word := {8, 9, 10, 11, 12, 13, 14, 15}  // 0x000000000000FF00
  const WhiteKnightsInitial: Word := {1, 6}  // 0x0000000000000042
  const WhiteBishopsInitial: Word := {2, 5}  // 0x0000000000000024
  const WhiteRooksInitial: Word := {0, 7}  // 0x0000000000000081
  const WhiteQueensInitial: Word := {3}  // 0x0000000000000008
  const WhiteKingsInitial: Word := {4}  // 0x0000000000000010
  const BlackPawnsInitial: Word := {48, 49, 50, 51, 52, 53, 54, 55}  // 0x00FF000000000000
  const BlackKnightsInitial: Word := {57, 62}  // 0x4200000000000000
  const BlackBishopsInitial: Word := {58, 61}  // 0x2400000000000000
  const BlackRooksInitial: Word := {56, 63}  // 0x8100000000000000
  const BlackQueensInitial: Word := {59}  // 0x0800000000000000
  const BlackKingsInitial: Word := {60}  // 0x1000000000000000

  // Edge masks for the leaper and pawn shifts.
  const NotFileA: Word := Not(FileMaskA)
  const NotFileH: Word := Not(FileMaskH)
  const NotFileAB: Word := Not(Or(FileMaskA, FileMaskB))
  const NotFileGH: Word := Not(Or(FileMaskG, FileMaskH))

  // Square indices.
  const A1 := 0  const B1 := 1  const C1 := 2  const D1 := 3  const E1 := 4  const F1 := 5  const G1 := 6  const H1 := 7
  const A2 := 8  const B2 := 9  const C2 := 10  const D2 := 11  const E2 := 12  const F2 := 13  const G2 := 14  const H2 := 15
  const A3 := 16  const B3 := 17  const C3 := 18  const D3 := 19  const E3 := 20  const F3 := 21  const G3 := 22  const H3 := 23
  const A4 := 24  const B4 := 25  const C4 := 26  const D4 := 27  const E4 := 28  const F4 := 29  const G4 := 30  const H4 := 31
  const A5 := 32  const B5 := 33  const C5 := 34  const D5 := 35  const E5 := 36  const F5 := 37  const G5 := 38  const H5 := 39
  const A6 := 40  const B6 := 41  const C6 := 42  const D6 := 43  const E6 := 44  const F6 := 45  const G6 := 46  const H6 := 47
  const A7 := 48  const B7 := 49  const C7 := 50  const D7 := 51  const E7 := 52  const F7 := 53  const G7 := 54  const H7 := 55
  const A8 := 56  const B8 := 57  const C8 := 58  const D8 := 59  const E8 := 60  const F8 := 61  const G8 := 62  const H8 := 63

  /** The 1-bit positions of each file mask, as its hexadecimal literal lists them. */
  lemma FileMasksListed()
    ensures FileMaskA == {7, 15, 23, 31, 39, 47, 55, 63} && FileMaskB == {6, 14, 22, 30, 38, 46, 54, 62}
    ensures FileMaskC == {5, 13, 21, 29, 37, 45, 53, 61} && FileMaskD == {4, 12, 20, 28, 36, 44, 52, 60}
    ensures FileMaskE == {3, 11, 19, 27, 35, 43, 51, 59} && FileMaskF == {2, 10, 18, 26, 34, 42, 50, 58}
    ensures FileMaskG == {1, 9, 17, 25, 33, 41, 49, 57} && FileMaskH == {0, 8, 16, 24, 32, 40, 48, 56}
  {
  }

  /** The 1-bit positions of each rank mask, as its hexadecimal literal lists them. */
  lemma RankMasksListed()
    ensures Rank1 == {0, 1, 2, 3, 4, 5, 6, 7} && Rank2 == {8, 9, 10, 11, 12, 13, 14, 15}
    ensures Rank7 == {48, 49, 50, 51, 52, 53, 54, 55} && Rank8 == {56, 57, 58, 59, 60, 61, 62, 63}
  {
  }

  /** The file masks in declaration order, FILE_A first. */
  function FileMask(k: int): Word {
    if k == 0 then FileMaskA else if k == 1 then FileMaskB else if k == 2 then FileMaskC
    else if k == 3 then FileMaskD else if k == 4 then FileMaskE else if k == 5 then FileMaskF
    else if k == 6 then FileMaskG else if k == 7 then FileMaskH else {}
  }

  /** The rank masks in declaration order, RANK_1 first. */
  function RankMask(k: int): Word {
    if k == 1 then Rank1 else if k == 2 then Rank2 else if k == 3 then Rank3
    else if k == 4 then Rank4 else if k == 5 then Rank5 else if k == 6 then Rank6
    else if k == 7 then Rank7 else if k == 8 then Rank8 else {}
  }

  /**
   * The eight file masks partition the board: every square lies in exactly one of them,
   * the `k`-th mask (FILE_A being the 0th) holding the squares with `sq % 8 == 7 - k`.
   */
  lemma FileMasksPartition(sq: int, k: int)
    requires 0 <= sq < 64 && 0 <= k < 8
    ensures sq in FileMask(k) <==> sq % 8 == 7 - k
  {
  }

  /** The eight rank masks partition the board: square `sq` lies in RANK_k exactly for `k == sq / 8 + 1`. */
  lemma RankMasksPartition(sq: int, k: int)
    requires 0 <= sq < 64 && 1 <= k <= 8
    ensures sq in RankMask(k) <==> k == sq / 8 + 1
  {
  }

  /** RANK_k is `0xFF << 8 * (k - 1)`. */
  lemma RankMaskShifted(k: int)
    requires 1 <= k <= 8
    ensures RankMask(k) == Shl(Rank1, 8 * (k - 1))
  {
    var shifted := Shl(Rank1, 8 * (k - 1));
    forall i | 0 <= i < 64
      ensures i in RankMask(k) <==> i in shifted
    {
      RankMasksPartition(i, k);
    }
  }

  /** The edge masks remove exactly the squares of the files they name. */
  lemma EdgeMasksComplement(sq: int)
    requires 0 <= sq < 64
    ensures sq in NotFileA <==> sq % 8 != 7
    ensures sq in NotFileH <==> sq % 8 != 0
    ensures sq in NotFileAB <==> sq % 8 != 7 && sq % 8 != 6
    ensures sq in NotFileGH <==> sq % 8 != 1 && sq % 8 != 0
  {
  }

  /** How many of the twelve initial bitboards hold square `sq`. */
  function InitialCount(sq: int): nat {
    (if sq in WhitePawnsInitial then 1 else 0) + (if sq in WhiteKnightsInitial then 1 else 0)
    + (if sq in WhiteBishopsInitial then 1 else 0) + (if sq in WhiteRooksInitial then 1 else 0)
    + (if sq in WhiteQueensInitial then 1 else 0) + (if sq in WhiteKingsInitial then 1 else 0)
    + (if sq in BlackPawnsInitial then 1 else 0) + (if sq in BlackKnightsInitial then 1 else 0)
    + (if sq in BlackBishopsInitial then 1 else 0) + (if sq in BlackRooksInitial then 1 else 0)
    + (if sq in BlackQueensInitial then 1 else 0) + (if sq in BlackKingsInitial then 1 else 0)
  }

  /**
   * The initial bitboards are pairwise disjoint and cover ranks 1, 2, 7 and 8 (32 squares):
   * each of those squares is in exactly one of them, every other square in none; white
   * pieces are on ranks 1 and 2, black pieces on ranks 7 and 8.
   */
  lemma InitialPlacement(sq: int)
    requires 0 <= sq < 64
    ensures InitialCount(sq) == (if sq < 16 || 48 <= sq then 1 else 0)
    ensures (sq in WhitePawnsInitial + WhiteKnightsInitial + WhiteBishopsInitial + WhiteRooksInitial
               + WhiteQueensInitial + WhiteKingsInitial) <==> sq in Rank1 + Rank2
    ensures (sq in BlackPawnsInitial + BlackKnightsInitial + BlackBishopsInitial + BlackRooksInitial
               + BlackQueensInitial + BlackKingsInitial) <==> sq in Rank7 + Rank8
  {
  }

  /** The kings start on e1 (bit 4) and e8 (bit 60). */
  lemma InitialKings()
    ensures WhiteKingsInitial == {E1} && BlackKingsInitial == {E8}
  {
  }
}
