/**
 * The position as a value: the snapshot record of the twelve piece bitboards, the side to
 * move, the four castling flags and the en-passant square (-1 for none), and the board's
 * pure queries and state transitions stated over that value.  The Board class applies the
 * same transitions to its fields in place.
 */
module Position {
  import opened Words
  import opened BitboardConstants
  import opened Moves

  /** The snapshot of all 18 state fields, in the order the board saves them. */
  datatype BoardState = BoardState(
    whitePawns: Word, whiteKnights: Word, whiteBishops: Word, whiteRooks: Word, whiteQueens: Word, whiteKing: Word,
    blackPawns: Word, blackKnights: Word, blackBishops: Word, blackRooks: Word, blackQueens: Word, blackKing: Word,
    whiteToMove: bool, whiteKingsideCastle: bool, whiteQueensideCastle: bool,
    blackKingsideCastle: bool, blackQueensideCastle: bool,
    enPassantSquare: int)

  // Piece codes.
  const WhitePawn := 64
  const WhiteKnight := 65
  const WhiteBishop := 66
  const WhiteRook := 67
  const WhiteQueen := 68
  const WhiteKing := 69
  const BlackPawn := 70
  const BlackKnight := 71
  const BlackBishop := 72
  const BlackRook := 73
  const BlackQueen := 74
  const BlackKing := 75
  const EmptySquare := 76

  predicate IsPieceCode(p: int) {
    WhitePawn <= p <= BlackKing
  }

  /** The start position of the no-argument constructor. */
  const Initial := BoardState(
    WhitePawnsInitial, WhiteKnightsInitial, WhiteBishopsInitial, WhiteRooksInitial, WhiteQueensInitial, WhiteKingsInitial,
    BlackPawnsInitial, BlackKnightsInitial, BlackBishopsInitial, BlackRooksInitial, BlackQueensInitial, BlackKingsInitial,
    true, true, true, true, true, -1)

  /** The bitboard that holds piece code `p` (the zero word for a code that is no piece). */
  function BoardOf(st: BoardState, p: int): Word {
    if p == WhitePawn then st.whitePawns
    else if p == WhiteKnight then st.whiteKnights
    else if p == WhiteBishop then st.whiteBishops
    else if p == WhiteRook then st.whiteRooks
    else if p == WhiteQueen then st.whiteQueens
    else if p == WhiteKing then st.whiteKing
    else if p == BlackPawn then st.blackPawns
    else if p == BlackKnight then st.blackKnights
    else if p == BlackBishop then st.blackBishops
    else if p == BlackRook then st.blackRooks
    else if p == BlackQueen then st.blackQueens
    else if p == BlackKing then st.blackKing
    else {}
  }

  /** Side to move, the four castling flags and the en-passant square of `a` and `b` agree. */
  predicate SameFlags(a: BoardState, b: BoardState) {
    a.whiteToMove == b.whiteToMove && a.enPassantSquare == b.enPassantSquare &&
    a.whiteKingsideCastle == b.whiteKingsideCastle && a.whiteQueensideCastle == b.whiteQueensideCastle &&
    a.blackKingsideCastle == b.blackKingsideCastle && a.blackQueensideCastle == b.blackQueensideCastle
  }

  /** The twelve bitboards of `a` and `b` agree. */
  predicate SamePieces(a: BoardState, b: BoardState) {
    a.whitePawns == b.whitePawns && a.whiteKnights == b.whiteKnights && a.whiteBishops == b.whiteBishops &&
    a.whiteRooks == b.whiteRooks && a.whiteQueens == b.whiteQueens && a.whiteKing == b.whiteKing &&
    a.blackPawns == b.blackPawns && a.blackKnights == b.blackKnights && a.blackBishops == b.blackBishops &&
    a.blackRooks == b.blackRooks && a.blackQueens == b.blackQueens && a.blackKing == b.blackKing
  }

  // ---------------------------------------------------------------------------------------
  // Occupancy queries

  /** `getWhitePieces()`: the or of the six white bitboards. */
  function WhitePieces(st: BoardState): Word {
    st.whitePawns + st.whiteKnights + st.whiteBishops + st.whiteRooks + st.whiteQueens + st.whiteKing
  }

  /** `getBlackPieces()`: the or of the six black bitboards. */
  function BlackPieces(st: BoardState): Word {
    st.blackPawns + st.blackKnights + st.blackBishops + st.blackRooks + st.blackQueens + st.blackKing
  }

  /** `getOccupied()`. */
  function Occupied(st: BoardState): Word {
    WhitePieces(st) + BlackPieces(st)
  }

  /** `getEmpty()`: the complement of the occupancy. */
  function Empty(st: BoardState): Word {
    Not(Occupied(st))
  }

  /** A square is white-occupied exactly when one of the six white piece codes holds it. */
  lemma WhitePiecesHold(st: BoardState, sq: int)
    ensures sq in WhitePieces(st) <==> exists p :: WhitePawn <= p <= WhiteKing && sq in BoardOf(st, p)
  {
    if sq in WhitePieces(st) {
      if sq in st.whitePawns { assert sq in BoardOf(st, WhitePawn); }
      else if sq in st.whiteKnights { assert sq in BoardOf(st, WhiteKnight); }
      else if sq in st.whiteBishops { assert sq in BoardOf(st, WhiteBishop); }
      else if sq in st.whiteRooks { assert sq in BoardOf(st, WhiteRook); }
      else if sq in st.whiteQueens { assert sq in BoardOf(st, WhiteQueen); }
      else { assert sq in BoardOf(st, WhiteKing); }
    }
  }

  /** A square is black-occupied exactly when one of the six black piece codes holds it. */
  lemma BlackPiecesHold(st: BoardState, sq: int)
    ensures sq in BlackPieces(st) <==> exists p :: BlackPawn <= p <= BlackKing && sq in BoardOf(st, p)
  {
    if sq in BlackPieces(st) {
      if sq in st.blackPawns { assert sq in BoardOf(st, BlackPawn); }
      else if sq in st.blackKnights { assert sq in BoardOf(st, BlackKnight); }
      else if sq in st.blackBishops { assert sq in BoardOf(st, BlackBishop); }
      else if sq in st.blackRooks { assert sq in BoardOf(st, BlackRook); }
      else if sq in st.blackQueens { assert sq in BoardOf(st, BlackQueen); }
      else { assert sq in BoardOf(st, BlackKing); }
    }
  }

  /** A square is occupied exactly when some piece code holds it; empty exactly when none does. */
  lemma OccupiedHolds(st: BoardState, sq: int)
    ensures sq in Occupied(st) <==> exists p :: IsPieceCode(p) && sq in BoardOf(st, p)
    ensures sq in Empty(st) <==> 0 <= sq < 64 && sq !in Occupied(st)
  {
    WhitePiecesHold(st, sq);
    BlackPiecesHold(st, sq);
  }

  // ---------------------------------------------------------------------------------------
  // Square queries

  /**
   * `getPieceAt(square)`: the code of the first bitboard, in the order white pawn .. black
   * king, that holds bit `1L << square`; EmptySquare when none does.
   */
  function PieceAt(st: BoardState, square: int): (r: int)
    ensures r == EmptySquare || IsPieceCode(r)
  {
        if HasBit(st.whitePawns, square) then WhitePawn
    else if HasBit(st.whiteKnights, square) then WhiteKnight
    else if HasBit(st.whiteBishops, square) then WhiteBishop
    else if HasBit(st.whiteRooks, square) then WhiteRook
    else if HasBit(st.whiteQueens, square) then WhiteQueen
    else if HasBit(st.whiteKing, square) then WhiteKing
    else if HasBit(st.blackPawns, square) then BlackPawn
    else if HasBit(st.blackKnights, square) then BlackKnight
    else if HasBit(st.blackBishops, square) then BlackBishop
    else if HasBit(st.blackRooks, square) then BlackRook
    else if HasBit(st.blackQueens, square) then BlackQueen
    else if HasBit(st.blackKing, square) then BlackKing
    else EmptySquare
  }

  /**
   * PieceAt finds the first code whose bitboard holds the square (taken mod 64, as the
   * shift does), and reports EmptySquare exactly when the square is unoccupied.
   */
  lemma PieceAtFinds(st: BoardState, square: int)
    ensures IsPieceCode(PieceAt(st, square)) ==> square % 64 in BoardOf(st, PieceAt(st, square))
    ensures forall q :: WhitePawn <= q < PieceAt(st, square) && q <= BlackKing ==> square % 64 !in BoardOf(st, q)
    ensures PieceAt(st, square) == EmptySquare <==> square % 64 !in Occupied(st)
  {
    OccupiedHolds(st, square % 64);
  }

  /** The display letter of a piece code: upper case for white, lower case for black. */
  function PieceLetter(p: int): char {
    if IsPieceCode(p) then "PNBRQKpnbrqk"[p - WhitePawn] else '.'
  }

  /**
   * `getPieceChar(squareBit)`: the letter of the first bitboard, in the same order as
   * PieceAt, that shares a bit with `squareBit`; '.' when none does.
   */
  function PieceChar(st: BoardState, squareBit: Word): char {
    if st.whitePawns * squareBit != {} then 'P'
    else if st.whiteKnights * squareBit != {} then 'N'
    else if st.whiteBishops * squareBit != {} then 'B'
    else if st.whiteRooks * squareBit != {} then 'R'
    else if st.whiteQueens * squareBit != {} then 'Q'
    else if st.whiteKing * squareBit != {} then 'K'
    else if st.blackPawns * squareBit != {} then 'p'
    else if st.blackKnights * squareBit != {} then 'n'
    else if st.blackBishops * squareBit != {} then 'b'
    else if st.blackRooks * squareBit != {} then 'r'
    else if st.blackQueens * squareBit != {} then 'q'
    else if st.blackKing * squareBit != {} then 'k'
    else '.'
  }

  /** On a single square the two queries agree: the character is the letter of the piece code. */
  lemma PieceCharAgrees(st: BoardState, square: int)
    ensures PieceChar(st, Bit(square)) == PieceLetter(PieceAt(st, square))
  {
    MeetsBit(st.whitePawns, square); MeetsBit(st.whiteKnights, square); MeetsBit(st.whiteBishops, square);
    MeetsBit(st.whiteRooks, square); MeetsBit(st.whiteQueens, square); MeetsBit(st.whiteKing, square);
    MeetsBit(st.blackPawns, square); MeetsBit(st.blackKnights, square); MeetsBit(st.blackBishops, square);
    MeetsBit(st.blackRooks, square); MeetsBit(st.blackQueens, square); MeetsBit(st.blackKing, square);
  }

  lemma MeetsBit(w: Word, n: int)
    ensures w * Bit(n) != {} <==> HasBit(w, n)
  {
    assert n % 64 in w ==> n % 64 in w * Bit(n);
  }

  /** getPieceChar shows '.' exactly when the mask meets no occupied square. */
  lemma PieceCharEmpty(st: BoardState, squareBit: Word)
    ensures PieceChar(st, squareBit) == '.' <==> squareBit * Occupied(st) == {}
  {
  }

  // ---------------------------------------------------------------------------------------
  // toString

  /** Cells on a printed line, and printed lines (one per rank). */
  const LineCells: nat := 8
  const LineCount: nat := 8

  /** The first `n` cells of rank `rank`: each square's character followed by a space. */
  function CellsText(st: BoardState, rank: int, n: nat): string
    requires n <= LineCells
  {
    if n == 0 then "" else CellsText(st, rank, n - 1) + [PieceChar(st, Bit(rank * 8 + n - 1)), ' ']
  }

  /** One printed line: the eight cells of `rank`, then a newline. */
  function RowText(st: BoardState, rank: int): string {
    CellsText(st, rank, LineCells) + "\n"
  }

  /** The first `n` printed lines: line `k` shows rank `7 - k`, so the top rank comes first. */
  function RowsText(st: BoardState, n: nat): string
    requires n <= LineCount
  {
    if n == 0 then "" else RowsText(st, n - 1) + RowText(st, LineCount - n)
  }

  /** `toString()`: all eight ranks, rank 8 of the board (index 7) first. */
  function BoardText(st: BoardState): string {
    RowsText(st, LineCount)
  }

  lemma {:induction false} CellsTextShape(st: BoardState, rank: int, n: nat)
    requires n <= LineCells
    ensures |CellsText(st, rank, n)| == 2 * n
    ensures forall f :: 0 <= f < n ==>
      CellsText(st, rank, n)[2 * f] == PieceChar(st, Bit(rank * 8 + f)) && CellsText(st, rank, n)[2 * f + 1] == ' '
  {
    if n > 0 {
      CellsTextShape(st, rank, n - 1);
    }
  }

  lemma RowTextLength(st: BoardState, rank: int)
    ensures |RowText(st, rank)| == 17
  {
    CellsTextShape(st, rank, LineCells);
  }

  lemma {:induction false} RowsTextLength(st: BoardState, n: nat)
    requires n <= LineCount
    ensures |RowsText(st, n)| == 17 * n
  {
    if n > 0 {
      RowsTextLength(st, n - 1);
      RowTextLength(st, LineCount - n);
    }
  }

  /** Earlier lines are a prefix of the text printed so far, so an index into them is stable. */
  lemma {:induction false} RowsTextLine(st: BoardState, n: nat, k: nat)
    requires k < n <= LineCount
    ensures |RowsText(st, n)| >= 17 * k + 17
    ensures RowsText(st, n)[17 * k .. 17 * k + 17] == RowText(st, 7 - k)
  {
    RowsTextLength(st, n);
    RowsTextLength(st, n - 1);
    RowTextLength(st, LineCount - n);
    if k + 1 < n {
      RowsTextLine(st, n - 1, k);
      var before := RowsText(st, n - 1);
      assert RowsText(st, n) == before + RowText(st, LineCount - n);
      assert RowsText(st, n)[17 * k .. 17 * k + 17] == before[17 * k .. 17 * k + 17];
    }
  }

  /** toString prints 8 lines of 17 characters. */
  lemma BoardTextLength(st: BoardState)
    ensures |BoardText(st)| == 136
  {
    RowsTextLength(st, LineCount);
  }

  /**
   * The layout of toString: line `7 - r` shows rank `r`; its character `2 * f` is the piece on
   * square `8 * r + f` (as PieceAt decodes it), character `2 * f + 1` a space, and it ends
   * with a newline.
   */
  lemma BoardTextShows(st: BoardState, r: int, f: int)
    requires 0 <= r < 8 && 0 <= f < 8
    ensures |BoardText(st)| == 136
    ensures BoardText(st)[17 * (7 - r) + 2 * f] == PieceLetter(PieceAt(st, 8 * r + f))
    ensures BoardText(st)[17 * (7 - r) + 2 * f + 1] == ' '
    ensures BoardText(st)[17 * (7 - r) + 16] == '\n'
  {
    BoardTextLength(st);
    BoardTextRow(st, r, f);
    PieceCharAgrees(st, 8 * r + f);
  }

  lemma BoardTextRow(st: BoardState, r: int, f: int)
    requires 0 <= r < 8 && 0 <= f < 8
    ensures |BoardText(st)| >= 17 * (7 - r) + 17
    ensures BoardText(st)[17 * (7 - r) + 2 * f] == PieceChar(st, Bit(8 * r + f))
    ensures BoardText(st)[17 * (7 - r) + 2 * f + 1] == ' '
    ensures BoardText(st)[17 * (7 - r) + 16] == '\n'
  {
    BoardTextLine(st, r, 2 * f);
    BoardTextLine(st, r, 2 * f + 1);
    BoardTextLine(st, r, 16);
    RowTextCell(st, r, f);
  }

  lemma BoardTextLine(st: BoardState, r: int, k: int)
    requires 0 <= r < 8 && 0 <= k < 17
    ensures |BoardText(st)| >= 17 * (7 - r) + 17 && |RowText(st, r)| == 17
    ensures BoardText(st)[17 * (7 - r) + k] == RowText(st, r)[k]
  {
    RowsTextLine(st, LineCount, 7 - r);
    var start := 17 * (7 - r);
    assert BoardText(st)[start .. start + 17] == RowText(st, r);
    assert BoardText(st)[start .. start + 17][k] == BoardText(st)[start + k];
  }

  lemma RowTextCell(st: BoardState, r: int, f: int)
    requires 0 <= r < 8 && 0 <= f < 8
    ensures |RowText(st, r)| == 17
    ensures RowText(st, r)[2 * f] == PieceChar(st, Bit(8 * r + f))
    ensures RowText(st, r)[2 * f + 1] == ' ' && RowText(st, r)[16] == '\n'
  {
    CellsTextShape(st, r, LineCells);
    assert r * 8 + f == 8 * r + f;
  }

  // ---------------------------------------------------------------------------------------
  // State transitions used by makeMove

  /** `clearSquare(square)`: bit `1L << square` cleared in all twelve bitboards. */
  function ClearSquare(st: BoardState, square: int): BoardState
  {
    var mask := Not(Bit(square));
    st.(whitePawns := st.whitePawns * mask, whiteKnights := st.whiteKnights * mask,
        whiteBishops := st.whiteBishops * mask, whiteRooks := st.whiteRooks * mask,
        whiteQueens := st.whiteQueens * mask, whiteKing := st.whiteKing * mask,
        blackPawns := st.blackPawns * mask, blackKnights := st.blackKnights * mask,
        blackBishops := st.blackBishops * mask, blackRooks := st.blackRooks * mask,
        blackQueens := st.blackQueens * mask, blackKing := st.blackKing * mask)
  }

  /** clearSquare touches only the bitboards. */
  lemma ClearSquareKeepsFlags(st: BoardState, square: int)
    ensures SameFlags(ClearSquare(st, square), st)
  {
  }

  /** clearSquare removes the square (mod 64) from every bitboard and nothing else. */
  lemma ClearSquareBoards(st: BoardState, square: int, q: int, sq: int)
    ensures sq in BoardOf(ClearSquare(st, square), q) <==> sq in BoardOf(st, q) && sq != square % 64
  {
  }

  /**
   * `setPieceAt(square, pieceType)`: bit `1L << square` or-ed into the bitboard of the code;
   * a code that is no piece changes nothing.
   */
  function SetPieceAt(st: BoardState, square: int, pieceType: int): BoardState
  {
    var b := Bit(square);
    BoardState(
      if pieceType == WhitePawn then st.whitePawns + b else st.whitePawns,
      if pieceType == WhiteKnight then st.whiteKnights + b else st.whiteKnights,
      if pieceType == WhiteBishop then st.whiteBishops + b else st.whiteBishops,
      if pieceType == WhiteRook then st.whiteRooks + b else st.whiteRooks,
      if pieceType == WhiteQueen then st.whiteQueens + b else st.whiteQueens,
      if pieceType == WhiteKing then st.whiteKing + b else st.whiteKing,
      if pieceType == BlackPawn then st.blackPawns + b else st.blackPawns,
      if pieceType == BlackKnight then st.blackKnights + b else st.blackKnights,
      if pieceType == BlackBishop then st.blackBishops + b else st.blackBishops,
      if pieceType == BlackRook then st.blackRooks + b else st.blackRooks,
      if pieceType == BlackQueen then st.blackQueens + b else st.blackQueens,
      if pieceType == BlackKing then st.blackKing + b else st.blackKing,
      st.whiteToMove, st.whiteKingsideCastle, st.whiteQueensideCastle,
      st.blackKingsideCastle, st.blackQueensideCastle, st.enPassantSquare)
  }

  /** setPieceAt touches only the bitboards. */
  lemma SetPieceAtKeepsFlags(st: BoardState, square: int, pieceType: int)
    ensures SameFlags(SetPieceAt(st, square, pieceType), st)
  {
  }

  /**
   * setPieceAt adds the square (mod 64) to the bitboard of a piece code and leaves the
   * others; for a code that is no piece nothing changes.
   */
  lemma SetPieceAtBoards(st: BoardState, square: int, pieceType: int, q: int, sq: int)
    ensures sq in BoardOf(SetPieceAt(st, square, pieceType), q)
            <==> sq in BoardOf(st, q) || (q == pieceType && IsPieceCode(q) && sq == square % 64)
  {
  }

  /**
   * `determinePromotionPiece(pawnPiece, promotionType)`: knight, bishop or rook for codes
   * 0, 1, 2 and a queen for every other code, white exactly when the pawn is a white pawn.
   */
  function PromotionPieceFor(pawnPiece: int, promotionType: int): (r: int)
    ensures pawnPiece == WhitePawn ==> WhiteKnight <= r <= WhiteQueen
    ensures pawnPiece != WhitePawn ==> BlackKnight <= r <= BlackQueen
    ensures r - (if pawnPiece == WhitePawn then WhitePawn else BlackPawn)
            == if 0 <= promotionType <= 2 then promotionType + 1 else 4
  {
    var white := pawnPiece == WhitePawn;
    if promotionType == KnightPromotion then (if white then WhiteKnight else BlackKnight)
    else if promotionType == BishopPromotion then (if white then WhiteBishop else BlackBishop)
    else if promotionType == RookPromotion then (if white then WhiteRook else BlackRook)
    else (if white then WhiteQueen else BlackQueen)
  }

  /**
   * Whether a move loses the castling right of one corner: the side's king moves, the rook
   * leaves that corner, or a rook of that side is captured on that corner.
   */
  predicate LosesRight(movingPiece: int, fromSquare: int, toSquare: int, capturedPiece: int,
                       king: int, rook: int, corner: int)
  {
    movingPiece == king || (movingPiece == rook && fromSquare == corner) || (capturedPiece == rook && toSquare == corner)
  }

  /**
   * `updateCastlingRights`: each of the four rights survives unless the move loses it;
   * a right is never granted.
   */
  function UpdateCastlingRights(st: BoardState, movingPiece: int, fromSquare: int, toSquare: int, capturedPiece: int): BoardState
  {
    st.(whiteKingsideCastle := st.whiteKingsideCastle && !LosesRight(movingPiece, fromSquare, toSquare, capturedPiece, WhiteKing, WhiteRook, 7),
        whiteQueensideCastle := st.whiteQueensideCastle && !LosesRight(movingPiece, fromSquare, toSquare, capturedPiece, WhiteKing, WhiteRook, 0),
        blackKingsideCastle := st.blackKingsideCastle && !LosesRight(movingPiece, fromSquare, toSquare, capturedPiece, BlackKing, BlackRook, 63),
        blackQueensideCastle := st.blackQueensideCastle && !LosesRight(movingPiece, fromSquare, toSquare, capturedPiece, BlackKing, BlackRook, 56))
  }

  /** updateCastlingRights changes only castling flags. */
  lemma UpdateCastlingRightsKeeps(st: BoardState, movingPiece: int, fromSquare: int, toSquare: int, capturedPiece: int)
    ensures var r := UpdateCastlingRights(st, movingPiece, fromSquare, toSquare, capturedPiece);
      SamePieces(r, st) && r.whiteToMove == st.whiteToMove && r.enPassantSquare == st.enPassantSquare
  {
  }

  /** makeMove, steps 1-3: the pieces after the origin and the captured piece are removed. */
  function AfterRemovals(st: BoardState, m: Move): (BoardState, int)
  {
    var s1 := ClearSquare(st, m.from);
    if m.moveType == Capture || m.moveType == PromotionCapture then
      (ClearSquare(s1, m.to), PieceAt(s1, m.to))
    else if m.moveType == EnPassantCapture then
      var epCaptureSquare := if st.whiteToMove then m.to - 8 else m.to + 8;
      (ClearSquare(s1, epCaptureSquare), PieceAt(s1, epCaptureSquare))
    else
      (s1, EmptySquare)
  }

  /** The square of the pawn an en-passant capture removes: one rank behind the destination. */
  function EnPassantVictimSquare(st: BoardState, m: Move): int {
    if st.whiteToMove then m.to - 8 else m.to + 8
  }

  /** The rook relocation of a castle: h1 to f1, h8 to f8, a1 to d1 or a8 to d8. */
  function MoveCastlingRook(st: BoardState, m: Move): BoardState
  {
    if m.moveType == KingCastle then
      (if st.whiteToMove then SetPieceAt(ClearSquare(st, 7), 5, WhiteRook)
       else SetPieceAt(ClearSquare(st, 63), 61, BlackRook))
    else if m.moveType == QueenCastle then
      (if st.whiteToMove then SetPieceAt(ClearSquare(st, 0), 3, WhiteRook)
       else SetPieceAt(ClearSquare(st, 56), 59, BlackRook))
    else st
  }

  /** The removals touch only the bitboards. */
  lemma AfterRemovalsKeepsFlags(st: BoardState, m: Move)
    ensures SameFlags(AfterRemovals(st, m).0, st)
  {
    var s1 := ClearSquare(st, m.from);
    ClearSquareKeepsFlags(st, m.from);
    ClearSquareKeepsFlags(s1, m.to);
    ClearSquareKeepsFlags(s1, EnPassantVictimSquare(st, m));
  }

  /** The rook relocation touches only the bitboards. */
  lemma MoveCastlingRookKeepsFlags(st: BoardState, m: Move)
    ensures SameFlags(MoveCastlingRook(st, m), st)
  {
    if m.moveType == KingCastle || m.moveType == QueenCastle {
      var corner := if m.moveType == KingCastle then (if st.whiteToMove then 7 else 63) else (if st.whiteToMove then 0 else 56);
      var target := if m.moveType == KingCastle then (if st.whiteToMove then 5 else 61) else (if st.whiteToMove then 3 else 59);
      var rook := if st.whiteToMove then WhiteRook else BlackRook;
      ClearSquareKeepsFlags(st, corner);
      SetPieceAtKeepsFlags(ClearSquare(st, corner), target, rook);
    }
  }

  /** The piece code makeMove places on the destination square. */
  function PlacedPiece(movingPiece: int, m: Move): int {
    if m.moveType == Promotion || m.moveType == PromotionCapture then PromotionPieceFor(movingPiece, m.promotionPiece)
    else movingPiece
  }

  /** The piece makeMove takes off the board (EmptySquare for the kinds that capture nothing). */
  function CapturedPiece(st: BoardState, m: Move): int {
    AfterRemovals(st, m).1
  }

  /**
   * `makeMove(move)` on the 18 state fields, step by step as the engine performs it:
   * clear the origin; clear the destination for CAPTURE and PROMOTION_CAPTURE, or the
   * pawn behind the destination for EN_PASSANT_CAPTURE; place the moving (or promoted)
   * piece; move the castling rook; update the castling rights; set the en-passant square
   * and flip the side to move.
   */
  function AfterMove(st: BoardState, m: Move): BoardState {
    var movingPiece := PieceAt(st, m.from);
    var (s2, captured) := AfterRemovals(st, m);
    var s3 := SetPieceAt(s2, m.to, PlacedPiece(movingPiece, m));
    var s4 := MoveCastlingRook(s3, m);
    var s5 := UpdateCastlingRights(s4, movingPiece, m.from, m.to, captured);
    s5.(enPassantSquare := if m.moveType == DoublePawnPush then (if st.whiteToMove then m.from + 8 else m.from - 8) else -1,
        whiteToMove := !st.whiteToMove)
  }

  // ---------------------------------------------------------------------------------------
  // What makeMove does

  /** makeMove hands the turn over and sets the en-passant square only after a double push. */
  lemma AfterMoveTurn(st: BoardState, m: Move)
    ensures AfterMove(st, m).whiteToMove == !st.whiteToMove
    ensures AfterMove(st, m).enPassantSquare ==
      if m.moveType != DoublePawnPush then -1 else if st.whiteToMove then m.from + 8 else m.from - 8
  {
  }

  /** The castling flags after makeMove are those before, less the ones the move loses. */
  lemma AfterMoveRights(st: BoardState, m: Move)
    ensures var after, moving, captured := AfterMove(st, m), PieceAt(st, m.from), CapturedPiece(st, m);
      (after.whiteKingsideCastle <==> st.whiteKingsideCastle && !LosesRight(moving, m.from, m.to, captured, WhiteKing, WhiteRook, 7)) &&
      (after.whiteQueensideCastle <==> st.whiteQueensideCastle && !LosesRight(moving, m.from, m.to, captured, WhiteKing, WhiteRook, 0)) &&
      (after.blackKingsideCastle <==> st.blackKingsideCastle && !LosesRight(moving, m.from, m.to, captured, BlackKing, BlackRook, 63)) &&
      (after.blackQueensideCastle <==> st.blackQueensideCastle && !LosesRight(moving, m.from, m.to, captured, BlackKing, BlackRook, 56))
  {
    var moving := PieceAt(st, m.from);
    var (s2, captured) := AfterRemovals(st, m);
    var s3 := SetPieceAt(s2, m.to, PlacedPiece(moving, m));
    AfterRemovalsKeepsFlags(st, m);
    SetPieceAtKeepsFlags(s2, m.to, PlacedPiece(moving, m));
    MoveCastlingRookKeepsFlags(s3, m);
  }

  /** makeMove never grants a castling right. */
  lemma CastlingRightsNeverGranted(st: BoardState, m: Move)
    ensures AfterMove(st, m).whiteKingsideCastle ==> st.whiteKingsideCastle
    ensures AfterMove(st, m).whiteQueensideCastle ==> st.whiteQueensideCastle
    ensures AfterMove(st, m).blackKingsideCastle ==> st.blackKingsideCastle
    ensures AfterMove(st, m).blackQueensideCastle ==> st.blackQueensideCastle
  {
    AfterMoveRights(st, m);
  }

  /** A king move gives up both castling rights of its colour. */
  lemma KingMoveLosesRights(st: BoardState, m: Move)
    ensures PieceAt(st, m.from) == WhiteKing ==>
      !AfterMove(st, m).whiteKingsideCastle && !AfterMove(st, m).whiteQueensideCastle
    ensures PieceAt(st, m.from) == BlackKing ==>
      !AfterMove(st, m).blackKingsideCastle && !AfterMove(st, m).blackQueensideCastle
  {
    AfterMoveRights(st, m);
  }

  /** A rook leaving h1, a1, h8 or a8 gives up the right of that corner. */
  lemma RookMoveLosesRight(st: BoardState, m: Move)
    ensures PieceAt(st, m.from) == WhiteRook && m.from == H1 ==> !AfterMove(st, m).whiteKingsideCastle
    ensures PieceAt(st, m.from) == WhiteRook && m.from == A1 ==> !AfterMove(st, m).whiteQueensideCastle
    ensures PieceAt(st, m.from) == BlackRook && m.from == H8 ==> !AfterMove(st, m).blackKingsideCastle
    ensures PieceAt(st, m.from) == BlackRook && m.from == A8 ==> !AfterMove(st, m).blackQueensideCastle
  {
    AfterMoveRights(st, m);
  }

  /**
   * A capture (plain or with promotion) of a rook standing on its corner gives up the right of
   * that corner; the captured piece is read after the origin is cleared, which matters only
   * when origin and destination coincide.
   */
  lemma RookCaptureLosesRight(st: BoardState, m: Move)
    requires m.moveType == Capture || m.moveType == PromotionCapture
    requires m.from % 64 != m.to % 64
    ensures PieceAt(st, m.to) == WhiteRook && m.to == H1 ==> !AfterMove(st, m).whiteKingsideCastle
    ensures PieceAt(st, m.to) == WhiteRook && m.to == A1 ==> !AfterMove(st, m).whiteQueensideCastle
    ensures PieceAt(st, m.to) == BlackRook && m.to == H8 ==> !AfterMove(st, m).blackKingsideCastle
    ensures PieceAt(st, m.to) == BlackRook && m.to == A8 ==> !AfterMove(st, m).blackQueensideCastle
  {
    AfterMoveRights(st, m);
    PieceAtClearOther(st, m.from, m.to);
  }

  /** A move of a piece other than a king or rook that captures no rook keeps all four rights. */
  lemma OtherMovesKeepRights(st: BoardState, m: Move)
    requires PieceAt(st, m.from) !in {WhiteKing, WhiteRook, BlackKing, BlackRook}
    requires CapturedPiece(st, m) !in {WhiteRook, BlackRook}
    ensures AfterMove(st, m).whiteKingsideCastle == st.whiteKingsideCastle
    ensures AfterMove(st, m).whiteQueensideCastle == st.whiteQueensideCastle
    ensures AfterMove(st, m).blackKingsideCastle == st.blackKingsideCastle
    ensures AfterMove(st, m).blackQueensideCastle == st.blackQueensideCastle
  {
    AfterMoveRights(st, m);
  }

  /** Clearing one square does not change what another square holds. */
  lemma PieceAtClearOther(st: BoardState, cleared: int, square: int)
    requires cleared % 64 != square % 64
    ensures PieceAt(ClearSquare(st, cleared), square) == PieceAt(st, square)
  {
    var s1 := ClearSquare(st, cleared);
    forall q ensures square % 64 in BoardOf(s1, q) <==> square % 64 in BoardOf(st, q) {
      ClearSquareBoards(st, cleared, q, square % 64);
    }
    PieceAtAgrees(s1, st, square);
  }

  /** Two positions whose bitboards agree on a square hold the same piece there. */
  lemma PieceAtAgrees(a: BoardState, b: BoardState, square: int)
    requires forall q :: square % 64 in BoardOf(a, q) <==> square % 64 in BoardOf(b, q)
    ensures PieceAt(a, square) == PieceAt(b, square)
  {
    assert square % 64 in BoardOf(a, WhitePawn) <==> square % 64 in BoardOf(b, WhitePawn);
    assert square % 64 in BoardOf(a, WhiteKnight) <==> square % 64 in BoardOf(b, WhiteKnight);
    assert square % 64 in BoardOf(a, WhiteBishop) <==> square % 64 in BoardOf(b, WhiteBishop);
    assert square % 64 in BoardOf(a, WhiteRook) <==> square % 64 in BoardOf(b, WhiteRook);
    assert square % 64 in BoardOf(a, WhiteQueen) <==> square % 64 in BoardOf(b, WhiteQueen);
    assert square % 64 in BoardOf(a, WhiteKing) <==> square % 64 in BoardOf(b, WhiteKing);
    assert square % 64 in BoardOf(a, BlackPawn) <==> square % 64 in BoardOf(b, BlackPawn);
    assert square % 64 in BoardOf(a, BlackKnight) <==> square % 64 in BoardOf(b, BlackKnight);
    assert square % 64 in BoardOf(a, BlackBishop) <==> square % 64 in BoardOf(b, BlackBishop);
    assert square % 64 in BoardOf(a, BlackRook) <==> square % 64 in BoardOf(b, BlackRook);
    assert square % 64 in BoardOf(a, BlackQueen) <==> square % 64 in BoardOf(b, BlackQueen);
    assert square % 64 in BoardOf(a, BlackKing) <==> square % 64 in BoardOf(b, BlackKing);
  }

  /** Positions with the same twelve bitboards have the same bitboard for every code. */
  lemma SamePiecesBoards(a: BoardState, b: BoardState, q: int)
    requires SamePieces(a, b)
    ensures BoardOf(a, q) == BoardOf(b, q)
  {
  }

  /**
   * The removals of makeMove: the origin leaves every bitboard; CAPTURE and
   * PROMOTION_CAPTURE also wipe the destination, EN_PASSANT_CAPTURE the square behind it.
   */
  lemma RemovalsBoards(st: BoardState, m: Move, q: int, sq: int)
    ensures sq in BoardOf(AfterRemovals(st, m).0, q) <==>
      sq in BoardOf(st, q) && sq != m.from % 64 &&
      (m.moveType == Capture || m.moveType == PromotionCapture ==> sq != m.to % 64) &&
      (m.moveType == EnPassantCapture ==> sq != EnPassantVictimSquare(st, m) % 64)
  {
    var s1 := ClearSquare(st, m.from);
    ClearSquareBoards(st, m.from, q, sq);
    ClearSquareBoards(s1, m.to, q, sq);
    ClearSquareBoards(s1, EnPassantVictimSquare(st, m), q, sq);
  }

  /**
   * The bitboards after makeMove of a move that is not a castle: each holds what it held
   * less the removed squares, and the destination is added to the bitboard of the placed
   * piece (the moving piece, or the promotion piece for the promotion kinds).  Nothing
   * else is cleared, so a QUIET_MOVE onto an occupied square leaves that square in two
   * bitboards (see QuietMoveOverlaps).
   */
  lemma AfterMoveBoards(st: BoardState, m: Move, q: int, sq: int)
    requires !IsCastling(m)
    ensures sq in BoardOf(AfterMove(st, m), q) <==>
      (sq in BoardOf(st, q) && sq != m.from % 64 &&
       (m.moveType == Capture || m.moveType == PromotionCapture ==> sq != m.to % 64) &&
       (m.moveType == EnPassantCapture ==> sq != EnPassantVictimSquare(st, m) % 64)) ||
      (q == PlacedPiece(PieceAt(st, m.from), m) && IsPieceCode(q) && sq == m.to % 64)
  {
    var moving := PieceAt(st, m.from);
    var (s2, captured) := AfterRemovals(st, m);
    var s3 := SetPieceAt(s2, m.to, PlacedPiece(moving, m));
    RemovalsBoards(st, m, q, sq);
    SetPieceAtBoards(s2, m.to, PlacedPiece(moving, m), q, sq);
    UpdateCastlingRightsKeeps(s3, moving, m.from, m.to, captured);
    SamePiecesBoards(AfterMove(st, m), s3, q);
  }

  /** The corner a castle takes the rook from: h1, h8, a1 or a8. */
  function RookCorner(st: BoardState, m: Move): int {
    if m.moveType == KingCastle then (if st.whiteToMove then H1 else H8) else (if st.whiteToMove then A1 else A8)
  }

  /** The square a castle puts the rook on: f1, f8, d1 or d8. */
  function RookTarget(st: BoardState, m: Move): int {
    if m.moveType == KingCastle then (if st.whiteToMove then F1 else F8) else (if st.whiteToMove then D1 else D8)
  }

  /**
   * The bitboards after makeMove of a castle: the king (the moving piece) goes from origin to
   * destination, then the rook of the side to move goes from its corner to its target square.
   */
  lemma CastleBoards(st: BoardState, m: Move, q: int, sq: int)
    requires IsCastling(m)
    ensures sq in BoardOf(AfterMove(st, m), q) <==>
      (((sq in BoardOf(st, q) && sq != m.from % 64) ||
        (q == PieceAt(st, m.from) && IsPieceCode(q) && sq == m.to % 64)) && sq != RookCorner(st, m)) ||
      (q == (if st.whiteToMove then WhiteRook else BlackRook) && sq == RookTarget(st, m))
  {
    var moving := PieceAt(st, m.from);
    var (s2, captured) := AfterRemovals(st, m);
    var s3 := SetPieceAt(s2, m.to, moving);
    SetPieceAtKeepsFlags(s2, m.to, moving);
    AfterRemovalsKeepsFlags(st, m);
    RemovalsBoards(st, m, q, sq);
    SetPieceAtBoards(s2, m.to, moving, q, sq);
    RookBoards(s3, m, q, sq);
    var s4 := MoveCastlingRook(s3, m);
    UpdateCastlingRightsKeeps(s4, moving, m.from, m.to, captured);
    SamePiecesBoards(AfterMove(st, m), s4, q);
  }

  /** The rook relocation of a castle, bitboard by bitboard. */
  lemma RookBoards(s: BoardState, m: Move, q: int, sq: int)
    requires IsCastling(m)
    ensures sq in BoardOf(MoveCastlingRook(s, m), q) <==>
      (sq in BoardOf(s, q) && sq != RookCorner(s, m)) ||
      (q == (if s.whiteToMove then WhiteRook else BlackRook) && sq == RookTarget(s, m))
  {
    var rook := if s.whiteToMove then WhiteRook else BlackRook;
    var cleared := ClearSquare(s, RookCorner(s, m));
    assert MoveCastlingRook(s, m) == SetPieceAt(cleared, RookTarget(s, m), rook);
    ClearSquareBoards(s, RookCorner(s, m), q, sq);
    SetPieceAtBoards(cleared, RookTarget(s, m), rook, q, sq);
  }

  /**
   * makeMove does not clear the destination of a QUIET_MOVE: when another piece stands
   * there, both bitboards hold the square afterwards.
   */
  lemma QuietMoveOverlaps(st: BoardState, m: Move, q: int)
    requires m.moveType == QuietMove && 0 <= m.from < 64 && 0 <= m.to < 64 && m.from != m.to
    requires IsPieceCode(PieceAt(st, m.from)) && q != PieceAt(st, m.from) && m.to in BoardOf(st, q)
    ensures m.to in BoardOf(AfterMove(st, m), q) && m.to in BoardOf(AfterMove(st, m), PieceAt(st, m.from))
  {
    AfterMoveBoards(st, m, q, m.to);
    AfterMoveBoards(st, m, PieceAt(st, m.from), m.to);
  }

  // ---------------------------------------------------------------------------------------
  // determineMoveType

  function Abs(x: int): nat {
    if x < 0 then -x else x
  }

  /**
   * `determineMoveType(board, from, to, promotionPiece)`: classifies a raw pair of squares
   * from the piece on `from` and the occupancy of `to`; the promotion code is not used.
   */
  function DetermineMoveType(st: BoardState, from: int, to: int, promotionPiece: int): (r: int)
    ensures 0 <= r < 8
    ensures r == Capture || r == PromotionCapture ==> HasBit(Occupied(st), to)
    ensures r == QuietMove || r == Promotion || r == EnPassantCapture ==> !HasBit(Occupied(st), to)
  {
    var isCapture := HasBit(Occupied(st), to);
    var piece := PieceChar(st, Bit(from));
    var isPawn := piece == 'P' || piece == 'p';
    var isKing := piece == 'K' || piece == 'k';
    if isPawn && (JavaDiv(to, 8) == 7 || JavaDiv(to, 8) == 0) then
      (if isCapture then PromotionCapture else Promotion)
    else if isPawn && Abs(from - to) == 16 then DoublePawnPush
    else if isPawn && isCapture then Capture
    else if isPawn && Abs(JavaMod(from, 8) - JavaMod(to, 8)) == 1 && Abs(JavaDiv(from, 8) - JavaDiv(to, 8)) == 1 then EnPassantCapture
    else if isKing && Abs(JavaMod(from, 8) - JavaMod(to, 8)) == 2 then
      (if JavaMod(to, 8) > JavaMod(from, 8) then KingCastle else QueenCastle)
    else if isCapture then Capture
    else QuietMove
  }

  /** The promotion code passed to determineMoveType does not affect the result. */
  lemma MoveTypeIgnoresPromotionCode(st: BoardState, from: int, to: int, p1: int, p2: int)
    ensures DetermineMoveType(st, from, to, p1) == DetermineMoveType(st, from, to, p2)
  {
  }

  /** A pawn reaching rank index 7 or 0 promotes, capturing when the destination is occupied. */
  lemma PawnToLastRankPromotes(st: BoardState, from: int, to: int, promotionPiece: int)
    requires PieceAt(st, from) == WhitePawn || PieceAt(st, from) == BlackPawn
    requires JavaDiv(to, 8) == 7 || JavaDiv(to, 8) == 0
    ensures DetermineMoveType(st, from, to, promotionPiece) ==
      if HasBit(Occupied(st), to) then PromotionCapture else Promotion
  {
    PieceCharAgrees(st, from);
  }

  /**
   * A pawn that does not reach the last rank: a double push when it moves 16 squares,
   * otherwise a capture onto an occupied square, otherwise an en-passant capture when it
   * moves one file and one rank, otherwise a quiet move.
   */
  lemma PawnMoveType(st: BoardState, from: int, to: int, promotionPiece: int)
    requires PieceAt(st, from) == WhitePawn || PieceAt(st, from) == BlackPawn
    requires JavaDiv(to, 8) != 7 && JavaDiv(to, 8) != 0
    ensures DetermineMoveType(st, from, to, promotionPiece) ==
      if Abs(from - to) == 16 then DoublePawnPush
      else if HasBit(Occupied(st), to) then Capture
      else if Abs(JavaMod(from, 8) - JavaMod(to, 8)) == 1 && Abs(JavaDiv(from, 8) - JavaDiv(to, 8)) == 1 then EnPassantCapture
      else QuietMove
  {
    PieceCharAgrees(st, from);
  }

  /**
   * A king moving two files is a castle, kingside when the file grows, whatever stands on
   * the destination: the castle test comes before the capture test.
   */
  lemma KingTwoFilesCastles(st: BoardState, from: int, to: int, promotionPiece: int)
    requires PieceAt(st, from) == WhiteKing || PieceAt(st, from) == BlackKing
    requires Abs(JavaMod(from, 8) - JavaMod(to, 8)) == 2
    ensures DetermineMoveType(st, from, to, promotionPiece) ==
      if JavaMod(to, 8) > JavaMod(from, 8) then KingCastle else QueenCastle
  {
    PieceCharAgrees(st, from);
  }

  /** Any other piece, and an empty origin, gives CAPTURE onto an occupied square and QUIET_MOVE otherwise. */
  lemma OtherMoveType(st: BoardState, from: int, to: int, promotionPiece: int)
    requires PieceAt(st, from) !in {WhitePawn, BlackPawn}
    requires PieceAt(st, from) !in {WhiteKing, BlackKing} || Abs(JavaMod(from, 8) - JavaMod(to, 8)) != 2
    ensures DetermineMoveType(st, from, to, promotionPiece) == if HasBit(Occupied(st), to) then Capture else QuietMove
  {
    PieceCharAgrees(st, from);
  }
}
