/**
 * The mutable board: twelve bitboard fields, the side to move, four castling flags, the
 * en-passant square and the undo stack of snapshots.  Every state-changing method is
 * specified by the transition on Position.BoardState that it performs on the eighteen
 * fields.
 */
module Chessboard {
  import opened Words
  import opened BitboardConstants
  import opened Moves
  import opened Position
  import Fen

  /** How `unmakeMove` ends: normally, or with `IllegalStateException` on an empty history. */
  datatype UndoOutcome = Undone | NoMovesToUndo

  /**
   * The flag logic of `updateCastlingRights`: a king move gives up both rights of its side,
   * a rook leaving its corner the right on that wing, and a rook captured on its corner
   * the right of the side that owned it.
   */
  method CastlingFlagsAfter(whiteKingside: bool, whiteQueenside: bool, blackKingside: bool, blackQueenside: bool,
                            movingPiece: int, fromSquare: int, toSquare: int, capturedPiece: int)
    returns (wk: bool, wq: bool, bk: bool, bq: bool)
    ensures wk == (whiteKingside && !LosesRight(movingPiece, fromSquare, toSquare, capturedPiece, WhiteKing, WhiteRook, 7))
    ensures wq == (whiteQueenside && !LosesRight(movingPiece, fromSquare, toSquare, capturedPiece, WhiteKing, WhiteRook, 0))
    ensures bk == (blackKingside && !LosesRight(movingPiece, fromSquare, toSquare, capturedPiece, BlackKing, BlackRook, 63))
    ensures bq == (blackQueenside && !LosesRight(movingPiece, fromSquare, toSquare, capturedPiece, BlackKing, BlackRook, 56))
  {
    wk, wq, bk, bq := whiteKingside, whiteQueenside, blackKingside, blackQueenside;
    if movingPiece == WhiteKing {
      wk, wq := false, false;
    } else if movingPiece == BlackKing {
      bk, bq := false, false;
    } else if movingPiece == WhiteRook {
      if fromSquare == 7 {
        wk := false;
      } else if fromSquare == 0 {
        wq := false;
      }
    } else if movingPiece == BlackRook {
      if fromSquare == 63 {
        bk := false;
      } else if fromSquare == 56 {
        bq := false;
      }
    }

    if capturedPiece == WhiteRook {
      if toSquare == 7 {
        wk := false;
      } else if toSquare == 0 {
        wq := false;
      }
    } else if capturedPiece == BlackRook {
      if toSquare == 63 {
        bk := false;
      } else if toSquare == 56 {
        bq := false;
      }
    }
  }

  class Board {
    /**
     * The eighteen private fields of the Java board (twelve bitboards, side to move, four
     * castling flags, en-passant square), held as one record: `state.whitePawns` is the
     * field `whitePawns`, and so on.
     */
    var state: BoardState
    /** The undo stack; its top is the last element. */
    var boardStates: seq<BoardState>

    /** The standard start position, white to move, all castling rights, no en-passant square. */
    constructor ()
      ensures state == Initial && boardStates == []
    {
      state := BoardState(WhitePawnsInitial, WhiteKnightsInitial, WhiteBishopsInitial, WhiteRooksInitial,
                          WhiteQueensInitial, WhiteKingsInitial,
                          BlackPawnsInitial, BlackKnightsInitial, BlackBishopsInitial, BlackRooksInitial,
                          BlackQueensInitial, BlackKingsInitial,
                          true, true, true, true, true, -1);
      boardStates := [];
    }

    /** `toString()`: the board drawn rank by rank from the top, one character per square. */
    method ToString() returns (text: string)
      ensures text == BoardText(state)
      ensures |text| == 136
    {
      var sb: string := "";
      var rank := 7;
      while rank >= 0
        invariant -1 <= rank <= 7
        invariant sb == RowsText(state, 7 - rank)
      {
        var file := 0;
        ghost var done := sb;
        while file < 8
          invariant 0 <= file <= 8
          invariant sb == done + CellsText(state, rank, file)
        {
          var square := rank * 8 + file;
          var piece := PieceChar(state, Bit(square));
          sb := sb + [piece, ' '];
          file := file + 1;
        }
        assert done + CellsText(state, rank, 8) + "\n" == done + RowText(state, rank);
        sb := sb + "\n";
        rank := rank - 1;
      }
      BoardTextLength(state);
      text := sb;
    }

    /** `clearSquare(square)`: and-s `~(1L << square)` into all twelve bitboards. */
    method ClearSquare(square: int)
      modifies this
      ensures state == Position.ClearSquare(old(state), square)
      ensures boardStates == old(boardStates)
    {
      var squareMask := Not(Bit(square));
      state := state.(whitePawns := state.whitePawns * squareMask, whiteKnights := state.whiteKnights * squareMask,
                      whiteBishops := state.whiteBishops * squareMask, whiteRooks := state.whiteRooks * squareMask,
                      whiteQueens := state.whiteQueens * squareMask, whiteKing := state.whiteKing * squareMask,
                      blackPawns := state.blackPawns * squareMask, blackKnights := state.blackKnights * squareMask,
                      blackBishops := state.blackBishops * squareMask, blackRooks := state.blackRooks * squareMask,
                      blackQueens := state.blackQueens * squareMask, blackKing := state.blackKing * squareMask);
    }

    /** `setPieceAt(square, pieceType)`: or-s `1L << square` into the bitboard of the code. */
    method SetPieceAt(square: int, pieceType: int)
      modifies this
      ensures state == Position.SetPieceAt(old(state), square, pieceType)
      ensures boardStates == old(boardStates)
    {
      var squareBB := Bit(square);
      if pieceType == WhitePawn {
        state := state.(whitePawns := state.whitePawns + squareBB);
      } else if pieceType == WhiteKnight {
        state := state.(whiteKnights := state.whiteKnights + squareBB);
      } else if pieceType == WhiteBishop {
        state := state.(whiteBishops := state.whiteBishops + squareBB);
      } else if pieceType == WhiteRook {
        state := state.(whiteRooks := state.whiteRooks + squareBB);
      } else if pieceType == WhiteQueen {
        state := state.(whiteQueens := state.whiteQueens + squareBB);
      } else if pieceType == WhiteKing {
        state := state.(whiteKing := state.whiteKing + squareBB);
      } else if pieceType == BlackPawn {
        state := state.(blackPawns := state.blackPawns + squareBB);
      } else if pieceType == BlackKnight {
        state := state.(blackKnights := state.blackKnights + squareBB);
      } else if pieceType == BlackBishop {
        state := state.(blackBishops := state.blackBishops + squareBB);
      } else if pieceType == BlackRook {
        state := state.(blackRooks := state.blackRooks + squareBB);
      } else if pieceType == BlackQueen {
        state := state.(blackQueens := state.blackQueens + squareBB);
      } else if pieceType == BlackKing {
        state := state.(blackKing := state.blackKing + squareBB);
      }
    }

    /** `updateCastlingRights(movingPiece, fromSquare, toSquare, capturedPiece)`. */
    method UpdateCastlingRights(movingPiece: int, fromSquare: int, toSquare: int, capturedPiece: int)
      modifies this
      ensures state == Position.UpdateCastlingRights(old(state), movingPiece, fromSquare, toSquare, capturedPiece)
      ensures boardStates == old(boardStates)
    {
      var wk, wq, bk, bq := CastlingFlagsAfter(state.whiteKingsideCastle, state.whiteQueensideCastle,
                                               state.blackKingsideCastle, state.blackQueensideCastle,
                                               movingPiece, fromSquare, toSquare, capturedPiece);
      state := state.(whiteKingsideCastle := wk, whiteQueensideCastle := wq,
                      blackKingsideCastle := bk, blackQueensideCastle := bq);
    }

    /**
     * The first three steps of `makeMove`: clear the origin, then the destination of a
     * CAPTURE or PROMOTION_CAPTURE, or the pawn behind the destination of an
     * EN_PASSANT_CAPTURE, and report the piece taken off.
     */
    method RemovePieces(move: Move) returns (capturedPiece: int)
      modifies this
      ensures (state, capturedPiece) == AfterRemovals(old(state), move)
      ensures boardStates == old(boardStates)
    {
      var fromSquare, toSquare, moveType := move.from, move.to, move.moveType;
      capturedPiece := EmptySquare;
      ClearSquare(fromSquare);
      ClearSquareKeepsFlags(old(state), fromSquare);

      if moveType == Capture || moveType == PromotionCapture {
        capturedPiece := PieceAt(state, toSquare);
        ClearSquare(toSquare);
      }

      if moveType == EnPassantCapture {
        var epCaptureSquare := if state.whiteToMove then toSquare - 8 else toSquare + 8;
        capturedPiece := PieceAt(state, epCaptureSquare);
        ClearSquare(epCaptureSquare);
      }
    }

    /** The placing step of `makeMove`: the moving piece, or the piece it promotes to, lands on `to`. */
    method PlaceMovedPiece(move: Move, movingPiece: int)
      modifies this
      ensures state == Position.SetPieceAt(old(state), move.to, PlacedPiece(movingPiece, move))
      ensures boardStates == old(boardStates)
    {
      if move.moveType == Promotion || move.moveType == PromotionCapture {
        var promotionPiece := PromotionPieceFor(movingPiece, move.promotionPiece);
        SetPieceAt(move.to, promotionPiece);
      } else {
        SetPieceAt(move.to, movingPiece);
      }
    }

    /** The castle step of `makeMove`: the rook of the side to move jumps over its king. */
    method MoveCastlingRook(move: Move)
      modifies this
      ensures state == Position.MoveCastlingRook(old(state), move)
      ensures boardStates == old(boardStates)
    {
      if move.moveType == KingCastle {
        if state.whiteToMove {
          ClearSquare(7);
          SetPieceAt(5, WhiteRook);
        } else {
          ClearSquare(63);
          SetPieceAt(61, BlackRook);
        }
      } else if move.moveType == QueenCastle {
        if state.whiteToMove {
          ClearSquare(0);
          SetPieceAt(3, WhiteRook);
        } else {
          ClearSquare(56);
          SetPieceAt(59, BlackRook);
        }
      }
    }

    /**
     * `makeMove(move)`: pushes the snapshot of the current fields, then performs the move
     * as Position.AfterMove describes it.
     */
    method MakeMove(move: Move)
      modifies this
      ensures boardStates == old(boardStates) + [old(state)]
      ensures state == AfterMove(old(state), move)
    {
      var previousBoardState := state;
      boardStates := boardStates + [previousBoardState];

      var movingPiece := PieceAt(state, move.from);
      var capturedPiece := RemovePieces(move);
      AfterRemovalsKeepsFlags(previousBoardState, move);

      PlaceMovedPiece(move, movingPiece);
      ghost var placed := state;
      SetPieceAtKeepsFlags(AfterRemovals(previousBoardState, move).0, move.to, PlacedPiece(movingPiece, move));

      MoveCastlingRook(move);
      MoveCastlingRookKeepsFlags(placed, move);
      UpdateCastlingRights(movingPiece, move.from, move.to, capturedPiece);

      var epSquare := if move.moveType == DoublePawnPush then (if state.whiteToMove then move.from + 8 else move.from - 8) else -1;
      state := state.(enPassantSquare := epSquare, whiteToMove := !state.whiteToMove);
    }

    /**
     * `unmakeMove()`: pops the last snapshot and restores all eighteen fields from it; on
     * an empty history it raises IllegalStateException and changes nothing.
     */
    method UnmakeMove() returns (outcome: UndoOutcome)
      modifies this
      ensures old(boardStates) == [] ==>
        outcome == NoMovesToUndo && state == old(state) && boardStates == []
      ensures old(boardStates) != [] ==>
        outcome == Undone && state == old(boardStates[|boardStates| - 1]) &&
        boardStates == old(boardStates[..|boardStates| - 1])
    {
      if boardStates == [] {
        return NoMovesToUndo;
      }
      var previousState := boardStates[|boardStates| - 1];
      boardStates := boardStates[..|boardStates| - 1];

      state := previousState;
      outcome := Undone;
    }

    /** The placement loop of `setPosition`: walks the first FEN field from a8 to h1. */
    method PlacePieces(piecePositions: string)
      modifies this
      ensures state == Fen.Place(piecePositions, Fen.Cursor(7, 0), old(state))
      ensures boardStates == old(boardStates)
    {
      var rank, file := 7, 0;
      var i := 0;
      while i < |piecePositions|
        invariant 0 <= i <= |piecePositions|
        invariant boardStates == old(boardStates)
        invariant Fen.Place(piecePositions[i..], Fen.Cursor(rank, file), state)
                  == Fen.Place(piecePositions, Fen.Cursor(7, 0), old(state))
      {
        var c := piecePositions[i];
        ghost var cur, before := Fen.Cursor(rank, file), state;
        if c == '/' {
          rank := rank - 1;
          file := 0;
          assert state == Fen.PlaceOne(c, cur, before);
        } else if Fen.IsDigit(c) {
          file := file + (c as int - '0' as int);
          assert state == Fen.PlaceOne(c, cur, before);
        } else {
          var square := rank * 8 + file;
          SetPieceAt(square, Fen.LetterPiece(c));
          file := file + 1;
          assert square == cur.rank * 8 + cur.file;
          assert state == Fen.PlaceOne(c, cur, before);
        }
        assert Fen.Cursor(rank, file) == Fen.Step(cur, c);
        assert piecePositions[i..][1..] == piecePositions[i + 1..];
        Fen.PlaceStep(piecePositions[i..], cur, before);
        i := i + 1;
      }
      assert piecePositions[i..] == [];
    }

    /**
     * `setPosition(fen)`: loads the first four FEN fields as Fen.SetPositionEffect
     * describes, including the two index errors it can raise part-way.
     */
    method SetPosition(fen: string) returns (outcome: Fen.FenOutcome)
      modifies this
      ensures var e := Fen.SetPositionEffect(old(state), fen);
        state == e.state && outcome == e.outcome &&
        boardStates == (if e.historyCleared then [] else old(boardStates))
    {
      state := state.(whitePawns := {}, whiteKnights := {}, whiteBishops := {}, whiteRooks := {}, whiteQueens := {}, whiteKing := {},
                      blackPawns := {}, blackKnights := {}, blackBishops := {}, blackRooks := {}, blackQueens := {}, blackKing := {});

      var parts := Fen.JavaSplit(fen);
      if |parts| < 4 {
        return Fen.MissingField;
      }
      var piecePositions, activeColor, castlingRights, epSquare := parts[0], parts[1], parts[2], parts[3];

      PlacePieces(piecePositions);

      state := state.(whiteToMove := activeColor == "w");

      state := state.(whiteKingsideCastle := Fen.Contains(castlingRights, 'K'),
                      whiteQueensideCastle := Fen.Contains(castlingRights, 'Q'),
                      blackKingsideCastle := Fen.Contains(castlingRights, 'k'),
                      blackQueensideCastle := Fen.Contains(castlingRights, 'q'));

      if epSquare == "-" {
        state := state.(enPassantSquare := -1);
      } else {
        if |epSquare| < 2 {
          return Fen.ShortEnPassantField;
        }
        var fileEp := epSquare[0] as int - 'a' as int;
        var rankEp := epSquare[1] as int - '1' as int;
        state := state.(enPassantSquare := rankEp * 8 + fileEp);
      }

      boardStates := [];
      outcome := Fen.Loaded;
    }
  }
}
