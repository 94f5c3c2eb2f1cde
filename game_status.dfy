/**
 * The end-of-game queries of the board: whether the side to move is in check, checkmated or
 * stalemated.  They read the board and, through legal-move generation, make and unmake
 * moves on it, leaving position and undo stack as they found them.
 */
module GameStatus {
  import opened Words
  import opened Moves
  import opened Position
  import opened Attacks
  import opened Chessboard
  import MoveGenerator

  /**
   * `isInCheck()`: the side to move's king bitboard, tested by the static attack test
   * against the other colour's pieces.
   */
  predicate InCheck(st: BoardState) {
    Attacked(st, if st.whiteToMove then st.whiteKing else st.blackKing,
             if st.whiteToMove then BlackPieces(st) else WhitePieces(st))
  }

  /** `isCheckmate()`: in check and no legal move. */
  predicate Checkmate(st: BoardState) {
    InCheck(st) && MoveGenerator.LegalMoves(st) == []
  }

  /** `isStalemate()`: not in check and no legal move. */
  predicate Stalemate(st: BoardState) {
    !InCheck(st) && MoveGenerator.LegalMoves(st) == []
  }

  method IsInCheck(board: Board) returns (inCheck: bool)
    ensures inCheck == InCheck(board.state)
  {
    var kingPosition := if board.state.whiteToMove then board.state.whiteKing else board.state.blackKing;
    var opponentPieces := if board.state.whiteToMove then BlackPieces(board.state) else WhitePieces(board.state);
    inCheck := MoveGenerator.IsAttacked(kingPosition, opponentPieces, board);
  }

  /** Legal moves are generated only when the side to move is in check. */
  method IsCheckmate(board: Board) returns (mate: bool)
    modifies board
    ensures mate == Checkmate(old(board.state))
    ensures board.state == old(board.state) && board.boardStates == old(board.boardStates)
  {
    var inCheck := IsInCheck(board);
    if !inCheck {
      return false;
    }
    var legal := MoveGenerator.GenerateLegalMoves(board);
    mate := legal == [];
  }

  /** Legal moves are generated only when the side to move is not in check. */
  method IsStalemate(board: Board) returns (stalemate: bool)
    modifies board
    ensures stalemate == Stalemate(old(board.state))
    ensures board.state == old(board.state) && board.boardStates == old(board.boardStates)
  {
    var inCheck := IsInCheck(board);
    if inCheck {
      return false;
    }
    var legal := MoveGenerator.GenerateLegalMoves(board);
    stalemate := legal == [];
  }

  /** A position is never both checkmate and stalemate. */
  lemma CheckmateStalemateExclusive(st: BoardState)
    ensures !(Checkmate(st) && Stalemate(st))
  {
  }

  /** The game is over, by checkmate or stalemate, exactly when there is no legal move. */
  lemma GameOverIffNoLegalMoves(st: BoardState)
    ensures Checkmate(st) || Stalemate(st) <==> MoveGenerator.LegalMoves(st) == []
  {
  }

  /** Checkmated: every pseudo-legal move leaves the king of the side to move attacked. */
  lemma CheckmateNoEscape(st: BoardState, m: Move)
    requires Checkmate(st) && m in MoveGenerator.AllMoves(st)
    ensures KingInCheck(AfterMove(st, m), st.whiteToMove)
  {
    MoveGenerator.LegalMovesMembers(st, m);
  }

  /** Stalemated: every pseudo-legal move leaves the king attacked, though it is not attacked now. */
  lemma StalemateNoSafeMove(st: BoardState, m: Move)
    requires Stalemate(st) && m in MoveGenerator.AllMoves(st)
    ensures !InCheck(st) && KingInCheck(AfterMove(st, m), st.whiteToMove)
  {
    MoveGenerator.LegalMovesMembers(st, m);
  }

  /**
   * With one king of the side to move, on a square the other king does not share, the static
   * test of isInCheck agrees with isKingInCheck of the move generator.
   */
  lemma InCheckIsKingInCheck(st: BoardState, s: int)
    requires 0 <= s < 64
    requires (if st.whiteToMove then st.whiteKing else st.blackKing) == {s}
    requires s !in (if st.whiteToMove then st.blackKing else st.whiteKing)
    ensures InCheck(st) == KingInCheck(st, st.whiteToMove)
  {
    AttackedIsKingInCheck(st, st.whiteToMove, s);
  }
}
