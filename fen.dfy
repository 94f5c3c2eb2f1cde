/**
 * The pure part of `setPosition(fen)`: Java's `String.split(" ")`, the scan of the piece
 * placement field, and the effect of the whole call on the position and its history.
 * The first four FEN fields are read: placement, active colour, castling availability
 * and en-passant target square.
 */
module Fen {
  import opened Words
  import opened Position

  // ---------------------------------------------------------------------------------------
  // String.split(" ")

  /** Index of the first space in `s`, or |s| when there is none. */
  function FirstSpace(s: string): (i: nat)
    ensures i <= |s|
    ensures i < |s| ==> s[i] == ' '
    ensures forall j :: 0 <= j < i ==> s[j] != ' '
  {
    if s == [] || s[0] == ' ' then 0 else 1 + FirstSpace(s[1..])
  }

  /** The pieces between the spaces of `s`, empty pieces included. */
  function SplitAll(s: string): (parts: seq<string>)
    decreases |s|
    ensures |parts| >= 1
    ensures forall k :: 0 <= k < |parts| ==> ' ' !in parts[k]
  {
    var i := FirstSpace(s);
    if i == |s| then [s] else [s[..i]] + SplitAll(s[i + 1..])
  }

  /** The pieces joined back with single spaces. */
  function Join(parts: seq<string>): string
    requires |parts| >= 1
  {
    if |parts| == 1 then parts[0] else parts[0] + " " + Join(parts[1..])
  }

  /** Splitting at the spaces loses nothing: the pieces join back to the string. */
  lemma {:induction false} SplitJoin(s: string)
    decreases |s|
    ensures Join(SplitAll(s)) == s
  {
    var i := FirstSpace(s);
    if i < |s| {
      var rest := s[i + 1..];
      var parts := SplitAll(s);
      assert parts == [s[..i]] + SplitAll(rest);
      assert parts[1..] == SplitAll(rest);
      SplitJoin(rest);
      SpaceSplits(s, i);
    }
  }

  /** A string is its prefix, the space at `i`, and its suffix. */
  lemma SpaceSplits(s: string, i: nat)
    requires i < |s| && s[i] == ' '
    ensures s == s[..i] + " " + s[i + 1..]
  {
  }

  /** The first space of `p + " " + rest`, when `p` has none, is right after `p`. */
  lemma FirstSpaceAfter(p: string, rest: string)
    requires ' ' !in p
    ensures FirstSpace(p + " " + rest) == |p|
  {
    var s := p + " " + rest;
    assert s[|p|] == ' ';
    assert forall j :: 0 <= j < |p| ==> s[j] == p[j];
  }

  /** Joining pieces that hold no space and splitting again gives the pieces back. */
  lemma {:induction false} SplitAllJoin(parts: seq<string>)
    requires |parts| >= 1 && forall k :: 0 <= k < |parts| ==> ' ' !in parts[k]
    ensures SplitAll(Join(parts)) == parts
  {
    if |parts| > 1 {
      var s := Join(parts);
      assert s == parts[0] + " " + Join(parts[1..]);
      FirstSpaceAfter(parts[0], Join(parts[1..]));
      assert s[..|parts[0]|] == parts[0];
      assert s[|parts[0]| + 1..] == Join(parts[1..]);
      SplitAllJoin(parts[1..]);
      assert parts == [parts[0]] + parts[1..];
    } else {
      assert ' ' !in Join(parts);
      assert FirstSpace(Join(parts)) == |Join(parts)|;
    }
  }

  function DropTrailingEmpty(parts: seq<string>): (r: seq<string>)
    ensures |r| <= |parts| && r == parts[..|r|]
    ensures r != [] ==> r[|r| - 1] != ""
    ensures forall k :: |r| <= k < |parts| ==> parts[k] == ""
  {
    if parts == [] then []
    else if parts[|parts| - 1] == "" then DropTrailingEmpty(parts[..|parts| - 1])
    else parts
  }

  /**
   * `s.split(" ")`: a string without a space is its own single piece (even when it is
   * empty); otherwise the pieces between spaces, with trailing empty pieces removed.
   */
  function JavaSplit(s: string): (parts: seq<string>)
    ensures forall k :: 0 <= k < |parts| ==> ' ' !in parts[k]
  {
    if ' ' !in s then [s] else DropTrailingEmpty(SplitAll(s))
  }

  /**
   * `split(" ")` undoes a join of pieces that hold no space when the last piece is not
   * empty (or is the only one).
   */
  lemma JavaSplitJoin(parts: seq<string>)
    requires |parts| >= 1 && forall k :: 0 <= k < |parts| ==> ' ' !in parts[k]
    requires |parts| == 1 || parts[|parts| - 1] != ""
    ensures JavaSplit(Join(parts)) == parts
  {
    SplitAllJoin(parts);
    if |parts| > 1 {
      assert Join(parts)[|parts[0]|] == ' ';
    }
  }

  /** `s.contains(String.valueOf(c))`. */
  predicate Contains(s: string, c: char) {
    c in s
  }

  // ---------------------------------------------------------------------------------------
  // Piece placement

  /** `Character.isDigit`, for the ASCII digits. */
  predicate IsDigit(c: char) {
    '0' <= c <= '9'
  }

  /** The piece code a placement letter sets; EmptySquare for a character that names no piece. */
  function LetterPiece(c: char): (p: int)
    ensures p == EmptySquare || (IsPieceCode(p) && PieceLetter(p) == c)
  {
    if c == 'P' then WhitePawn else if c == 'N' then WhiteKnight else if c == 'B' then WhiteBishop
    else if c == 'R' then WhiteRook else if c == 'Q' then WhiteQueen else if c == 'K' then WhiteKing
    else if c == 'p' then BlackPawn else if c == 'n' then BlackKnight else if c == 'b' then BlackBishop
    else if c == 'r' then BlackRook else if c == 'q' then BlackQueen else if c == 'k' then BlackKing
    else EmptySquare
  }

  /** The scan cursor: the rank and file the next placement character refers to. */
  datatype Cursor = Cursor(rank: int, file: int)

  /** The cursor after one placement character. */
  function Step(cur: Cursor, c: char): Cursor {
    if c == '/' then Cursor(cur.rank - 1, 0)
    else if IsDigit(c) then Cursor(cur.rank, cur.file + (c as int - '0' as int))
    else Cursor(cur.rank, cur.file + 1)
  }

  /** The cursor after the characters of `cs`, starting from `cur`. */
  function CursorAfter(cs: string, cur: Cursor): Cursor
    decreases |cs|
  {
    if cs == [] then cur else CursorAfter(cs[1..], Step(cur, cs[0]))
  }

  /** The position after one placement character at cursor `cur`. */
  function PlaceOne(c: char, cur: Cursor, st: BoardState): BoardState {
    if c == '/' || IsDigit(c) then st else SetPieceAt(st, cur.rank * 8 + cur.file, LetterPiece(c))
  }

  /**
   * The placement loop: from cursor `cur` and position `st`, each character other than
   * '/' and a digit or-s bit `1L << (rank * 8 + file)` into the bitboard of its letter.
   */
  function Place(cs: string, cur: Cursor, st: BoardState): BoardState
    decreases |cs|
  {
    if cs == [] then st
    else
      Place(cs[1..], Step(cur, cs[0]), PlaceOne(cs[0], cur, st))
  }

  /** One step of the placement loop. */
  lemma PlaceStep(cs: string, cur: Cursor, st: BoardState)
    requires cs != []
    ensures Place(cs, cur, st) == Place(cs[1..], Step(cur, cs[0]), PlaceOne(cs[0], cur, st))
  {
  }

  /** The placement loop changes only bitboards. */
  lemma {:induction false} PlaceKeepsFlags(cs: string, cur: Cursor, st: BoardState)
    ensures SameFlags(Place(cs, cur, st), st)
    decreases |cs|
  {
    if cs != [] {
      var next := PlaceOne(cs[0], cur, st);
      if !(cs[0] == '/' || IsDigit(cs[0])) {
        SetPieceAtKeepsFlags(st, cur.rank * 8 + cur.file, LetterPiece(cs[0]));
      }
      PlaceKeepsFlags(cs[1..], Step(cur, cs[0]), next);
    }
  }

  /** The placement loop only adds squares to bitboards; it never clears one. */
  lemma {:induction false} PlaceOnlyAdds(cs: string, cur: Cursor, st: BoardState, q: int, sq: int)
    requires sq in BoardOf(st, q)
    ensures sq in BoardOf(Place(cs, cur, st), q)
    decreases |cs|
  {
    if cs != [] {
      var next := PlaceOne(cs[0], cur, st);
      if !(cs[0] == '/' || IsDigit(cs[0])) {
        SetPieceAtBoards(st, cur.rank * 8 + cur.file, LetterPiece(cs[0]), q, sq);
      }
      PlaceOnlyAdds(cs[1..], Step(cur, cs[0]), next, q, sq);
    }
  }

  /**
   * A piece letter at the cursor puts its piece on square `rank * 8 + file` (mod 64), and the
   * rest of the field cannot take it away; '/' moves the cursor to file 0 of the rank below,
   * a digit skips that many files, a letter one file.
   */
  lemma PlaceLetter(cs: string, cur: Cursor, st: BoardState)
    requires cs != [] && cs[0] != '/' && !IsDigit(cs[0]) && IsPieceCode(LetterPiece(cs[0]))
    ensures (cur.rank * 8 + cur.file) % 64 in BoardOf(Place(cs, cur, st), LetterPiece(cs[0]))
    ensures Step(cur, cs[0]) == Cursor(cur.rank, cur.file + 1)
  {
    var square := cur.rank * 8 + cur.file;
    var next := PlaceOne(cs[0], cur, st);
    SetPieceAtBoards(st, square, LetterPiece(cs[0]), LetterPiece(cs[0]), square % 64);
    PlaceOnlyAdds(cs[1..], Step(cur, cs[0]), next, LetterPiece(cs[0]), square % 64);
  }

  const Cleared: Word := {}

  /** The position with all twelve bitboards zero and the other fields kept. */
  function ClearPieces(st: BoardState): BoardState
  {
    st.(whitePawns := Cleared, whiteKnights := Cleared, whiteBishops := Cleared, whiteRooks := Cleared,
        whiteQueens := Cleared, whiteKing := Cleared, blackPawns := Cleared, blackKnights := Cleared,
        blackBishops := Cleared, blackRooks := Cleared, blackQueens := Cleared, blackKing := Cleared)
  }

  /** The en-passant square a field other than "-" names: `(c1 - '1') * 8 + (c0 - 'a')`. */
  function EpSquareOf(field: string): int
    requires |field| >= 2
  {
    (field[1] as int - '1' as int) * 8 + (field[0] as int - 'a' as int)
  }

  // ---------------------------------------------------------------------------------------
  // The whole call

  /** How `setPosition` ends: normally, or with the exception Java raises. */
  datatype FenOutcome = Loaded | MissingField | ShortEnPassantField

  /** The fields after `setPosition`, whether it cleared the history, and how it ended. */
  datatype FenEffect = FenEffect(state: BoardState, historyCleared: bool, outcome: FenOutcome)

  /**
   * `setPosition(fen)`: the bitboards are cleared first; fewer than four fields raise an
   * index error at once; then placement, side to move and castling rights are set; an
   * en-passant field that is neither "-" nor at least two characters long raises an index
   * error before the en-passant square and the history change.
   */
  function SetPositionEffect(st: BoardState, fen: string): FenEffect {
    var cleared := ClearPieces(st);
    var parts := JavaSplit(fen);
    if |parts| < 4 then FenEffect(cleared, false, MissingField)
    else
      var placed := Place(parts[0], Cursor(7, 0), cleared);
      var castling := parts[2];
      var withFlags := placed.(whiteToMove := parts[1] == "w",
                               whiteKingsideCastle := Contains(castling, 'K'), whiteQueensideCastle := Contains(castling, 'Q'),
                               blackKingsideCastle := Contains(castling, 'k'), blackQueensideCastle := Contains(castling, 'q'));
      var ep := parts[3];
      if ep == "-" then FenEffect(withFlags.(enPassantSquare := -1), true, Loaded)
      else if |ep| < 2 then FenEffect(withFlags, false, ShortEnPassantField)
      else FenEffect(withFlags.(enPassantSquare := EpSquareOf(ep)), true, Loaded)
  }

  /**
   * How setPosition ends: an index error exactly when there are fewer than four fields, or
   * when the en-passant field is neither "-" nor two characters or more; the history is
   * cleared exactly when the call completes. A missing field leaves the board emptied and
   * nothing else changed; a short en-passant field leaves the old en-passant square.
   */
  lemma SetPositionOutcome(st: BoardState, fen: string)
    ensures var e, parts := SetPositionEffect(st, fen), JavaSplit(fen);
      (e.outcome == MissingField <==> |parts| < 4) &&
      (e.outcome == ShortEnPassantField <==> |parts| >= 4 && parts[3] != "-" && |parts[3]| < 2) &&
      (e.historyCleared <==> e.outcome == Loaded) &&
      (e.outcome == MissingField ==> e.state == ClearPieces(st)) &&
      (e.outcome != Loaded ==> e.state.enPassantSquare == st.enPassantSquare)
  {
    var parts := JavaSplit(fen);
    if |parts| >= 4 {
      PlaceKeepsFlags(parts[0], Cursor(7, 0), ClearPieces(st));
    }
  }

  /**
   * With four fields the bitboards are those the placement field yields from an empty board;
   * the side to move is white exactly for "w"; each castling right is set exactly when its
   * letter occurs in the third field; a completed call sets the en-passant square to -1 for
   * "-" and to `(c1 - '1') * 8 + (c0 - 'a')` otherwise.
   */
  lemma SetPositionFields(st: BoardState, fen: string)
    requires |JavaSplit(fen)| >= 4
    ensures var e, parts := SetPositionEffect(st, fen), JavaSplit(fen);
      SamePieces(e.state, Place(parts[0], Cursor(7, 0), ClearPieces(st))) &&
      (e.state.whiteToMove <==> parts[1] == "w") &&
      (e.state.whiteKingsideCastle <==> 'K' in parts[2]) && (e.state.whiteQueensideCastle <==> 'Q' in parts[2]) &&
      (e.state.blackKingsideCastle <==> 'k' in parts[2]) && (e.state.blackQueensideCastle <==> 'q' in parts[2]) &&
      (e.outcome == Loaded ==> e.state.enPassantSquare == if parts[3] == "-" then -1 else EpSquareOf(parts[3]))
  {
  }

  /** The placement starts from an empty board: every bitboard is cleared before it runs. */
  lemma ClearPiecesEmpties(st: BoardState)
    ensures Occupied(ClearPieces(st)) == {} && SameFlags(ClearPieces(st), st)
  {
  }
}
