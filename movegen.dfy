/**
 * The move generator: the attack tests on a board, the pseudo-legal generators of every
 * piece (each a loop over the set bits of a bitboard, as in the Java code), the union of
 * them for the side to move, and the legal filter that plays each move on the board and
 * takes it back.
 *
 * Every generator is a method proved equal to a function over the position value; the
 * lemmas below those functions say which moves they contain.
 */
module MoveGenerator {
  import opened Words
  import opened BitboardConstants
  import opened Moves
  import opened Position
  import opened Attacks
  import opened Chessboard

  // ---------------------------------------------------------------------------------------
  // Attack tests on a board

  /** `isSquareAttacked(board, square, byWhite)`: the five tests in order, the first hit answers. */
  method IsSquareAttacked(board: Board, square: int, byWhite: bool) returns (attacked: bool)
    ensures attacked == SquareAttacked(board.state, square, byWhite)
  {
    var st := board.state;
    var targetSquare := Bit(square);
    var pawns := if byWhite then st.whitePawns else st.blackPawns;
    if byWhite {
      if And(And(Sar(targetSquare, 9), NotFileH), pawns) != {} || And(And(Sar(targetSquare, 7), NotFileA), pawns) != {} {
        assert And(PawnSources(targetSquare, true), pawns) != {};
        return true;
      }
    } else {
      if And(And(Shl(targetSquare, 9), NotFileA), pawns) != {} || And(And(Shl(targetSquare, 7), NotFileH), pawns) != {} {
        assert And(PawnSources(targetSquare, false), pawns) != {};
        return true;
      }
    }
    assert And(PawnSources(targetSquare, byWhite), pawns) == {};
    var knights := if byWhite then st.whiteKnights else st.blackKnights;
    if And(KnightAttacks(square), knights) != {} {
      return true;
    }
    var king := if byWhite then st.whiteKing else st.blackKing;
    if And(KingAttacks(square), king) != {} {
      return true;
    }
    var bishopsAndQueens := if byWhite then Or(st.whiteBishops, st.whiteQueens) else Or(st.blackBishops, st.blackQueens);
    var diagonal := DiagonalAttacks(square, Occupied(st));
    if And(diagonal, bishopsAndQueens) != {} {
      return true;
    }
    var rooksAndQueens := if byWhite then Or(st.whiteRooks, st.whiteQueens) else Or(st.blackRooks, st.blackQueens);
    var straight := StraightAttacks(square, Occupied(st));
    if And(straight, rooksAndQueens) != {} {
      return true;
    }
    return false;
  }

  /** `isKingInCheck(board, whiteKing)`: the square of the king is attacked by the other colour. */
  method IsKingInCheck(board: Board, whiteKing: bool) returns (inCheck: bool)
    ensures inCheck == KingInCheck(board.state, whiteKing)
  {
    var kingSquare := if whiteKing then Ntz(board.state.whiteKing) else Ntz(board.state.blackKing);
    inCheck := IsSquareAttacked(board, kingSquare, !whiteKing);
  }

  /** The static `isAttacked(kingPosition, opponentPieces, board)`. */
  method IsAttacked(kingPosition: Word, opponentPieces: Word, board: Board) returns (attacked: bool)
    ensures attacked == Attacked(board.state, kingPosition, opponentPieces)
  {
    var st := board.state;
    var kingSquare := Ntz(kingPosition);
    var byWhite := And(st.blackKing, kingPosition) != {};
    var pawns := And(if byWhite then st.whitePawns else st.blackPawns, opponentPieces);
    if byWhite {
      if And(And(Sar(kingPosition, 9), NotFileH), pawns) != {} || And(And(Sar(kingPosition, 7), NotFileA), pawns) != {} {
        assert And(PawnSources(kingPosition, true), pawns) != {};
        return true;
      }
    } else {
      if And(And(Shl(kingPosition, 9), NotFileA), pawns) != {} || And(And(Shl(kingPosition, 7), NotFileH), pawns) != {} {
        assert And(PawnSources(kingPosition, false), pawns) != {};
        return true;
      }
    }
    assert And(PawnSources(kingPosition, byWhite), pawns) == {};
    var knights := And(if byWhite then st.whiteKnights else st.blackKnights, opponentPieces);
    if And(KnightAttacks(kingSquare), knights) != {} {
      return true;
    }
    var opposingKing := if byWhite then st.whiteKing else st.blackKing;
    if And(KingAttacks(kingSquare), opposingKing) != {} {
      return true;
    }
    var occupied := Occupied(st);
    var bishops := if byWhite then st.whiteBishops else st.blackBishops;
    var queens := if byWhite then st.whiteQueens else st.blackQueens;
    var diagonalAttackers := And(Or(bishops, queens), opponentPieces);
    var diagonal := DiagonalAttacks(kingSquare, occupied);
    if And(diagonal, diagonalAttackers) != {} {
      return true;
    }
    var rooks := if byWhite then st.whiteRooks else st.blackRooks;
    var straightAttackers := And(Or(rooks, queens), opponentPieces);
    var straight := StraightAttacks(kingSquare, occupied);
    if And(straight, straightAttackers) != {} {
      return true;
    }
    return false;
  }

  // ---------------------------------------------------------------------------------------
  // Target loops

  /** Appending to a list of moves: concatenation is associative. */
  lemma Appended(done: seq<Move>, current: seq<Move>, rest: seq<Move>)
    ensures (done + current) + rest == done + (current + rest)
  {
  }

  /** Four single appends add a four-move list. */
  lemma FourAppended(done: seq<Move>, four: seq<Move>)
    requires |four| == 4
    ensures done + [four[0]] + [four[1]] + [four[2]] + [four[3]] == done + four
  {
    assert four == [four[0]] + [four[1]] + [four[2]] + [four[3]];
  }

  /** Appending nothing to a list of moves. */
  lemma NothingAfter(done: seq<Move>)
    ensures done + [] == done
  {
  }

  /** Appending to an empty list of moves. */
  lemma NothingBefore(rest: seq<Move>)
    ensures [] + rest == rest
  {
  }

  /** The pieces of the side that moves. */
  function Friendly(st: BoardState, isWhite: bool): Word {
    if isWhite then WhitePieces(st) else BlackPieces(st)
  }

  /** The pieces of the other side. */
  function Enemy(st: BoardState, isWhite: bool): Word {
    if isWhite then BlackPieces(st) else WhitePieces(st)
  }

  /** The move a target loop adds for `to`: a capture when `1L << to` meets the enemy, else quiet. */
  function TargetMove(from: int, to: int, enemy: Word): Move {
    MoveOfKind(from, to, if HasBit(enemy, to) then Capture else QuietMove)
  }

  /** The moves a target loop adds, one per target square in the order visited. */
  function TargetMoves(from: int, targets: seq<int>, enemy: Word): seq<Move> {
    if targets == [] then [] else [TargetMove(from, targets[0], enemy)] + TargetMoves(from, targets[1..], enemy)
  }

  /** A target loop adds a move exactly for each of its targets, and no other move. */
  lemma {:induction false} TargetMovesMembers(from: int, targets: seq<int>, enemy: Word, m: Move)
    ensures m in TargetMoves(from, targets, enemy) <==> m.to in targets && m == TargetMove(from, m.to, enemy)
  {
    if targets != [] {
      TargetMovesMembers(from, targets[1..], enemy, m);
      assert targets == [targets[0]] + targets[1..];
    }
  }

  /**
   * The inner loop of the generators: takes the lowest set bit of `attacks` as the target,
   * clears it, and adds a capture or a quiet move from `from`.
   */
  method AddTargetMoves(from: int, attacks: Word, enemy: Word, moves0: seq<Move>) returns (moves: seq<Move>)
    ensures moves == moves0 + TargetMoves(from, Squares(attacks), enemy)
  {
    moves := moves0;
    var rest := attacks;
    while rest != {}
      invariant moves + TargetMoves(from, Squares(rest), enemy) == moves0 + TargetMoves(from, Squares(attacks), enemy)
      decreases |rest|
    {
      var toSquare := Ntz(rest);
      ghost var visiting := Squares(rest);
      rest := ClearLowest(rest);
      assert visiting[0] == toSquare && visiting[1..] == Squares(rest);
      if HasBit(enemy, toSquare) {
        moves := moves + [MoveOfKind(from, toSquare, Capture)];
      } else {
        moves := moves + [MoveOfKind(from, toSquare, QuietMove)];
      }
    }
  }

  // ---------------------------------------------------------------------------------------
  // Knights, bishops, rooks and queens

  /** The four pieces whose generators differ only in the attack table they use. */
  datatype PieceKind = Knight | Bishop | Rook | Queen

  /** The bitboard of the given kind and colour. */
  function PiecesOf(st: BoardState, isWhite: bool, kind: PieceKind): Word {
    match kind
    case Knight => if isWhite then st.whiteKnights else st.blackKnights
    case Bishop => if isWhite then st.whiteBishops else st.blackBishops
    case Rook => if isWhite then st.whiteRooks else st.blackRooks
    case Queen => if isWhite then st.whiteQueens else st.blackQueens
  }

  /** The attack table of a piece of the kind on `square`. */
  function Reach(kind: PieceKind, square: int, occupied: Word): Word {
    match kind
    case Knight => KnightAttacks(square)
    case Bishop => DiagonalRays(square, occupied)
    case Rook => StraightRays(square, occupied)
    case Queen => Or(DiagonalRays(square, occupied), StraightRays(square, occupied))
  }

  /** The targets of a piece on `from`: its attack table without the friendly pieces. */
  function PieceTargets(st: BoardState, isWhite: bool, kind: PieceKind, from: int): Word {
    And(Reach(kind, from, Occupied(st)), Not(Friendly(st, isWhite)))
  }

  /** The moves the outer loop adds for the pieces on `froms`, in that order. */
  function PieceMovesFrom(st: BoardState, isWhite: bool, kind: PieceKind, froms: seq<int>): seq<Move> {
    OriginMoves(froms, TargetsOf(st, isWhite, kind), Enemy(st, isWhite))
  }

  /** The target squares of each origin square, as one value. */
  function TargetsOf(st: BoardState, isWhite: bool, kind: PieceKind): int -> Word {
    from => PieceTargets(st, isWhite, kind, from)
  }

  /** The outer loop over origin squares, for any table of targets. */
  function OriginMoves(froms: seq<int>, targetsOf: int -> Word, enemy: Word): seq<Move> {
    if froms == [] then []
    else TargetMoves(froms[0], Squares(targetsOf(froms[0])), enemy) + OriginMoves(froms[1..], targetsOf, enemy)
  }

  /** The moves of all pieces of the kind and colour, lowest origin square first. */
  function PieceMoves(st: BoardState, isWhite: bool, kind: PieceKind): seq<Move> {
    PieceMovesFrom(st, isWhite, kind, Squares(PiecesOf(st, isWhite, kind)))
  }

  lemma PieceMovesFromMembers(st: BoardState, isWhite: bool, kind: PieceKind, froms: seq<int>, m: Move)
    ensures m in PieceMovesFrom(st, isWhite, kind, froms) <==>
      m.from in froms && m.to in PieceTargets(st, isWhite, kind, m.from) && m == TargetMove(m.from, m.to, Enemy(st, isWhite))
  {
    OriginMovesMembers(froms, TargetsOf(st, isWhite, kind), Enemy(st, isWhite), m);
    assert TargetsOf(st, isWhite, kind)(m.from) == PieceTargets(st, isWhite, kind, m.from);
  }

  /** The outer loop yields exactly the target moves from one of its origins to one of that origin's targets. */
  lemma {:induction false} OriginMovesMembers(froms: seq<int>, targetsOf: int -> Word, enemy: Word, m: Move)
    ensures m in OriginMoves(froms, targetsOf, enemy) <==>
      m.from in froms && m.to in targetsOf(m.from) && m == TargetMove(m.from, m.to, enemy)
  {
    if froms != [] {
      var from := froms[0];
      OriginMovesMembers(froms[1..], targetsOf, enemy, m);
      OriginMembers(from, targetsOf(from), enemy, m);
      assert froms == [from] + froms[1..];
    }
  }

  /** The moves of one piece are the target moves from its square to its target squares. */
  lemma OriginMembers(from: int, targets: Word, enemy: Word, m: Move)
    ensures m in TargetMoves(from, Squares(targets), enemy) <==>
      m.from == from && m.to in targets && m == TargetMove(m.from, m.to, enemy)
  {
    TargetMovesMembers(from, Squares(targets), enemy, m);
    SquaresMembers(targets, m.to);
  }

  /** A move a target loop adds for a target not holding a friendly piece, spelled out field by field. */
  lemma TargetUnpacked(reach: Word, friendly: Word, enemy: Word, m: Move)
    ensures m.to in And(reach, Not(friendly)) && m == TargetMove(m.from, m.to, enemy) <==>
      m.to in reach && m.to !in friendly &&
      m.moveType == (if m.to in enemy then Capture else QuietMove) && m.promotionPiece == 0
  {
    if m.to in reach {
      assert HasBit(enemy, m.to) <==> m.to in enemy;
    }
  }

  /**
   * The generator of a kind yields exactly the moves from a piece of that kind and colour to
   * a square of its attack table not holding a friendly piece: a capture when an enemy piece
   * stands there and a quiet move otherwise, with promotion code 0.
   */
  lemma PieceMovesExact(st: BoardState, isWhite: bool, kind: PieceKind, m: Move)
    ensures m in PieceMoves(st, isWhite, kind) <==>
      m.from in PiecesOf(st, isWhite, kind) && m.to in Reach(kind, m.from, Occupied(st)) &&
      m.to !in Friendly(st, isWhite) &&
      m.moveType == (if m.to in Enemy(st, isWhite) then Capture else QuietMove) && m.promotionPiece == 0
  {
    PieceMovesFromMembers(st, isWhite, kind, Squares(PiecesOf(st, isWhite, kind)), m);
    SquaresMembers(PiecesOf(st, isWhite, kind), m.from);
    TargetUnpacked(Reach(kind, m.from, Occupied(st)), Friendly(st, isWhite), Enemy(st, isWhite), m);
  }

  /** Every knight move from a square below h8 is a knight jump on the board. */
  lemma KnightMovesJump(st: BoardState, isWhite: bool, m: Move)
    requires m in PieceMoves(st, isWhite, Knight) && m.from != H8
    ensures KnightMove(m.from, m.to)
  {
    PieceMovesExact(st, isWhite, Knight, m);
    KnightAttacksAreKnightMoves(m.from, m.to);
  }

  /** One turn of the outer loop: the moves of the lowest piece, then those of the rest. */
  lemma PieceMovesStep(st: BoardState, isWhite: bool, kind: PieceKind, pieces: Word)
    requires pieces != {}
    ensures PieceMovesFrom(st, isWhite, kind, Squares(pieces)) ==
      TargetMoves(Ntz(pieces), Squares(PieceTargets(st, isWhite, kind, Ntz(pieces))), Enemy(st, isWhite)) +
      PieceMovesFrom(st, isWhite, kind, Squares(ClearLowest(pieces)))
  {
    var targetsOf := TargetsOf(st, isWhite, kind);
    OriginMovesStep(pieces, targetsOf, Enemy(st, isWhite));
    assert targetsOf(Ntz(pieces)) == PieceTargets(st, isWhite, kind, Ntz(pieces));
  }

  lemma OriginMovesStep(pieces: Word, targetsOf: int -> Word, enemy: Word)
    requires pieces != {}
    ensures OriginMoves(Squares(pieces), targetsOf, enemy) ==
      TargetMoves(Ntz(pieces), Squares(targetsOf(Ntz(pieces))), enemy) + OriginMoves(Squares(ClearLowest(pieces)), targetsOf, enemy)
  {
    var visiting := Squares(pieces);
    assert visiting[0] == Ntz(pieces) && visiting[1..] == Squares(ClearLowest(pieces));
  }

  /** The attack table call of each generator: `getKnightAttacks`, `getDiagonalAttacks`, `getStraightAttacks` or `getQueenAttacks`. */
  method AttackTable(kind: PieceKind, square: int, occupied: Word) returns (attacks: Word)
    ensures attacks == Reach(kind, square, occupied)
  {
    match kind {
      case Knight => attacks := KnightAttacks(square);
      case Bishop => attacks := DiagonalAttacks(square, occupied);
      case Rook => attacks := StraightAttacks(square, occupied);
      case Queen => attacks := QueenAttacks(square, occupied);
    }
  }

  /**
   * The outer loop of `generateKnightMoves`, `generateBishopMoves`, `generateRookMoves` and
   * `generateQueenMoves`: takes the lowest piece, clears it, and runs the target loop over
   * its attack table without the friendly pieces.
   */
  method GeneratePieceMoves(board: Board, isWhite: bool, kind: PieceKind) returns (moves: seq<Move>)
    ensures moves == PieceMoves(board.state, isWhite, kind)
  {
    var st := board.state;
    var pieces := PiecesOf(st, isWhite, kind);
    var friendlyPieces := Friendly(st, isWhite);
    var enemyPieces := Enemy(st, isWhite);
    var occupied := Occupied(st);
    moves := [];
    while pieces != {}
      invariant moves + PieceMovesFrom(st, isWhite, kind, Squares(pieces)) == PieceMoves(st, isWhite, kind)
      decreases |pieces|
    {
      var fromSquare := Ntz(pieces);
      PieceMovesStep(st, isWhite, kind, pieces);
      pieces := ClearLowest(pieces);
      var attacks := AttackTable(kind, fromSquare, occupied);
      attacks := And(attacks, Not(friendlyPieces));
      Appended(moves, TargetMoves(fromSquare, Squares(attacks), enemyPieces), PieceMovesFrom(st, isWhite, kind, Squares(pieces)));
      moves := AddTargetMoves(fromSquare, attacks, enemyPieces, moves);
    }
  }

  /** `generateKnightMoves(board, isWhite)`. */
  method GenerateKnightMoves(board: Board, isWhite: bool) returns (moves: seq<Move>)
    ensures moves == PieceMoves(board.state, isWhite, Knight)
  {
    moves := GeneratePieceMoves(board, isWhite, Knight);
  }

  /** `generateBishopMoves(board, isWhite)`. */
  method GenerateBishopMoves(board: Board, isWhite: bool) returns (moves: seq<Move>)
    ensures moves == PieceMoves(board.state, isWhite, Bishop)
  {
    moves := GeneratePieceMoves(board, isWhite, Bishop);
  }

  /** `generateRookMoves(board, isWhite)`. */
  method GenerateRookMoves(board: Board, isWhite: bool) returns (moves: seq<Move>)
    ensures moves == PieceMoves(board.state, isWhite, Rook)
  {
    moves := GeneratePieceMoves(board, isWhite, Rook);
  }

  /** `generateQueenMoves(board, isWhite)`. */
  method GenerateQueenMoves(board: Board, isWhite: bool) returns (moves: seq<Move>)
    ensures moves == PieceMoves(board.state, isWhite, Queen)
  {
    moves := GeneratePieceMoves(board, isWhite, Queen);
  }

  // ---------------------------------------------------------------------------------------
  // King and castling

  // The squares `addCastlingMoves` requires to be empty, as the Java masks give them.
  const WhiteKingsidePath: Word := {B1, C1}  // 0x0000000000000006
  const WhiteQueensidePath: Word := {B1, C1, D1}  // 0x000000000000000E
  const BlackKingsidePath: Word := {B8, C8}  // 0x0600000000000000
  const BlackQueensidePath: Word := {B8, C8, D8}  // 0x0E00000000000000

  /**
   * One castling test of `addCastlingMoves`: the right is held, the path mask meets no piece,
   * and none of the three squares (the king's square and the two it crosses) is attacked by
   * `byWhite`.
   */
  predicate CastleAllowed(st: BoardState, right: bool, path: Word, s1: int, s2: int, s3: int, byWhite: bool) {
    right && And(Occupied(st), path) == {} &&
    !SquareAttacked(st, s1, byWhite) && !SquareAttacked(st, s2, byWhite) && !SquareAttacked(st, s3, byWhite)
  }

  /** One castling move when its test passes, none otherwise. */
  function CastleMove(st: BoardState, right: bool, path: Word, s1: int, s2: int, s3: int, byWhite: bool, move: Move): seq<Move> {
    if CastleAllowed(st, right, path, s1, s2, s3, byWhite) then [move] else []
  }

  /** The castling moves `addCastlingMoves` adds: kingside first, then queenside. */
  function CastlingMoves(st: BoardState, isWhite: bool): seq<Move> {
    if isWhite then
      CastleMove(st, st.whiteKingsideCastle, WhiteKingsidePath, E1, F1, G1, false, MoveOfKind(E1, G1, KingCastle)) +
      CastleMove(st, st.whiteQueensideCastle, WhiteQueensidePath, E1, D1, C1, false, MoveOfKind(E1, C1, QueenCastle))
    else
      CastleMove(st, st.blackKingsideCastle, BlackKingsidePath, E8, F8, G8, true, MoveOfKind(E8, G8, KingCastle)) +
      CastleMove(st, st.blackQueensideCastle, BlackQueensidePath, E8, D8, C8, true, MoveOfKind(E8, C8, QueenCastle))
  }

  /**
   * One castling test of `addCastlingMoves`: the right, the empty path and the three safe
   * squares are tested in that order, and the first failure answers.
   */
  method CastleTest(board: Board, right: bool, path: Word, s1: int, s2: int, s3: int, byWhite: bool)
    returns (allowed: bool)
    ensures allowed == CastleAllowed(board.state, right, path, s1, s2, s3, byWhite)
  {
    if !right || And(Occupied(board.state), path) != {} {
      return false;
    }
    var attacked := IsSquareAttacked(board, s1, byWhite);
    if attacked {
      return false;
    }
    attacked := IsSquareAttacked(board, s2, byWhite);
    if attacked {
      return false;
    }
    attacked := IsSquareAttacked(board, s3, byWhite);
    return !attacked;
  }

  /** One castling test and the move it adds when it passes. */
  method AddCastle(board: Board, right: bool, path: Word, s1: int, s2: int, s3: int, byWhite: bool, move: Move,
                   moves0: seq<Move>) returns (moves: seq<Move>)
    ensures moves == moves0 + CastleMove(board.state, right, path, s1, s2, s3, byWhite, move)
  {
    var allowed := CastleTest(board, right, path, s1, s2, s3, byWhite);
    if allowed {
      moves := moves0 + [move];
    } else {
      moves := moves0;
      assert moves0 + [] == moves0;
    }
  }

  /** `addCastlingMoves(board, isWhite, moves)`: kingside first, then queenside. */
  method AddCastlingMoves(board: Board, isWhite: bool, moves0: seq<Move>) returns (moves: seq<Move>)
    ensures moves == moves0 + CastlingMoves(board.state, isWhite)
  {
    var st := board.state;
    if isWhite {
      moves := AddCastle(board, st.whiteKingsideCastle, WhiteKingsidePath, E1, F1, G1, false, MoveOfKind(E1, G1, KingCastle), moves0);
      moves := AddCastle(board, st.whiteQueensideCastle, WhiteQueensidePath, E1, D1, C1, false, MoveOfKind(E1, C1, QueenCastle), moves);
      Appended(moves0, CastleMove(st, st.whiteKingsideCastle, WhiteKingsidePath, E1, F1, G1, false, MoveOfKind(E1, G1, KingCastle)),
        CastleMove(st, st.whiteQueensideCastle, WhiteQueensidePath, E1, D1, C1, false, MoveOfKind(E1, C1, QueenCastle)));
    } else {
      moves := AddCastle(board, st.blackKingsideCastle, BlackKingsidePath, E8, F8, G8, true, MoveOfKind(E8, G8, KingCastle), moves0);
      moves := AddCastle(board, st.blackQueensideCastle, BlackQueensidePath, E8, D8, C8, true, MoveOfKind(E8, C8, QueenCastle), moves);
      Appended(moves0, CastleMove(st, st.blackKingsideCastle, BlackKingsidePath, E8, F8, G8, true, MoveOfKind(E8, G8, KingCastle)),
        CastleMove(st, st.blackQueensideCastle, BlackQueensidePath, E8, D8, C8, true, MoveOfKind(E8, C8, QueenCastle)));
    }
  }

  /** A word holding neither of two squares meets no square of the pair. */
  lemma PathClear(occupied: Word, a: int, b: int)
    requires 0 <= a < 64 && 0 <= b < 64
    requires a !in occupied && b !in occupied
    ensures And(occupied, {a, b}) == {}
  {
    assert forall i :: i in And(occupied, {a, b}) <==> false;
  }

  /**
   * The kingside path masks are the squares next to the king towards the queenside (b and
   * c), so white castles kingside while pieces stand on f1 and g1, and is refused for a
   * piece on b1 or c1.
   */
  lemma KingsideCastlePathQuirk(st: BoardState)
    requires st.whiteKingsideCastle
    requires B1 !in Occupied(st) && C1 !in Occupied(st)
    requires !SquareAttacked(st, E1, false) && !SquareAttacked(st, F1, false) && !SquareAttacked(st, G1, false)
    ensures MoveOfKind(E1, G1, KingCastle) in CastlingMoves(st, true)
  {
    PathClear(Occupied(st), B1, C1);
    assert CastleAllowed(st, st.whiteKingsideCastle, WhiteKingsidePath, E1, F1, G1, false);
    var kingside := CastleMove(st, st.whiteKingsideCastle, WhiteKingsidePath, E1, F1, G1, false, MoveOfKind(E1, G1, KingCastle));
    assert kingside == [MoveOfKind(E1, G1, KingCastle)];
    assert kingside[0] in CastlingMoves(st, true);
  }

  /** The king's steps: its table from its square, without the friendly pieces. */
  function KingSteps(st: BoardState, isWhite: bool): seq<Move> {
    var kingSquare := KingSquare(st, isWhite);
    TargetMoves(kingSquare, Squares(And(KingAttacks(kingSquare), Not(Friendly(st, isWhite)))), Enemy(st, isWhite))
  }

  /** The moves of the king: its steps, then the castling moves. */
  function KingMoves(st: BoardState, isWhite: bool): seq<Move> {
    KingSteps(st, isWhite) + CastlingMoves(st, isWhite)
  }

  /**
   * The king's steps go from the king's square onto a square of the king table without a
   * friendly piece, as a capture exactly onto an enemy piece.
   */
  lemma KingStepsExact(st: BoardState, isWhite: bool, m: Move)
    ensures m in KingSteps(st, isWhite) <==>
      m.from == KingSquare(st, isWhite) && m.to in KingAttacks(m.from) && m.to !in Friendly(st, isWhite) &&
      m.moveType == (if m.to in Enemy(st, isWhite) then Capture else QuietMove) && m.promotionPiece == 0
  {
    var kingSquare := KingSquare(st, isWhite);
    TargetMovesMembers(kingSquare, Squares(And(KingAttacks(kingSquare), Not(Friendly(st, isWhite)))), Enemy(st, isWhite), m);
    SquaresMembers(And(KingAttacks(kingSquare), Not(Friendly(st, isWhite))), m.to);
    TargetUnpacked(KingAttacks(kingSquare), Friendly(st, isWhite), Enemy(st, isWhite), m);
  }

  /** A castling test adds its own move or nothing. */
  lemma CastleMoveMembers(st: BoardState, right: bool, path: Word, s1: int, s2: int, s3: int, byWhite: bool, move: Move, m: Move)
    ensures m in CastleMove(st, right, path, s1, s2, s3, byWhite, move) <==>
      m == move && CastleAllowed(st, right, path, s1, s2, s3, byWhite)
  {
  }

  /** Every castling move is a castle of the king from its home square. */
  lemma CastlingMovesShape(st: BoardState, isWhite: bool, m: Move)
    requires m in CastlingMoves(st, isWhite)
    ensures IsCastling(m) && m.from == (if isWhite then E1 else E8)
    ensures m.to == (if isWhite then (if m.moveType == KingCastle then G1 else C1) else (if m.moveType == KingCastle then G8 else C8))
  {
    if isWhite {
      CastleMoveMembers(st, st.whiteKingsideCastle, WhiteKingsidePath, E1, F1, G1, false, MoveOfKind(E1, G1, KingCastle), m);
      CastleMoveMembers(st, st.whiteQueensideCastle, WhiteQueensidePath, E1, D1, C1, false, MoveOfKind(E1, C1, QueenCastle), m);
    } else {
      CastleMoveMembers(st, st.blackKingsideCastle, BlackKingsidePath, E8, F8, G8, true, MoveOfKind(E8, G8, KingCastle), m);
      CastleMoveMembers(st, st.blackQueensideCastle, BlackQueensidePath, E8, D8, C8, true, MoveOfKind(E8, C8, QueenCastle), m);
    }
  }

  /** A piece on b1 refuses white's kingside castle, whatever stands on f1 and g1. */
  lemma KingsideCastleBlockedByB1(st: BoardState)
    requires B1 in Occupied(st)
    ensures MoveOfKind(E1, G1, KingCastle) !in CastlingMoves(st, true)
  {
    assert B1 in And(Occupied(st), WhiteKingsidePath);
    CastleMoveMembers(st, st.whiteKingsideCastle, WhiteKingsidePath, E1, F1, G1, false, MoveOfKind(E1, G1, KingCastle), MoveOfKind(E1, G1, KingCastle));
    CastleMoveMembers(st, st.whiteQueensideCastle, WhiteQueensidePath, E1, D1, C1, false, MoveOfKind(E1, C1, QueenCastle), MoveOfKind(E1, G1, KingCastle));
  }

  /** White does not castle kingside while black attacks f1, the square the king crosses. */
  lemma KingsideCastleThroughCheckRefused(st: BoardState)
    requires SquareAttacked(st, F1, false)
    ensures MoveOfKind(E1, G1, KingCastle) !in CastlingMoves(st, true)
  {
    CastleMoveMembers(st, st.whiteKingsideCastle, WhiteKingsidePath, E1, F1, G1, false, MoveOfKind(E1, G1, KingCastle), MoveOfKind(E1, G1, KingCastle));
    CastleMoveMembers(st, st.whiteQueensideCastle, WhiteQueensidePath, E1, D1, C1, false, MoveOfKind(E1, C1, QueenCastle), MoveOfKind(E1, G1, KingCastle));
  }

  /** `generateKingMoves(board, isWhite)`: the target loop from the king's square, then castling. */
  method GenerateKingMoves(board: Board, isWhite: bool) returns (moves: seq<Move>)
    ensures moves == KingMoves(board.state, isWhite)
  {
    var st := board.state;
    var king := if isWhite then st.whiteKing else st.blackKing;
    var kingSquare := Ntz(king);
    var friendlyPieces := Friendly(st, isWhite);
    var enemyPieces := Enemy(st, isWhite);
    var attacks := KingAttacks(kingSquare);
    attacks := And(attacks, Not(friendlyPieces));
    moves := AddTargetMoves(kingSquare, attacks, enemyPieces, []);
    NothingBefore(TargetMoves(kingSquare, Squares(attacks), enemyPieces));
    moves := AddCastlingMoves(board, isWhite, moves);
  }

  // ---------------------------------------------------------------------------------------
  // Pawns

  /** The pawns of the side that moves. */
  function Pawns(st: BoardState, isWhite: bool): Word {
    if isWhite then st.whitePawns else st.blackPawns
  }

  /** The square offset of one step forward for the colour. */
  function PushDirection(isWhite: bool): int {
    if isWhite then 8 else -8
  }

  /** The rank a pawn of the colour promotes on. */
  function PromotionRank(isWhite: bool): Word {
    if isWhite then Rank8 else Rank1
  }

  /** The rank a pawn of the colour promotes from. */
  function RankBeforePromotion(isWhite: bool): Word {
    if isWhite then Rank7 else Rank2
  }

  /** One rank forward for the colour: `<< 8` for white, the arithmetic `>> 8` for black. */
  function Forward(w: Word, isWhite: bool): Word {
    if isWhite then Shl(w, 8) else Sar(w, 8)
  }

  /** Targets of the single pushes: one rank forward, empty, not on the promotion rank. */
  function SinglePushes(st: BoardState, isWhite: bool): Word {
    And(And(Forward(Pawns(st, isWhite), isWhite), Empty(st)), Not(PromotionRank(isWhite)))
  }

  /** Targets of the double pushes: from the second rank over an empty square onto an empty square. */
  function DoublePushes(st: BoardState, isWhite: bool): Word {
    var candidates := And(Pawns(st, isWhite), if isWhite then Rank2 else Rank7);
    var crossed := And(Forward(candidates, isWhite), Empty(st));
    And(Forward(crossed, isWhite), Empty(st))
  }

  /** Targets of the captures towards the h-file side (`<< 9` for white, `>> 7` for black). */
  function LeftCaptures(st: BoardState, isWhite: bool): Word {
    var shifted := if isWhite then Shl(Pawns(st, isWhite), 9) else Sar(Pawns(st, isWhite), 7);
    And(And(And(shifted, NotFileH), Enemy(st, isWhite)), Not(PromotionRank(isWhite)))
  }

  /** Targets of the captures towards the a-file side (`<< 7` for white, `>> 9` for black). */
  function RightCaptures(st: BoardState, isWhite: bool): Word {
    var shifted := if isWhite then Shl(Pawns(st, isWhite), 7) else Sar(Pawns(st, isWhite), 9);
    And(And(And(shifted, NotFileA), Enemy(st, isWhite)), Not(PromotionRank(isWhite)))
  }

  /** Targets of the promoting pushes: from the rank before promotion onto an empty square. */
  function PromotionPushes(st: BoardState, isWhite: bool): Word {
    And(Forward(And(Pawns(st, isWhite), RankBeforePromotion(isWhite)), isWhite), Empty(st))
  }

  /** Targets of the promoting captures of the first direction. */
  function LeftPromotionCaptures(st: BoardState, isWhite: bool): Word {
    var ready := And(Pawns(st, isWhite), RankBeforePromotion(isWhite));
    var shifted := if isWhite then Shl(ready, 9) else Sar(ready, 7);
    And(And(shifted, NotFileH), Enemy(st, isWhite))
  }

  /** Targets of the promoting captures of the second direction. */
  function RightPromotionCaptures(st: BoardState, isWhite: bool): Word {
    var ready := And(Pawns(st, isWhite), RankBeforePromotion(isWhite));
    var shifted := if isWhite then Shl(ready, 7) else Sar(ready, 9);
    And(And(shifted, NotFileA), Enemy(st, isWhite))
  }

  /** The pawns that capture en passant onto `1L << enPassantSquare`. */
  function EnPassantCapturers(st: BoardState, isWhite: bool): Word {
    var target := Bit(st.enPassantSquare);
    var pawns := Pawns(st, isWhite);
    if isWhite then
      Or(And(And(Sar(target, 9), NotFileA), pawns), And(And(Sar(target, 7), NotFileH), pawns))
    else
      Or(And(And(Shl(target, 7), NotFileA), pawns), And(And(Shl(target, 9), NotFileH), pawns))
  }

  /** The words of the non-promoting loops hold no square of the promotion rank. */
  lemma StepWordsOffPromotionRank(st: BoardState, isWhite: bool, t: int)
    ensures (t in SinglePushes(st, isWhite) || t in LeftCaptures(st, isWhite) || t in RightCaptures(st, isWhite) ||
             t in DoublePushes(st, isWhite)) ==> t !in PromotionRank(isWhite)
  {
    DoublePushesExact(st, isWhite, t);
  }

  /** The promoting pushes land on the promotion rank. */
  lemma PromotionPushesOnPromotionRank(st: BoardState, isWhite: bool, t: int)
    requires t in PromotionPushes(st, isWhite)
    ensures t in PromotionRank(isWhite)
  {
    PromotionPushesExact(st, isWhite, t);
  }

  /** The promoting captures of the first direction land on the promotion rank. */
  lemma LeftPromotionCapturesOnPromotionRank(st: BoardState, isWhite: bool, t: int)
    requires t in LeftPromotionCaptures(st, isWhite)
    ensures t in PromotionRank(isWhite)
  {
    LeftPromotionCapturesExact(st, isWhite, t);
  }

  /** The promoting captures of the second direction land on the promotion rank. */
  lemma RightPromotionCapturesOnPromotionRank(st: BoardState, isWhite: bool, t: int)
    requires t in RightPromotionCaptures(st, isWhite)
    ensures t in PromotionRank(isWhite)
  {
    RightPromotionCapturesExact(st, isWhite, t);
  }

  /** The en passant capturers are pawns of the side. */
  lemma EnPassantCapturersArePawns(st: BoardState, isWhite: bool, f: int)
    requires f in EnPassantCapturers(st, isWhite)
    ensures f in Pawns(st, isWhite)
  {
  }

  /** The moves of a push or capture loop: one per target, from `to + offset`, of one kind. */
  function ShiftMoves(targets: seq<int>, offset: int, kind: int): seq<Move> {
    if targets == [] then [] else [MoveOfKind(targets[0] + offset, targets[0], kind)] + ShiftMoves(targets[1..], offset, kind)
  }

  /** The four promotions of one pawn move, knight first and queen last. */
  function Promotions(from: int, to: int, kind: int): seq<Move> {
    [Move(from, to, kind, KnightPromotion), Move(from, to, kind, BishopPromotion),
     Move(from, to, kind, RookPromotion), Move(from, to, kind, QueenPromotion)]
  }

  /** The moves of a promotion loop: four per target, from `to + offset`. */
  function PromotionMoves(targets: seq<int>, offset: int, kind: int): seq<Move> {
    if targets == [] then [] else Promotions(targets[0] + offset, targets[0], kind) + PromotionMoves(targets[1..], offset, kind)
  }

  /** The moves of the en passant loop: one per capturing pawn, onto the en passant square. */
  function EnPassantMoves(froms: seq<int>, ep: int): seq<Move> {
    if froms == [] then [] else [MoveOfKind(froms[0], ep, EnPassantCapture)] + EnPassantMoves(froms[1..], ep)
  }

  /** A push or capture loop adds exactly one move of its kind per target, from `to + offset`. */
  lemma {:induction false} ShiftMovesMembers(targets: seq<int>, offset: int, kind: int, m: Move)
    ensures m in ShiftMoves(targets, offset, kind) <==> m.to in targets && m == MoveOfKind(m.to + offset, m.to, kind)
  {
    if targets != [] {
      ShiftMovesMembers(targets[1..], offset, kind, m);
      assert targets == [targets[0]] + targets[1..];
    }
  }

  /** A promotion loop adds the four promotions of each target, and nothing else. */
  lemma {:induction false} PromotionMovesMembers(targets: seq<int>, offset: int, kind: int, m: Move)
    ensures m in PromotionMoves(targets, offset, kind) <==>
      m.to in targets && m.from == m.to + offset && m.moveType == kind &&
      KnightPromotion <= m.promotionPiece <= QueenPromotion
  {
    if targets != [] {
      PromotionMovesMembers(targets[1..], offset, kind, m);
      assert targets == [targets[0]] + targets[1..];
    }
  }

  /** A promotion loop adds four moves per target. */
  lemma {:induction false} PromotionMovesLength(targets: seq<int>, offset: int, kind: int)
    ensures |PromotionMoves(targets, offset, kind)| == 4 * |targets|
  {
    if targets != [] {
      PromotionMovesLength(targets[1..], offset, kind);
    }
  }

  /** The en passant loop adds one capture onto `ep` from each capturer, and nothing else. */
  lemma {:induction false} EnPassantMovesMembers(froms: seq<int>, ep: int, m: Move)
    ensures m in EnPassantMoves(froms, ep) <==> m.from in froms && m == MoveOfKind(m.from, ep, EnPassantCapture)
  {
    if froms != [] {
      EnPassantMovesMembers(froms[1..], ep, m);
      assert froms == [froms[0]] + froms[1..];
    }
  }

  /** A push or capture loop of `generatePawnMoves`: lowest target first. */
  method AddShiftMoves(targets: Word, offset: int, kind: int, moves0: seq<Move>) returns (moves: seq<Move>)
    ensures moves == moves0 + ShiftMoves(Squares(targets), offset, kind)
  {
    moves := moves0;
    var rest := targets;
    while rest != {}
      invariant moves + ShiftMoves(Squares(rest), offset, kind) == moves0 + ShiftMoves(Squares(targets), offset, kind)
      decreases |rest|
    {
      var toSquare := Ntz(rest);
      ghost var visiting := Squares(rest);
      rest := ClearLowest(rest);
      assert visiting[0] == toSquare && visiting[1..] == Squares(rest);
      Appended(moves, [MoveOfKind(toSquare + offset, toSquare, kind)], ShiftMoves(Squares(rest), offset, kind));
      moves := moves + [MoveOfKind(toSquare + offset, toSquare, kind)];
    }
  }

  /** A promotion loop of `generatePawnMoves`: lowest target first, four moves each. */
  method AddPromotionMoves(targets: Word, offset: int, kind: int, moves0: seq<Move>) returns (moves: seq<Move>)
    ensures moves == moves0 + PromotionMoves(Squares(targets), offset, kind)
  {
    moves := moves0;
    var rest := targets;
    while rest != {}
      invariant moves + PromotionMoves(Squares(rest), offset, kind) == moves0 + PromotionMoves(Squares(targets), offset, kind)
      decreases |rest|
    {
      var toSquare := Ntz(rest);
      ghost var visiting := Squares(rest);
      rest := ClearLowest(rest);
      assert visiting[0] == toSquare && visiting[1..] == Squares(rest);
      var fromSquare := toSquare + offset;
      ghost var before := moves;
      moves := moves + [Move(fromSquare, toSquare, kind, KnightPromotion)];
      moves := moves + [Move(fromSquare, toSquare, kind, BishopPromotion)];
      moves := moves + [Move(fromSquare, toSquare, kind, RookPromotion)];
      moves := moves + [Move(fromSquare, toSquare, kind, QueenPromotion)];
      FourAppended(before, Promotions(fromSquare, toSquare, kind));
      Appended(before, Promotions(fromSquare, toSquare, kind), PromotionMoves(Squares(rest), offset, kind));
    }
  }

  /** The en passant loop of `generatePawnMoves`: lowest capturer first. */
  method AddEnPassantMoves(capturers: Word, ep: int, moves0: seq<Move>) returns (moves: seq<Move>)
    ensures moves == moves0 + EnPassantMoves(Squares(capturers), ep)
  {
    moves := moves0;
    var rest := capturers;
    while rest != {}
      invariant moves + EnPassantMoves(Squares(rest), ep) == moves0 + EnPassantMoves(Squares(capturers), ep)
      decreases |rest|
    {
      var fromSquare := Ntz(rest);
      ghost var visiting := Squares(rest);
      rest := ClearLowest(rest);
      assert visiting[0] == fromSquare && visiting[1..] == Squares(rest);
      Appended(moves, [MoveOfKind(fromSquare, ep, EnPassantCapture)], EnPassantMoves(Squares(rest), ep));
      moves := moves + [MoveOfKind(fromSquare, ep, EnPassantCapture)];
    }
  }

  /**
   * The moves the eight loops of `generatePawnMoves` add for the given target words, in
   * order: single pushes, double pushes, the two capture directions, promoting pushes, the
   * two promoting capture directions, and the en passant captures when `ep` is not -1.
   */
  function PawnLoopMoves(isWhite: bool, single: Word, double: Word, left: Word, right: Word,
                         promotion: Word, leftPromotion: Word, rightPromotion: Word, ep: int, capturers: Word): seq<Move> {
    ShiftMoves(Squares(single), -PushDirection(isWhite), QuietMove) +
    ShiftMoves(Squares(double), -(PushDirection(isWhite) * 2), DoublePawnPush) +
    ShiftMoves(Squares(left), if isWhite then -9 else 7, Capture) +
    ShiftMoves(Squares(right), if isWhite then -7 else 9, Capture) +
    PromotionMoves(Squares(promotion), if isWhite then -8 else 8, Promotion) +
    PromotionMoves(Squares(leftPromotion), if isWhite then -9 else 7, PromotionCapture) +
    PromotionMoves(Squares(rightPromotion), if isWhite then -7 else 9, PromotionCapture) +
    (if ep != -1 then EnPassantMoves(Squares(capturers), ep) else [])
  }

  /** The moves `generatePawnMoves` returns. */
  function PawnMoves(st: BoardState, isWhite: bool): seq<Move> {
    PawnLoopMoves(isWhite, SinglePushes(st, isWhite), DoublePushes(st, isWhite), LeftCaptures(st, isWhite),
      RightCaptures(st, isWhite), PromotionPushes(st, isWhite), LeftPromotionCaptures(st, isWhite),
      RightPromotionCaptures(st, isWhite), st.enPassantSquare, EnPassantCapturers(st, isWhite))
  }

  /** The eight loops of `generatePawnMoves`, run over target words already computed. */
  method AddPawnLoops(isWhite: bool, single: Word, double: Word, left: Word, right: Word,
                      promotion: Word, leftPromotion: Word, rightPromotion: Word, ep: int, capturers: Word)
    returns (moves: seq<Move>)
    ensures moves == PawnLoopMoves(isWhite, single, double, left, right, promotion, leftPromotion, rightPromotion, ep, capturers)
  {
    var pushDirection := PushDirection(isWhite);
    moves := AddShiftMoves(single, -pushDirection, QuietMove, []);
    NothingBefore(ShiftMoves(Squares(single), -pushDirection, QuietMove));
    moves := AddShiftMoves(double, -(pushDirection * 2), DoublePawnPush, moves);
    moves := AddShiftMoves(left, if isWhite then -9 else 7, Capture, moves);
    moves := AddShiftMoves(right, if isWhite then -7 else 9, Capture, moves);
    moves := AddPromotionMoves(promotion, if isWhite then -8 else 8, Promotion, moves);
    moves := AddPromotionMoves(leftPromotion, if isWhite then -9 else 7, PromotionCapture, moves);
    moves := AddPromotionMoves(rightPromotion, if isWhite then -7 else 9, PromotionCapture, moves);
    if ep != -1 {
      moves := AddEnPassantMoves(capturers, ep, moves);
    } else {
      NothingAfter(moves);
    }
  }

  /** `generatePawnMoves(board, isWhite)`: the target words of the eight loops, then the loops. */
  method GeneratePawnMoves(board: Board, isWhite: bool) returns (moves: seq<Move>)
    ensures moves == PawnMoves(board.state, isWhite)
  {
    var st := board.state;
    moves := AddPawnLoops(isWhite, SinglePushes(st, isWhite), DoublePushes(st, isWhite), LeftCaptures(st, isWhite),
      RightCaptures(st, isWhite), PromotionPushes(st, isWhite), LeftPromotionCaptures(st, isWhite),
      RightPromotionCaptures(st, isWhite), st.enPassantSquare, EnPassantCapturers(st, isWhite));
  }

  // Which targets the pawn words hold. The black words built with `>>` on a board with a
  // black pawn on h8 (bit 63) also hold the sign-filled top squares; those lemmas exclude it.

  /** The single push targets: the square ahead of a pawn, empty and off the promotion rank. */
  lemma SinglePushesExact(st: BoardState, isWhite: bool, t: int)
    requires isWhite || H8 !in st.blackPawns
    ensures t in SinglePushes(st, isWhite) <==>
      0 <= t < 64 && t - PushDirection(isWhite) in Pawns(st, isWhite) && t !in Occupied(st) && t !in PromotionRank(isWhite)
  {
  }

  /** The double push targets: two squares ahead of a pawn on its second rank, both empty. */
  lemma DoublePushesExact(st: BoardState, isWhite: bool, t: int)
    ensures t in DoublePushes(st, isWhite) <==>
      0 <= t < 64 && t - 2 * PushDirection(isWhite) in Pawns(st, isWhite) &&
      t - 2 * PushDirection(isWhite) in (if isWhite then Rank2 else Rank7) &&
      t - PushDirection(isWhite) !in Occupied(st) && t !in Occupied(st)
  {
  }

  /** The first capture direction: an enemy piece off the a-file reached by `+9` (white) or `-7` (black). */
  lemma LeftCapturesExact(st: BoardState, isWhite: bool, t: int)
    requires isWhite || H8 !in st.blackPawns
    ensures t in LeftCaptures(st, isWhite) <==>
      0 <= t < 64 && t - (if isWhite then 9 else -7) in Pawns(st, isWhite) && t % 8 != 0 &&
      t in Enemy(st, isWhite) && t !in PromotionRank(isWhite)
  {
  }

  /** The second capture direction: an enemy piece off the h-file reached by `+7` (white) or `-9` (black). */
  lemma RightCapturesExact(st: BoardState, isWhite: bool, t: int)
    requires isWhite || H8 !in st.blackPawns
    ensures t in RightCaptures(st, isWhite) <==>
      0 <= t < 64 && t - (if isWhite then 7 else -9) in Pawns(st, isWhite) && t % 8 != 7 &&
      t in Enemy(st, isWhite) && t !in PromotionRank(isWhite)
  {
  }

  /** The promoting pushes: the empty square ahead of a pawn on the rank before promotion. */
  lemma PromotionPushesExact(st: BoardState, isWhite: bool, t: int)
    ensures t in PromotionPushes(st, isWhite) <==>
      0 <= t < 64 && t - PushDirection(isWhite) in Pawns(st, isWhite) &&
      t - PushDirection(isWhite) in RankBeforePromotion(isWhite) && t !in Occupied(st)
  {
  }

  /** The promoting captures of the first direction. */
  lemma LeftPromotionCapturesExact(st: BoardState, isWhite: bool, t: int)
    ensures t in LeftPromotionCaptures(st, isWhite) <==>
      0 <= t < 64 && t - (if isWhite then 9 else -7) in Pawns(st, isWhite) &&
      t - (if isWhite then 9 else -7) in RankBeforePromotion(isWhite) && t % 8 != 0 && t in Enemy(st, isWhite)
  {
  }

  /** The promoting captures of the second direction. */
  lemma RightPromotionCapturesExact(st: BoardState, isWhite: bool, t: int)
    ensures t in RightPromotionCaptures(st, isWhite) <==>
      0 <= t < 64 && t - (if isWhite then 7 else -9) in Pawns(st, isWhite) &&
      t - (if isWhite then 7 else -9) in RankBeforePromotion(isWhite) && t % 8 != 7 && t in Enemy(st, isWhite)
  {
  }

  /**
   * The en passant capturers: a pawn diagonally behind the en passant square (taken mod
   * 64, as `1L << ep` does), not wrapped round the board edge. For white the square 63
   * would sign-fill `>>`, so the lemma excludes it.
   */
  lemma EnPassantCapturersExact(st: BoardState, isWhite: bool, f: int)
    requires !isWhite || st.enPassantSquare % 64 != H8
    ensures f in EnPassantCapturers(st, isWhite) <==>
      var e := st.enPassantSquare % 64;
      f in Pawns(st, isWhite) &&
      if isWhite then (f == e - 9 && f % 8 != 7) || (f == e - 7 && f % 8 != 0)
      else (f == e + 7 && f % 8 != 7) || (f == e + 9 && f % 8 != 0)
  {
  }

  /**
   * The pawn loops add, for each target of a push or capture word, the one move of its kind
   * from `to + offset`; for each target of a promotion word, its four promotions; and, when
   * `ep` is set, one en passant capture from each capturer. Nothing else.
   */
  lemma PawnLoopMembers(isWhite: bool, single: Word, double: Word, left: Word, right: Word,
                        promotion: Word, leftPromotion: Word, rightPromotion: Word, ep: int, capturers: Word, m: Move)
    ensures m in PawnLoopMoves(isWhite, single, double, left, right, promotion, leftPromotion, rightPromotion, ep, capturers) <==>
      (m.to in single && m == MoveOfKind(m.to - PushDirection(isWhite), m.to, QuietMove)) ||
      (m.to in double && m == MoveOfKind(m.to - PushDirection(isWhite) * 2, m.to, DoublePawnPush)) ||
      (m.to in left && m == MoveOfKind(m.to + (if isWhite then -9 else 7), m.to, Capture)) ||
      (m.to in right && m == MoveOfKind(m.to + (if isWhite then -7 else 9), m.to, Capture)) ||
      (m.to in promotion && m.from == m.to + (if isWhite then -8 else 8) && m.moveType == Promotion &&
       KnightPromotion <= m.promotionPiece <= QueenPromotion) ||
      (m.to in leftPromotion && m.from == m.to + (if isWhite then -9 else 7) && m.moveType == PromotionCapture &&
       KnightPromotion <= m.promotionPiece <= QueenPromotion) ||
      (m.to in rightPromotion && m.from == m.to + (if isWhite then -7 else 9) && m.moveType == PromotionCapture &&
       KnightPromotion <= m.promotionPiece <= QueenPromotion) ||
      (ep != -1 && m.from in capturers && m == MoveOfKind(m.from, ep, EnPassantCapture))
  {
    ShiftMovesMembers(Squares(single), -PushDirection(isWhite), QuietMove, m);
    SquaresMembers(single, m.to);
    ShiftMovesMembers(Squares(double), -(PushDirection(isWhite) * 2), DoublePawnPush, m);
    SquaresMembers(double, m.to);
    ShiftMovesMembers(Squares(left), if isWhite then -9 else 7, Capture, m);
    SquaresMembers(left, m.to);
    ShiftMovesMembers(Squares(right), if isWhite then -7 else 9, Capture, m);
    SquaresMembers(right, m.to);
    PromotionMovesMembers(Squares(promotion), if isWhite then -8 else 8, Promotion, m);
    SquaresMembers(promotion, m.to);
    PromotionMovesMembers(Squares(leftPromotion), if isWhite then -9 else 7, PromotionCapture, m);
    SquaresMembers(leftPromotion, m.to);
    PromotionMovesMembers(Squares(rightPromotion), if isWhite then -7 else 9, PromotionCapture, m);
    SquaresMembers(rightPromotion, m.to);
    EnPassantMovesMembers(Squares(capturers), ep, m);
    SquaresMembers(capturers, m.from);
  }

  /** The pawn loop moves by kind: which word each kind comes from, and from which square. */
  lemma PawnLoopKinds(isWhite: bool, single: Word, double: Word, left: Word, right: Word,
                      promotion: Word, leftPromotion: Word, rightPromotion: Word, ep: int, capturers: Word, m: Move)
    requires m in PawnLoopMoves(isWhite, single, double, left, right, promotion, leftPromotion, rightPromotion, ep, capturers)
    ensures m.moveType == QuietMove || m.moveType == DoublePawnPush || m.moveType == Capture ||
            m.moveType == Promotion || m.moveType == PromotionCapture || m.moveType == EnPassantCapture
    ensures m.moveType == QuietMove ==> m.to in single && m.from == m.to - PushDirection(isWhite)
    ensures m.moveType == DoublePawnPush ==> m.to in double && m.from == m.to - PushDirection(isWhite) * 2
    ensures m.moveType == Capture ==>
      (m.to in left && m.from == m.to + (if isWhite then -9 else 7)) ||
      (m.to in right && m.from == m.to + (if isWhite then -7 else 9))
    ensures m.moveType == Promotion ==> m.to in promotion && m.from == m.to + (if isWhite then -8 else 8)
    ensures m.moveType == PromotionCapture ==>
      (m.to in leftPromotion && m.from == m.to + (if isWhite then -9 else 7)) ||
      (m.to in rightPromotion && m.from == m.to + (if isWhite then -7 else 9))
    ensures m.moveType == EnPassantCapture ==> ep != -1 && m.to == ep && m.from in capturers
  {
    PawnLoopMembers(isWhite, single, double, left, right, promotion, leftPromotion, rightPromotion, ep, capturers, m);
  }

  /** `PawnLoopKinds` for the words of a position. */
  lemma PawnMoveKinds(st: BoardState, isWhite: bool, m: Move)
    requires m in PawnMoves(st, isWhite)
    ensures m.moveType == QuietMove || m.moveType == DoublePawnPush || m.moveType == Capture ||
            m.moveType == Promotion || m.moveType == PromotionCapture || m.moveType == EnPassantCapture
    ensures m.moveType == QuietMove ==> m.to in SinglePushes(st, isWhite) && m.from == m.to - PushDirection(isWhite)
    ensures m.moveType == DoublePawnPush ==> m.to in DoublePushes(st, isWhite) && m.from == m.to - PushDirection(isWhite) * 2
    ensures m.moveType == Capture ==>
      (m.to in LeftCaptures(st, isWhite) && m.from == m.to + (if isWhite then -9 else 7)) ||
      (m.to in RightCaptures(st, isWhite) && m.from == m.to + (if isWhite then -7 else 9))
    ensures m.moveType == Promotion ==> m.to in PromotionPushes(st, isWhite) && m.from == m.to + (if isWhite then -8 else 8)
    ensures m.moveType == PromotionCapture ==>
      (m.to in LeftPromotionCaptures(st, isWhite) && m.from == m.to + (if isWhite then -9 else 7)) ||
      (m.to in RightPromotionCaptures(st, isWhite) && m.from == m.to + (if isWhite then -7 else 9))
    ensures m.moveType == EnPassantCapture ==>
      st.enPassantSquare != -1 && m.to == st.enPassantSquare && m.from in EnPassantCapturers(st, isWhite)
  {
    PawnLoopKinds(isWhite, SinglePushes(st, isWhite), DoublePushes(st, isWhite), LeftCaptures(st, isWhite),
      RightCaptures(st, isWhite), PromotionPushes(st, isWhite), LeftPromotionCaptures(st, isWhite),
      RightPromotionCaptures(st, isWhite), st.enPassantSquare, EnPassantCapturers(st, isWhite), m);
  }

  /** `PawnLoopMembers` for the words of a position. */
  lemma PawnMovesMembers(st: BoardState, isWhite: bool, m: Move)
    ensures m in PawnMoves(st, isWhite) <==>
      (m.to in SinglePushes(st, isWhite) && m == MoveOfKind(m.to - PushDirection(isWhite), m.to, QuietMove)) ||
      (m.to in DoublePushes(st, isWhite) && m == MoveOfKind(m.to - PushDirection(isWhite) * 2, m.to, DoublePawnPush)) ||
      (m.to in LeftCaptures(st, isWhite) && m == MoveOfKind(m.to + (if isWhite then -9 else 7), m.to, Capture)) ||
      (m.to in RightCaptures(st, isWhite) && m == MoveOfKind(m.to + (if isWhite then -7 else 9), m.to, Capture)) ||
      (m.to in PromotionPushes(st, isWhite) && m.from == m.to + (if isWhite then -8 else 8) && m.moveType == Promotion &&
       KnightPromotion <= m.promotionPiece <= QueenPromotion) ||
      (m.to in LeftPromotionCaptures(st, isWhite) && m.from == m.to + (if isWhite then -9 else 7) &&
       m.moveType == PromotionCapture && KnightPromotion <= m.promotionPiece <= QueenPromotion) ||
      (m.to in RightPromotionCaptures(st, isWhite) && m.from == m.to + (if isWhite then -7 else 9) &&
       m.moveType == PromotionCapture && KnightPromotion <= m.promotionPiece <= QueenPromotion) ||
      (st.enPassantSquare != -1 && m.from in EnPassantCapturers(st, isWhite) &&
       m == MoveOfKind(m.from, st.enPassantSquare, EnPassantCapture))
  {
    PawnLoopMembers(isWhite, SinglePushes(st, isWhite), DoublePushes(st, isWhite), LeftCaptures(st, isWhite),
      RightCaptures(st, isWhite), PromotionPushes(st, isWhite), LeftPromotionCaptures(st, isWhite),
      RightPromotionCaptures(st, isWhite), st.enPassantSquare, EnPassantCapturers(st, isWhite), m);
  }

  /** A pawn capture, promoting or not, lands on an enemy piece. */
  lemma PawnCapturesOntoEnemy(st: BoardState, isWhite: bool, m: Move)
    requires m in PawnMoves(st, isWhite)
    requires m.moveType == Capture || m.moveType == PromotionCapture
    ensures m.to in Enemy(st, isWhite)
  {
    PawnMoveKinds(st, isWhite, m);
  }

  /** A pawn push, double push or promoting push lands on an empty square. */
  lemma PawnPushesOntoEmpty(st: BoardState, isWhite: bool, m: Move)
    requires m in PawnMoves(st, isWhite)
    requires m.moveType == QuietMove || m.moveType == DoublePawnPush || m.moveType == Promotion
    ensures 0 <= m.to < 64 && m.to !in Occupied(st)
  {
    PawnMoveKinds(st, isWhite, m);
  }

  /** A pawn move other than en passant promotes exactly when it lands on the promotion rank. */
  lemma PawnPromotesOnLastRank(st: BoardState, isWhite: bool, m: Move)
    requires m in PawnMoves(st, isWhite)
    requires m.moveType != EnPassantCapture
    ensures IsPromotion(m) <==> m.to in PromotionRank(isWhite)
  {
    PawnMoveKinds(st, isWhite, m);
    StepWordsOffPromotionRank(st, isWhite, m.to);
    if m.moveType == Promotion {
      PromotionPushesOnPromotionRank(st, isWhite, m.to);
    } else if m.moveType == PromotionCapture {
      if m.to in LeftPromotionCaptures(st, isWhite) {
        LeftPromotionCapturesOnPromotionRank(st, isWhite, m.to);
      } else {
        RightPromotionCapturesOnPromotionRank(st, isWhite, m.to);
      }
    }
  }

  /** An en passant capture goes from a pawn of the side onto the en passant square, which is set. */
  lemma PawnEnPassantOntoSquare(st: BoardState, isWhite: bool, m: Move)
    requires m in PawnMoves(st, isWhite)
    requires m.moveType == EnPassantCapture
    ensures st.enPassantSquare != -1 && m.to == st.enPassantSquare && m.from in Pawns(st, isWhite)
  {
    PawnMoveKinds(st, isWhite, m);
    EnPassantCapturersArePawns(st, isWhite, m.from);
  }

  /** How many ranks `to` lies ahead of `from` for a pawn of the colour. */
  function Advance(from: int, to: int, isWhite: bool): int {
    if isWhite then to / 8 - from / 8 else from / 8 - to / 8
  }

  /** `to` is one rank ahead of `from` for the colour, on a neighbouring file. */
  predicate DiagonalAdvance(from: int, to: int, isWhite: bool) {
    Abs(to % 8 - from % 8) == 1 && Advance(from, to, isWhite) == 1
  }

  /** A step of 8 or 16 squares stays on the file and crosses one or two ranks. */
  lemma StraightStep(from: int, to: int)
    requires 0 <= from < 64 && 0 <= to < 64
    requires to == from + 8 || to == from - 8 || to == from + 16 || to == from - 16
    ensures to % 8 == from % 8
    ensures to / 8 - from / 8 == (to - from) / 8
  {
  }

  /** A diagonal step not wrapped round the board edge changes file and rank by one. */
  lemma DiagonalStep(from: int, to: int)
    requires 0 <= from < 64 && 0 <= to < 64
    requires (to == from + 9 && to % 8 != 0) || (to == from + 7 && to % 8 != 7) ||
             (to == from - 7 && to % 8 != 0) || (to == from - 9 && to % 8 != 7)
    ensures Abs(to % 8 - from % 8) == 1
    ensures to / 8 - from / 8 == (if to > from then 1 else -1)
  {
  }

  /** The en passant capturer sits diagonally behind the target, not wrapped round the board edge. */
  lemma CapturerStep(f: int, e: int)
    requires 0 <= f < 64 && 0 <= e < 64
    requires (f == e - 9 && f % 8 != 7) || (f == e - 7 && f % 8 != 0) ||
             (f == e + 7 && f % 8 != 7) || (f == e + 9 && f % 8 != 0)
    ensures Abs(e % 8 - f % 8) == 1
    ensures e / 8 - f / 8 == (if e > f then 1 else -1)
  {
  }

  /** A single push or promoting push goes one rank straight ahead from a pawn of the side. */
  lemma PushGeometry(st: BoardState, isWhite: bool, from: int, to: int)
    requires (to in SinglePushes(st, isWhite) && (isWhite || H8 !in st.blackPawns)) || to in PromotionPushes(st, isWhite)
    requires from == to - PushDirection(isWhite)
    ensures from in Pawns(st, isWhite) && 0 <= to < 64
    ensures to % 8 == from % 8 && Advance(from, to, isWhite) == 1
  {
    if to in PromotionPushes(st, isWhite) {
      PromotionPushesExact(st, isWhite, to);
    } else {
      SinglePushesExact(st, isWhite, to);
    }
    StraightStep(from, to);
  }

  /** A double push goes two ranks straight ahead from a pawn of the side on its second rank. */
  lemma DoublePushGeometry(st: BoardState, isWhite: bool, from: int, to: int)
    requires to in DoublePushes(st, isWhite) && from == to - PushDirection(isWhite) * 2
    ensures from in Pawns(st, isWhite) && from in (if isWhite then Rank2 else Rank7) && 0 <= to < 64
    ensures to % 8 == from % 8 && Advance(from, to, isWhite) == 2
  {
    DoublePushesExact(st, isWhite, to);
    StraightStep(from, to);
  }

  /** A capture, promoting or not, goes one rank ahead onto a neighbouring file from a pawn of the side. */
  lemma CaptureGeometry(st: BoardState, isWhite: bool, from: int, to: int)
    requires
      (to in LeftCaptures(st, isWhite) && from == to + (if isWhite then -9 else 7) && (isWhite || H8 !in st.blackPawns)) ||
      (to in RightCaptures(st, isWhite) && from == to + (if isWhite then -7 else 9) && (isWhite || H8 !in st.blackPawns)) ||
      (to in LeftPromotionCaptures(st, isWhite) && from == to + (if isWhite then -9 else 7)) ||
      (to in RightPromotionCaptures(st, isWhite) && from == to + (if isWhite then -7 else 9))
    ensures from in Pawns(st, isWhite) && 0 <= to < 64
    ensures DiagonalAdvance(from, to, isWhite)
  {
    if to in LeftCaptures(st, isWhite) && from == to + (if isWhite then -9 else 7) && (isWhite || H8 !in st.blackPawns) {
      LeftCapturesExact(st, isWhite, to);
    } else if to in RightCaptures(st, isWhite) && from == to + (if isWhite then -7 else 9) && (isWhite || H8 !in st.blackPawns) {
      RightCapturesExact(st, isWhite, to);
    } else if to in LeftPromotionCaptures(st, isWhite) && from == to + (if isWhite then -9 else 7) {
      LeftPromotionCapturesExact(st, isWhite, to);
    } else {
      RightPromotionCapturesExact(st, isWhite, to);
    }
    DiagonalStep(from, to);
  }

  /** A pawn move other than en passant starts on a pawn of the side (for black, with no black pawn on h8). */
  lemma PawnMoveFromPawn(st: BoardState, isWhite: bool, m: Move)
    requires m in PawnMoves(st, isWhite)
    requires isWhite || H8 !in st.blackPawns
    ensures m.from in Pawns(st, isWhite)
  {
    PawnMoveKinds(st, isWhite, m);
    if m.moveType == QuietMove || m.moveType == Promotion {
      PushGeometry(st, isWhite, m.from, m.to);
    } else if m.moveType == DoublePawnPush {
      DoublePushGeometry(st, isWhite, m.from, m.to);
    } else if m.moveType == EnPassantCapture {
      EnPassantCapturersArePawns(st, isWhite, m.from);
    } else {
      CaptureGeometry(st, isWhite, m.from, m.to);
    }
  }

  /**
   * A pawn push goes straight ahead, one rank, or two for a double push, which starts on the
   * second rank (for black, with no black pawn on h8).
   */
  lemma PawnPushGeometry(st: BoardState, isWhite: bool, m: Move)
    requires m in PawnMoves(st, isWhite)
    requires m.moveType == QuietMove || m.moveType == DoublePawnPush || m.moveType == Promotion
    requires isWhite || H8 !in st.blackPawns
    ensures 0 <= m.to < 64 && m.to % 8 == m.from % 8
    ensures Advance(m.from, m.to, isWhite) == (if m.moveType == DoublePawnPush then 2 else 1)
    ensures m.moveType == DoublePawnPush ==> m.from in (if isWhite then Rank2 else Rank7)
  {
    PawnMoveKinds(st, isWhite, m);
    if m.moveType == DoublePawnPush {
      DoublePushGeometry(st, isWhite, m.from, m.to);
    } else {
      PushGeometry(st, isWhite, m.from, m.to);
    }
  }

  /**
   * A pawn capture other than en passant goes one rank ahead onto a neighbouring file (for
   * black, with no black pawn on h8).
   */
  lemma PawnCaptureGeometry(st: BoardState, isWhite: bool, m: Move)
    requires m in PawnMoves(st, isWhite)
    requires m.moveType == Capture || m.moveType == PromotionCapture
    requires isWhite || H8 !in st.blackPawns
    ensures 0 <= m.to < 64 && DiagonalAdvance(m.from, m.to, isWhite)
  {
    PawnMoveKinds(st, isWhite, m);
    CaptureGeometry(st, isWhite, m.from, m.to);
  }

  /** The en passant capturer sits on a neighbouring file one rank behind `ep mod 64`. */
  lemma CapturerGeometry(st: BoardState, isWhite: bool, from: int)
    requires from in EnPassantCapturers(st, isWhite)
    requires !isWhite || st.enPassantSquare % 64 != H8
    ensures from in Pawns(st, isWhite)
    ensures DiagonalAdvance(from, st.enPassantSquare % 64, isWhite)
  {
    EnPassantCapturersExact(st, isWhite, from);
    CapturerStep(from, st.enPassantSquare % 64);
  }

  /**
   * Geometry of the en passant captures (for white, with the en passant square not h8): the
   * capturer is a pawn of the side one rank behind the target square `ep mod 64`, on a
   * neighbouring file.
   */
  lemma EnPassantGeometry(st: BoardState, isWhite: bool, m: Move)
    requires m in PawnMoves(st, isWhite)
    requires m.moveType == EnPassantCapture
    requires !isWhite || st.enPassantSquare % 64 != H8
    ensures DiagonalAdvance(m.from, st.enPassantSquare % 64, isWhite)
  {
    PawnMoveKinds(st, isWhite, m);
    CapturerGeometry(st, isWhite, m.from);
  }

  /**
   * With a black pawn on h8 (possible through a position string) the arithmetic `>> 8` fills
   * the top rank, so black gets a quiet push from square 64, which is off the board, onto an
   * empty a8.
   */
  lemma BlackPawnOnH8PushesFromOffBoard(st: BoardState)
    requires H8 in st.blackPawns && A8 !in Occupied(st)
    ensures MoveOfKind(64, A8, QuietMove) in PawnMoves(st, false)
  {
    assert A8 in SinglePushes(st, false);
    PawnMovesMembers(st, false, MoveOfKind(64, A8, QuietMove));
  }

  /** The square ahead of a pawn, empty and off the promotion rank, is a single push target. */
  lemma SinglePushTarget(st: BoardState, isWhite: bool, from: int)
    requires from in Pawns(st, isWhite)
    requires 0 <= from + PushDirection(isWhite) < 64 && from + PushDirection(isWhite) !in Occupied(st)
    requires from + PushDirection(isWhite) !in PromotionRank(isWhite)
    ensures from + PushDirection(isWhite) in SinglePushes(st, isWhite)
  {
  }

  /** Every single push the rules allow is generated: a pawn, an empty square ahead, not promoting. */
  lemma SinglePushGenerated(st: BoardState, isWhite: bool, from: int)
    requires from in Pawns(st, isWhite)
    requires 0 <= from + PushDirection(isWhite) < 64 && from + PushDirection(isWhite) !in Occupied(st)
    requires from + PushDirection(isWhite) !in PromotionRank(isWhite)
    ensures MoveOfKind(from, from + PushDirection(isWhite), QuietMove) in PawnMoves(st, isWhite)
  {
    var to := from + PushDirection(isWhite);
    SinglePushTarget(st, isWhite, from);
    PawnMovesMembers(st, isWhite, MoveOfKind(from, to, QuietMove));
  }

  // ---------------------------------------------------------------------------------------
  // All moves and legal moves

  /** The pseudo-legal moves of the side to move: pawns, knights, bishops, rooks, queens, king. */
  function AllMoves(st: BoardState): seq<Move> {
    var isWhite := st.whiteToMove;
    PawnMoves(st, isWhite) + PieceMoves(st, isWhite, Knight) + PieceMoves(st, isWhite, Bishop) +
    PieceMoves(st, isWhite, Rook) + PieceMoves(st, isWhite, Queen) + KingMoves(st, isWhite)
  }

  /** `generateAllMoves(board)`: the six generators of the side to move, appended in order. */
  method GenerateAllMoves(board: Board) returns (moves: seq<Move>)
    ensures moves == AllMoves(board.state)
  {
    var isWhite := board.state.whiteToMove;
    var pawnMoves := GeneratePawnMoves(board, isWhite);
    moves := [] + pawnMoves;
    NothingBefore(pawnMoves);
    var knightMoves := GenerateKnightMoves(board, isWhite);
    moves := moves + knightMoves;
    var bishopMoves := GenerateBishopMoves(board, isWhite);
    moves := moves + bishopMoves;
    var rookMoves := GenerateRookMoves(board, isWhite);
    moves := moves + rookMoves;
    var queenMoves := GenerateQueenMoves(board, isWhite);
    moves := moves + queenMoves;
    var kingMoves := GenerateKingMoves(board, isWhite);
    moves := moves + kingMoves;
  }

  /** A move is kept when, after it is made, the mover's king is not attacked. */
  predicate LeavesKingSafe(st: BoardState, move: Move) {
    !KingInCheck(AfterMove(st, move), st.whiteToMove)
  }

  /** The moves of `pseudo` that pass `keep`, in order; the loop of `generateLegalMoves` builds it. */
  function Kept(pseudo: seq<Move>, keep: Move -> bool): seq<Move> {
    if pseudo == [] then []
    else
      var last := pseudo[|pseudo| - 1];
      Kept(pseudo[..|pseudo| - 1], keep) + (if keep(last) then [last] else [])
  }

  /** The test of `generateLegalMoves` for a position, as a function of the move. */
  function SafeAfter(st: BoardState): Move -> bool {
    m => LeavesKingSafe(st, m)
  }

  /** The legal moves: the pseudo-legal moves that leave the mover's king unattacked. */
  function LegalMoves(st: BoardState): seq<Move> {
    Kept(AllMoves(st), SafeAfter(st))
  }

  /** The filter keeps exactly the moves of its input that pass the test. */
  lemma {:induction false} KeptMembers(pseudo: seq<Move>, keep: Move -> bool, m: Move)
    ensures m in Kept(pseudo, keep) <==> m in pseudo && keep(m)
  {
    if pseudo != [] {
      var init := pseudo[..|pseudo| - 1];
      KeptMembers(init, keep, m);
      assert pseudo == init + [pseudo[|pseudo| - 1]];
    }
  }

  /** The filter never grows its input. */
  lemma {:induction false} KeptLength(pseudo: seq<Move>, keep: Move -> bool)
    ensures |Kept(pseudo, keep)| <= |pseudo|
  {
    if pseudo != [] {
      KeptLength(pseudo[..|pseudo| - 1], keep);
    }
  }

  /**
   * The legal moves are the generated moves after which the mover's king is not attacked,
   * as `isKingInCheck` tests it on the position the move produces.
   */
  lemma LegalMovesMembers(st: BoardState, m: Move)
    ensures m in LegalMoves(st) <==> m in AllMoves(st) && !KingInCheck(AfterMove(st, m), st.whiteToMove)
  {
    LegalFilterMembers(st, AllMoves(st), m);
  }

  /** The filter of `generateLegalMoves` keeps exactly the moves after which the king is not attacked. */
  lemma LegalFilterMembers(st: BoardState, pseudo: seq<Move>, m: Move)
    ensures m in Kept(pseudo, SafeAfter(st)) <==> m in pseudo && !KingInCheck(AfterMove(st, m), st.whiteToMove)
  {
    KeptMembers(pseudo, SafeAfter(st), m);
    SafeAfterMeans(st, m);
  }

  /** The test of `generateLegalMoves` holds when the mover's king is not attacked after the move. */
  lemma SafeAfterMeans(st: BoardState, m: Move)
    ensures SafeAfter(st)(m) <==> !KingInCheck(AfterMove(st, m), st.whiteToMove)
  {
  }

  /** One more move of the input: the filter adds it when it passes. */
  lemma KeptStep(pseudo: seq<Move>, i: nat, keep: Move -> bool)
    requires i < |pseudo|
    ensures Kept(pseudo[..i + 1], keep) == Kept(pseudo[..i], keep) + (if keep(pseudo[i]) then [pseudo[i]] else [])
  {
    assert pseudo[..i + 1][..i] == pseudo[..i];
  }

  /**
   * The loop of `generateLegalMoves`: makes each move, keeps it when the mover's king is not
   * attacked afterwards, and unmakes it; the board and its history end as they began.
   */
  method FilterLegal(board: Board, pseudoLegal: seq<Move>) returns (legal: seq<Move>)
    modifies board
    ensures legal == Kept(pseudoLegal, SafeAfter(old(board.state)))
    ensures board.state == old(board.state) && board.boardStates == old(board.boardStates)
  {
    ghost var st := board.state;
    ghost var history := board.boardStates;
    legal := [];
    var isWhite := board.state.whiteToMove;
    for i := 0 to |pseudoLegal|
      invariant board.state == st && board.boardStates == history
      invariant legal == Kept(pseudoLegal[..i], SafeAfter(st))
    {
      var move := pseudoLegal[i];
      var safe := TryMove(board, move, isWhite);
      KeptStep(pseudoLegal, i, SafeAfter(st));
      if safe {
        legal := legal + [move];
      } else {
        NothingAfter(legal);
      }
    }
    assert pseudoLegal[..|pseudoLegal|] == pseudoLegal;
  }

  /**
   * One turn of the loop of `generateLegalMoves`: `makeMove`, then `isKingInCheck` for the
   * mover, then `unmakeMove`, which restores the board and its history.
   */
  method TryMove(board: Board, move: Move, isWhite: bool) returns (safe: bool)
    modifies board
    requires isWhite == board.state.whiteToMove
    ensures safe == SafeAfter(old(board.state))(move)
    ensures board.state == old(board.state) && board.boardStates == old(board.boardStates)
  {
    ghost var st := board.state;
    board.MakeMove(move);
    var inCheck := IsKingInCheck(board, isWhite);
    SafeAfterMeans(st, move);
    safe := !inCheck;
    var _ := board.UnmakeMove();
  }

  /** `generateLegalMoves(board)`: the pseudo-legal moves, filtered by making and unmaking each. */
  method GenerateLegalMoves(board: Board) returns (legal: seq<Move>)
    modifies board
    ensures legal == LegalMoves(old(board.state))
    ensures board.state == old(board.state) && board.boardStates == old(board.boardStates)
  {
    var pseudoLegal := GenerateAllMoves(board);
    legal := FilterLegal(board, pseudoLegal);
  }
}
