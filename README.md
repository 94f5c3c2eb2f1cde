# Bitboard chess engine core, modelled in Dafny

This project models the engine core of a small multiplayer chess program written in Java.
The core is made of five pieces:

- the `Board`, which holds twelve 64-bit piece bitboards, the side to move, four castling
  rights, an en-passant square and a stack of saved `BoardState` snapshots;
- the `Move` value, which packs a from square, a to square, a move type (0..7) and a
  promotion code (0..3);
- the `MoveGenerator`, which computes leaper and slider attacks and generates moves for each
  piece kind, castling and pawns, then filters them to legal moves by making and unmaking
  each one;
- the bitboard constants: file, rank, initial-position and edge masks, and square indices;
- the game-status queries: check, checkmate and stalemate.

A Java `long` bitboard is modelled as `Words.Word`, the set of bit positions 0..63 that
are 1. The Java bit operators become set operations with the same meaning:

- `~` is `Not`, `&` is `And`, `|` is `Or`;
- `<<` is `Shl`; `>>` is `Sar`, an arithmetic shift that fills from bit 63;
- `1L << n` is `Bit`, which takes `n` modulo 64 as Java does;
- `Long.numberOfTrailingZeros` is `Ntz`, and `x &= x - 1` is `ClearLowest`.

Java's truncating `/` and `%` on `int` are `JavaDiv` and `JavaMod`.

The `Board` class and its move-making, undo, position-loading and printing methods are
imperative Dafny (`class Board`, `modifies this`). Each method is proved against a
specification function on the value `BoardState`:

- `AfterMove`, `Fen.SetPositionEffect` and `BoardText` describe the result;
- lemmas state what those functions guarantee.

The generators are methods with loops over set bits. Each is proved equal to a functional
definition: `PieceMoves`, `KingMoves`, `CastlingMoves`, `PawnMoves`, `AllMoves` or
`LegalMoves`. The membership lemmas then characterise those lists square by square.

Where the code and its documented intent disagree, the model follows the code. Lemmas pin
each such case down:

- **Mirrored file masks.** `FILE_A` is the set of squares with `sq % 8 == 7`. That is the
  h-file under the a1 = 0 numbering, so the file masks are mirrored. The leaper masks still
  come out right, because every edge mask is mirrored along with them (`EdgeMasks`,
  `KnightAttacksAreKnightMoves`).
- **Mirrored pawn masks in the attack test.** The pawn masks used by the attack test are
  swapped the same way. The test therefore treats a pawn on h1 as attacking a3, and misses
  a2 attacking b3 (`PawnSourcesMirrored`).
- **Leaper tables from h8.** The king and knight tables built from h8 wrap through the sign
  bit (`LeapersFromH8`). So a knight on a8 is reported to attack h8 (`KnightOnA8AttacksH8`).
- **Missing king.** With no king on the board, the king square is 64, which the shifts treat
  as square 0 (`LeapersFromMissingSquare`).
- **Castling empty-square test.**
  - Kingside, the code tests b1 and c1 (b8 and c8 for black), not f1 and g1
    (`KingsideCastlePathQuirk`, `KingsideCastleBlockedByB1`).
  - Queenside, it tests b1, c1 and d1.
- **Black pawn on h8.** A black pawn on h8 yields a push from square 64
  (`BlackPawnOnH8PushesFromOffBoard`).
- **Quiet move onto an occupied square.** Such a move leaves that square set in two
  bitboards (`QuietMoveOverlaps`).
- **Errors are outcomes.**
  - `unmakeMove` on an empty history throws; here it returns `NoMovesToUndo` and changes
    nothing.
  - `setPosition` with fewer than four fields, or with a one-character en-passant field,
    throws part-way. This is modelled as an outcome, and the effects already done stay
    done. The bitboards are already cleared; with four fields, the placement, side to move
    and rights are already set. The en-passant square and the history keep their old
    values.

## Model

| member | source | states |
|---|---|---|
| Words.Ntz | src/chess/move/MoveGenerator.java:207 | the index of the lowest set bit, or 64 for an empty word |
| Words.ClearLowest | src/chess/move/MoveGenerator.java:210 | `x &= x - 1` removes exactly the lowest set bit |
| Words.SquaresMembers | src/chess/move/MoveGenerator.java:204-211 | the squares visited by the take-lowest-bit loop are exactly the set bits |
| Words.SquaresIncreasing | src/chess/move/MoveGenerator.java:204-211 | the loop visits squares in increasing order |
| Words.Sar | src/chess/move/MoveGenerator.java:79 | `>>` on a long shifts right and fills with bit 63 |
| Words.JavaDiv | src/chess/move/MoveGenerator.java:109 | int division truncates toward zero |
| Words.JavaMod | src/chess/move/MoveGenerator.java:110 | the remainder takes the dividend's sign and `a == (a/b)*b + a%b` |
| BitboardConstants.FileMasksListed | src/chess/board/BitboardConstants.java:5-12 | each file mask holds the eight listed squares (FILE_A is squares 7, 15, …, 63) |
| BitboardConstants.FileMasksPartition | src/chess/board/BitboardConstants.java:5-12 | square `sq` is in file mask `k` exactly when `sq % 8 == 7 - k` |
| BitboardConstants.RankMasksListed | src/chess/board/BitboardConstants.java:15-22 | ranks 1, 2, 7 and 8 hold the listed squares |
| BitboardConstants.RankMasksPartition | src/chess/board/BitboardConstants.java:15-22 | square `sq` is in rank mask `k` exactly when `k == sq / 8 + 1` |
| BitboardConstants.RankMaskShifted | src/chess/board/BitboardConstants.java:15-22 | each rank mask is RANK_1 shifted up by eight times its index |
| BitboardConstants.EdgeMasksComplement | src/chess/board/BitboardConstants.java:41-45 | the NOT_FILE masks hold exactly the squares off the excluded (mirrored) files |
| BitboardConstants.InitialPlacement | src/chess/board/BitboardConstants.java:25-38 | the twelve initial bitboards are disjoint and cover exactly ranks 1, 2, 7 and 8, white on 1-2 and black on 7-8 |
| BitboardConstants.InitialKings | src/chess/board/BitboardConstants.java:30 | the kings start on e1 and e8 |
| Moves.QuietMoveOf | src/chess/move/Move.java:26-28 | the two-argument constructor gives a quiet move with promotion code 0 |
| Moves.MoveOfKind | src/chess/move/Move.java:30-32 | the three-argument constructor keeps the type and sets promotion code 0 |
| Moves.KindPredicates | src/chess/move/Move.java:57-67 | castling is neither capture nor promotion; promotion-capture is the only type that is both; the remaining valid types are quiet and double push |
| Moves.Equals | src/chess/move/Move.java:95-104 | two moves are equal exactly when all four fields match |
| Moves.HashPacks | src/chess/move/Move.java:106-109 | for in-range fields the hash packs from, to, type and promotion into disjoint bit fields |
| Moves.HashInjective | src/chess/move/Move.java:95-109 | for in-range fields, equal hashes hold exactly for equal moves |
| Moves.SquareNameRoundTrip | src/chess/move/Move.java:72-76 | a square's algebraic name parses back to the square |
| Moves.ToString | src/chess/move/Move.java:69-93 | text exists exactly when both squares index the name tables (otherwise Java throws) |
| Moves.ToStringSquares | src/chess/move/Move.java:75-80 | the text begins with the from and to square names, which parse back, followed by a space |
| Moves.ToStringLength | src/chess/move/Move.java:78-92 | the text has 6 characters, or 7 when a promotion letter is appended |
| Moves.ToStringKind | src/chess/move/Move.java:79-92 | after the space comes the kind digit; a seventh character appears exactly for a promotion kind with piece code 0..3, and it is that piece's letter n, b, r or q |
| Moves.ToStringInjective | src/chess/move/Move.java:69-93 | equal texts mean equal squares and kind, and for promotions with codes 0..3 the same promotion piece |
| Position.WhitePiecesHold | src/chess/board/Board.java:119-121 | a square is a white piece exactly when one of the six white bitboards holds it |
| Position.BlackPiecesHold | src/chess/board/Board.java:123-125 | likewise for black |
| Position.OccupiedHolds | src/chess/board/Board.java:127-133 | occupied means held by some piece bitboard; empty is its complement on 0..63 |
| Position.PieceAtFinds | src/chess/board/Board.java:202-219 | the piece reported is the first bitboard holding the square, and empty exactly when none does |
| Position.PieceCharAgrees | src/chess/board/Board.java:167-183 | the printed character is the letter of the piece at that square |
| Position.PieceCharEmpty | src/chess/board/Board.java:167-183 | '.' is printed exactly for an unoccupied square |
| Position.BoardTextShows | src/chess/board/Board.java:150-183 | the text has 136 characters; rank r, file f is at `17*(7-r) + 2f`, followed by a space, and each line ends in a newline |
| Position.RowsTextLine | src/chess/board/Board.java:153-162 | the k-th printed line is rank 7-k |
| Position.CellsTextShape | src/chess/board/Board.java:155-160 | a line holds each file's character followed by a space |
| Position.ClearSquareBoards | src/chess/board/Board.java:185-200 | a square stays in a bitboard exactly when it was there and is not the cleared square |
| Position.ClearSquareKeepsFlags | src/chess/board/Board.java:185-200 | clearing changes no side, right or en-passant field |
| Position.SetPieceAtBoards | src/chess/board/Board.java:221-262 | only the named bitboard gains the square; an unknown code changes nothing |
| Position.SetPieceAtKeepsFlags | src/chess/board/Board.java:221-262 | placing changes no side, right or en-passant field |
| Position.PromotionPieceFor | src/chess/board/Board.java:264-273 | codes 0, 1, 2 give knight, bishop, rook of the pawn's colour; any other code gives the queen |
| Position.UpdateCastlingRightsKeeps | src/chess/board/Board.java:275-313 | the rights update touches only the four rights |
| Position.AfterMoveTurn | src/chess/board/Board.java:393-400 | the side to move flips; the en-passant square is the square passed over after a double push and -1 after anything else |
| Position.AfterMoveRights | src/chess/board/Board.java:275-313 | each right survives exactly when it was held and neither the mover nor the captured rook loses it |
| Position.CastlingRightsNeverGranted | src/chess/board/Board.java:275-313 | no move ever sets a castling right |
| Position.KingMoveLosesRights | src/chess/board/Board.java:277-283 | a king move clears both rights of its colour |
| Position.RookMoveLosesRight | src/chess/board/Board.java:286-298 | a rook leaving its corner clears that side's right |
| Position.RookCaptureLosesRight | src/chess/board/Board.java:300-312 | capturing a rook on its corner clears its owner's right |
| Position.OtherMovesKeepRights | src/chess/board/Board.java:275-313 | other moves keep all four rights |
| Position.RemovalsBoards | src/chess/board/Board.java:338-356 | after the removals a square survives exactly when it is not the origin, not the target of a capture, and not the en-passant victim |
| Position.AfterMoveBoards | src/chess/board/Board.java:324-401 | for a non-castling move, each bitboard after the move is the one after the removals plus the placed piece on the target |
| Position.CastleBoards | src/chess/board/Board.java:324-401 | for a castling move, the king goes from origin to target and the rook from its corner to its castled square |
| Position.RookBoards | src/chess/board/Board.java:368-389 | the castling rook leaves its corner and appears on f1/d1 (f8/d8) |
| Position.QuietMoveOverlaps | src/chess/board/Board.java:338-366 | a quiet move onto an occupied square leaves that square in both the old and the new piece's bitboards |
| Position.DetermineMoveType | src/chess/board/Board.java:527-573 | the type is 0..7; captures need an occupied target; quiet, promotion and en-passant need an empty one |
| Position.MoveTypeIgnoresPromotionCode | src/chess/board/Board.java:527-573 | the promotion argument does not affect the type |
| Position.PawnToLastRankPromotes | src/chess/board/Board.java:541-546 | a pawn reaching rank 8 or 1 is a promotion, or a promotion-capture when the target is occupied |
| Position.PawnMoveType | src/chess/board/Board.java:541-572 | otherwise a pawn gives double push for a 16-square move, capture onto an occupied square, en-passant for an empty diagonal step, and quiet otherwise |
| Position.KingTwoFilesCastles | src/chess/board/Board.java:561-564 | a king moving two files castles, kingside when the file grows |
| Position.OtherMoveType | src/chess/board/Board.java:561-572 | every other move is a capture onto an occupied square and quiet otherwise |
| Fen.SplitJoin | src/chess/board/Board.java:436 | splitting at single spaces loses nothing: the pieces join back |
| Fen.SplitAllJoin | src/chess/board/Board.java:436 | joining space-free pieces and splitting gives them back |
| Fen.JavaSplitJoin | src/chess/board/Board.java:436 | `split(" ")` (which drops trailing empty pieces) inverts a join whose last piece is non-empty |
| Fen.LetterPiece | src/chess/board/Board.java:456-468 | a recognised letter maps to a piece whose printed letter is that letter |
| Fen.PlaceKeepsFlags | src/chess/board/Board.java:446-472 | the placement loop changes only bitboards |
| Fen.PlaceOnlyAdds | src/chess/board/Board.java:446-472 | the placement loop never clears a bit |
| Fen.PlaceLetter | src/chess/board/Board.java:452-470 | a piece letter at the cursor puts its piece on `rank*8 + file` and moves one file on |
| Fen.ClearPiecesEmpties | src/chess/board/Board.java:433-434 | loading starts from an empty board with the flags unchanged |
| Fen.SetPositionOutcome | src/chess/board/Board.java:431-494 | the call fails exactly with fewer than four fields or a non-"-" en-passant field shorter than two characters; history is cleared exactly on success; a failure keeps the old en-passant square, and a missing field leaves only the emptied board |
| Fen.SetPositionFields | src/chess/board/Board.java:431-494 | pieces come from the placement field on a cleared board; white to move exactly for "w"; each right exactly when its letter occurs; en passant -1 for "-", else the parsed square |
| Chessboard.Board.constructor | src/chess/board/Board.java:24-45 | a new board is the initial position with an empty history |
| Chessboard.Board.ToString | src/chess/board/Board.java:150-165 | the rendering equals `BoardText` of the state and has 136 characters |
| Chessboard.Board.ClearSquare | src/chess/board/Board.java:185-200 | the state becomes `ClearSquare` of the old state; history unchanged |
| Chessboard.Board.SetPieceAt | src/chess/board/Board.java:221-262 | the state becomes `SetPieceAt` of the old state; history unchanged |
| Chessboard.CastlingFlagsAfter | src/chess/board/Board.java:275-313 | each new right is the old right unless this move loses it |
| Chessboard.Board.UpdateCastlingRights | src/chess/board/Board.java:275-313 | the state becomes `UpdateCastlingRights` of the old state |
| Chessboard.Board.RemovePieces | src/chess/board/Board.java:338-356 | state and captured piece are `AfterRemovals` of the old state |
| Chessboard.Board.PlaceMovedPiece | src/chess/board/Board.java:358-366 | the moved or promoted piece is placed on the target |
| Chessboard.Board.MoveCastlingRook | src/chess/board/Board.java:368-389 | the castling rook is moved as `MoveCastlingRook` says |
| Chessboard.Board.MakeMove | src/chess/board/Board.java:324-401 | the old state is pushed on the history and the new state is `AfterMove` of it |
| Chessboard.Board.UnmakeMove | src/chess/board/Board.java:403-429 | with a non-empty history the last snapshot is popped and restored verbatim; with an empty one nothing changes and `NoMovesToUndo` is returned |
| Chessboard.Board.PlacePieces | src/chess/board/Board.java:446-472 | the bitboards become `Place` of the placement field from a8 |
| Chessboard.Board.SetPosition | src/chess/board/Board.java:431-494 | state, outcome and history are those of `SetPositionEffect` |
| Attacks.KingAttacksSteps | src/chess/move/MoveGenerator.java:73-88 | for squares 0..62 the king table holds exactly the one-step offsets that stay on the board |
| Attacks.KnightAttacksSteps | src/chess/move/MoveGenerator.java:90-104 | for squares 0..62 the knight table holds exactly the knight offsets that stay on the board |
| Attacks.KingAttacksAreKingMoves | src/chess/move/MoveGenerator.java:73-88 | the king table is the set of squares one king step away (rank and file distance at most 1) |
| Attacks.KnightAttacksAreKnightMoves | src/chess/move/MoveGenerator.java:90-104 | the knight table is the set of squares one knight jump away |
| Attacks.KingAttacksSymmetric | src/chess/move/MoveGenerator.java:73-88 | t is a king target of s exactly when s is one of t |
| Attacks.KnightAttacksSymmetric | src/chess/move/MoveGenerator.java:90-104 | t is a knight target of s exactly when s is one of t |
| Attacks.LeapersFromH8 | src/chess/move/MoveGenerator.java:73-104 | from h8 the sign-filling right shift puts h8 itself and a8 into the tables |
| Attacks.LeapersFromMissingSquare | src/chess/move/MoveGenerator.java:74 | square 64 behaves as square 0 |
| Attacks.RayMembers | src/chess/move/MoveGenerator.java:113-119 | a square is on a ray exactly when it lies k steps out, on the board, with every earlier square empty |
| Attacks.CastRay | src/chess/move/MoveGenerator.java:112-147 | the stepping loop produces exactly the ray up to and including the first blocker |
| Attacks.RaySquareAt | src/chess/move/MoveGenerator.java:113-119 | the k-th square a ray loop visits is `(r + k·dr)·8 + (f + k·df)` |
| Attacks.RayBounds | src/chess/move/MoveGenerator.java:113-183 | within the ray's length every moving coordinate stays inside its loop bound (`< 8` or `>= 0`) |
| Attacks.RayAvoidsStart | src/chess/move/MoveGenerator.java:113-183 | a ray started one step from a square and moving away never contains that square |
| Attacks.RaysExcludeOrigin | src/chess/move/MoveGenerator.java:107-186 | neither the diagonal nor the straight attacks of a square include the square itself, whatever the occupancy |
| Attacks.DiagonalAttacks | src/chess/move/MoveGenerator.java:107-149 | the result is the union of the four diagonal rays from the square |
| Attacks.StraightAttacks | src/chess/move/MoveGenerator.java:152-186 | the result is the union of the four straight rays |
| Attacks.QueenAttacks | src/chess/move/MoveGenerator.java:188-190 | queen attacks are the union of diagonal and straight attacks |
| Attacks.PawnSourcesSquares | src/chess/move/MoveGenerator.java:19-33 | the masked pawn shifts select squares 7 or 9 below (white) or above (black), excluding the masked files |
| Attacks.PawnSourcesMirrored | src/chess/move/MoveGenerator.java:19-33 | because the masks are mirrored, a2 is not seen attacking b3 while h1 is seen attacking a3 |
| Attacks.KnightOnA8AttacksH8 | src/chess/move/MoveGenerator.java:614-684 | a black knight on a8 makes h8 attacked although a8-h8 is not a knight jump |
| Attacks.AttackedIsKingInCheck | src/chess/move/MoveGenerator.java:10-71 | with one king per side, the static attack test agrees with the king-in-check test |
| MoveGenerator.IsSquareAttacked | src/chess/move/MoveGenerator.java:614-684 | the result is `SquareAttacked` of the board |
| MoveGenerator.IsKingInCheck | src/chess/move/MoveGenerator.java:686-692 | the result is `KingInCheck` of the board |
| MoveGenerator.IsAttacked | src/chess/move/MoveGenerator.java:10-71 | the result is `Attacked` of the board |
| MoveGenerator.PieceMovesExact | src/chess/move/MoveGenerator.java:193-334 | a knight, bishop, rook or queen move is generated exactly when it goes from an own piece to a reachable square not held by a friend, typed as capture onto an enemy and quiet otherwise |
| MoveGenerator.KnightMovesJump | src/chess/move/MoveGenerator.java:193-238 | every generated knight move not from h8 is a knight jump |
| MoveGenerator.TargetMovesMembers | src/chess/move/MoveGenerator.java:219-234 | the inner loop yields one move per target square, typed by enemy occupancy |
| MoveGenerator.GeneratePieceMoves | src/chess/move/MoveGenerator.java:193-334 | the outer and inner bit loops yield exactly `PieceMoves` |
| MoveGenerator.GenerateKnightMoves | src/chess/move/MoveGenerator.java:193-238 | equals `PieceMoves` for knights |
| MoveGenerator.GenerateBishopMoves | src/chess/move/MoveGenerator.java:243-272 | equals `PieceMoves` for bishops |
| MoveGenerator.GenerateRookMoves | src/chess/move/MoveGenerator.java:274-303 | equals `PieceMoves` for rooks |
| MoveGenerator.GenerateQueenMoves | src/chess/move/MoveGenerator.java:305-334 | equals `PieceMoves` for queens |
| MoveGenerator.KingStepsExact | src/chess/move/MoveGenerator.java:336-363 | a king step is generated exactly from the king square to a king target not held by a friend, typed by enemy occupancy |
| MoveGenerator.GenerateKingMoves | src/chess/move/MoveGenerator.java:336-363 | equals `KingMoves`: the steps followed by the castling moves |
| MoveGenerator.AddCastlingMoves | src/chess/move/MoveGenerator.java:365-407 | appends exactly `CastlingMoves` |
| MoveGenerator.CastleMoveMembers | src/chess/move/MoveGenerator.java:368-375 | a castling move is offered exactly when its right is held, its path mask is empty and the three squares are unattacked |
| MoveGenerator.CastlingMovesShape | src/chess/move/MoveGenerator.java:365-407 | castling moves go from e1 (e8) to g1 or c1 (g8 or c8) by type |
| MoveGenerator.KingsideCastlePathQuirk | src/chess/move/MoveGenerator.java:368-375 | white kingside castling is offered with pieces on f1 and g1 when b1 and c1 are empty |
| MoveGenerator.KingsideCastleBlockedByB1 | src/chess/move/MoveGenerator.java:369 | a piece on b1 prevents white kingside castling |
| MoveGenerator.KingsideCastleThroughCheckRefused | src/chess/move/MoveGenerator.java:371 | an attacked f1 prevents white kingside castling |
| MoveGenerator.SinglePushesExact | src/chess/move/MoveGenerator.java:425-438 | single-push targets are the empty non-promotion squares one step ahead of an own pawn |
| MoveGenerator.DoublePushesExact | src/chess/move/MoveGenerator.java:442-463 | double-push targets are two steps ahead of a pawn on its start rank with both squares empty |
| MoveGenerator.LeftCapturesExact | src/chess/move/MoveGenerator.java:467-482 | left-capture targets hold an enemy, are a diagonal step from an own pawn, and are off the promotion rank |
| MoveGenerator.RightCapturesExact | src/chess/move/MoveGenerator.java:485-499 | likewise to the right |
| MoveGenerator.PromotionPushesExact | src/chess/move/MoveGenerator.java:501-515 | promotion pushes go from the rank before promotion onto an empty square |
| MoveGenerator.LeftPromotionCapturesExact | src/chess/move/MoveGenerator.java:517-534 | left promotion captures go from the rank before promotion onto an enemy |
| MoveGenerator.RightPromotionCapturesExact | src/chess/move/MoveGenerator.java:536-553 | likewise to the right |
| MoveGenerator.EnPassantCapturersExact | src/chess/move/MoveGenerator.java:555-574 | the en-passant capturers are own pawns one diagonal step behind the en-passant square |
| MoveGenerator.PromotionMovesLength | src/chess/move/MoveGenerator.java:505-513 | each promotion target yields four moves |
| MoveGenerator.PromotionMovesMembers | src/chess/move/MoveGenerator.java:505-513 | the promotion moves carry codes 0..3 and the offset origin |
| MoveGenerator.GeneratePawnMoves | src/chess/move/MoveGenerator.java:409-577 | equals `PawnMoves` |
| MoveGenerator.PawnMovesMembers | src/chess/move/MoveGenerator.java:409-577 | a pawn move is generated exactly when it belongs to one of the eight target words with its origin offset and type |
| MoveGenerator.PawnMoveKinds | src/chess/move/MoveGenerator.java:409-577 | each generated pawn move's type determines which target word it came from |
| MoveGenerator.PawnCapturesOntoEnemy | src/chess/move/MoveGenerator.java:467-553 | pawn captures land on enemy pieces |
| MoveGenerator.PawnPushesOntoEmpty | src/chess/move/MoveGenerator.java:425-515 | pawn pushes land on empty squares |
| MoveGenerator.PawnPromotesOnLastRank | src/chess/move/MoveGenerator.java:409-553 | a non-en-passant pawn move is a promotion exactly when it reaches the promotion rank |
| MoveGenerator.PawnEnPassantOntoSquare | src/chess/move/MoveGenerator.java:555-574 | en-passant moves go from an own pawn to the set en-passant square |
| MoveGenerator.PawnMoveFromPawn | src/chess/move/MoveGenerator.java:409-577 | every pawn move starts on an own pawn |
| MoveGenerator.PawnPushGeometry | src/chess/move/MoveGenerator.java:425-515 | pushes stay on the file and advance one rank, or two for a double push from the start rank |
| MoveGenerator.PawnCaptureGeometry | src/chess/move/MoveGenerator.java:467-553 | captures advance one rank and change file by one |
| MoveGenerator.EnPassantGeometry | src/chess/move/MoveGenerator.java:555-574 | en-passant captures advance one rank diagonally onto the en-passant square |
| MoveGenerator.SinglePushGenerated | src/chess/move/MoveGenerator.java:425-438 | a pawn with an empty non-promotion square ahead gets its quiet push |
| MoveGenerator.BlackPawnOnH8PushesFromOffBoard | src/chess/move/MoveGenerator.java:425-438 | a black pawn on h8 yields a push from square 64 to a8 |
| MoveGenerator.GenerateAllMoves | src/chess/move/MoveGenerator.java:600-612 | the list is pawn, knight, bishop, rook, queen then king moves of the side to move |
| MoveGenerator.KeptMembers | src/chess/move/MoveGenerator.java:586-594 | the filter keeps exactly the candidates that pass |
| MoveGenerator.KeptLength | src/chess/move/MoveGenerator.java:586-594 | the filter never grows the list |
| MoveGenerator.LegalMovesMembers | src/chess/move/MoveGenerator.java:580-597 | a move is legal exactly when it is generated and does not leave the mover's king attacked |
| MoveGenerator.TryMove | src/chess/move/MoveGenerator.java:587-593 | make, test the king, unmake: the answer is whether the king is safe and the board is restored |
| MoveGenerator.FilterLegal | src/chess/move/MoveGenerator.java:586-594 | the loop keeps exactly the safe moves and leaves the board as it was |
| MoveGenerator.GenerateLegalMoves | src/chess/move/MoveGenerator.java:580-597 | the result is `LegalMoves` of the board, which is left unchanged |
| GameStatus.IsInCheck | src/chess/board/Board.java:507-511 | the result is whether the side to move's king is attacked by the other side |
| GameStatus.IsCheckmate | src/chess/board/Board.java:502-505 | checkmate is in check with no legal move; the board is restored |
| GameStatus.IsStalemate | src/chess/board/Board.java:513-516 | stalemate is not in check with no legal move; the board is restored |
| GameStatus.CheckmateStalemateExclusive | src/chess/board/Board.java:502-516 | no position is both checkmate and stalemate |
| GameStatus.GameOverIffNoLegalMoves | src/chess/board/Board.java:502-516 | a position is checkmate or stalemate exactly when it has no legal move |
| GameStatus.CheckmateNoEscape | src/chess/board/Board.java:502-505 | in checkmate every generated move leaves the king attacked |
| GameStatus.StalemateNoSafeMove | src/chess/board/Board.java:513-516 | in stalemate the king is safe yet every generated move exposes it |
| GameStatus.InCheckIsKingInCheck | src/chess/board/Board.java:507-511 | with one king per side, the board's check test agrees with the generator's |

## Left out

- The UI, network client and server, persistence, `Main`, `printBoard` (console output) and
  any perft driver are outside this core.
- Words are sets of bit positions, not 64-bit machine words. The operators used are defined
  with the same bitwise meaning, including the sign fill of `>>` and the modulo-64 shift
  count of `1L << n`. Arithmetic on longs beyond these operators is not modelled.
- `Moves.HashCode` is computed over unbounded integers and mapped to 32-bit patterns. It is
  only related to `Equals` for in-range fields (`HashInjective` requires that).
- `Position.Abs`: `Math.abs` is taken on unbounded integers. Its 32-bit overflow cannot arise
  for square differences.
- Exceptions are outcomes: `NoMovesToUndo` for an empty history, and `MissingField` or
  `ShortEnPassantField` for the index errors of `setPosition`.
- `Character.isDigit` and `getNumericValue` are modelled for the ASCII digits only. Other
  Unicode digits are treated as unknown letters.
- FEN text is a sequence of Unicode code points, while Java's `toCharArray`, `charAt` and
  `length` (Board.java:446, 486-488) work on UTF-16 code units. Two consequences are not
  modelled. A supplementary character in the placement field moves the file on by one here,
  but by two in Java (two unknown surrogates). A one-character en-passant field holding a
  supplementary character gives `ShortEnPassantField` here, while Java sees length 2 and loads
  a square computed from the two surrogates.
- The Java getters (Move.java:41-55; the Board.java flag and bitboard getters) are plain
  field reads of the value types.
- `Board.generateLegalMoves` (Board.java:497-500) only delegates to the generator and is
  modelled by `MoveGenerator.GenerateLegalMoves`.
- The check, checkmate and stalemate queries live in `GameStatus`, outside class `Board`,
  because they call the generator, which itself takes a `Board`.
- The four slider and knight generators share one loop (`GeneratePieceMoves`) with the piece
  kind as a parameter. Likewise, the eight pawn segments share `AddShiftMoves`,
  `AddPromotionMoves` and `AddEnPassantMoves`.
- MoveGenerator.SinglePushesExact: does not cover a black pawn on h8, whose `>> 8` fill puts
  it on a8 from "square 64"; `BlackPawnOnH8PushesFromOffBoard` states that case instead.
- MoveGenerator.LeftCapturesExact: likewise requires no black pawn on h8.
- MoveGenerator.RightCapturesExact: likewise requires no black pawn on h8.
- MoveGenerator.EnPassantCapturersExact: for white, requires the en-passant square not to be
  h8, where the sign fill adds spurious capturers.
- MoveGenerator.PawnMoveFromPawn: requires no black pawn on h8 for the same reason.
- MoveGenerator.PawnPushGeometry, MoveGenerator.PawnCaptureGeometry and
  MoveGenerator.EnPassantGeometry carry the same h8 exclusions.
- MoveGenerator.CastleMoveMembers: the castling gate is stated per move; there is no single
  closed-form "castling is offered iff" lemma over all four moves.
- Position.RookCaptureLosesRight: requires the origin and target squares to differ, since
  a capture from a square onto itself re-reads a cleared square.
- Position.AfterMoveBoards: excludes castling moves; `Position.CastleBoards` covers those.
- Attacks.KingAttacksSteps and Attacks.KnightAttacksSteps: state the tables for squares
  0..62 only; square 63 is the sign-fill case covered by `Attacks.LeapersFromH8`.
