# A bitboard chess engine's move rules, modelled in Dafny

This project models the rules core of a small C++ chess engine. The engine
keeps each side's pieces as six 64-bit boards, one bit per square, with bit 0
for a1 and bit 63 for h8. It derives every move from shifts and masks of
those boards. The model covers the following parts of the engine:

- the bitboard vocabulary: files, ranks, square constants, the Rank and File
  tables, Intersect, Union, Flip, Mirror and BitCount;
- the bit helpers: ColEx, LeastSigBit, minz, max, MostSigBit, RowIndex and
  ColIndex;
- every move generator:
  - the pawn generators (pushes, captures, en passant);
  - the knight and fast king patterns;
  - the bishop's four ray loops;
  - the rook's rank and file masks;
  - the queen;
  - the per-instance wrappers that scan the board one piece at a time;
  - the full king generator with castling;
- the attack aggregator, the check test and the square-to-piece lookup;
- the board set-up functions and the board comparison;
- the one-piece legality test, the move applier with promotion, the move
  attempt, and the checkmate search;
- the parser for moves typed as "e2" "e4".

The model follows the code as written, not the rules of chess.

## How the engine is represented

- **Pieces (one side).** A `datatype` value. The engine always hands its
  functions private `memcpy` copies, so a function over `Pieces` values
  models each call.
- **Board.** A `class` with `white` and `black` fields. Its initialisers
  and `AttemptMove` change those fields in place.
- **Integers.** Every 64-bit quantity is a `bv64`, so the unsigned
  wrap-around of the C code is exact. `ParseMove` keeps a character
  difference in an unsigned 64-bit variable; `Notation.Unsigned` writes out
  that wrap-around modulo 2^64. A `string` is a sequence of characters,
  one per byte.
- **Step-by-step code.** Each loop of the engine is a Dafny method, proved
  equal to a specification function. Examples:
  - `MostSigBit`, `RowIndex` and `ColIndex` are loops;
  - the bishop rays are `CastRay`;
  - the wrappers are `SweepMoves`;
  - the checkmate search is `SearchFrom`, `SearchPieces` and
    `SearchTypes`;
  - the parser is `ParseMove`.
- **Promotion choice.** `BoardPromotePawnEx` asks for the promotion piece on
  the console. Here that answer is the parameter `p: Promotion`: one of Q, R,
  B, N.

## Where the code differs from its comments and unit tests

The engine's comments, its unit tests in UnitTest.cpp and the rules of chess
sometimes say one thing and the code does another. The model always follows
the code:

- **Rook and queen.** The comments at Pieces.cpp:544-546 speak of the
  closest piece east of the rook. On the rank, the code looks at the mover's
  squares and the opponent's squares separately. Among each side's squares it picks the
  one *farthest* from the piece in each direction: `MostSigBit` east of the
  piece, `LeastSigBit` west of it. Then `minz` (east) and `max` (west) keep
  the nearer of the two sides' picks. So a nearer piece of either side on
  the rank is passed over, and the piece taken is the opponent's farthest
  on that side. On the file it picks the nearest square of each side, as
  intended. `Straight.RankMoves` follows the code;
  `Straight.RookHorizontalAsWritten`, `Straight.RankNearerSideWins` and
  `Straight.RankJumpsOpponent` show the effect. The unit test
  RookHorizontalAttack (UnitTest.cpp:192-204) expects 0x20D0202020202020,
  but the code gives 0x20DC202020202020 (`Generators.RookHorizontalAttackTest`).
  In the starting position the rooks "reach" b1 .. g1
  (`Boards.StartingRooksAsWritten`). On every board, the farthest own square
  that each scan picks is not a move (`Straight.RankMovesMissFarthestOwnEast`
  and `...West`), and nothing beyond the opponent's farthest piece is
  (`Straight.RankMovesStopEast` and `...West`). Every square up to the first
  piece, and that piece when it is the opponent's, is a move
  (`Straight.RankMovesReachEast` and `...West`). On the file, no own square is
  a move and nothing beyond the nearest piece of either side is
  (`Straight.FileMovesMissOwnAbove`, `Straight.FileMovesStopAbove` and their
  `Below` partners). Every square up to the nearest piece, and that piece when
  it is the opponent's, is a move (`Straight.FileMovesReachAbove` and
  `...Below`).
- **Castling in `PiecesKingMove`.** The generator checks only that the
  king's square and the two squares it crosses are unattacked. It does not
  check that they are empty.
- **Castling in the applier.** A castle sets `KING_HAS_MOVED` and the flag
  of the rook that moved. It does not set the other rook's flag.
- **Knights.** The knight generator does not remove the mover's own squares
  (`Leapers.KnightMoveKeepsOwnSquares`). Nor does the legality test
  (`Legality.CheckMoveIsLegalByPieceEx`). The generator computes the
  mover's squares and then does not use them.
- **Wrappers.** The per-instance wrappers run their counter over bits 0 to
  62. A bishop, rook, queen or pawn on h8 is never generated
  (`Generators.SweepMissesH8`).
- **The king's generator in the search.** The checkmate search calls
  `PiecesKingMove` through a two-argument callback; the model takes
  `FastSearch` to be false there.
- **Applying trial moves.** `BoardPieceHasLegalMovesEx` applies the
  destinations of one piece one after another to the same pair of copies,
  without taking the failed ones back. It tries the moves of *all* pieces of
  the type from each piece's square. The predicates of `Checkmate` say
  exactly this.

## Model

| member | source | states |
|---|---|---|
| Foundation.SquareAt | Foundation.cpp:3-4 | the square of file f and rank r is bit 8r+f, and it is the intersection of the Rank and File table entries |
| Foundation.SquareConstants | Foundation.hpp:35-98 | each of the 64 named squares a1 .. h8 is the square of its file and rank |
| Foundation.RanksAndFiles | Foundation.cpp:3-4 | Rank[r] is the byte at bit 8r, File[f] is FILE_A moved f files; a square lies in Rank[r] exactly when its rank is r, and in File[f] exactly when its file is f |
| Foundation.RanksAndFilesPartition | Foundation.hpp:17-33 | two different ranks (files) share no square, and the eight ranks (files) cover the board |
| Foundation.IntersectIsDifference | Foundation.hpp:123 | Intersect(A, B) holds exactly the squares of A that are not in B |
| Foundation.FlipMirrorsRanks | Foundation.hpp:113-120 | Flip moves the square of file f, rank r to file f, rank 7 - r, and flipping twice gives the board back |
| Foundation.FlipRanksAndFiles | Foundation.hpp:113-120 | Flip swaps rank 1 and rank 8 and leaves every file in place |
| Foundation.MirrorReversesBits | Foundation.cpp:6-15 | Mirror moves bit i to bit 63 - i, and mirroring twice gives x back |
| Foundation.NibbleSumsCountNibbles | Foundation.cpp:30-33 | after the first stage each nibble holds the number of set bits among its own four bits |
| Foundation.BitCount | Foundation.cpp:17-47 | the count of the empty board is 0 and of the full board 64 |
| Foundation.BitCountSquare | Foundation.cpp:17-47 | a board of one square counts 1, for each of the 64 squares |
| PieceSets.Union | Foundation.hpp:124-131 | the union contains the six piece boards and both Reserved boards, and no other square |
| PieceSets.MapSquareToPiece | Pieces.cpp:1003-1033 | NONE only when none of the side's boards meets the mask; otherwise the board of the named type meets it |
| PieceSets.MapSquareToPieceFound | Pieces.cpp:1003-1033 | the board of the type found meets the mask |
| PieceSets.MapSquareToPieceOfOwner | Pieces.cpp:1003-1033 | when exactly one type's board meets the mask, that type is the answer |
| PieceSets.OccupiedMeets | Pieces.cpp:1003-1033 | a mask meets the side's pieces exactly when it meets one of the six piece boards |
| BitScan.ColEx | Pieces.cpp:3-10 | the result lies within the lowest byte |
| BitScan.ColExFile | Pieces.cpp:3-10 | bit f of ColEx(x) is set exactly when x has a square on file f |
| BitScan.LeastSigBit | Pieces.cpp:12 | 0 for an empty set; otherwise a single square of x with no square of x below it |
| BitScan.LeastSigBitUnique | Pieces.cpp:12 | a square of x with nothing of x below it is LeastSigBit(x) |
| BitScan.Minz | Pieces.cpp:13 | the result is one of the two arguments, and is 0 only when both are |
| BitScan.MinzLowest | Pieces.cpp:13 | on two values that are 0 or single squares, minz picks the lower square |
| BitScan.Max | Pieces.cpp:15 | the result is one of the two arguments |
| BitScan.MaxHighest | Pieces.cpp:15 | on two values that are 0 or single squares, max picks the higher square |
| BitScan.LtSquares | Pieces.cpp:13-15 | on squares, the unsigned order is the order of the squares on the board |
| BitScan.HighestBit | Pieces.cpp:25-38 | 0 exactly for the empty set; otherwise a single square of v with nothing of v above it |
| BitScan.HighestBitUnique | Pieces.cpp:25-38 | a square of v with nothing of v above it is HighestBit(v) |
| BitScan.MostSigBit | Pieces.cpp:25-38 | the loop returns 0 for 0, and otherwise a single square of value with nothing of value above it |
| BitScan.RowOf | Pieces.cpp:50-61 | the answer is 8 exactly when the board is empty |
| BitScan.RowOfUnique | Pieces.cpp:50-61 | the first rank from rank 1 that holds a square of the board is RowOf |
| BitScan.RowIndex | Pieces.cpp:50-61 | the loop returns RowOf(piece) |
| BitScan.ColOfFile | Pieces.cpp:73-80 | ColOf names an occupied file, and no file to its right is occupied |
| BitScan.ColIndex | Pieces.cpp:73-80 | the loop returns ColOf(piece) |
| BitScan.SquareRowCol | Pieces.cpp:50-80 | for a single square, RowIndex and ColIndex give its rank and file |
| BitScan.SquareFromRowCol | Pieces.cpp:50-80 | a single square is the square at its ColIndex and RowIndex, with the row below 8 |
| Pawns.UpDiagonalsFrom | Pieces.cpp:102-106 | every square White's pawns attack is one rank above a pawn on the next file to the left or right |
| Pawns.UpDiagonalsTo | Pieces.cpp:102-106 | a pawn below rank 8 attacks both diagonal squares one rank up that lie on the board |
| Pawns.DownDiagonalsFrom | Pieces.cpp:107-111 | every square Black's pawns attack is one rank below a pawn on the next file to the left or right |
| Pawns.DownDiagonalsTo | Pieces.cpp:107-111 | a pawn above rank 1 attacks both diagonal squares one rank down that lie on the board |
| Pawns.PawnAttackOnOccupied | Pieces.cpp:126-150 | the captures are exactly the attacked squares of PiecesPawnMoveFast that B occupies |
| Pawns.PawnAttackWhite | Pieces.cpp:126-150 | for a white mover, the captures are the up-diagonal attacks on squares B occupies |
| Pawns.PawnAttackBlack | Pieces.cpp:126-150 | for a black mover, the captures are the down-diagonal attacks on squares B occupies |
| Pawns.WhitePushesSingle | Pieces.cpp:177-186 | a white pawn off ranks 2 and 8 moves one square up when that square is empty, and nowhere otherwise |
| Pawns.WhitePushesDouble | Pieces.cpp:177-186 | a white pawn on rank 2 gets one step when the square ahead is free, and a second when the next one is free too |
| Pawns.WhitePushesLastRank | Pieces.cpp:177-186 | a white pawn on rank 8 has no push |
| Pawns.BlackPushesSingle | Pieces.cpp:234-243 | a black pawn off ranks 7 and 1 moves one square down when that square is empty |
| Pawns.BlackPushesDouble | Pieces.cpp:234-243 | a black pawn on rank 7 gets one step, and a second when both squares are free |
| Pawns.BlackPushesLastRank | Pieces.cpp:234-243 | a black pawn on rank 1 has no push |
| Pawns.WhiteEnPassantCapture | Pieces.cpp:193-204 | a white pawn on rank 5 beside a black pawn that has just stepped from rank 7 to rank 5 gains the square that pawn passed over, whatever other pawns White has |
| Pawns.BlackEnPassantCapture | Pieces.cpp:250-261 | the same for a black pawn on rank 4 after a white double step |
| Pawns.EnPassantNeedsPawnStep | Pieces.cpp:193-204 | an en-passant square exists only right after the opponent's pawn moved from its second rank to its fourth |
| Pawns.EnPassantNeedsNeighbour | Pieces.cpp:193-261 | for either colour and any pawn set: with no pawn beside the square where the opponent's last move ended, on the same rank, there is no en-passant square |
| Leapers.KnightMove | Pieces.cpp:348-364 | a side without knights has no knight moves, as KnightZeroKnights (UnitTest.cpp:116-127) expects |
| Leapers.KnightMoveOnlyKnights | Pieces.cpp:348-364 | the knight moves depend on the knight board alone |
| Leapers.KnightMoveKeepsOwnSquares | Pieces.cpp:348-364 | a knight on b1 reaches its own pawn's square d2 |
| Leapers.KnightJumpsOfSquare | Pieces.cpp:348-364 | from file f, rank r, the knight reaches exactly the L-shaped targets that lie on the board |
| Leapers.KnightOnC5 | UnitTest.cpp:91-101 | a knight on c5 reaches the eight squares of the unit test |
| Leapers.KnightsOnEdges | UnitTest.cpp:103-114 | knights on a1, e4 and h8 reach the squares of the unit test, with no wrap-around |
| Leapers.KingMoveFast | Pieces.cpp:876-897 | never one of the mover's squares, and nothing without a king |
| Leapers.NeighboursOfSquare | Pieces.cpp:876-897 | from file f, rank r, the king reaches exactly the adjacent squares that lie on the board |
| Diagonals.CastRay | Pieces.cpp:393-407 | one ray loop returns RayFrom: squares added until it leaves the board, meets an own square (excluded) or an opponent's square (included) |
| Diagonals.RayEnds | Pieces.cpp:393-407 | a ray at the board's edge adds nothing more |
| Diagonals.RayBlocked | Pieces.cpp:393-407 | a ray stops before a square of the mover |
| Diagonals.RayCaptures | Pieces.cpp:393-407 | a ray takes a square of the opponent and stops there |
| Diagonals.RayContinues | Pieces.cpp:393-407 | a ray passes an empty square and goes on from it |
| Diagonals.RayFromAvoids | Pieces.cpp:393-458 | a ray never adds a square of the mover |
| Diagonals.RayFromNothing | Pieces.cpp:393-458 | a ray from an empty board adds nothing |
| Diagonals.RayFromCapturesLast | Pieces.cpp:393-407 | a whole ray meets the opponent in at most one square, and that square is the last one added: the ray is the one that stops before it, with it joined |
| Diagonals.DiagonalMoves | Pieces.cpp:393-458 | the four loops together compute Diagonals |
| Diagonals.DiagonalsOfNothing | Pieces.cpp:377-461 | an empty piece board has no diagonal moves |
| Diagonals.DiagonalsAvoidOwn | Pieces.cpp:377-461 | the diagonal moves never include a square of the mover |
| Diagonals.BishopMoveEx | Pieces.cpp:377-461 | PiecesBishopMoveEx returns Diagonals of the bishop board, and none of A's squares |
| Diagonals.BishopAloneOnD4 | UnitTest.cpp:206-217 | a lone bishop on d4 reaches both long diagonals through d4 |
| Diagonals.BishopCapturesOnD4 | UnitTest.cpp:219-232 | the bishop on d4 stops before its own pawns on f6 and c3 and takes the pawn on b6 |
| Straight.RankMovesOf | Pieces.cpp:548-576 | the horizontal part computes RankMoves, with the blockers picked by MostSigBit, LeastSigBit, minz and max |
| Straight.FileMovesOf | Pieces.cpp:580-596 | the vertical part computes FileMoves |
| Straight.StraightAtOf | Pieces.cpp:541-598 | the rank and file moves on the piece's rank and file masks, with the piece's own square removed |
| Straight.StraightMovesOf | Pieces.cpp:531-598 | the rank and file moves on Rank[RowIndex] and File[ColIndex] of the piece |
| Straight.RookMoveEx | Pieces.cpp:521-600 | PiecesRookMoveEx returns StraightMoves of the rook board, never including the rook's own square |
| Straight.StraightAtAvoidsPiece | Pieces.cpp:598 | the piece's own square is never one of its rank or file moves |
| Straight.StraightAvoidsPiece | Pieces.cpp:598 | the same for the masks RowIndex and ColIndex choose |
| Straight.RankMovesOpen | Pieces.cpp:548-576 | with no other piece on its rank, the horizontal part is the whole rank |
| Straight.FileMovesOpen | Pieces.cpp:580-596 | with no other piece on its file, the vertical part is the whole file |
| Straight.StraightAtAlone | Pieces.cpp:521-600 | a lone piece reaches its whole rank and file except its own square |
| Straight.RookAloneOnD4 | UnitTest.cpp:129-139 | a lone rook on d4 reaches rank 4 and file d |
| Straight.RookCapturesOnD4 | UnitTest.cpp:141-154 | the rook on d4 among own and enemy pawns reaches the squares of the unit test |
| Straight.RooksOnRankOne | Pieces.cpp:548-576 | rooks on a1 and h1 and no other piece: each stops before the other, reaching the rest of rank 1 and its own file |
| Straight.RookHorizontalAsWritten | Pieces.cpp:548-576 | a rook on f7 with its own pieces on d7, c7 and b7 passes over d7 and c7 and stops before b7, the farthest of them |
| Straight.RankNearerSideWins | Pieces.cpp:548-576 | a rook on a1 with own pieces on b1 and h1 and an opponent's on e1 keeps the nearer pick e1 and takes it, passing over b1 |
| Straight.StartingCornersAsWritten | Pieces.cpp:548-576 | rooks on a1 and h1 amid the starting ranks each reach b1 .. g1 and nothing on their files |
| Straight.FileMovesMissOwnAbove | Pieces.cpp:580-596 | on every board, no square of the mover above the piece on its file is a vertical move |
| Straight.FileMovesMissOwnBelow | Pieces.cpp:580-596 | on every board, no square of the mover below the piece on its file is a vertical move |
| Straight.FileMovesStopAbove | Pieces.cpp:580-596 | on every board, no vertical move lies beyond a piece of either side above the piece on its file |
| Straight.FileMovesStopBelow | Pieces.cpp:580-596 | on every board, no vertical move lies beyond a piece of either side below the piece on its file |
| Straight.RankMovesMissFarthestOwnEast | Pieces.cpp:548-576 | on every board, the mover's square east of the piece that MostSigBit picks (the farthest one) is not a horizontal move |
| Straight.RankMovesMissFarthestOwnWest | Pieces.cpp:548-576 | on every board, the mover's square west of the piece that LeastSigBit picks (the farthest one) is not a horizontal move |
| Straight.RankJumpsOpponent | Pieces.cpp:548-576 | a rook on a1 with the opponent's pieces on c1 and e1 passes over c1 and takes on e1: the opponent's farthest piece east is the one taken |
| Straight.RankMovesStopEast | Pieces.cpp:548-576 | on every board, no horizontal move lies east of the opponent's farthest piece east of the piece, the one MostSigBit picks |
| Straight.RankMovesStopWest | Pieces.cpp:548-576 | on every board, no horizontal move lies west of the opponent's farthest piece west of the piece, the one LeastSigBit picks |
| Straight.RankMovesReachEast | Pieces.cpp:548-576 | on every board, a square east of the piece that is empty or the opponent's, with no piece of either side between them, is a horizontal move |
| Straight.RankMovesReachWest | Pieces.cpp:548-576 | on every board, a square west of the piece that is empty or the opponent's, with no piece of either side between them, is a horizontal move |
| Straight.FileMovesReachAbove | Pieces.cpp:580-596 | on every board, a square above the piece that is empty or the opponent's, with no piece of either side between them, is a vertical move: the empty squares up to the nearest piece, and that piece when it is the opponent's |
| Straight.FileMovesReachBelow | Pieces.cpp:580-596 | the same for squares below the piece |
| Generators.QueenMovesOf | Pieces.cpp:660-811 | the queen's four ray loops and the rank and file part compute QueenMoves |
| Generators.QueenMoveEx | Pieces.cpp:660-815 | PiecesQueenMoveEx returns QueenMoves of the queen board, never including the queen's own square |
| Generators.QueenAvoidsItself | Pieces.cpp:811 | the queen's square is never one of its moves |
| Generators.QueenAvoidsOwnSquare | Pieces.cpp:811 | the queen never moves to the square of A's queen |
| Generators.QueenAloneOnD4 | UnitTest.cpp:246-257 | a lone queen on d4 reaches its rank, file and both diagonals |
| Generators.Alone | Pieces.cpp:302-337 | the copy for one found piece has only that square on the type's board and the type's other pieces in Reserved |
| Generators.SweepMoves | Pieces.cpp:302-337 | the wrapper loop computes Sweep, and an empty board of the type gives nothing, as RookEmptyBoard (UnitTest.cpp:156-164) expects |
| Generators.SweepVisits | Pieces.cpp:302-337 | a square holding a piece of the type adds that piece's single-piece moves |
| Generators.SweepSkips | Pieces.cpp:302-337 | any other square adds nothing |
| Generators.SweepOne | Pieces.cpp:302-337 | one piece below h8: the wrapper returns that piece's single-piece moves |
| Generators.SweepTwo | Pieces.cpp:302-337 | two pieces below h8: the wrapper returns the union of their moves, each made with the other in Reserved |
| Generators.SweepMissesH8 | Pieces.cpp:302-337 | a piece on h8 is never visited, so the wrapper returns nothing for it |
| Generators.SweepFromEmpty | Pieces.cpp:302-337 | the loop passes a stretch of squares holding no piece of the type without adding anything |
| Generators.SweepFromBefore | Pieces.cpp:302-337 | up to the lowest piece of the type, the loop adds nothing |
| Generators.SweepFromPast | Pieces.cpp:302-337 | once past the highest piece of the type, the loop adds nothing more |
| Generators.SweepReaches | Pieces.cpp:302-337 | after an empty stretch, the next piece adds its single-piece moves |
| Generators.RookHorizontalAttackTest | UnitTest.cpp:192-204 | PiecesRookMove for the rook on f7 beside its own pawns on d7, c7, b7 gives 0x20DC202020202020, not the unit test's 0x20D0202020202020 |
| Generators.RookMovementTest | UnitTest.cpp:129-139 | PiecesRookMove of a lone rook on d4 gives the unit test's squares |
| Generators.RookCaptureTest | UnitTest.cpp:141-154 | PiecesRookMove for the capture position gives the unit test's squares |
| Generators.RookMultipleRooksTest | UnitTest.cpp:166-176 | rooks on a1 and h1 each stop before the other along rank 1 |
| Generators.BishopMovementTest | UnitTest.cpp:206-217 | PiecesBishopMove of a lone bishop on d4 gives the unit test's squares |
| Generators.BishopCaptureTest | UnitTest.cpp:219-232 | PiecesBishopMove for the capture position gives the unit test's squares |
| Generators.QueenMovementTest | UnitTest.cpp:246-257 | PiecesQueenMove of a lone queen on d4 gives the unit test's squares |
| SliderTests.RookMiddleGameTest | UnitTest.cpp:178-190 | PiecesRookMove for rooks on e1, e4, e8 against pawns on e3, h7, b4 gives 0xEF101010EE1010EF |
| SliderTests.BishopMultipleBishopsTest | UnitTest.cpp:234-244 | PiecesBishopMove for bishops on a1 .. h8 gives 0x2A158A45A251A854, the bishop on h8 adding nothing |
| SliderTests.QueenMultipleQueensTest | UnitTest.cpp:259-270 | PiecesQueenMove for queens on d4 and e4 gives 0x99DB7E3CE73C7EDB |
| SliderTests.QueenMultipleCaptureTest | UnitTest.cpp:272-284 | PiecesQueenMove for a queen on a2 against queens on g2, b1, f7, a7 gives 0x21110905037E03 |
| PawnTests.PawnEnPassantWhiteTest | UnitTest.cpp:59-73 | after d7-d5, PiecesPawnMove for White's pawn on e5 gives e6 and d6 |
| PawnTests.PawnEnPassantBlackTest | UnitTest.cpp:75-89 | after f2-f4, PiecesPawnMove for Black's pawn on e4 gives e3 and f3 |
| PawnTests.PawnEdgeAttacksTest | UnitTest.cpp:45-57 | Black's pawn on h5 gets h4 and the capture on g4, and does not wrap to a4 |
| PawnTests.PawnMiddleGameTest | UnitTest.cpp:31-43 | white pawns on d3, e4, f5 against d5, e5, e6 give d4, d5, e6 and f6 |
| PawnTests.RankTwoFrom | Pieces.cpp:302-337 | the loop over the pawns of rank 2 adds each pawn's single and permitted double step |
| PawnTests.RankTwoSweep | Pieces.cpp:302-337 | a full rank 2 of pawns, each making its single step and its double step where allowed, gives rank 3 and those double steps |
| PawnTests.PawnsFirstMoveTest | UnitTest.cpp:6-17 | White's pawns on rank 2 with nothing in front give ranks 3 and 4 |
| PawnTests.PawnsFirstMoveBlockingTest | UnitTest.cpp:19-29 | with pieces on a4 .. d4, rank 3 and only e4 .. h4 of rank 4 |
| Attacks.GetAttackSquares | Pieces.cpp:977-988 | the method returns AttackSquares: the union of the six generators, the king's the fast one |
| Attacks.NothingAttacks | Pieces.cpp:977-988 | a side with no pieces attacks nothing |
| Attacks.IsKingInCheck | Pieces.cpp:990-1001 | the answer is InCheck: A's king meets B's attacked squares |
| Attacks.NeverInCheck | Pieces.cpp:990-1001 | a side without a king, or facing a side without pieces, is never in check |
| Attacks.ShortCastle | Pieces.cpp:932-946 | g1 (g8) is added exactly when the king's rook has not moved, the colour is White (Black) and f1, g1 (f8, g8) are unattacked |
| Attacks.LongCastle | Pieces.cpp:947-961 | c1 (c8) is added exactly when the queen's rook has not moved, the colour fits and d1, c1 (d8, c8) are unattacked |
| Attacks.CastleSquaresSafe | Pieces.cpp:929-962 | a castle target is never attacked and is one of g1, c1, g8, c8 |
| Attacks.CastlesKeepMoves | Pieces.cpp:929-962 | castling only adds squares |
| Attacks.CastlesAddTargets | Pieces.cpp:929-962 | castling adds castle targets only |
| Attacks.CastlesAddUnattacked | Pieces.cpp:929-962 | castling adds no attacked square |
| Attacks.CastlesNeedSafeUnmovedKing | Pieces.cpp:929-930 | a king that has moved or stands attacked gains no castle |
| Attacks.KingMove | Pieces.cpp:912-966 | the method returns KingMoves for both values of FastSearch |
| Attacks.KingMovesUnattacked | Pieces.cpp:926-927 | without FastSearch the king never goes to a square B attacks |
| Attacks.KingMovesWithinReach | Pieces.cpp:912-966 | beyond its free neighbours the king gets at most the castle targets |
| Attacks.KingMovesAfterKingMoved | Pieces.cpp:929-930 | once KING_HAS_MOVED is set, the king gets its unattacked free neighbours only |
| Attacks.KingMovesUnopposed | Pieces.cpp:912-966 | facing no pieces, the king gets its free neighbours plus every castle its flags allow |
| Attacks.KingMovementTest | UnitTest.cpp:286-298 | a king on d4 next to its bishop on d5 gets the unit test's squares |
| Attacks.KingCastleTest | UnitTest.cpp:329-342 | a king on e1 with rooks on a1 and h1 and no flags set may castle both ways |
| Attacks.PieceMovesOf | Board.cpp:582-602 | the callback for a type computes that type's generator |
| Attacks.PieceMovesOfNothing | Board.cpp:582-602 | every generator gives nothing for an empty board, except the king's castle targets |
| Legality.CutTo | Board.cpp:95-125 | the copy keeps the type's board only on the origin, and for every type but the king the full board in Reserved2 |
| Legality.CutToOwnSquare | Board.cpp:95-125 | after the cut, the type's board holds exactly the origin square |
| Legality.CheckMoveIsLegalByPieceEx | Board.cpp:89-132 | the answer is LegalByPiece: the destination meets the generator's squares for the cut-down copy; NONE is never legal |
| Legality.NothingOnStart | Board.cpp:95-122 | a move from a square without a piece of the type is not legal |
| Legality.KingNotOnStart | Board.cpp:123-125 | a king move from a square the king is not on is legal only to a castle target |
| Legality.LegalFromOnePiece | Board.cpp:95-122 | for a piece below h8 the generated squares are that single piece's moves |
| Legality.SweptTargets | Board.cpp:95-122 | the legality test runs the wrapper on the cut-down copy |
| Legality.OthersOfTypeBlock | Board.cpp:99-121 | the type's other pieces, parked in Reserved2, still block the moving piece |
| Legality.NoMoveFromH8 | Board.cpp:95-122 | no pawn, bishop, rook or queen move from h8 is ever legal |
| Legality.RookCollisionTest | UnitTest.cpp:358-372 | the rook on a1 may not move onto its partner on h1 |
| Applier.PromotedType | Board.cpp:157-172 | each answer Q, R, B or N gives a queen, rook, bishop or knight |
| Applier.Promote | Board.cpp:145-180 | the pawn leaves the destination, and nothing else but the chosen board changes |
| Applier.PromoteAdds | Board.cpp:157-172 | the chosen type's board gains the destination |
| Applier.PromoteKeeps | Board.cpp:145-180 | every board but the pawns and the chosen type is kept |
| Applier.ShortJump | Board.cpp:285-311 | a short castle moves the rook h1 to f1 (h8 to f8) and sets KING_ROOK_HAS_MOVED |
| Applier.LongJump | Board.cpp:293-318 | a long castle moves the rook a1 to d1 (a8 to d8) and sets QUEEN_ROOK_HAS_MOVED |
| Applier.NoJumpOffTargets | Board.cpp:281-321 | a king that has moved, or one not going to a castle target, moves no rook |
| Applier.KingCase | Board.cpp:277-323 | a king move is the step, the castle's rook jump, and KING_HAS_MOVED |
| Applier.RookCase | Board.cpp:247-272 | a rook move is the step and the corner flag |
| Applier.PromotingCase | Board.cpp:200-238 | a pawn reaching the last rank, without the en-passant pattern, is stepped and promoted |
| Applier.PlainCase | Board.cpp:199-276 | knight, bishop and queen moves, and pawn moves that do not promote, are the plain step |
| Applier.MoverMovesPiece | Board.cpp:199-326 | without promotion the moved type's board loses the origin and gains the destination |
| Applier.MoverKeepsOtherBoards | Board.cpp:199-326 | every other board of the mover is kept, except the rooks in a castle |
| Applier.MoverKeepsIdentity | Board.cpp:199-326 | the mover keeps its colour and both Reserved boards |
| Applier.MoverKeepsFlags | Board.cpp:199-326 | only rook and king moves change the castling flags |
| Applier.FlagsOnlyGrow | Board.cpp:199-326 | no move clears a castling flag |
| Applier.RookLeavesQueenCorner | Board.cpp:250-271 | a rook leaving a1 (a8) sets QUEEN_ROOK_HAS_MOVED |
| Applier.RookLeavesKingCorner | Board.cpp:250-271 | a rook leaving h1 (h8) sets KING_ROOK_HAS_MOVED |
| Applier.RookLeavesElsewhere | Board.cpp:250-271 | a rook leaving any other square sets no flag |
| Applier.KingSetsFlag | Board.cpp:322 | every king move sets KING_HAS_MOVED |
| Applier.ShortCastleMovesRook | Board.cpp:285-311 | the short castle moves the rook from h1 to f1 (h8 to f8) |
| Applier.LongCastleMovesRook | Board.cpp:293-318 | the long castle moves the rook from a1 to d1 (a8 to d8) |
| Applier.ShortCastleSetsFlags | Board.cpp:285-322 | the short castle adds KING_ROOK_HAS_MOVED and KING_HAS_MOVED, and no other flag |
| Applier.LongCastleSetsFlags | Board.cpp:293-322 | the long castle adds QUEEN_ROOK_HAS_MOVED and KING_HAS_MOVED, and no other flag |
| Applier.KingMoveKeepsRooks | Board.cpp:281-321 | a king move that is not a castle leaves the rooks in place |
| Applier.PromotionClearsPawn | Board.cpp:215-236 | a promoting pawn is on neither square afterwards |
| Applier.PromotionAddsPiece | Board.cpp:215-236 | a promotion puts the chosen piece on the destination |
| Applier.PromotionKeepsOtherBoards | Board.cpp:215-236 | a promotion changes no other board |
| Applier.EnPassantDoesNotPromote | Board.cpp:204-237 | with the en-passant pattern, the pawn simply moves |
| Applier.OtherKeepsState | Board.cpp:328-364 | the other side's flags and last move are untouched |
| Applier.OtherKeepsIdentity | Board.cpp:328-364 | the other side keeps its colour and Reserved boards |
| Applier.CaptureClearsDestination | Board.cpp:328-346 | a capture removes the destination from the captured type's board |
| Applier.CaptureKeepsOtherBoards | Board.cpp:328-346 | a capture changes no other board of the other side |
| Applier.WhiteEnPassantRemovesPawn | Board.cpp:350-355 | White's en-passant capture removes the black pawn one rank below the destination |
| Applier.BlackEnPassantRemovesPawn | Board.cpp:356-359 | Black's en-passant capture removes the white pawn one rank above the destination |
| Applier.EnPassantKeepsOtherBoards | Board.cpp:347-361 | en passant changes none of the other side's boards but the pawns |
| Applier.QuietMoveKeepsOther | Board.cpp:347-361 | a move onto an empty square without the en-passant pattern leaves the other side unchanged |
| Boards.StartSide | Board.cpp:11-30 | the new game's side has its colour, no flags, no record and empty Reserved boards |
| Boards.ClearedSide | Board.cpp:41-50 | the cleared side has no pieces and all three castling flags set |
| Boards.StartingLayout | Board.cpp:11-30 | White holds ranks 1 and 2, Black ranks 7 and 8, the two are disjoint and no flag is set |
| Boards.StartingRooksAsWritten | Board.cpp:11-30 | in the starting position PiecesRookMove for White gives b1 .. g1, its own pieces' squares |
| Boards.SamePiecesIgnores | Board.cpp:857-866 | the comparison ignores the colour, the Reserved boards and the last move |
| Boards.SamePiecesMeansSameBoards | Board.cpp:857-866 | two sides compare equal exactly when all their piece boards and castling flags agree |
| Boards.Record | Board.cpp:453-457 | recording a move sets the last move and type and changes nothing the comparison sees |
| Boards.UnknownColorRefused | Board.cpp:390-405 | a colour code other than WHITE_PIECE and BLACK_PIECE is refused, and only such a code is refused for that reason |
| Boards.NoPieceRefused | Board.cpp:408-414 | a move is refused for want of a piece exactly when the mover has nothing on the origin |
| Boards.MapSquareToPieceNone | Pieces.cpp:1003-1033 | the lookup answers NONE exactly when none of the side's pieces is on the mask |
| Boards.UngeneratedRefused | Board.cpp:419-423 | a move from a piece is refused as not generated exactly when the legality test fails |
| Boards.AcceptedIsGenerated | Board.cpp:408-423 | an accepted move starts on a piece of the mover and is generated for it |
| Boards.AcceptedIsApplied | Board.cpp:428-468 | an accepted move gives the applier's position, the mover's record set to the move and the other side's record cleared |
| Boards.AcceptedLeavesKingSafe | Board.cpp:435-441 | after an accepted move the mover's king stands on no square the other side attacks |
| Boards.AcceptedMovesPiece | Board.cpp:431 | an accepted move that does not promote moves the piece on its own board |
| Boards.AcceptedCaptures | Board.cpp:428-431 | an accepted capture removes the destination from the captured type's board |
| Boards.AcceptedKeepsFlags | Board.cpp:431 | an accepted move keeps the colours, never clears a mover's flag, and keeps the other side's flags |
| Boards.CollisionRefused | UnitTest.cpp:358-372 | on a board of zeros, White's rook a1 may not move to h1 |
| MateTests.KingStepRefused | UnitTest.cpp:300-327 | h8-g8 is refused as not generated: the rook on a8 attacks g8 and the king is in check |
| MateTests.H7StepRefused | UnitTest.cpp:300-327 | h7-h6 is generated but refused, since the rook on a8 still attacks h8 |
| MateTests.G7StepRefused | UnitTest.cpp:300-327 | g7-g6 is generated but refused, since the rook on a8 still attacks h8 |
| MateTests.KingIsCheckmatedTest | UnitTest.cpp:300-327 | BoardAttemptMove refuses all three moves the test tries, so the test's result stays false |
| Boards.AttemptOn | Board.cpp:408-444 | the steps after the colour test return whether AttemptBy accepts, and then its two sides |
| Boards.Board.constructor | Board.hpp:10-13 | a board of zeros: both sides empty with colour code 0 |
| Boards.Board.Init | Board.cpp:11-30 | the board becomes the starting position |
| Boards.Board.ZeroInit | Board.cpp:41-50 | the board becomes empty with every castling flag set |
| Boards.Board.InitWithPieces | Board.cpp:63-75 | A goes to the side its colour names and B to the other |
| Boards.Board.AttemptMove | Board.cpp:381-473 | the answer is whether Attempt accepts; the board becomes the new position exactly when the move is accepted and ReturnPosition is set, and is otherwise unchanged |
| Boards.Board.CompareMeansSameBoards | Board.cpp:857-884 | two boards compare equal exactly when each side has the same six piece boards and the same castling flags as its counterpart |
| Checkmate.FindNextMove | Board.cpp:489-510 | 0 or a single legal square, and NO_SQUARE once the start is NO_SQUARE |
| Checkmate.FindNextPiece | Board.cpp:525-571 | the scan of the type's board, the same as FindNextMove on it; NONE has an empty board |
| Checkmate.FindNextMoveMeans | Board.cpp:489-510 | NO_SQUARE exactly when no legal square lies at or above start; otherwise the lowest legal square at or above start |
| Checkmate.ScanAdvances | Board.cpp:657-660 | the shift and the next scan move strictly up the board, so the loops end |
| Checkmate.TryEscapes | Board.cpp:644-654 | a destination that leaves the king unattacked is an escape |
| Checkmate.TryGoesOn | Board.cpp:644-660 | no escape at a destination means no escape from the next one on, on the copies after the move |
| Checkmate.TryFailed | Board.cpp:644-660 | a destination that leaves the king attacked, with no escape further on, is no escape |
| Checkmate.TryDestination | Board.cpp:644-654 | one pass: an escape ends the search with false, and otherwise the answer is the search from the next destination |
| Checkmate.SearchFrom | Board.cpp:642-661 | the loop over the destinations answers NoEscapeAt for the copies and the square it has reached |
| Checkmate.PieceHasLegalMovesEx | Board.cpp:620-664 | the answer is NoEscapeByPiece: no destination, applied in turn to copies of B and A, takes B's king out of check |
| Checkmate.PieceEscapes | Board.cpp:700-706 | one piece with an escape ends the search of the type with false |
| Checkmate.PieceGoesOn | Board.cpp:700-710 | one piece without an escape hands the search on to the next piece of the type |
| Checkmate.TryPiece | Board.cpp:700-710 | one pass over a piece: its answer, and the next piece strictly above it |
| Checkmate.SearchPieces | Board.cpp:700-710 | the loop over the pieces answers NoEscapeFromPiece from the piece it has reached |
| Checkmate.TypeMoves | Board.cpp:692-698 | no legal squares at all means no escape; otherwise the answer is the search over the pieces |
| Checkmate.PieceTypeHasLegalMovesEx | Board.cpp:680-714 | the answer is NoEscapeByType: no piece of the type has a destination that takes B's king out of check |
| Checkmate.TypeOf | Pieces.hpp:13-21 | the enumeration value 0 is NONE and 1 .. 6 are the piece types |
| Checkmate.ValueOf | Pieces.hpp:13-21 | every type has a value from 0 to 6, and TypeOf gives the type back |
| Checkmate.DownFromAsks | Board.cpp:744-751 | the countdown from KING answers true only when every type it passes has no escape |
| Checkmate.DownFromAll | Board.cpp:744-751 | the countdown answers true when every type it passes has no escape |
| Checkmate.SearchTypes | Board.cpp:744-751 | the loop from KING down to PAWN answers NoEscapeByAnyType |
| Checkmate.Checkmated | Board.cpp:728-755 | the answer is IsCheckmated: B is in check and no type of its pieces gets it out |
| Checkmate.MatedFailsEveryType | Board.cpp:728-755 | a checkmated side is in check and no piece type gets it out |
| Checkmate.EveryTypeFailsMated | Board.cpp:728-755 | a side in check that no piece type gets out is checkmated |
| Notation.Unsigned | Game.cpp:37 | the difference lies in 0 .. 2^64 - 1; it is the plain difference when that is in range, and a huge value when the character is below the range |
| Notation.FileIndex | Game.cpp:37-43 | a file exactly for 'a' .. 'h', giving 0 .. 7 |
| Notation.RankIndex | Game.cpp:46-52 | a rank exactly for '1' .. '8', giving 0 .. 7 |
| Notation.ParsedSquare | Game.cpp:45 | the shifted bit is the square of that file and rank |
| Notation.ParseSquare | Game.cpp:24-54 | a square exactly for a two-character string of a file letter and a rank digit, and then the square they name |
| Notation.ParseName | Game.cpp:24-54 | every square's name parses back to that square |
| Notation.NameParsed | Game.cpp:24-54 | every string that parses is the name of the square it names |
| Notation.ParseMove | Game.cpp:13-78 | valid exactly when both strings name squares; then the move goes from the first to the second, and otherwise the move is unchanged |
| Notation.ParseExamples | Game.cpp:13-78 | "e2" and "e4" parse to e2 and e4; "i1", "e9" and "e22" are refused |

## Left out

- Console I/O is not modelled: the messages of GamePrintError and
  GamePrintInfo, the promotion prompt, DebugBoard and DebugPrint. The game
  loop GamePlayAlone is not modelled either.
- The promotion answer is a parameter, fixed for a whole search. The engine
  asks the console once per promoting trial move.
- Applier.CompleteMove: modelled as functions on `Pieces` values rather than
  a method that changes two structures in place. The engine always works on
  private copies, so nothing aliases.
- Checkmate.SearchFrom: the destination loop of BoardPieceHasLegalMovesEx is
  a tail-recursive method, one call per destination, not a while loop. The
  while form's proof does not fit the verifier's resource bound.
- Checkmate.SearchPieces: the same for the piece loop of
  BoardPieceTypeHasLegalMovesEx.
- The checkmate positions of BoardCheckmateIterator, BoardKnightCheckmate
  and BoardFoolsMate (UnitTest.cpp:438-506) are not restated as lemmas. A
  whole search over a concrete position unrolls too far for the verifier.
- BoardPromotedQueen (UnitTest.cpp:508-564) is not restated either: the
  engine's own test list leaves it out, and it plays a whole game through
  BoardAttemptMove like BoardSimplePawnPush.
- BoardSimplePawnPush of UnitTest.cpp:375-436 is not restated as a lemma.
  It plays thirteen moves through BoardAttemptMove from the starting
  position; each move runs every generator over a concrete board, which
  unrolls too far for the verifier. The pawn generator's own unit tests are
  restated in `PawnTests`.
- BoardFirstMove of UnitTest.cpp:344-357 is not restated as a lemma. To
  accept d2-d4 from the starting position, every generator of Black's
  sixteen pieces must miss e1 on a concrete board, which unrolls too far for
  the verifier. The three refusals of KingIsCheckmated (UnitTest.cpp:300-327)
  are restated in `MateTests`.
- Color is a datatype with the two values White and Black. The engine keeps
  it in a UInt8. A stored value of 2 or more would act as Black in the pawn
  generator, the applier and BoardInitWithPieces, and give no castle in
  PiecesKingMove. The engine's own initialisers store only WHITE_PIECE and
  BLACK_PIECE in that field. The colour argument of BoardAttemptMove, which
  can be any code, is modelled as a number (`Boards.UnknownColorRefused`).
- Foundation.BitCount: the contract states the count of the empty board, the
  full board and every single square, not the population count of every
  board. The proof of the general count does not fit the verifier's
  resource bound.
- Straight.StraightMoves: defined only for a non-empty piece board. For an
  empty board RowIndex gives 8, and the engine reads Rank[8] past the end of
  the table; PiecesRookMove and PiecesQueenMove never make that call.
- Attacks.PieceMoves: NONE has no callback (the engine's table returns a
  null pointer), so the function requires a real type. The search never
  asks for NONE.
- The king's callback is called with FastSearch read as false. Through the
  two-argument pointer the engine leaves that argument unset.
- Notation.FileIndex and Notation.RankIndex: a character stands for one
  byte. Characters beyond one byte do not arise in a std::string.
- Reverse and ReverseMap of Foundation.hpp are not part of this model: no
  modelled function uses them.
- BoardStalemated and BoardIsMaterialDraw are declared in Board.hpp without
  a definition here, so they are not part of this model, nor are their tests
  (UnitTest.cpp:566-612).
