/**
 * The pawn scenarios of UnitTest.cpp:6-89, run through the wrapper
 * PiecesPawnMove (Pieces.cpp:302-337), which Sweep models. Each scenario
 * follows the wrapper's loop over the squares: the empty stretches add
 * nothing, and each pawn adds what PiecesPawnMoveEx gives for it alone.
 */
module PawnTests {
  import opened Foundation
  import opened PieceSets
  import opened Pawns
  import opened Generators
  import opened Boards

  // ---------------------------------------------------------------------
  // One pawn on the moving side
  // ---------------------------------------------------------------------

  /** PawnEnPassantWhite of UnitTest.cpp:59-73: after d7-d5, White's pawn on e5 may go to e6 or take on d6. */
  lemma PawnEnPassantWhiteTest(a: Pieces, b: Pieces)
    requires a == ClearedSide(White).(pawns := e5)
    requires b == ClearedSide(Black).(pawns := d5, state := ClearedSide(Black).state.(lastMove := Move(d7, d5), lastMovedPiece := Pawn))
    ensures Sweep(Pawn, a, b) == 0x180000000000
  {
    SweepOne(Pawn, a, b, 36);
  }

  /** PawnEnPassantBlack of UnitTest.cpp:75-89: after f2-f4, Black's pawn on e4 may go to e3 or take on f3. */
  lemma PawnEnPassantBlackTest(a: Pieces, b: Pieces)
    requires a == ClearedSide(Black).(pawns := e4)
    requires b == ClearedSide(White).(pawns := f4, state := ClearedSide(White).state.(lastMove := Move(f2, f4), lastMovedPiece := Pawn))
    ensures Sweep(Pawn, a, b) == 0x300000
  {
    SweepOne(Pawn, a, b, 28);
  }

  /** PawnEdgeAttacks of UnitTest.cpp:45-57: Black's pawn on h5 takes on g4 and steps to h4, without wrapping to a4. */
  lemma PawnEdgeAttacksTest(a: Pieces, b: Pieces)
    requires a == ClearedSide(Black).(pawns := h5) && b == ClearedSide(White).(pawns := g4 | a4 | b4 | a5)
    ensures Sweep(Pawn, a, b) == 0xC0000000
  {
    SweepOne(Pawn, a, b, 39);
  }

  // ---------------------------------------------------------------------
  // PawnMiddleGame: three white pawns
  // ---------------------------------------------------------------------

  /** The pawn on d3 steps to d4; e4 is its own side's. */
  lemma MiddleGameD3(a: Pieces, b: Pieces)
    requires a == ClearedSide(White).(pawns := d3 | e4 | f5) && b == ClearedSide(Black).(pawns := d5 | e5 | e6)
    ensures SingleMoves(Pawn, Alone(a, Pawn, d3), b) == d4
  {
  }

  /** The pawn on e4 is blocked by e5 and takes on d5. */
  lemma MiddleGameE4(a: Pieces, b: Pieces)
    requires a == ClearedSide(White).(pawns := d3 | e4 | f5) && b == ClearedSide(Black).(pawns := d5 | e5 | e6)
    ensures SingleMoves(Pawn, Alone(a, Pawn, e4), b) == d5
  {
  }

  /** The pawn on f5 steps to f6 and takes on e6. */
  lemma MiddleGameF5(a: Pieces, b: Pieces)
    requires a == ClearedSide(White).(pawns := d3 | e4 | f5) && b == ClearedSide(Black).(pawns := d5 | e5 | e6)
    ensures SingleMoves(Pawn, Alone(a, Pawn, f5), b) == e6 | f6
  {
  }

  /** The loop up to and through d3 (bit 19). */
  lemma MiddleGameThroughD3(a: Pieces, b: Pieces)
    requires a.pawns == d3 | e4 | f5 && SingleMoves(Pawn, Alone(a, Pawn, d3), b) == d4
    ensures SweepFrom(Pawn, a, b, 0, 0) == SweepFrom(Pawn, a, b, 20, d4)
  {
    SweepFromBefore(Pawn, a, b, d3 | e4 | f5, 0, 19, 0);
    SweepReaches(Pawn, a, b, d3 | e4 | f5, 19, 19, 0, d4);
  }

  /** The loop from bit 20 through e4 (bit 28). */
  lemma MiddleGameThroughE4(a: Pieces, b: Pieces)
    requires a.pawns == d3 | e4 | f5 && SingleMoves(Pawn, Alone(a, Pawn, e4), b) == d5
    ensures SweepFrom(Pawn, a, b, 20, d4) == SweepFrom(Pawn, a, b, 29, d4 | d5)
  {
    SweepReaches(Pawn, a, b, d3 | e4 | f5, 20, 28, d4, d5);
  }

  /** The loop from bit 29 through f5 (bit 37). */
  lemma MiddleGameThroughF5(a: Pieces, b: Pieces)
    requires a.pawns == d3 | e4 | f5 && SingleMoves(Pawn, Alone(a, Pawn, f5), b) == e6 | f6
    ensures SweepFrom(Pawn, a, b, 29, d4 | d5) == SweepFrom(Pawn, a, b, 38, d4 | d5 | e6 | f6)
  {
    SweepReaches(Pawn, a, b, d3 | e4 | f5, 29, 37, d4 | d5, e6 | f6);
  }

  /** PawnMiddleGame of UnitTest.cpp:31-43: d4, the capture on d5, f6 and the capture on e6. */
  lemma PawnMiddleGameTest(a: Pieces, b: Pieces)
    requires a == ClearedSide(White).(pawns := d3 | e4 | f5) && b == ClearedSide(Black).(pawns := d5 | e5 | e6)
    ensures Sweep(Pawn, a, b) == 0x300808000000
  {
    MiddleGameD3(a, b);
    MiddleGameE4(a, b);
    MiddleGameF5(a, b);
    MiddleGameThroughD3(a, b);
    MiddleGameThroughE4(a, b);
    MiddleGameThroughF5(a, b);
    SweepFromPast(Pawn, a, b, d3 | e4 | f5, 38, d4 | d5 | e6 | f6);
  }

  // ---------------------------------------------------------------------
  // PawnsFirstMove and PawnsFirstMoveBlocking: a full rank of white pawns
  // ---------------------------------------------------------------------

  /** The moves of a white pawn on bit k of rank 2: the single step, and the double step where m allows it. */
  function RankTwoPawnMoves(k: bv6, m: bv64): bv64
  {
    (Square(k) << 8) | ((Square(k) << 16) & m)
  }

  /** What the pawns on bits 8 .. k - 1 of rank 2 add together. */
  function RankTwoDone(k: bv6, m: bv64): bv64
  {
    var done := RANK_2 & (Square(k) - 1);
    (done << 8) | ((done << 16) & m)
  }

  /** The bits below k + 1 are the bits below k and bit k. */
  lemma BelowNext(k: bv6)
    requires k < 63
    ensures Square(k + 1) - 1 == (Square(k) - 1) | Square(k)
  {
  }

  /** Bits 8 .. 15 are rank 2. */
  lemma OnRankTwo(k: bv6)
    requires 8 <= k < 16
    ensures Square(k) & RANK_2 == Square(k)
  {
  }

  /** Shifting distributes over the pawns already done and the next one. */
  lemma RankTwoJoinRaw(d: bv64, s: bv64, m: bv64)
    requires s & RANK_2 == s
    ensures (((RANK_2 & d) << 8) | (((RANK_2 & d) << 16) & m)) | ((s << 8) | ((s << 16) & m))
         == ((RANK_2 & (d | s)) << 8) | (((RANK_2 & (d | s)) << 16) & m)
  {
  }

  /** Adding the pawn on bit k to those below it. */
  lemma RankTwoJoin(k: bv6, m: bv64)
    requires 8 <= k < 16
    ensures Join(RankTwoDone(k, m), RankTwoPawnMoves(k, m)) == RankTwoDone(k + 1, m)
  {
    BelowNext(k);
    OnRankTwo(k);
    RankTwoJoinRaw(Square(k) - 1, Square(k), m);
  }

  /** The loop over bits k .. 15 of a rank-2 pawn board, each pawn adding RankTwoPawnMoves. */
  lemma {:induction false} RankTwoFrom(a: Pieces, b: Pieces, m: bv64, k: bv6)
    requires a.pawns == RANK_2 && 8 <= k <= 16
    requires forall i: bv6 :: 8 <= i < 16 ==> SingleMoves(Pawn, Alone(a, Pawn, Square(i)), b) == RankTwoPawnMoves(i, m)
    ensures SweepFrom(Pawn, a, b, k, RankTwoDone(k, m)) == SweepFrom(Pawn, a, b, 16, RankTwoDone(16, m))
    decreases 16 - k as int
  {
    if k < 16 {
      NextSquare(k);
      RankTwoJoin(k, m);
      SweepVisits(Pawn, a, b, k, Square(k), RankTwoDone(k, m), RankTwoPawnMoves(k, m));
      RankTwoFrom(a, b, m, k + 1);
    }
  }

  /** Rank 1 holds no pawn. */
  lemma RankTwoStart(a: Pieces, b: Pieces, m: bv64)
    requires a.pawns == RANK_2
    ensures SweepFrom(Pawn, a, b, 0, 0) == SweepFrom(Pawn, a, b, 8, RankTwoDone(8, m))
  {
    SweepFromBefore(Pawn, a, b, RANK_2, 0, 8, 0);
    assert RankTwoDone(8, m) == 0;
  }

  /** All eight pawns give rank 3 and the double steps m allows. */
  lemma RankTwoAll(m: bv64)
    ensures RankTwoDone(16, m) == RANK_3 | (RANK_4 & m)
  {
  }

  /** A rank-2 pawn board whose every pawn makes its single step, and its double step where m allows. */
  lemma RankTwoSweep(a: Pieces, b: Pieces, m: bv64)
    requires a.pawns == RANK_2
    requires forall i: bv6 :: 8 <= i < 16 ==> SingleMoves(Pawn, Alone(a, Pawn, Square(i)), b) == RankTwoPawnMoves(i, m)
    ensures Sweep(Pawn, a, b) == RANK_3 | (RANK_4 & m)
  {
    RankTwoStart(a, b, m);
    RankTwoFrom(a, b, m, 8);
    RankTwoAll(m);
    SweepFromPast(Pawn, a, b, RANK_2, 16, RANK_3 | (RANK_4 & m));
  }

  /** With nothing in front, a rank-2 pawn makes both steps; the other pawns, parked in Reserved, stay beside it. */
  lemma FirstMoveSingle(a: Pieces, b: Pieces, k: bv6)
    requires a == EmptySide(White).(pawns := RANK_2) && b == EmptySide(White) && 8 <= k < 16
    ensures SingleMoves(Pawn, Alone(a, Pawn, Square(k)), b) == RankTwoPawnMoves(k, 0xFFFF_FFFF_FFFF_FFFF)
  {
  }

  /** PawnsFirstMove of UnitTest.cpp:6-17: a full rank of white pawns on rank 2 steps to ranks 3 and 4. */
  lemma PawnsFirstMoveTest(a: Pieces, b: Pieces)
    requires a == EmptySide(White).(pawns := RANK_2) && b == EmptySide(White)
    ensures Sweep(Pawn, a, b) == RANK_3 | RANK_4
  {
    forall i: bv6 | 8 <= i < 16
      ensures SingleMoves(Pawn, Alone(a, Pawn, Square(i)), b) == RankTwoPawnMoves(i, 0xFFFF_FFFF_FFFF_FFFF)
    {
      FirstMoveSingle(a, b, i);
    }
    RankTwoSweep(a, b, 0xFFFF_FFFF_FFFF_FFFF);
  }

  /** With a4 .. d4 taken, the a .. d pawns make only the single step. */
  lemma BlockedSingle(a: Pieces, b: Pieces, k: bv6)
    requires a == EmptySide(White).(pawns := RANK_2) && b == EmptySide(White).(pawns := 0x0F000000) && 8 <= k < 16
    ensures SingleMoves(Pawn, Alone(a, Pawn, Square(k)), b) == RankTwoPawnMoves(k, 0xF0000000)
  {
  }

  /** PawnsFirstMoveBlocking of UnitTest.cpp:19-29: pawns on a4 .. d4 block the double steps of the a .. d pawns. */
  lemma PawnsFirstMoveBlockingTest(a: Pieces, b: Pieces)
    requires a == EmptySide(White).(pawns := RANK_2) && b == EmptySide(White).(pawns := 0x0F000000)
    ensures Sweep(Pawn, a, b) == RANK_3 | (RANK_4 & 0xF0000000)
  {
    forall i: bv6 | 8 <= i < 16
      ensures SingleMoves(Pawn, Alone(a, Pawn, Square(i)), b) == RankTwoPawnMoves(i, 0xF0000000)
    {
      BlockedSingle(a, b, i);
    }
    RankTwoSweep(a, b, 0xF0000000);
  }

}
