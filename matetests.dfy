/**
 * KingIsCheckmated of UnitTest.cpp:300-327: Black's king on h8 behind its
 * pawns on h7 and g7, and White's rook on a8, on a board of zeros. Every one
 * of the three moves the test tries through BoardAttemptMove is refused, so
 * the board is never written back and each attempt sees the same position.
 */
module MateTests {
  import opened Foundation
  import opened BitScan
  import opened PieceSets
  import opened Straight
  import opened Generators
  import opened Attacks
  import opened Legality
  import opened Applier
  import opened Boards

  /** White on the board of zeros: the rook on a8 alone. */
  const MatingSide: Pieces := Pieces(0, 0, 0, a8, 0, 0, White, NoState, 0, 0)

  /** Black on the board of zeros: the king on h8 and the pawns on h7 and g7, with every castling flag clear. */
  const MatedSide: Pieces := Pieces(h7 | g7, 0, 0, 0, 0, h8, Black, NoState, 0, 0)

  /** The rook on a8 alone on its side: the wrapper returns its rank and file moves. */
  lemma RookOnA8(x: Pieces)
    ensures Sweep(Rook, MatingSide, x) == StraightMoves(a8, a8, Union(x))
  {
    SweepOne(Rook, MatingSide, x, 56);
    assert Union(Alone(MatingSide, Rook, a8)) == a8;
  }

  /** A square the rook wrapper reaches is among the side's attacked squares. */
  lemma RookAttacks(a: Pieces, b: Pieces, s: bv64)
    requires Meets(Sweep(Rook, a, b), s)
    ensures Meets(AttackSquares(a, b), s)
  {
  }

  /** The rook on a8 sweeps rank 8 up to the king on h8, and the a file, whichever of the pawns has stepped. */
  lemma RookSweepsRankEight(x: bv64)
    requires x == h8 | h7 | g7 || x == h8 | g7 | h6 || x == h8 | h7 | g6
    ensures StraightMoves(a8, a8, x) == 0xFE01010101010101
  {
    SquareRowCol(56);
  }

  /** Black's king may not step to g8: the rook attacks it, and the king on h8 is in check, so it may not castle either. */
  lemma KingStepRefused(p: Promotion)
    ensures Attempt(MatingSide, MatedSide, Move(h8, g8), BLACK_PIECE, p) == Refused(NotGenerated)
  {
    var cut := CutTo(MatedSide, King, h8);
    assert Union(cut) == h8 | h7 | g7;
    RookOnA8(cut);
    RookSweepsRankEight(h8 | h7 | g7);
    RookAttacks(MatingSide, cut, g8);
    KingMovesUnattacked(cut, MatingSide);
    assert MapSquareToPiece(MatedSide, h8) == King;
  }

  /** Nothing of White's stands on h6. */
  lemma H7StepTarget()
    ensures MapSquareToPiece(MatingSide, h6) == NoPiece
  {
  }

  /** Black's pawn leaves h7 for h6, without promoting. */
  lemma H7StepMover(p: Promotion)
    ensures MoverAfter(MatedSide, Pawn, MatingSide, Move(h7, h6), p) == MatedSide.(pawns := g7 | h6)
  {
    assert !Meets(h6, LastRank(Black));
    assert Moved(h7 | g7, Move(h7, h6)) == g7 | h6;
  }

  /** With nothing captured and no en passant, White is untouched. */
  lemma H7StepOther()
    ensures OtherAfter(MatedSide, Pawn, MatingSide, NoPiece, Move(h7, h6)) == MatingSide
  {
  }

  /** Black after h7-h6: the pawns on g7 and h6, and White untouched. */
  lemma H7StepApplied(p: Promotion)
    ensures CompleteMove(MatedSide, Pawn, MatingSide, MapSquareToPiece(MatingSide, h6), Move(h7, h6), p) ==
      Sides(MatedSide.(pawns := g7 | h6), MatingSide)
  {
    H7StepTarget();
    H7StepMover(p);
    H7StepOther();
  }

  /** After h7-h6 the rook on a8 still reaches h8. */
  lemma H7StepLeavesCheck()
    ensures InCheck(MatedSide.(pawns := g7 | h6), MatingSide)
  {
    var mover := MatedSide.(pawns := g7 | h6);
    assert Union(mover) == h8 | g7 | h6;
    RookOnA8(mover);
    RookSweepsRankEight(h8 | g7 | h6);
    RookAttacks(MatingSide, mover, h8);
  }

  /** The pawn on h7, moved alone, steps to h6 and h5. */
  lemma H7StepMoves()
    ensures SingleMoves(Pawn, Alone(CutTo(MatedSide, Pawn, h7), Pawn, h7), MatingSide) == h6 | h5
  {
  }

  /** h7-h6 is generated, but leaves the king on h8 in check from the rook on a8. */
  lemma H7StepRefused(p: Promotion)
    ensures Attempt(MatingSide, MatedSide, Move(h7, h6), BLACK_PIECE, p) == Refused(LeavesKingInCheck)
  {
    assert MapSquareToPiece(MatedSide, h7) == Pawn;
    LegalFromOnePiece(MatedSide, MatingSide, Pawn, 55);
    H7StepMoves();
    H7StepApplied(p);
    H7StepLeavesCheck();
  }

  /** Nothing of White's stands on g6. */
  lemma G7StepTarget()
    ensures MapSquareToPiece(MatingSide, g6) == NoPiece
  {
  }

  /** Black's pawn leaves g7 for g6, without promoting. */
  lemma G7StepMover(p: Promotion)
    ensures MoverAfter(MatedSide, Pawn, MatingSide, Move(g7, g6), p) == MatedSide.(pawns := h7 | g6)
  {
    assert !Meets(g6, LastRank(Black));
    assert Moved(g7 | h7, Move(g7, g6)) == h7 | g6;
  }

  /** With nothing captured and no en passant, White is untouched. */
  lemma G7StepOther()
    ensures OtherAfter(MatedSide, Pawn, MatingSide, NoPiece, Move(g7, g6)) == MatingSide
  {
  }

  /** Black after g7-g6: the pawns on h7 and g6, and White untouched. */
  lemma G7StepApplied(p: Promotion)
    ensures CompleteMove(MatedSide, Pawn, MatingSide, MapSquareToPiece(MatingSide, g6), Move(g7, g6), p) ==
      Sides(MatedSide.(pawns := h7 | g6), MatingSide)
  {
    G7StepTarget();
    G7StepMover(p);
    G7StepOther();
  }

  /** After g7-g6 the rook on a8 still reaches h8. */
  lemma G7StepLeavesCheck()
    ensures InCheck(MatedSide.(pawns := h7 | g6), MatingSide)
  {
    var mover := MatedSide.(pawns := h7 | g6);
    assert Union(mover) == h8 | h7 | g6;
    RookOnA8(mover);
    RookSweepsRankEight(h8 | h7 | g6);
    RookAttacks(MatingSide, mover, h8);
  }

  /** The pawn on g7, moved alone, steps to g6 and g5. */
  lemma G7StepMoves()
    ensures SingleMoves(Pawn, Alone(CutTo(MatedSide, Pawn, g7), Pawn, g7), MatingSide) == g6 | g5
  {
  }

  /** g7-g6 is generated, but leaves the king on h8 in check from the rook on a8. */
  lemma G7StepRefused(p: Promotion)
    ensures Attempt(MatingSide, MatedSide, Move(g7, g6), BLACK_PIECE, p) == Refused(LeavesKingInCheck)
  {
    assert MapSquareToPiece(MatedSide, g7) == Pawn;
    LegalFromOnePiece(MatedSide, MatingSide, Pawn, 54);
    G7StepMoves();
    G7StepApplied(p);
    G7StepLeavesCheck();
  }

  /**
   * KingIsCheckmated of UnitTest.cpp:300-327: h8-g8, h7-h6 and g7-g6 are all
   * refused, so the test's result stays false.
   */
  lemma KingIsCheckmatedTest(p: Promotion)
    ensures Attempt(MatingSide, MatedSide, Move(h8, g8), BLACK_PIECE, p) == Refused(NotGenerated)
    ensures Attempt(MatingSide, MatedSide, Move(h7, h6), BLACK_PIECE, p) == Refused(LeavesKingInCheck)
    ensures Attempt(MatingSide, MatedSide, Move(g7, g6), BLACK_PIECE, p) == Refused(LeavesKingInCheck)
  {
    KingStepRefused(p);
    H7StepRefused(p);
    G7StepRefused(p);
  }
}
