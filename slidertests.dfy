/**
 * The unit tests of UnitTest.cpp that put several sliding pieces of one
 * type on the board, run through the wrappers PiecesRookMove,
 * PiecesBishopMove and PiecesQueenMove (Pieces.cpp:473-508, 611-646,
 * 826-861), which Sweep models. Each test follows the wrapper's loop over
 * the squares: the empty stretches add nothing, and each piece adds what
 * the single-piece generator gives for it with the type's other pieces in
 * Reserved.
 */
module SliderTests {
  import opened Foundation
  import opened BitScan
  import opened PieceSets
  import opened Diagonals
  import opened Straight
  import opened Generators
  import opened Boards

  // ---------------------------------------------------------------------
  // RookMiddleGame: rooks on e1, e4 and e8
  // ---------------------------------------------------------------------

  /** The rook on e1 against Black's pawns, with the rooks on e4 and e8 as its own pieces: rank 1, and e2 and e3 up the file. */
  lemma MiddleGameE1()
    ensures StraightMoves(e1, e1 | e4 | e8, e3 | h7 | b4) == 0x1010EF
  {
    SquareRowCol(4);
  }

  /** The rook on e4: b4 .. h4 less e4, e3 below and e5 .. e7 above. */
  lemma MiddleGameE4()
    ensures StraightMoves(e4, e1 | e4 | e8, e3 | h7 | b4) == 0x101010EE100000
  {
    SquareRowCol(28);
  }

  /** The rook on e8: rank 8, and e7 .. e5 down the file. */
  lemma MiddleGameE8()
    ensures StraightMoves(e8, e1 | e4 | e8, e3 | h7 | b4) == 0xEF10101000000000
  {
    SquareRowCol(60);
  }

  /** The wrapper's copy for one of the three rooks has all three among its squares. */
  lemma MiddleGameCopy(a: Pieces, b: Pieces, s: bv64)
    requires a == ClearedSide(White).(rooks := e1 | e4 | e8) && b == ClearedSide(Black).(pawns := e3 | h7 | b4)
    requires s == e1 || s == e4 || s == e8
    ensures SingleMoves(Rook, Alone(a, Rook, s), b) == StraightMoves(s, e1 | e4 | e8, e3 | h7 | b4)
  {
    assert Union(Alone(a, Rook, s)) == e1 | e4 | e8;
  }

  /** The loop through e1 (bit 4). */
  lemma MiddleGameThroughE1(a: Pieces, b: Pieces)
    requires a.rooks == e1 | e4 | e8 && SingleMoves(Rook, Alone(a, Rook, e1), b) == 0x1010EF
    ensures SweepFrom(Rook, a, b, 0, 0) == SweepFrom(Rook, a, b, 5, 0x1010EF)
  {
    SweepReaches(Rook, a, b, e1 | e4 | e8, 0, 4, 0, 0x1010EF);
  }

  /** The loop from bit 5 through e4 (bit 28). */
  lemma MiddleGameThroughE4(a: Pieces, b: Pieces)
    requires a.rooks == e1 | e4 | e8 && SingleMoves(Rook, Alone(a, Rook, e4), b) == 0x101010EE100000
    ensures SweepFrom(Rook, a, b, 5, 0x1010EF) == SweepFrom(Rook, a, b, 29, 0x101010EE1010EF)
  {
    ClearBetween(e1 | e4 | e8, 5, 28);
    SweepReaches(Rook, a, b, e1 | e4 | e8, 5, 28, 0x1010EF, 0x101010EE100000);
  }

  /** The loop from bit 29 through e8 (bit 60), and past it. */
  lemma MiddleGameThroughE8(a: Pieces, b: Pieces)
    requires a.rooks == e1 | e4 | e8 && SingleMoves(Rook, Alone(a, Rook, e8), b) == 0xEF10101000000000
    ensures SweepFrom(Rook, a, b, 29, 0x101010EE1010EF) == 0xEF101010EE1010EF
  {
    ClearBetween(e1 | e4 | e8, 29, 60);
    SweepReaches(Rook, a, b, e1 | e4 | e8, 29, 60, 0x101010EE1010EF, 0xEF10101000000000);
    SweepFromPast(Rook, a, b, e1 | e4 | e8, 61, 0xEF101010EE1010EF);
  }

  /**
   * RookMiddleGame of UnitTest.cpp:178-190: the rook on e1 goes up to the
   * pawn on e3 and takes it, the rook on e4 takes on e3 and b4, and the
   * rooks on e4 and e8 stop before each other.
   */
  lemma RookMiddleGameTest(a: Pieces, b: Pieces)
    requires a == ClearedSide(White).(rooks := e1 | e4 | e8) && b == ClearedSide(Black).(pawns := e3 | h7 | b4)
    ensures Sweep(Rook, a, b) == 0xEF101010EE1010EF
  {
    MiddleGameCopy(a, b, e1);
    MiddleGameCopy(a, b, e4);
    MiddleGameCopy(a, b, e8);
    MiddleGameE1();
    MiddleGameE4();
    MiddleGameE8();
    MiddleGameThroughE1(a, b);
    MiddleGameThroughE4(a, b);
    MiddleGameThroughE8(a, b);
  }

  // ---------------------------------------------------------------------
  // QueenMultipleQueens: queens on d4 and e4
  // ---------------------------------------------------------------------

  /** The diagonals of the queen on d4 beside its partner on e4: both long diagonals through d4, which miss e4. */
  lemma QueensD4Diagonals()
    ensures DiagonalsAt(3, 3, d4, d4 | e4, 0) == 0x8041221400142241
  {
    QueensD4DiagonalsNorthEast();
    QueensD4DiagonalsNorthWest();
    QueensD4DiagonalsSouthWest();
    QueensD4DiagonalsSouthEast();
  }

  lemma QueensD4DiagonalsNorthEast()
    ensures RayFrom(NorthEast, 3, 3, d4, d4 | e4, 0, 0x0) == 0x8040201000000000
  {
    RayContinues(NorthEast, 3, 3, 0x8000000, d4 | e4, 0, 0x0, 4, 4, 0x1000000000, 0x1000000000);
    RayContinues(NorthEast, 4, 4, 0x1000000000, d4 | e4, 0, 0x1000000000, 5, 5, 0x200000000000, 0x201000000000);
    RayContinues(NorthEast, 5, 5, 0x200000000000, d4 | e4, 0, 0x201000000000, 6, 6, 0x40000000000000, 0x40201000000000);
    RayContinues(NorthEast, 6, 6, 0x40000000000000, d4 | e4, 0, 0x40201000000000, 7, 7, 0x8000000000000000, 0x8040201000000000);
    RayEnds(NorthEast, 7, 7, 0x8000000000000000, d4 | e4, 0, 0x8040201000000000);
  }

  lemma QueensD4DiagonalsNorthWest()
    ensures RayFrom(NorthWest, 3, 3, d4, d4 | e4, 0, 0x8040201000000000) == 0x8041221400000000
  {
    RayContinues(NorthWest, 3, 3, 0x8000000, d4 | e4, 0, 0x8040201000000000, 4, 2, 0x400000000, 0x8040201400000000);
    RayContinues(NorthWest, 4, 2, 0x400000000, d4 | e4, 0, 0x8040201400000000, 5, 1, 0x20000000000, 0x8040221400000000);
    RayContinues(NorthWest, 5, 1, 0x20000000000, d4 | e4, 0, 0x8040221400000000, 6, 0, 0x1000000000000, 0x8041221400000000);
    RayEnds(NorthWest, 6, 0, 0x1000000000000, d4 | e4, 0, 0x8041221400000000);
  }

  lemma QueensD4DiagonalsSouthWest()
    ensures RayFrom(SouthWest, 3, 3, d4, d4 | e4, 0, 0x8041221400000000) == 0x8041221400040201
  {
    RayContinues(SouthWest, 3, 3, 0x8000000, d4 | e4, 0, 0x8041221400000000, 2, 2, 0x40000, 0x8041221400040000);
    RayContinues(SouthWest, 2, 2, 0x40000, d4 | e4, 0, 0x8041221400040000, 1, 1, 0x200, 0x8041221400040200);
    RayContinues(SouthWest, 1, 1, 0x200, d4 | e4, 0, 0x8041221400040200, 0, 0, 0x1, 0x8041221400040201);
    RayEnds(SouthWest, 0, 0, 0x1, d4 | e4, 0, 0x8041221400040201);
  }

  lemma QueensD4DiagonalsSouthEast()
    ensures RayFrom(SouthEast, 3, 3, d4, d4 | e4, 0, 0x8041221400040201) == 0x8041221400142241
  {
    RayContinues(SouthEast, 3, 3, 0x8000000, d4 | e4, 0, 0x8041221400040201, 2, 4, 0x100000, 0x8041221400140201);
    RayContinues(SouthEast, 2, 4, 0x100000, d4 | e4, 0, 0x8041221400140201, 1, 5, 0x2000, 0x8041221400142201);
    RayContinues(SouthEast, 1, 5, 0x2000, d4 | e4, 0, 0x8041221400142201, 0, 6, 0x40, 0x8041221400142241);
    RayEnds(SouthEast, 0, 6, 0x40, d4 | e4, 0, 0x8041221400142241);
  }

  /** The diagonals of the queen on e4 beside its partner on d4. */
  lemma QueensE4Diagonals()
    ensures DiagonalsAt(3, 4, e4, d4 | e4, 0) == 0x182442800284482
  {
    QueensE4DiagonalsNorthEast();
    QueensE4DiagonalsNorthWest();
    QueensE4DiagonalsSouthWest();
    QueensE4DiagonalsSouthEast();
  }

  lemma QueensE4DiagonalsNorthEast()
    ensures RayFrom(NorthEast, 3, 4, e4, d4 | e4, 0, 0x0) == 0x80402000000000
  {
    RayContinues(NorthEast, 3, 4, 0x10000000, d4 | e4, 0, 0x0, 4, 5, 0x2000000000, 0x2000000000);
    RayContinues(NorthEast, 4, 5, 0x2000000000, d4 | e4, 0, 0x2000000000, 5, 6, 0x400000000000, 0x402000000000);
    RayContinues(NorthEast, 5, 6, 0x400000000000, d4 | e4, 0, 0x402000000000, 6, 7, 0x80000000000000, 0x80402000000000);
    RayEnds(NorthEast, 6, 7, 0x80000000000000, d4 | e4, 0, 0x80402000000000);
  }

  lemma QueensE4DiagonalsNorthWest()
    ensures RayFrom(NorthWest, 3, 4, e4, d4 | e4, 0, 0x80402000000000) == 0x182442800000000
  {
    RayContinues(NorthWest, 3, 4, 0x10000000, d4 | e4, 0, 0x80402000000000, 4, 3, 0x800000000, 0x80402800000000);
    RayContinues(NorthWest, 4, 3, 0x800000000, d4 | e4, 0, 0x80402800000000, 5, 2, 0x40000000000, 0x80442800000000);
    RayContinues(NorthWest, 5, 2, 0x40000000000, d4 | e4, 0, 0x80442800000000, 6, 1, 0x2000000000000, 0x82442800000000);
    RayContinues(NorthWest, 6, 1, 0x2000000000000, d4 | e4, 0, 0x82442800000000, 7, 0, 0x100000000000000, 0x182442800000000);
    RayEnds(NorthWest, 7, 0, 0x100000000000000, d4 | e4, 0, 0x182442800000000);
  }

  lemma QueensE4DiagonalsSouthWest()
    ensures RayFrom(SouthWest, 3, 4, e4, d4 | e4, 0, 0x182442800000000) == 0x182442800080402
  {
    RayContinues(SouthWest, 3, 4, 0x10000000, d4 | e4, 0, 0x182442800000000, 2, 3, 0x80000, 0x182442800080000);
    RayContinues(SouthWest, 2, 3, 0x80000, d4 | e4, 0, 0x182442800080000, 1, 2, 0x400, 0x182442800080400);
    RayContinues(SouthWest, 1, 2, 0x400, d4 | e4, 0, 0x182442800080400, 0, 1, 0x2, 0x182442800080402);
    RayEnds(SouthWest, 0, 1, 0x2, d4 | e4, 0, 0x182442800080402);
  }

  lemma QueensE4DiagonalsSouthEast()
    ensures RayFrom(SouthEast, 3, 4, e4, d4 | e4, 0, 0x182442800080402) == 0x182442800284482
  {
    RayContinues(SouthEast, 3, 4, 0x10000000, d4 | e4, 0, 0x182442800080402, 2, 5, 0x200000, 0x182442800280402);
    RayContinues(SouthEast, 2, 5, 0x200000, d4 | e4, 0, 0x182442800280402, 1, 6, 0x4000, 0x182442800284402);
    RayContinues(SouthEast, 1, 6, 0x4000, d4 | e4, 0, 0x182442800284402, 0, 7, 0x80, 0x182442800284482);
    RayEnds(SouthEast, 0, 7, 0x80, d4 | e4, 0, 0x182442800284482);
  }

  /** The queen on d4 stops before e4 along rank 4 and reaches the rest of its lines. */
  lemma QueensD4()
    ensures QueenMoves(d4, d4 | e4, 0) == 0x88492A1C071C2A49
  {
    SquareRowCol(27);
    QueensD4Diagonals();
    QueensD4Lines();
  }

  /** Rank 4 west of d4 and the whole d file. */
  lemma QueensD4Lines()
    ensures StraightMoves(d4, d4 | e4, 0) == 0x0808080807080808
  {
    SquareRowCol(27);
  }

  /** The queen on e4 stops before d4 along rank 4 and reaches the rest of its lines. */
  lemma QueensE4()
    ensures QueenMoves(e4, d4 | e4, 0) == 0x11925438E0385492
  {
    SquareRowCol(28);
    QueensE4Diagonals();
    QueensE4Lines();
  }

  /** Rank 4 east of e4 and the whole e file. */
  lemma QueensE4Lines()
    ensures StraightMoves(e4, d4 | e4, 0) == 0x10101010E0101010
  {
    SquareRowCol(28);
  }

  /** QueenMultipleQueens of UnitTest.cpp:259-270: queens on d4 and e4, each blocking the other along rank 4. */
  lemma QueenMultipleQueensTest(a: Pieces, b: Pieces)
    requires a == EmptySide(White).(queen := d4 | e4) && b == EmptySide(White)
    ensures Sweep(Queen, a, b) == 0x99DB7E3CE73C7EDB
  {
    SweepTwo(Queen, a, b, 27, 28);
    assert Union(Alone(a, Queen, d4)) == d4 | e4;
    assert Union(Alone(a, Queen, e4)) == d4 | e4;
    QueensD4();
    QueensE4();
  }

  // ---------------------------------------------------------------------
  // QueenMultipleCapture: a queen on a2 against four queens
  // ---------------------------------------------------------------------

  /** The diagonals of the queen on a2: up to the queen on f7 and down to the queen on b1, both taken. */
  lemma CaptureA2Diagonals()
    ensures DiagonalsAt(1, 0, a2, a2, g2 | b1 | f7 | a7) == 0x20100804020002
  {
    CaptureA2DiagonalsNorthEast();
    CaptureA2DiagonalsNorthWest();
    CaptureA2DiagonalsSouthWest();
    CaptureA2DiagonalsSouthEast();
  }

  lemma CaptureA2DiagonalsNorthEast()
    ensures RayFrom(NorthEast, 1, 0, a2, a2, g2 | b1 | f7 | a7, 0x0) == 0x20100804020000
  {
    RayContinues(NorthEast, 1, 0, 0x100, a2, g2 | b1 | f7 | a7, 0x0, 2, 1, 0x20000, 0x20000);
    RayContinues(NorthEast, 2, 1, 0x20000, a2, g2 | b1 | f7 | a7, 0x20000, 3, 2, 0x4000000, 0x4020000);
    RayContinues(NorthEast, 3, 2, 0x4000000, a2, g2 | b1 | f7 | a7, 0x4020000, 4, 3, 0x800000000, 0x804020000);
    RayContinues(NorthEast, 4, 3, 0x800000000, a2, g2 | b1 | f7 | a7, 0x804020000, 5, 4, 0x100000000000, 0x100804020000);
    RayCaptures(NorthEast, 5, 4, 0x100000000000, a2, g2 | b1 | f7 | a7, 0x100804020000, 0x20000000000000, 0x20100804020000);
  }

  lemma CaptureA2DiagonalsNorthWest()
    ensures RayFrom(NorthWest, 1, 0, a2, a2, g2 | b1 | f7 | a7, 0x20100804020000) == 0x20100804020000
  {
    RayEnds(NorthWest, 1, 0, 0x100, a2, g2 | b1 | f7 | a7, 0x20100804020000);
  }

  lemma CaptureA2DiagonalsSouthWest()
    ensures RayFrom(SouthWest, 1, 0, a2, a2, g2 | b1 | f7 | a7, 0x20100804020000) == 0x20100804020000
  {
    RayEnds(SouthWest, 1, 0, 0x100, a2, g2 | b1 | f7 | a7, 0x20100804020000);
  }

  lemma CaptureA2DiagonalsSouthEast()
    ensures RayFrom(SouthEast, 1, 0, a2, a2, g2 | b1 | f7 | a7, 0x20100804020000) == 0x20100804020002
  {
    RayCaptures(SouthEast, 1, 0, 0x100, a2, g2 | b1 | f7 | a7, 0x20100804020000, 0x2, 0x20100804020002);
  }

  /** Rank 2 up to the queen on g2 and the a file up to the queen on a7, both taken. */
  lemma CaptureA2Lines()
    ensures StraightMoves(a2, a2, g2 | b1 | f7 | a7) == 0x1010101017E01
  {
    SquareRowCol(8);
  }

  /** The queen on a2 takes each of the four queens that stand first on its lines. */
  lemma CaptureA2()
    ensures QueenMoves(a2, a2, g2 | b1 | f7 | a7) == 0x21110905037E03
  {
    SquareRowCol(8);
    CaptureA2Diagonals();
    CaptureA2Lines();
  }

  /**
   * QueenMultipleCapture of UnitTest.cpp:272-284: White's queen on a2
   * against Black's queens on g2, b1, f7 and a7 reaches and takes each.
   */
  lemma QueenMultipleCaptureTest(a: Pieces, b: Pieces)
    requires a == ClearedSide(White).(queen := a2) && b == ClearedSide(Black).(queen := g2 | b1 | f7 | a7)
    ensures Sweep(Queen, a, b) == 0x21110905037E03
  {
    SweepOne(Queen, a, b, 8);
    assert Union(Alone(a, Queen, a2)) == a2;
    CaptureA2();
  }

  // ---------------------------------------------------------------------
  // BishopMultipleBishops: bishops on every square of the a1-h8 diagonal
  // ---------------------------------------------------------------------

  /** The long diagonal a1 .. h8. */
  const LongDiagonal: bv64 := 0x8040201008040201

  /** The wrapper's copy for a bishop on the long diagonal counts the whole diagonal as its side's squares. */
  lemma BishopsCopy(a: Pieces, b: Pieces, s: bv64)
    requires a.bishops == LongDiagonal && Union(a) == LongDiagonal && Union(b) == 0
    requires s != 0 && s & !LongDiagonal == 0
    ensures SingleMoves(Bishop, Alone(a, Bishop, s), b) == Diagonals.Diagonals(s, LongDiagonal, 0)
  {
    assert Union(Alone(a, Bishop, s)) == LongDiagonal;
  }

  /** The bishop on a1 has no move: b2 is its own side's and the board ends on the other three diagonals. */
  lemma BishopsA1Diagonals()
    ensures DiagonalsAt(0, 0, a1, LongDiagonal, 0) == 0x0
  {
    RayBlocked(NorthEast, 0, 0, 0x1, LongDiagonal, 0, 0x0);
    RayEnds(NorthWest, 0, 0, 0x1, LongDiagonal, 0, 0x0);
    RayEnds(SouthWest, 0, 0, 0x1, LongDiagonal, 0, 0x0);
    RayEnds(SouthEast, 0, 0, 0x1, LongDiagonal, 0, 0x0);
  }


  /** The bishop on a1 with the whole long diagonal as its side's squares. */
  lemma BishopsAtA1()
    ensures Diagonals.Diagonals(a1, LongDiagonal, 0) == 0x0
  {
    SquareRowCol(0);
    BishopsA1Diagonals();
  }

  /** The bishop on a1 among its partners on the long diagonal. */
  lemma BishopsOnA1(a: Pieces, b: Pieces)
    requires a.bishops == LongDiagonal && Union(a) == LongDiagonal && Union(b) == 0
    ensures SingleMoves(Bishop, Alone(a, Bishop, a1), b) == 0x0
  {
    BishopsCopy(a, b, a1);
    BishopsAtA1();
  }

  /** The diagonals of the bishop on b2: blocked along the long diagonal, free along the other one. */
  lemma BishopsB2Diagonals()
    ensures DiagonalsAt(1, 1, b2, LongDiagonal, 0) == 0x10004
  {
    RayBlocked(NorthEast, 1, 1, 0x200, LongDiagonal, 0, 0x0);
    BishopsB2DiagonalsNorthWest();
    RayBlocked(SouthWest, 1, 1, 0x200, LongDiagonal, 0, 0x10000);
    BishopsB2DiagonalsSouthEast();
  }

  lemma BishopsB2DiagonalsNorthWest()
    ensures RayFrom(NorthWest, 1, 1, b2, LongDiagonal, 0, 0x0) == 0x10000
  {
    RayContinues(NorthWest, 1, 1, 0x200, LongDiagonal, 0, 0x0, 2, 0, 0x10000, 0x10000);
    RayEnds(NorthWest, 2, 0, 0x10000, LongDiagonal, 0, 0x10000);
  }

  lemma BishopsB2DiagonalsSouthEast()
    ensures RayFrom(SouthEast, 1, 1, b2, LongDiagonal, 0, 0x10000) == 0x10004
  {
    RayContinues(SouthEast, 1, 1, 0x200, LongDiagonal, 0, 0x10000, 0, 2, 0x4, 0x10004);
    RayEnds(SouthEast, 0, 2, 0x4, LongDiagonal, 0, 0x10004);
  }

  /** The bishop on b2 with the whole long diagonal as its side's squares. */
  lemma BishopsAtB2()
    ensures Diagonals.Diagonals(b2, LongDiagonal, 0) == 0x10004
  {
    SquareRowCol(9);
    BishopsB2Diagonals();
  }

  /** The bishop on b2 among its partners on the long diagonal. */
  lemma BishopsOnB2(a: Pieces, b: Pieces)
    requires a.bishops == LongDiagonal && Union(a) == LongDiagonal && Union(b) == 0
    ensures SingleMoves(Bishop, Alone(a, Bishop, b2), b) == 0x10004
  {
    BishopsCopy(a, b, b2);
    BishopsAtB2();
  }

  /** The diagonals of the bishop on c3: blocked along the long diagonal, free along the other one. */
  lemma BishopsC3Diagonals()
    ensures DiagonalsAt(2, 2, c3, LongDiagonal, 0) == 0x102000810
  {
    RayBlocked(NorthEast, 2, 2, 0x40000, LongDiagonal, 0, 0x0);
    BishopsC3DiagonalsNorthWest();
    RayBlocked(SouthWest, 2, 2, 0x40000, LongDiagonal, 0, 0x102000000);
    BishopsC3DiagonalsSouthEast();
  }

  lemma BishopsC3DiagonalsNorthWest()
    ensures RayFrom(NorthWest, 2, 2, c3, LongDiagonal, 0, 0x0) == 0x102000000
  {
    RayContinues(NorthWest, 2, 2, 0x40000, LongDiagonal, 0, 0x0, 3, 1, 0x2000000, 0x2000000);
    RayContinues(NorthWest, 3, 1, 0x2000000, LongDiagonal, 0, 0x2000000, 4, 0, 0x100000000, 0x102000000);
    RayEnds(NorthWest, 4, 0, 0x100000000, LongDiagonal, 0, 0x102000000);
  }

  lemma BishopsC3DiagonalsSouthEast()
    ensures RayFrom(SouthEast, 2, 2, c3, LongDiagonal, 0, 0x102000000) == 0x102000810
  {
    RayContinues(SouthEast, 2, 2, 0x40000, LongDiagonal, 0, 0x102000000, 1, 3, 0x800, 0x102000800);
    RayContinues(SouthEast, 1, 3, 0x800, LongDiagonal, 0, 0x102000800, 0, 4, 0x10, 0x102000810);
    RayEnds(SouthEast, 0, 4, 0x10, LongDiagonal, 0, 0x102000810);
  }

  /** The bishop on c3 with the whole long diagonal as its side's squares. */
  lemma BishopsAtC3()
    ensures Diagonals.Diagonals(c3, LongDiagonal, 0) == 0x102000810
  {
    SquareRowCol(18);
    BishopsC3Diagonals();
  }

  /** The bishop on c3 among its partners on the long diagonal. */
  lemma BishopsOnC3(a: Pieces, b: Pieces)
    requires a.bishops == LongDiagonal && Union(a) == LongDiagonal && Union(b) == 0
    ensures SingleMoves(Bishop, Alone(a, Bishop, c3), b) == 0x102000810
  {
    BishopsCopy(a, b, c3);
    BishopsAtC3();
  }

  /** The diagonals of the bishop on d4: blocked along the long diagonal, free along the other one. */
  lemma BishopsD4Diagonals()
    ensures DiagonalsAt(3, 3, d4, LongDiagonal, 0) == 0x1020400102040
  {
    RayBlocked(NorthEast, 3, 3, 0x8000000, LongDiagonal, 0, 0x0);
    BishopsD4DiagonalsNorthWest();
    RayBlocked(SouthWest, 3, 3, 0x8000000, LongDiagonal, 0, 0x1020400000000);
    BishopsD4DiagonalsSouthEast();
  }

  lemma BishopsD4DiagonalsNorthWest()
    ensures RayFrom(NorthWest, 3, 3, d4, LongDiagonal, 0, 0x0) == 0x1020400000000
  {
    RayContinues(NorthWest, 3, 3, 0x8000000, LongDiagonal, 0, 0x0, 4, 2, 0x400000000, 0x400000000);
    RayContinues(NorthWest, 4, 2, 0x400000000, LongDiagonal, 0, 0x400000000, 5, 1, 0x20000000000, 0x20400000000);
    RayContinues(NorthWest, 5, 1, 0x20000000000, LongDiagonal, 0, 0x20400000000, 6, 0, 0x1000000000000, 0x1020400000000);
    RayEnds(NorthWest, 6, 0, 0x1000000000000, LongDiagonal, 0, 0x1020400000000);
  }

  lemma BishopsD4DiagonalsSouthEast()
    ensures RayFrom(SouthEast, 3, 3, d4, LongDiagonal, 0, 0x1020400000000) == 0x1020400102040
  {
    RayContinues(SouthEast, 3, 3, 0x8000000, LongDiagonal, 0, 0x1020400000000, 2, 4, 0x100000, 0x1020400100000);
    RayContinues(SouthEast, 2, 4, 0x100000, LongDiagonal, 0, 0x1020400100000, 1, 5, 0x2000, 0x1020400102000);
    RayContinues(SouthEast, 1, 5, 0x2000, LongDiagonal, 0, 0x1020400102000, 0, 6, 0x40, 0x1020400102040);
    RayEnds(SouthEast, 0, 6, 0x40, LongDiagonal, 0, 0x1020400102040);
  }

  /** The bishop on d4 with the whole long diagonal as its side's squares. */
  lemma BishopsAtD4()
    ensures Diagonals.Diagonals(d4, LongDiagonal, 0) == 0x1020400102040
  {
    SquareRowCol(27);
    BishopsD4Diagonals();
  }

  /** The bishop on d4 among its partners on the long diagonal. */
  lemma BishopsOnD4(a: Pieces, b: Pieces)
    requires a.bishops == LongDiagonal && Union(a) == LongDiagonal && Union(b) == 0
    ensures SingleMoves(Bishop, Alone(a, Bishop, d4), b) == 0x1020400102040
  {
    BishopsCopy(a, b, d4);
    BishopsAtD4();
  }

  /** The diagonals of the bishop on e5: blocked along the long diagonal, free along the other one. */
  lemma BishopsE5Diagonals()
    ensures DiagonalsAt(4, 4, e5, LongDiagonal, 0) == 0x204080020408000
  {
    RayBlocked(NorthEast, 4, 4, 0x1000000000, LongDiagonal, 0, 0x0);
    BishopsE5DiagonalsNorthWest();
    RayBlocked(SouthWest, 4, 4, 0x1000000000, LongDiagonal, 0, 0x204080000000000);
    BishopsE5DiagonalsSouthEast();
  }

  lemma BishopsE5DiagonalsNorthWest()
    ensures RayFrom(NorthWest, 4, 4, e5, LongDiagonal, 0, 0x0) == 0x204080000000000
  {
    RayContinues(NorthWest, 4, 4, 0x1000000000, LongDiagonal, 0, 0x0, 5, 3, 0x80000000000, 0x80000000000);
    RayContinues(NorthWest, 5, 3, 0x80000000000, LongDiagonal, 0, 0x80000000000, 6, 2, 0x4000000000000, 0x4080000000000);
    RayContinues(NorthWest, 6, 2, 0x4000000000000, LongDiagonal, 0, 0x4080000000000, 7, 1, 0x200000000000000, 0x204080000000000);
    RayEnds(NorthWest, 7, 1, 0x200000000000000, LongDiagonal, 0, 0x204080000000000);
  }

  lemma BishopsE5DiagonalsSouthEast()
    ensures RayFrom(SouthEast, 4, 4, e5, LongDiagonal, 0, 0x204080000000000) == 0x204080020408000
  {
    RayContinues(SouthEast, 4, 4, 0x1000000000, LongDiagonal, 0, 0x204080000000000, 3, 5, 0x20000000, 0x204080020000000);
    RayContinues(SouthEast, 3, 5, 0x20000000, LongDiagonal, 0, 0x204080020000000, 2, 6, 0x400000, 0x204080020400000);
    RayContinues(SouthEast, 2, 6, 0x400000, LongDiagonal, 0, 0x204080020400000, 1, 7, 0x8000, 0x204080020408000);
    RayEnds(SouthEast, 1, 7, 0x8000, LongDiagonal, 0, 0x204080020408000);
  }

  /** The bishop on e5 with the whole long diagonal as its side's squares. */
  lemma BishopsAtE5()
    ensures Diagonals.Diagonals(e5, LongDiagonal, 0) == 0x204080020408000
  {
    SquareRowCol(36);
    BishopsE5Diagonals();
  }

  /** The bishop on e5 among its partners on the long diagonal. */
  lemma BishopsOnE5(a: Pieces, b: Pieces)
    requires a.bishops == LongDiagonal && Union(a) == LongDiagonal && Union(b) == 0
    ensures SingleMoves(Bishop, Alone(a, Bishop, e5), b) == 0x204080020408000
  {
    BishopsCopy(a, b, e5);
    BishopsAtE5();
  }

  /** The diagonals of the bishop on f6: blocked along the long diagonal, free along the other one. */
  lemma BishopsF6Diagonals()
    ensures DiagonalsAt(5, 5, f6, LongDiagonal, 0) == 0x810004080000000
  {
    RayBlocked(NorthEast, 5, 5, 0x200000000000, LongDiagonal, 0, 0x0);
    BishopsF6DiagonalsNorthWest();
    RayBlocked(SouthWest, 5, 5, 0x200000000000, LongDiagonal, 0, 0x810000000000000);
    BishopsF6DiagonalsSouthEast();
  }

  lemma BishopsF6DiagonalsNorthWest()
    ensures RayFrom(NorthWest, 5, 5, f6, LongDiagonal, 0, 0x0) == 0x810000000000000
  {
    RayContinues(NorthWest, 5, 5, 0x200000000000, LongDiagonal, 0, 0x0, 6, 4, 0x10000000000000, 0x10000000000000);
    RayContinues(NorthWest, 6, 4, 0x10000000000000, LongDiagonal, 0, 0x10000000000000, 7, 3, 0x800000000000000, 0x810000000000000);
    RayEnds(NorthWest, 7, 3, 0x800000000000000, LongDiagonal, 0, 0x810000000000000);
  }

  lemma BishopsF6DiagonalsSouthEast()
    ensures RayFrom(SouthEast, 5, 5, f6, LongDiagonal, 0, 0x810000000000000) == 0x810004080000000
  {
    RayContinues(SouthEast, 5, 5, 0x200000000000, LongDiagonal, 0, 0x810000000000000, 4, 6, 0x4000000000, 0x810004000000000);
    RayContinues(SouthEast, 4, 6, 0x4000000000, LongDiagonal, 0, 0x810004000000000, 3, 7, 0x80000000, 0x810004080000000);
    RayEnds(SouthEast, 3, 7, 0x80000000, LongDiagonal, 0, 0x810004080000000);
  }

  /** The bishop on f6 with the whole long diagonal as its side's squares. */
  lemma BishopsAtF6()
    ensures Diagonals.Diagonals(f6, LongDiagonal, 0) == 0x810004080000000
  {
    SquareRowCol(45);
    BishopsF6Diagonals();
  }

  /** The bishop on f6 among its partners on the long diagonal. */
  lemma BishopsOnF6(a: Pieces, b: Pieces)
    requires a.bishops == LongDiagonal && Union(a) == LongDiagonal && Union(b) == 0
    ensures SingleMoves(Bishop, Alone(a, Bishop, f6), b) == 0x810004080000000
  {
    BishopsCopy(a, b, f6);
    BishopsAtF6();
  }

  /** The diagonals of the bishop on g7: blocked along the long diagonal, free along the other one. */
  lemma BishopsG7Diagonals()
    ensures DiagonalsAt(6, 6, g7, LongDiagonal, 0) == 0x2000800000000000
  {
    RayBlocked(NorthEast, 6, 6, 0x40000000000000, LongDiagonal, 0, 0x0);
    BishopsG7DiagonalsNorthWest();
    RayBlocked(SouthWest, 6, 6, 0x40000000000000, LongDiagonal, 0, 0x2000000000000000);
    BishopsG7DiagonalsSouthEast();
  }

  lemma BishopsG7DiagonalsNorthWest()
    ensures RayFrom(NorthWest, 6, 6, g7, LongDiagonal, 0, 0x0) == 0x2000000000000000
  {
    RayContinues(NorthWest, 6, 6, 0x40000000000000, LongDiagonal, 0, 0x0, 7, 5, 0x2000000000000000, 0x2000000000000000);
    RayEnds(NorthWest, 7, 5, 0x2000000000000000, LongDiagonal, 0, 0x2000000000000000);
  }

  lemma BishopsG7DiagonalsSouthEast()
    ensures RayFrom(SouthEast, 6, 6, g7, LongDiagonal, 0, 0x2000000000000000) == 0x2000800000000000
  {
    RayContinues(SouthEast, 6, 6, 0x40000000000000, LongDiagonal, 0, 0x2000000000000000, 5, 7, 0x800000000000, 0x2000800000000000);
    RayEnds(SouthEast, 5, 7, 0x800000000000, LongDiagonal, 0, 0x2000800000000000);
  }

  /** The bishop on g7 with the whole long diagonal as its side's squares. */
  lemma BishopsAtG7()
    ensures Diagonals.Diagonals(g7, LongDiagonal, 0) == 0x2000800000000000
  {
    SquareRowCol(54);
    BishopsG7Diagonals();
  }

  /** The bishop on g7 among its partners on the long diagonal. */
  lemma BishopsOnG7(a: Pieces, b: Pieces)
    requires a.bishops == LongDiagonal && Union(a) == LongDiagonal && Union(b) == 0
    ensures SingleMoves(Bishop, Alone(a, Bishop, g7), b) == 0x2000800000000000
  {
    BishopsCopy(a, b, g7);
    BishopsAtG7();
  }

  /** The loop from bit 0 through a1 (bit 0). */
  lemma BishopsThroughA1(a: Pieces, b: Pieces)
    requires a.bishops == LongDiagonal && SingleMoves(Bishop, Alone(a, Bishop, a1), b) == 0x0
    ensures SweepFrom(Bishop, a, b, 0, 0x0) == SweepFrom(Bishop, a, b, 1, 0x0)
  {
    SweepReaches(Bishop, a, b, LongDiagonal, 0, 0, 0x0, 0x0);
  }

  /** The loop from bit 1 through b2 (bit 9). */
  lemma BishopsThroughB2(a: Pieces, b: Pieces)
    requires a.bishops == LongDiagonal && SingleMoves(Bishop, Alone(a, Bishop, b2), b) == 0x10004
    ensures SweepFrom(Bishop, a, b, 1, 0x0) == SweepFrom(Bishop, a, b, 10, 0x10004)
  {
    ClearBetween(LongDiagonal, 1, 9);
    SweepReaches(Bishop, a, b, LongDiagonal, 1, 9, 0x0, 0x10004);
  }

  /** The loop from bit 10 through c3 (bit 18). */
  lemma BishopsThroughC3(a: Pieces, b: Pieces)
    requires a.bishops == LongDiagonal && SingleMoves(Bishop, Alone(a, Bishop, c3), b) == 0x102000810
    ensures SweepFrom(Bishop, a, b, 10, 0x10004) == SweepFrom(Bishop, a, b, 19, 0x102010814)
  {
    ClearBetween(LongDiagonal, 10, 18);
    SweepReaches(Bishop, a, b, LongDiagonal, 10, 18, 0x10004, 0x102000810);
  }

  /** The loop from bit 19 through d4 (bit 27). */
  lemma BishopsThroughD4(a: Pieces, b: Pieces)
    requires a.bishops == LongDiagonal && SingleMoves(Bishop, Alone(a, Bishop, d4), b) == 0x1020400102040
    ensures SweepFrom(Bishop, a, b, 19, 0x102010814) == SweepFrom(Bishop, a, b, 28, 0x1020502112854)
  {
    ClearBetween(LongDiagonal, 19, 27);
    SweepReaches(Bishop, a, b, LongDiagonal, 19, 27, 0x102010814, 0x1020400102040);
  }

  /** The loop from bit 28 through e5 (bit 36). */
  lemma BishopsThroughE5(a: Pieces, b: Pieces)
    requires a.bishops == LongDiagonal && SingleMoves(Bishop, Alone(a, Bishop, e5), b) == 0x204080020408000
    ensures SweepFrom(Bishop, a, b, 28, 0x1020502112854) == SweepFrom(Bishop, a, b, 37, 0x2050a052251a854)
  {
    ClearBetween(LongDiagonal, 28, 36);
    SweepReaches(Bishop, a, b, LongDiagonal, 28, 36, 0x1020502112854, 0x204080020408000);
  }

  /** The loop from bit 37 through f6 (bit 45). */
  lemma BishopsThroughF6(a: Pieces, b: Pieces)
    requires a.bishops == LongDiagonal && SingleMoves(Bishop, Alone(a, Bishop, f6), b) == 0x810004080000000
    ensures SweepFrom(Bishop, a, b, 37, 0x2050a052251a854) == SweepFrom(Bishop, a, b, 46, 0xa150a45a251a854)
  {
    ClearBetween(LongDiagonal, 37, 45);
    SweepReaches(Bishop, a, b, LongDiagonal, 37, 45, 0x2050a052251a854, 0x810004080000000);
  }

  /** The loop from bit 46 through g7 (bit 54). */
  lemma BishopsThroughG7(a: Pieces, b: Pieces)
    requires a.bishops == LongDiagonal && SingleMoves(Bishop, Alone(a, Bishop, g7), b) == 0x2000800000000000
    ensures SweepFrom(Bishop, a, b, 46, 0xa150a45a251a854) == SweepFrom(Bishop, a, b, 55, 0x2a158a45a251a854)
  {
    ClearBetween(LongDiagonal, 46, 54);
    SweepReaches(Bishop, a, b, LongDiagonal, 46, 54, 0xa150a45a251a854, 0x2000800000000000);
  }

  /** From bit 55 the loop meets no bishop before it stops at bit 63: the bishop on h8 adds nothing. */
  lemma BishopsPastG7(a: Pieces, b: Pieces)
    requires a.bishops == LongDiagonal
    ensures SweepFrom(Bishop, a, b, 55, 0x2a158a45a251a854) == 0x2a158a45a251a854
  {
    ClearBetween(LongDiagonal, 55, 63);
    SweepFromEmpty(Bishop, a, b, LongDiagonal, 55, 63, 0x2a158a45a251a854);
  }

  /** After BoardZeroInit the only squares are White's bishops on the long diagonal. */
  lemma LongDiagonalSides(a: Pieces, b: Pieces)
    requires a == ClearedSide(White).(bishops := LongDiagonal) && b == ClearedSide(Black)
    ensures a.bishops == LongDiagonal && Union(a) == LongDiagonal && Union(b) == 0
  {
  }

  /** The loop from a1 through d4: the bishops on a1 .. d4. */
  lemma BishopsLowerHalf(a: Pieces, b: Pieces)
    requires a.bishops == LongDiagonal && Union(a) == LongDiagonal && Union(b) == 0
    ensures SweepFrom(Bishop, a, b, A1_INDEX, 0) == SweepFrom(Bishop, a, b, 28, 0x1020502112854)
  {
    BishopsOnA1(a, b);
    BishopsOnB2(a, b);
    BishopsOnC3(a, b);
    BishopsOnD4(a, b);
    BishopsThroughA1(a, b);
    BishopsThroughB2(a, b);
    BishopsThroughC3(a, b);
    BishopsThroughD4(a, b);
  }

  /** The loop from bit 28 on: the bishops on e5 .. g7, and nothing for h8. */
  lemma BishopsUpperHalf(a: Pieces, b: Pieces)
    requires a.bishops == LongDiagonal && Union(a) == LongDiagonal && Union(b) == 0
    ensures SweepFrom(Bishop, a, b, 28, 0x1020502112854) == 0x2a158a45a251a854
  {
    BishopsOnE5(a, b);
    BishopsOnF6(a, b);
    BishopsOnG7(a, b);
    BishopsThroughE5(a, b);
    BishopsThroughF6(a, b);
    BishopsThroughG7(a, b);
    BishopsPastG7(a, b);
  }

  /** The wrapper over the long diagonal, both halves. */
  lemma BishopsSweep(a: Pieces, b: Pieces)
    requires a.bishops == LongDiagonal && Union(a) == LongDiagonal && Union(b) == 0
    ensures Sweep(Bishop, a, b) == 0x2A158A45A251A854
  {
    BishopsLowerHalf(a, b);
    BishopsUpperHalf(a, b);
  }

  /**
   * BishopMultipleBishops of UnitTest.cpp:234-244: bishops on a1 .. h8. Each
   * is blocked along the long diagonal by its partners and moves along the
   * other diagonal through its square; the bishop on h8 is never visited.
   */
  lemma BishopMultipleBishopsTest(a: Pieces, b: Pieces)
    requires a == ClearedSide(White).(bishops := LongDiagonal) && b == ClearedSide(Black)
    ensures Sweep(Bishop, a, b) == 0x2A158A45A251A854
  {
    LongDiagonalSides(a, b);
    BishopsSweep(a, b);
  }
}
