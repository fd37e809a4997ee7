/**
 * The diagonal rays of PiecesBishopMoveEx (Pieces.cpp:377-461), which
 * PiecesQueenMoveEx repeats (Pieces.cpp:682-747). Each of the four loops
 * starts from the piece's rank and file, shifts the square one diagonal step
 * while the rank and file counters allow it, stops before a square of the
 * mover, and stops after a square of the opponent. All four loops add to
 * the same accumulator.
 */
module Diagonals {
  import opened Foundation
  import opened BitScan
  import opened PieceSets

  datatype Direction = NorthEast | NorthWest | SouthWest | SouthEast

  /** The loop guard of each direction: the rank and file counters still allow one more step. */
  predicate CanStep(d: Direction, row: int, col: int)
  {
    match d
    case NorthEast => row < 7 && col < 7
    case NorthWest => row < 7 && col > 0
    case SouthWest => row > 0 && col > 0
    case SouthEast => row > 0 && col < 7
  }

  /** The shift of one diagonal step: 9 and 7 up, 9 and 7 down. */
  function Step(d: Direction, square: bv64): bv64
  {
    match d
    case NorthEast => square << 9
    case NorthWest => square << 7
    case SouthWest => square >> 9
    case SouthEast => square >> 7
  }

  predicate Upward(d: Direction)
  {
    d == NorthEast || d == NorthWest
  }

  predicate Eastward(d: Direction)
  {
    d == NorthEast || d == SouthEast
  }

  /** The loop's updates of the counters. */
  function NextRow(d: Direction, row: int): int
  {
    if Upward(d) then row + 1 else row - 1
  }

  function NextCol(d: Direction, col: int): int
  {
    if Eastward(d) then col + 1 else col - 1
  }

  /** The counters as RowIndex and ColIndex leave them: a row 0 .. 8 (8 for an empty board) and a column 0 .. 7. */
  predicate InRange(row: int, col: int)
  {
    0 <= row <= 8 && 0 <= col <= 7
  }

  /** The steps the row counter can still take. */
  function Remaining(d: Direction, row: int): nat
    requires 0 <= row <= 8
  {
    if Upward(d) then 8 - row else row
  }

  /**
   * The accumulator after the loop of direction d has run from the counters
   * row and col and the mask square, with acc the squares added before, own
   * the mover's squares and opp the opponent's.
   */
  function RayFrom(d: Direction, row: int, col: int, square: bv64, own: bv64, opp: bv64, acc: bv64): bv64
    requires InRange(row, col)
    decreases Remaining(d, row)
  {
    if !CanStep(d, row, col) then acc
    else
      var next := Step(d, square);
      if Meets(next, own) then acc
      else if Meets(next, opp) then Join(acc, next)
      else RayFrom(d, NextRow(d, row), NextCol(d, col), next, own, opp, Join(acc, next))
  }

  /** A loop adds no square of the mover: when the accumulator avoids own, so does the result. */
  lemma {:induction false} RayFromAvoids(d: Direction, row: int, col: int, square: bv64, own: bv64, opp: bv64, acc: bv64)
    requires InRange(row, col) && !Meets(acc, own)
    ensures !Meets(RayFrom(d, row, col, square, own, opp, acc), own)
    decreases Remaining(d, row)
  {
    if CanStep(d, row, col) {
      var next := Step(d, square);
      if !Meets(next, own) {
        UnionAvoids(acc, next, own);
        if !Meets(next, opp) {
          RayFromAvoids(d, NextRow(d, row), NextCol(d, col), next, own, opp, Join(acc, next));
        }
      }
    }
  }

  /** Shifting an empty mask gives an empty mask, which meets nothing: the loop adds no square. */
  lemma {:induction false} RayFromNothing(d: Direction, row: int, col: int, own: bv64, opp: bv64, acc: bv64)
    requires InRange(row, col)
    ensures RayFrom(d, row, col, 0, own, opp, acc) == acc
    decreases Remaining(d, row)
  {
    if CanStep(d, row, col) {
      assert Step(d, 0) == 0;
      assert Join(acc, 0) == acc;
      RayFromNothing(d, NextRow(d, row), NextCol(d, col), own, opp, acc);
    }
  }

  /** One loop of Pieces.cpp:393-458, adding to the accumulator acc. */
  method CastRay(d: Direction, row0: int, col0: int, start: bv64, own: bv64, opp: bv64, acc: bv64) returns (moves: bv64)
    requires InRange(row0, col0)
    ensures moves == RayFrom(d, row0, col0, start, own, opp, acc)
  {
    var row, col, square := row0, col0, start;
    moves := acc;
    while CanStep(d, row, col)
      invariant InRange(row, col)
      invariant RayFrom(d, row, col, square, own, opp, moves) == RayFrom(d, row0, col0, start, own, opp, acc)
      decreases Remaining(d, row)
    {
      square := Step(d, square);
      if Meets(square, own) {
        break;
      }
      moves := Join(moves, square);
      if Meets(square, opp) {
        break;
      }
      row := NextRow(d, row);
      col := NextCol(d, col);
    }
  }

  /** The four loops in the order of the source, from the counters row and col. */
  function DiagonalsAt(row: int, col: int, piece: bv64, own: bv64, opp: bv64): bv64
    requires InRange(row, col)
  {
    var ne := RayFrom(NorthEast, row, col, piece, own, opp, 0);
    var nw := RayFrom(NorthWest, row, col, piece, own, opp, ne);
    var sw := RayFrom(SouthWest, row, col, piece, own, opp, nw);
    RayFrom(SouthEast, row, col, piece, own, opp, sw)
  }

  /** The four loops from the rank RowIndex and the file ColIndex report for the piece board. */
  function Diagonals(piece: bv64, own: bv64, opp: bv64): bv64
  {
    DiagonalsAt(RowOf(piece) as int, ColOf(piece) as int, piece, own, opp)
  }

  /** Without a piece there are no diagonal moves (RowIndex reports row 8 and ColIndex column 0). */
  lemma DiagonalsOfNothing(own: bv64, opp: bv64)
    ensures Diagonals(0, own, opp) == 0
  {
    var row, col := RowOf(0) as int, ColOf(0) as int;
    RayFromNothing(NorthEast, row, col, own, opp, 0);
    RayFromNothing(NorthWest, row, col, own, opp, 0);
    RayFromNothing(SouthWest, row, col, own, opp, 0);
    RayFromNothing(SouthEast, row, col, own, opp, 0);
  }

  /** The diagonal moves never hold a square of the mover. */
  lemma DiagonalsAtAvoidOwn(row: int, col: int, piece: bv64, own: bv64, opp: bv64)
    requires InRange(row, col)
    ensures !Meets(DiagonalsAt(row, col, piece, own, opp), own)
  {
    var ne := RayFrom(NorthEast, row, col, piece, own, opp, 0);
    var nw := RayFrom(NorthWest, row, col, piece, own, opp, ne);
    var sw := RayFrom(SouthWest, row, col, piece, own, opp, nw);
    RayFromAvoids(NorthEast, row, col, piece, own, opp, 0);
    RayFromAvoids(NorthWest, row, col, piece, own, opp, ne);
    RayFromAvoids(SouthWest, row, col, piece, own, opp, nw);
    RayFromAvoids(SouthEast, row, col, piece, own, opp, sw);
  }

  /** The diagonal moves never include a square of the mover. */
  lemma DiagonalsAvoidOwn(piece: bv64, own: bv64, opp: bv64)
    ensures !Meets(Diagonals(piece, own, opp), own)
  {
    DiagonalsAtAvoidOwn(RowOf(piece) as int, ColOf(piece) as int, piece, own, opp);
  }

  /**
   * One diagonal loop captures at most once, and last: when the accumulator
   * holds nothing of opp, the ray r meets opp in at most one square, and r is
   * the ray that stops short of that square, with the square added.
   */
  lemma {:induction false} RayFromCapturesLast(d: Direction, row: int, col: int, square: bv64, own: bv64, opp: bv64, acc: bv64, r: bv64)
    requires InRange(row, col) && SquareOrZero(square) && !Meets(acc, opp)
    requires r == RayFrom(d, row, col, square, own, opp, acc)
    ensures SquareOrZero(r & opp)
    ensures r == Join(RayFrom(d, row, col, square, Join(own, r & opp), opp, acc), r & opp)
    decreases Remaining(d, row)
  {
    if !CanStep(d, row, col) {
      StopCapturesNothing(d, row, col, square, own, opp, acc, r);
    } else {
      var next := Step(d, square);
      StepSquare(d, square);
      if Meets(next, own) {
        BlockCapturesNothing(d, row, col, square, own, opp, acc, r);
      } else if Meets(next, opp) {
        CaptureComesLast(d, row, col, square, own, opp, acc, next, r);
      } else {
        UnionAvoids(acc, next, opp);
        RayContinues(d, row, col, square, own, opp, acc, NextRow(d, row), NextCol(d, col), next, Join(acc, next));
        RayFromCapturesLast(d, NextRow(d, row), NextCol(d, col), next, own, opp, Join(acc, next), r);
        PassCapturesLater(d, row, col, square, own, opp, acc, next, r);
      }
    }
  }

  /** RayFromCapturesLast when the guard stops the loop. */
  lemma StopCapturesNothing(d: Direction, row: int, col: int, square: bv64, own: bv64, opp: bv64, acc: bv64, r: bv64)
    requires InRange(row, col) && !CanStep(d, row, col) && !Meets(acc, opp)
    requires r == RayFrom(d, row, col, square, own, opp, acc)
    ensures SquareOrZero(r & opp)
    ensures r == Join(RayFrom(d, row, col, square, Join(own, r & opp), opp, acc), r & opp)
  {
    NothingCaptured(acc, opp, own);
    RayEnds(d, row, col, square, own, opp, acc);
    RayEnds(d, row, col, square, Join(own, 0), opp, acc);
  }

  /** RayFromCapturesLast when the next square is the mover's. */
  lemma BlockCapturesNothing(d: Direction, row: int, col: int, square: bv64, own: bv64, opp: bv64, acc: bv64, r: bv64)
    requires InRange(row, col) && CanStep(d, row, col) && Meets(Step(d, square), own) && !Meets(acc, opp)
    requires r == RayFrom(d, row, col, square, own, opp, acc)
    ensures SquareOrZero(r & opp)
    ensures r == Join(RayFrom(d, row, col, square, Join(own, r & opp), opp, acc), r & opp)
  {
    NothingCaptured(acc, opp, own);
    RayBlocked(d, row, col, square, own, opp, acc);
    RayBlocked(d, row, col, square, Join(own, 0), opp, acc);
  }

  /** RayFromCapturesLast when the next square is the opponent's. */
  lemma CaptureComesLast(d: Direction, row: int, col: int, square: bv64, own: bv64, opp: bv64, acc: bv64, next: bv64, r: bv64)
    requires InRange(row, col) && CanStep(d, row, col) && next == Step(d, square) && SquareOrZero(next)
    requires !Meets(next, own) && Meets(next, opp) && !Meets(acc, opp)
    requires r == RayFrom(d, row, col, square, own, opp, acc)
    ensures SquareOrZero(r & opp)
    ensures r == Join(RayFrom(d, row, col, square, Join(own, r & opp), opp, acc), r & opp)
  {
    RayCaptures(d, row, col, square, own, opp, acc, next, Join(acc, next));
    CaptureIsNext(r, acc, next, opp);
    OwnNext(own, next);
    RayBlocked(d, row, col, square, Join(own, next), opp, acc);
  }

  /** RayFromCapturesLast carries back over a square of neither side. */
  lemma PassCapturesLater(d: Direction, row: int, col: int, square: bv64, own: bv64, opp: bv64, acc: bv64, next: bv64, r: bv64)
    requires InRange(row, col) && CanStep(d, row, col) && next == Step(d, square)
    requires !Meets(next, own) && !Meets(next, opp)
    requires InRange(NextRow(d, row), NextCol(d, col))
    requires r == RayFrom(d, row, col, square, own, opp, acc)
    requires r == Join(RayFrom(d, NextRow(d, row), NextCol(d, col), next, Join(own, r & opp), opp, Join(acc, next)), r & opp)
    requires SquareOrZero(r & opp)
    ensures SquareOrZero(r & opp)
    ensures r == Join(RayFrom(d, row, col, square, Join(own, r & opp), opp, acc), r & opp)
  {
    PassesCapture(own, next, opp, r & opp);
    RayContinues(d, row, col, square, Join(own, r & opp), opp, acc, NextRow(d, row), NextCol(d, col), next, Join(acc, next));
  }

  /** An accumulator that avoids opp has no square of opp, and joining nothing changes no mask. */
  lemma NothingCaptured(acc: bv64, opp: bv64, own: bv64)
    requires !Meets(acc, opp)
    ensures acc & opp == 0 && Join(acc, 0) == acc && Join(own, 0) == own
  {
  }

  /** A diagonal step of a single square is a single square or nothing. */
  lemma StepSquare(d: Direction, square: bv64)
    requires SquareOrZero(square)
    ensures SquareOrZero(Step(d, square))
  {
  }

  /** Adding an opponent's square next to an accumulator that avoids opp leaves next as all of opp it holds. */
  lemma CaptureIsNext(r: bv64, acc: bv64, next: bv64, opp: bv64)
    requires r == Join(acc, next) && SquareOrZero(next) && Meets(next, opp) && !Meets(acc, opp)
    ensures r & opp == next
  {
  }

  /** A nonempty square counted as the mover's blocks the step onto it. */
  lemma OwnNext(own: bv64, next: bv64)
    requires next != 0
    ensures Meets(next, Join(own, next))
  {
  }

  /** A square of neither side is not met by own joined with a part x of opp. */
  lemma PassesCapture(own: bv64, next: bv64, opp: bv64, x: bv64)
    requires !Meets(next, own) && !Meets(next, opp) && x & !opp == 0
    ensures !Meets(next, Join(own, x))
  {
  }

  /** The four diagonal loops of PiecesBishopMoveEx and PiecesQueenMoveEx for the piece board piece. */
  method DiagonalMoves(piece: bv64, own: bv64, opp: bv64) returns (moves: bv64)
    ensures moves == Diagonals(piece, own, opp)
  {
    var row := RowIndex(piece);
    var col := ColIndex(piece);
    moves := CastRay(NorthEast, row as int, col as int, piece, own, opp, 0);
    moves := CastRay(NorthWest, row as int, col as int, piece, own, opp, moves);
    moves := CastRay(SouthWest, row as int, col as int, piece, own, opp, moves);
    moves := CastRay(SouthEast, row as int, col as int, piece, own, opp, moves);
  }

  /**
   * PiecesBishopMoveEx (Pieces.cpp:377-461): the diagonals of A's bishop,
   * blocked by Union(A) and Union(B). Since A's bishop is in Union(A), its own
   * square is never a destination.
   */
  method BishopMoveEx(a: Pieces, b: Pieces) returns (moves: bv64)
    ensures moves == Diagonals(a.bishops, Union(a), Union(b))
    ensures !Meets(moves, Union(a))
  {
    moves := DiagonalMoves(a.bishops, Union(a), Union(b));
    DiagonalsAtAvoidOwn(RowOf(a.bishops) as int, ColOf(a.bishops) as int, a.bishops, Union(a), Union(b));
  }

  /** The loop guard fails: the accumulator is the result. */
  lemma RayEnds(d: Direction, row: int, col: int, square: bv64, own: bv64, opp: bv64, acc: bv64)
    requires InRange(row, col) && !CanStep(d, row, col)
    ensures RayFrom(d, row, col, square, own, opp, acc) == acc
  {
  }

  /** The next square is the mover's: the loop stops. */
  lemma RayBlocked(d: Direction, row: int, col: int, square: bv64, own: bv64, opp: bv64, acc: bv64)
    requires InRange(row, col) && CanStep(d, row, col) && Meets(Step(d, square), own)
    ensures RayFrom(d, row, col, square, own, opp, acc) == acc
  {
  }

  /** The next square is the opponent's: the loop adds it and stops. */
  lemma RayCaptures(d: Direction, row: int, col: int, square: bv64, own: bv64, opp: bv64, acc: bv64, next: bv64, acc': bv64)
    requires InRange(row, col) && CanStep(d, row, col) && next == Step(d, square) && acc' == Join(acc, next)
    requires !Meets(next, own) && Meets(next, opp)
    ensures RayFrom(d, row, col, square, own, opp, acc) == acc'
  {
  }

  /** The next square is empty: the loop adds it and goes on from there. */
  lemma RayContinues(d: Direction, row: int, col: int, square: bv64, own: bv64, opp: bv64, acc: bv64,
                     row': int, col': int, next: bv64, acc': bv64)
    requires InRange(row, col) && CanStep(d, row, col)
    requires row' == NextRow(d, row) && col' == NextCol(d, col) && next == Step(d, square) && acc' == Join(acc, next)
    requires !Meets(next, own) && !Meets(next, opp)
    ensures InRange(row', col')
    ensures RayFrom(d, row, col, square, own, opp, acc) == RayFrom(d, row', col', next, own, opp, acc')
  {
    StepInRange(d, row, col);
  }

  /** A step the guard allows keeps the counters in range. */
  lemma StepInRange(d: Direction, row: int, col: int)
    requires InRange(row, col) && CanStep(d, row, col)
    ensures InRange(NextRow(d, row), NextCol(d, col))
  {
  }

  /** BishopMovement of UnitTest.cpp:206-217: a lone bishop on d4 reaches both long diagonals through d4. */
  lemma BishopAloneOnD4()
    ensures DiagonalsAt(3, 3, d4, d4, 0) == 0x8041221400142241
  {
    RayContinues(NorthEast, 3, 3, d4, d4, 0, 0x0, 4, 4, 0x1000000000, 0x1000000000);
    RayContinues(NorthEast, 4, 4, 0x1000000000, d4, 0, 0x1000000000, 5, 5, 0x200000000000, 0x201000000000);
    RayContinues(NorthEast, 5, 5, 0x200000000000, d4, 0, 0x201000000000, 6, 6, 0x40000000000000, 0x40201000000000);
    RayContinues(NorthEast, 6, 6, 0x40000000000000, d4, 0, 0x40201000000000, 7, 7, 0x8000000000000000, 0x8040201000000000);
    RayEnds(NorthEast, 7, 7, 0x8000000000000000, d4, 0, 0x8040201000000000);
    RayContinues(NorthWest, 3, 3, d4, d4, 0, 0x8040201000000000, 4, 2, 0x400000000, 0x8040201400000000);
    RayContinues(NorthWest, 4, 2, 0x400000000, d4, 0, 0x8040201400000000, 5, 1, 0x20000000000, 0x8040221400000000);
    RayContinues(NorthWest, 5, 1, 0x20000000000, d4, 0, 0x8040221400000000, 6, 0, 0x1000000000000, 0x8041221400000000);
    RayEnds(NorthWest, 6, 0, 0x1000000000000, d4, 0, 0x8041221400000000);
    RayContinues(SouthWest, 3, 3, d4, d4, 0, 0x8041221400000000, 2, 2, 0x40000, 0x8041221400040000);
    RayContinues(SouthWest, 2, 2, 0x40000, d4, 0, 0x8041221400040000, 1, 1, 0x200, 0x8041221400040200);
    RayContinues(SouthWest, 1, 1, 0x200, d4, 0, 0x8041221400040200, 0, 0, 0x1, 0x8041221400040201);
    RayEnds(SouthWest, 0, 0, 0x1, d4, 0, 0x8041221400040201);
    RayContinues(SouthEast, 3, 3, d4, d4, 0, 0x8041221400040201, 2, 4, 0x100000, 0x8041221400140201);
    RayContinues(SouthEast, 2, 4, 0x100000, d4, 0, 0x8041221400140201, 1, 5, 0x2000, 0x8041221400142201);
    RayContinues(SouthEast, 1, 5, 0x2000, d4, 0, 0x8041221400142201, 0, 6, 0x40, 0x8041221400142241);
    RayEnds(SouthEast, 0, 6, 0x40, d4, 0, 0x8041221400142241);
  }

  /**
   * BishopCapture of UnitTest.cpp:219-232: the bishop on d4 stops before its
   * own pawns on f6 and c3 and captures the black pawn on b6.
   */
  lemma BishopCapturesOnD4()
    ensures DiagonalsAt(3, 3, d4, d4 | f6 | c3, b6) == 0x21400102040
  {
    RayContinues(NorthEast, 3, 3, d4, d4 | f6 | c3, b6, 0x0, 4, 4, 0x1000000000, 0x1000000000);
    RayBlocked(NorthEast, 4, 4, 0x1000000000, d4 | f6 | c3, b6, 0x1000000000);
    RayContinues(NorthWest, 3, 3, d4, d4 | f6 | c3, b6, 0x1000000000, 4, 2, 0x400000000, 0x1400000000);
    RayCaptures(NorthWest, 4, 2, 0x400000000, d4 | f6 | c3, b6, 0x1400000000, 0x20000000000, 0x21400000000);
    RayBlocked(SouthWest, 3, 3, d4, d4 | f6 | c3, b6, 0x21400000000);
    RayContinues(SouthEast, 3, 3, d4, d4 | f6 | c3, b6, 0x21400000000, 2, 4, 0x100000, 0x21400100000);
    RayContinues(SouthEast, 2, 4, 0x100000, d4 | f6 | c3, b6, 0x21400100000, 1, 5, 0x2000, 0x21400102000);
    RayContinues(SouthEast, 1, 5, 0x2000, d4 | f6 | c3, b6, 0x21400102000, 0, 6, 0x40, 0x21400102040);
    RayEnds(SouthEast, 0, 6, 0x40, d4 | f6 | c3, b6, 0x21400102040);
  }
}
