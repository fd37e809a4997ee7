/**
 * The two jumping patterns of Pieces.cpp: PiecesKnightMove (348-364), which
 * works on all knights at once, and PiecesKingMoveFast (876-897), the eight
 * neighbours of the king minus the mover's own squares.
 */
module Leapers {
  import opened Foundation
  import opened PieceSets

  // ---------------------------------------------------------------------
  // Knights (Pieces.cpp:348-364)
  // ---------------------------------------------------------------------

  /** The eight knight jumps of every square of x, each masked against the files it would wrap into. */
  function KnightJumps(x: bv64): bv64
  {
    Intersect(x << 17, FILE_A) |
    Intersect(x << 10, FILE_A | FILE_B) |
    Intersect(x >> 6, FILE_A | FILE_B) |
    Intersect(x >> 15, FILE_A) |
    Intersect(x << 15, FILE_H) |
    Intersect(x << 6, FILE_G | FILE_H) |
    Intersect(x >> 10, FILE_G | FILE_H) |
    Intersect(x >> 17, FILE_H)
  }

  /**
   * PiecesKnightMove: the jumps of all of A's knights. The code computes
   * Union(A) and never uses it, so squares held by A stay in the result.
   */
  function KnightMove(a: Pieces, b: Pieces): (m: bv64)
    ensures a.knights == 0 ==> m == 0
  {
    KnightJumps(a.knights)
  }

  /** The knight set depends on A's knights alone: not on A's other pieces, A's state, or B. */
  lemma KnightMoveOnlyKnights(a: Pieces, b: Pieces, a': Pieces, b': Pieces)
    requires a.knights == a'.knights
    ensures KnightMove(a, b) == KnightMove(a', b')
  {
  }

  /** Own pieces are not removed: a knight on b1 still reaches d2 when A holds d2. */
  lemma KnightMoveKeepsOwnSquares(a: Pieces, b: Pieces)
    requires a.knights == b1 && a.pawns == d2
    ensures KnightMove(a, b) & d2 == d2 && Union(a) & d2 == d2
  {
  }

  /** The squares a knight on file f, rank r can jump to, listed offset by offset and kept only where they exist. */
  function KnightTargets(f: bv3, r: bv3): bv64
  {
    (if r != 0 && r != 1 && f != 0 then SquareAt(f - 1, r - 2) else 0) |
    (if r != 0 && r != 1 && f != 7 then SquareAt(f + 1, r - 2) else 0) |
    (if r != 6 && r != 7 && f != 0 then SquareAt(f - 1, r + 2) else 0) |
    (if r != 6 && r != 7 && f != 7 then SquareAt(f + 1, r + 2) else 0) |
    (if r != 0 && f != 0 && f != 1 then SquareAt(f - 2, r - 1) else 0) |
    (if r != 0 && f != 6 && f != 7 then SquareAt(f + 2, r - 1) else 0) |
    (if r != 7 && f != 0 && f != 1 then SquareAt(f - 2, r + 1) else 0) |
    (if r != 7 && f != 6 && f != 7 then SquareAt(f + 2, r + 1) else 0)
  }

  /** A lone knight reaches exactly its in-board jump targets: no jump wraps around an edge. */
  lemma KnightJumpsOfSquare(f: bv3, r: bv3)
    ensures KnightJumps(SquareAt(f, r)) == KnightTargets(f, r)
  {
  }

  /** KnightMovement of UnitTest.cpp:91-101: a knight on c5. */
  lemma KnightOnC5(a: Pieces, b: Pieces)
    requires a.knights == c5
    ensures KnightMove(a, b) == 0xA1100110A0000
  {
  }

  /** KnightEdge of UnitTest.cpp:103-114: knights on a1, e4 and h8. */
  lemma KnightsOnEdges(a: Pieces, b: Pieces)
    requires a.knights == a1 | e4 | h8
    ensures KnightMove(a, b) == 0x20684400462C00
  {
  }

  // ---------------------------------------------------------------------
  // PiecesKingMoveFast (Pieces.cpp:876-897)
  // ---------------------------------------------------------------------

  /** The eight neighbours of every square of x, the sideways and diagonal ones masked against wrapping. */
  function Neighbours(x: bv64): bv64
  {
    Intersect(x << 7, FILE_H) |
    (x << 8) |
    Intersect(x << 9, FILE_A) |
    Intersect(x << 1, FILE_A) |
    Intersect(x >> 1, FILE_H) |
    Intersect(x >> 7, FILE_A) |
    (x >> 8) |
    Intersect(x >> 9, FILE_H)
  }

  /** PiecesKingMoveFast: the king's neighbours that A does not hold. */
  function KingMoveFast(a: Pieces, b: Pieces): (m: bv64)
    ensures m & Union(a) == 0
    ensures a.king == 0 ==> m == 0
  {
    Intersect(Neighbours(a.king), Union(a))
  }

  /** The squares next to file f, rank r, listed direction by direction and kept only where they exist. */
  function KingTargets(f: bv3, r: bv3): bv64
  {
    (if r != 7 then SquareAt(f, r + 1) else 0) |
    (if r != 0 then SquareAt(f, r - 1) else 0) |
    (if f != 7 then SquareAt(f + 1, r) else 0) |
    (if f != 0 then SquareAt(f - 1, r) else 0) |
    (if r != 7 && f != 7 then SquareAt(f + 1, r + 1) else 0) |
    (if r != 7 && f != 0 then SquareAt(f - 1, r + 1) else 0) |
    (if r != 0 && f != 7 then SquareAt(f + 1, r - 1) else 0) |
    (if r != 0 && f != 0 then SquareAt(f - 1, r - 1) else 0)
  }

  /** A lone king's neighbours are exactly the adjacent squares on the board. */
  lemma NeighboursOfSquare(f: bv3, r: bv3)
    ensures Neighbours(SquareAt(f, r)) == KingTargets(f, r)
  {
  }
}
