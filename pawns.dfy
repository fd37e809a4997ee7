/**
 * The pawn generators of Pieces.cpp:93-290: the diagonal attack pattern,
 * the captures, the pushes, en passant, and the colour dispatch of
 * PiecesPawnMoveEx. Every one is a straight-line mask expression.
 */
module Pawns {
  import opened Foundation
  import opened PieceSets

  // ---------------------------------------------------------------------
  // Diagonal steps (Pieces.cpp:102-111)
  // ---------------------------------------------------------------------

  /** One step diagonally toward rank 8, with the shifts that wrap around a board edge masked off. */
  function UpDiagonals(x: bv64): bv64
  {
    Intersect(x << 9, FILE_A) | Intersect(x << 7, FILE_H)
  }

  /** One step diagonally toward rank 1, masked in the same way. */
  function DownDiagonals(x: bv64): bv64
  {
    Intersect(x >> 9, FILE_H) | Intersect(x >> 7, FILE_A)
  }

  /** A square reached by UpDiagonals lies one rank up and one file over from a square of x: no step wraps. */
  lemma UpDiagonalsFrom(x: bv64, f: bv3, r: bv3)
    requires Has(UpDiagonals(x), IndexAt(f, r))
    ensures r != 0
    ensures (f != 0 && Has(x, IndexAt(f - 1, r - 1))) || (f != 7 && Has(x, IndexAt(f + 1, r - 1)))
  {
  }

  /** Both diagonal neighbours one rank up of a square of x are reached, when they exist. */
  lemma UpDiagonalsTo(x: bv64, f: bv3, r: bv3)
    requires Has(x, IndexAt(f, r)) && r != 7
    ensures f != 7 ==> Has(UpDiagonals(x), IndexAt(f + 1, r + 1))
    ensures f != 0 ==> Has(UpDiagonals(x), IndexAt(f - 1, r + 1))
  {
  }

  /** A square reached by DownDiagonals lies one rank down and one file over from a square of x. */
  lemma DownDiagonalsFrom(x: bv64, f: bv3, r: bv3)
    requires Has(DownDiagonals(x), IndexAt(f, r))
    ensures r != 7
    ensures (f != 0 && Has(x, IndexAt(f - 1, r + 1))) || (f != 7 && Has(x, IndexAt(f + 1, r + 1)))
  {
  }

  /** Both diagonal neighbours one rank down of a square of x are reached, when they exist. */
  lemma DownDiagonalsTo(x: bv64, f: bv3, r: bv3)
    requires Has(x, IndexAt(f, r)) && r != 0
    ensures f != 7 ==> Has(DownDiagonals(x), IndexAt(f + 1, r - 1))
    ensures f != 0 ==> Has(DownDiagonals(x), IndexAt(f - 1, r - 1))
  {
  }

  // ---------------------------------------------------------------------
  // PiecesPawnMoveFast and PiecesPawnAttack (Pieces.cpp:93-150)
  // ---------------------------------------------------------------------

  /** PiecesPawnMoveFast: the squares A's pawns may attack, toward rank 8 for White and rank 1 for Black. */
  function PawnMoveFast(a: Pieces, b: Pieces): bv64
  {
    if a.pawns == 0 then 0
    else if a.color == White then UpDiagonals(a.pawns)
    else DownDiagonals(a.pawns)
  }

  /** PiecesPawnAttack: the diagonal steps of A's pawns that land on one of B's squares. */
  function PawnAttack(a: Pieces, b: Pieces): bv64
  {
    if a.pawns == 0 then 0
    else
      var occupied := Union(b);
      if a.color == White then
        Intersect(occupied & (a.pawns << 9), FILE_A) | Intersect(occupied & (a.pawns << 7), FILE_H)
      else
        Intersect(occupied & (a.pawns >> 9), FILE_H) | Intersect(occupied & (a.pawns >> 7), FILE_A)
  }

  /** The captures are exactly the attack squares of PawnMoveFast that B occupies. */
  lemma PawnAttackOnOccupied(a: Pieces, b: Pieces)
    ensures PawnAttack(a, b) == PawnMoveFast(a, b) & Union(b)
  {
    if a.pawns == 0 {
    } else if a.color == White {
      PawnAttackWhite(a, b);
    } else {
      PawnAttackBlack(a, b);
    }
  }

  /** PawnAttackOnOccupied for a white mover. */
  lemma PawnAttackWhite(a: Pieces, b: Pieces)
    requires a.pawns != 0 && a.color == White
    ensures PawnAttack(a, b) == PawnMoveFast(a, b) & Union(b)
  {
  }

  /** PawnAttackOnOccupied for a black mover. */
  lemma PawnAttackBlack(a: Pieces, b: Pieces)
    requires a.pawns != 0 && a.color == Black
    ensures PawnAttack(a, b) == PawnMoveFast(a, b) & Union(b)
  {
  }

  // ---------------------------------------------------------------------
  // Pushes (Pieces.cpp:177-186 and 234-243)
  // ---------------------------------------------------------------------

  /**
   * The white pushes of the pawns p through the occupied squares occ: one
   * step onto an empty square, and from rank 2 a second step when both
   * squares ahead are empty.
   */
  function WhitePushes(p: bv64, occ: bv64): bv64
  {
    var firstMove := Intersect((p & RANK_2) << 8, occ);
    var firstMove' := firstMove | Intersect(firstMove << 8, occ);
    var forward := Intersect(Intersect(p, RANK_2) << 8, occ);
    forward | firstMove'
  }

  /** The black pushes, toward rank 1 and with the double step from rank 7. */
  function BlackPushes(p: bv64, occ: bv64): bv64
  {
    var firstMove := Intersect((p & RANK_7) >> 8, occ);
    var firstMove' := firstMove | Intersect(firstMove >> 8, occ);
    var forward := Intersect(Intersect(p, RANK_7) >> 8, occ);
    forward | firstMove'
  }

  /** A lone white pawn off rank 2 and rank 8 steps one square up when that square is empty. */
  lemma WhitePushesSingle(i: bv6, occ: bv64)
    requires RankOf(i) != 1 && RankOf(i) != 7
    ensures WhitePushes(Square(i), occ) == if Has(occ, i + 8) then 0 else Square(i + 8)
  {
  }

  /** A lone white pawn on rank 2 steps once onto an empty square and twice when both squares ahead are empty. */
  lemma WhitePushesDouble(i: bv6, occ: bv64)
    requires RankOf(i) == 1
    ensures WhitePushes(Square(i), occ) ==
      if Has(occ, i + 8) then 0
      else if Has(occ, i + 16) then Square(i + 8)
      else Square(i + 8) | Square(i + 16)
  {
  }

  /** A white pawn on rank 8 has no push. */
  lemma WhitePushesLastRank(i: bv6, occ: bv64)
    requires RankOf(i) == 7
    ensures WhitePushes(Square(i), occ) == 0
  {
  }

  /** A lone black pawn off rank 7 and rank 1 steps one square down when that square is empty. */
  lemma BlackPushesSingle(i: bv6, occ: bv64)
    requires RankOf(i) != 6 && RankOf(i) != 0
    ensures BlackPushes(Square(i), occ) == if Has(occ, i - 8) then 0 else Square(i - 8)
  {
  }

  /** A lone black pawn on rank 7 steps once onto an empty square and twice when both squares ahead are empty. */
  lemma BlackPushesDouble(i: bv6, occ: bv64)
    requires RankOf(i) == 6
    ensures BlackPushes(Square(i), occ) ==
      if Has(occ, i - 8) then 0
      else if Has(occ, i - 16) then Square(i - 8)
      else Square(i - 8) | Square(i - 16)
  {
  }

  /** A black pawn on rank 1 has no push. */
  lemma BlackPushesLastRank(i: bv6, occ: bv64)
    requires RankOf(i) == 0
    ensures BlackPushes(Square(i), occ) == 0
  {
  }

  // ---------------------------------------------------------------------
  // En passant (Pieces.cpp:193-204 and 250-261)
  // ---------------------------------------------------------------------

  /** B's last move was a pawn leaving its second rank for its fourth, and A has a pawn on its fifth rank. */
  predicate EnPassantOpen(a: Pieces, b: Pieces)
  {
    var last := b.state.lastMove;
    if a.color == White then
      b.state.lastMovedPiece == Pawn && a.pawns & RANK_5 != 0 &&
      last.startSquare & RANK_7 != 0 && last.endSquare & RANK_5 != 0
    else
      b.state.lastMovedPiece == Pawn && a.pawns & RANK_4 != 0 &&
      last.startSquare & RANK_2 != 0 && last.endSquare & RANK_4 != 0
  }

  /** The en-passant destinations: the square behind B's pawn, when a pawn of A attacks it. */
  function EnPassant(a: Pieces, b: Pieces): bv64
  {
    if !EnPassantOpen(a, b) then 0
    else if a.color == White then UpDiagonals(a.pawns) & (b.state.lastMove.endSquare << 8)
    else DownDiagonals(a.pawns) & (b.state.lastMove.endSquare >> 8)
  }

  /**
   * A white pawn beside the black pawn that has just made its double step
   * gains the square that pawn passed over, whatever other pawns White has.
   */
  lemma WhiteEnPassantCapture(a: Pieces, b: Pieces, f: bv3, g: bv3)
    requires a.color == White && Has(a.pawns, IndexAt(f, 4))
    requires b.state.lastMovedPiece == Pawn
    requires b.state.lastMove == Move(SquareAt(g, 6), SquareAt(g, 4))
    requires (f != 7 && g == f + 1) || (f != 0 && g == f - 1)
    ensures EnPassant(a, b) == SquareAt(g, 5)
  {
  }

  /** The black mirror of WhiteEnPassantCapture, again among any other pawns. */
  lemma BlackEnPassantCapture(a: Pieces, b: Pieces, f: bv3, g: bv3)
    requires a.color == Black && Has(a.pawns, IndexAt(f, 3))
    requires b.state.lastMovedPiece == Pawn
    requires b.state.lastMove == Move(SquareAt(g, 1), SquareAt(g, 3))
    requires (f != 7 && g == f + 1) || (f != 0 && g == f - 1)
    ensures EnPassant(a, b) == SquareAt(g, 2)
  {
  }

  /** Without a double step of a B pawn just made, there is no en-passant destination. */
  lemma EnPassantNeedsPawnStep(a: Pieces, b: Pieces)
    requires EnPassant(a, b) != 0
    ensures b.state.lastMovedPiece == Pawn
    ensures a.color == White ==> b.state.lastMove.startSquare & RANK_7 != 0 && b.state.lastMove.endSquare & RANK_5 != 0
    ensures a.color == Black ==> b.state.lastMove.startSquare & RANK_2 != 0 && b.state.lastMove.endSquare & RANK_4 != 0
  {
  }

  /**
   * Only a pawn of A on a file next to B's last-moved pawn, on the same rank,
   * can gain an en-passant square: with no pawn of A on either neighbouring
   * square there is none, for either colour and any set of A's pawns.
   */
  lemma EnPassantNeedsNeighbour(a: Pieces, b: Pieces, g: bv3, r: bv3)
    requires b.state.lastMove.endSquare == SquareAt(g, r)
    requires g == 0 || !Has(a.pawns, IndexAt(g - 1, r))
    requires g == 7 || !Has(a.pawns, IndexAt(g + 1, r))
    ensures EnPassant(a, b) == 0
  {
  }

  // ---------------------------------------------------------------------
  // PiecesWhitePawnMove, PiecesBlackPawnMove, PiecesPawnMoveEx (Pieces.cpp:161-290)
  // ---------------------------------------------------------------------

  /** PiecesWhitePawnMove: pushes through both sides' squares, captures and en passant. */
  function WhitePawnMove(a: Pieces, b: Pieces): bv64
  {
    var occupied := Union(a) | Union(b);
    WhitePushes(a.pawns, occupied) | PawnAttack(a, b) | EnPassant(a, b)
  }

  /** PiecesBlackPawnMove. */
  function BlackPawnMove(a: Pieces, b: Pieces): bv64
  {
    var occupied := Union(a) | Union(b);
    BlackPushes(a.pawns, occupied) | PawnAttack(a, b) | EnPassant(a, b)
  }

  /** PiecesPawnMoveEx: the generator of A's colour. */
  function PawnMoveEx(a: Pieces, b: Pieces): bv64
  {
    if a.color == White then WhitePawnMove(a, b) else BlackPawnMove(a, b)
  }
}
