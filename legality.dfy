/**
 * BoardCheckMoveIsLegalByPieceEx (Board.cpp:89-132): whether a move's
 * destination is among the squares the generator of the moving piece's type
 * produces, run on a copy of the mover in which that type's board is cut
 * down to the move's origin. For every type but the king the copy keeps the
 * full board in Reserved2, so the type's other pieces still block.
 */
module Legality {
  import opened Foundation
  import opened PieceSets
  import opened Leapers
  import opened Generators
  import opened Attacks
  import opened Straight

  /** The mover's copy the check hands to the generator of type t. */
  function CutTo(a: Pieces, t: PieceType, start: bv64): (p: Pieces)
    requires t != NoPiece
    ensures BoardOf(p, t) == BoardOf(a, t) & start
    ensures t != King ==> p.reserved2 == BoardOf(a, t)
    ensures t == King ==> p.reserved2 == a.reserved2
    ensures p.color == a.color && p.state == a.state && p.reserved == a.reserved
  {
    if t == King then WithBoard(a, t, BoardOf(a, t) & start)
    else WithBoard(a.(reserved2 := BoardOf(a, t)), t, BoardOf(a, t) & start)
  }

  /** The squares the check accepts as destinations from start; NONE accepts none. */
  function LegalTargets(a: Pieces, b: Pieces, t: PieceType, start: bv64): bv64
  {
    if t == NoPiece then 0 else PieceMoves(t, CutTo(a, t, start), b)
  }

  /** The answer of BoardCheckMoveIsLegalByPieceEx. */
  predicate LegalByPiece(a: Pieces, b: Pieces, t: PieceType, m: Move)
  {
    Meets(LegalTargets(a, b, t, m.startSquare), m.endSquare)
  }

  /** BoardCheckMoveIsLegalByPieceEx: the copy is built, then handed to the type's generator. */
  method CheckMoveIsLegalByPieceEx(a: Pieces, b: Pieces, t: PieceType, m: Move) returns (legal: bool)
    ensures legal == LegalByPiece(a, b, t, m)
    ensures t == NoPiece ==> !legal
  {
    legal := false;
    if t == NoPiece {
      return;
    }
    var tmp := CutTo(a, t, m.startSquare);
    var moves := PieceMovesOf(t, tmp, b);
    legal := Meets(moves, m.endSquare);
  }

  /** Apart from the king, a type none of whose pieces stands on the origin has no legal destination. */
  lemma NothingOnStart(a: Pieces, b: Pieces, t: PieceType, m: Move)
    requires t != NoPiece && t != King && !Meets(BoardOf(a, t), m.startSquare)
    ensures !LegalByPiece(a, b, t, m)
  {
    PieceMovesOfNothing(t, CutTo(a, t, m.startSquare), b);
  }

  /**
   * A king move from a square without the king can still be accepted, but
   * only onto a castle target: the castle test looks at the flags and the
   * attacked squares, not at where the king stands.
   */
  lemma KingNotOnStart(a: Pieces, b: Pieces, m: Move)
    requires !Meets(a.king, m.startSquare) && LegalByPiece(a, b, King, m)
    ensures Meets(m.endSquare, CastleTargets)
  {
    PieceMovesOfNothing(King, CutTo(a, King, m.startSquare), b);
  }

  /**
   * A pawn, bishop, rook or queen on a square below h8 moves as the only
   * piece of its type, with every other piece of the type (kept in
   * Reserved2) still standing in its way.
   */
  lemma LegalFromOnePiece(a: Pieces, b: Pieces, t: PieceType, k: bv6)
    requires Swept(t) && k != 63 && Has(BoardOf(a, t), k)
    ensures LegalTargets(a, b, t, Square(k)) == SingleMoves(t, Alone(CutTo(a, t, Square(k)), t, Square(k)), b)
  {
    var cut := CutTo(a, t, Square(k));
    CutToOwnSquare(a, t, k);
    SweptTargets(a, b, t, Square(k));
    SweepOne(t, cut, b, k);
  }

  /** The cut-down copy holds exactly the origin on the type's board. */
  lemma CutToOwnSquare(a: Pieces, t: PieceType, k: bv6)
    requires t != NoPiece && Has(BoardOf(a, t), k)
    ensures BoardOf(CutTo(a, t, Square(k)), t) == Square(k)
  {
  }

  /** For a pawn, bishop, rook or queen the targets are the wrapper's sweep over the cut-down copy. */
  lemma SweptTargets(a: Pieces, b: Pieces, t: PieceType, start: bv64)
    requires Swept(t)
    ensures LegalTargets(a, b, t, start) == Sweep(t, CutTo(a, t, start), b)
  {
  }

  /** The copy the single-piece generator sees counts every piece of the moving type as the mover's own. */
  lemma OthersOfTypeBlock(a: Pieces, t: PieceType, k: bv6)
    requires Swept(t)
    ensures BoardOf(a, t) & !Union(Alone(CutTo(a, t, Square(k)), t, Square(k))) == 0
  {
    var alone := Alone(CutTo(a, t, Square(k)), t, Square(k));
    assert alone.reserved2 == BoardOf(a, t);
  }

  /** A pawn, bishop, rook or queen on h8 is never moved: the wrappers stop at bit 62. */
  lemma NoMoveFromH8(a: Pieces, b: Pieces, t: PieceType, m: Move)
    requires Swept(t) && m.startSquare == h8 && Meets(BoardOf(a, t), h8)
    ensures !LegalByPiece(a, b, t, m)
  {
    var cut := CutTo(a, t, h8);
    assert BoardOf(cut, t) == h8;
    SweepMissesH8(t, cut, b);
  }

  /** BoardPieceCollision of UnitTest.cpp:358-372: the rook on a1 cannot pass through its partner on h1. */
  lemma RookCollisionTest(a: Pieces, b: Pieces)
    requires a == EmptySide(White).(rooks := a1 | h1) && b == EmptySide(White)
    ensures !LegalByPiece(a, b, Rook, Move(a1, h1))
  {
    var cut := CutTo(a, Rook, a1);
    assert BoardOf(cut, Rook) == Square(0);
    SweepOne(Rook, cut, b, 0);
    assert Union(Alone(cut, Rook, a1)) == a1 | h1;
    RooksOnRankOne();
  }
}
