/**
 * The queen generator (Pieces.cpp:660-811) and the per-instance wrappers
 * PiecesPawnMove, PiecesBishopMove, PiecesRookMove and PiecesQueenMove
 * (Pieces.cpp:302-337, 473-508, 611-646, 826-861). Each wrapper walks the
 * squares a1 .. g8 (bits 0 to 62) and, for every piece of its type found
 * there, hands the single-piece generator a copy of the side in which that
 * piece is the only one of its type and the others sit in Reserved, where
 * they still block.
 */
module Generators {
  import opened Foundation
  import opened BitScan
  import opened PieceSets
  import opened Pawns
  import opened Diagonals
  import opened Straight

  // ---------------------------------------------------------------------
  // PiecesQueenMoveEx (Pieces.cpp:660-811)
  // ---------------------------------------------------------------------

  /** The queen's moves: the four diagonal rays followed by the rank and file part. */
  function QueenMoves(piece: bv64, own: bv64, opp: bv64): bv64
    requires piece != 0
  {
    Join(Diagonals.Diagonals(piece, own, opp), StraightMoves(piece, own, opp))
  }

  /** The body of PiecesQueenMoveEx for the queen board piece, with own and opp the two sides' squares. */
  method QueenMovesOf(piece: bv64, own: bv64, opp: bv64) returns (moves: bv64)
    requires piece != 0
    ensures moves == QueenMoves(piece, own, opp)
  {
    var diagonal := DiagonalMoves(piece, own, opp);
    var straight := StraightMovesOf(piece, own, opp);
    moves := Join(diagonal, straight);
  }

  /**
   * PiecesQueenMoveEx for A's single queen. The rays see the full unions;
   * the rank and file part cuts them down to the queen's lines afterwards.
   */
  method QueenMoveEx(a: Pieces, b: Pieces) returns (moves: bv64)
    requires a.queen != 0
    ensures moves == QueenMoves(a.queen, Union(a), Union(b))
    ensures !Meets(moves, a.queen)
  {
    moves := QueenMovesOf(a.queen, Union(a), Union(b));
    QueenAvoidsOwnSquare(a, b);
  }

  /** The queen's own square is never one of its moves: the rays stop before the mover's squares and the rank and file part removes it. */
  lemma QueenAvoidsItself(piece: bv64, own: bv64, opp: bv64)
    requires piece != 0 && piece & !own == 0
    ensures !Meets(QueenMoves(piece, own, opp), piece)
  {
    var diagonal := Diagonals.Diagonals(piece, own, opp);
    DiagonalsAvoidOwn(piece, own, opp);
    AvoidsPart(diagonal, own, piece);
    StraightAvoidsPiece(piece, own, opp);
    UnionAvoids(diagonal, StraightMoves(piece, own, opp), piece);
  }

  /** QueenAvoidsItself for A's queen, which is one of A's squares. */
  lemma QueenAvoidsOwnSquare(a: Pieces, b: Pieces)
    requires a.queen != 0
    ensures !Meets(QueenMoves(a.queen, Union(a), Union(b)), a.queen)
  {
    BoardsInUnion(a);
    QueenAvoidsItself(a.queen, Union(a), Union(b));
  }

  /** QueenMovement of UnitTest.cpp:246-257: a lone queen on d4. */
  lemma QueenAloneOnD4()
    ensures QueenMoves(d4, d4, 0) == 0x88492A1CF71C2A49
  {
    SquareRowCol(27);
    BishopAloneOnD4();
    RookAloneOnD4();
  }

  // ---------------------------------------------------------------------
  // The per-instance wrappers (Pieces.cpp:302-337, 473-508, 611-646, 826-861)
  // ---------------------------------------------------------------------

  /** The piece types whose generator handles one piece at a time. */
  predicate Swept(t: PieceType)
  {
    t == Pawn || t == Bishop || t == Rook || t == Queen
  }

  /**
   * The copy the wrapper hands to the single-piece generator when it finds a
   * piece on square: the type's board is just that square and Reserved holds
   * the type's other pieces.
   */
  function Alone(a: Pieces, t: PieceType, square: bv64): (p: Pieces)
    requires t != NoPiece
    ensures BoardOf(p, t) == square && p.reserved == Intersect(BoardOf(a, t), square)
  {
    WithBoard(a, t, square).(reserved := Intersect(BoardOf(a, t), square))
  }

  /** PiecesPawnMoveEx, PiecesBishopMoveEx, PiecesRookMoveEx or PiecesQueenMoveEx on A's single piece of type t. */
  function SingleMoves(t: PieceType, a: Pieces, b: Pieces): bv64
    requires Swept(t) && BoardOf(a, t) != 0
  {
    match t
    case Pawn => PawnMoveEx(a, b)
    case Bishop => Diagonals.Diagonals(a.bishops, Union(a), Union(b))
    case Rook => StraightMoves(a.rooks, Union(a), Union(b))
    case Queen => QueenMoves(a.queen, Union(a), Union(b))
  }

  /** The call of the single-piece generator of type t. */
  method SingleMovesOf(t: PieceType, a: Pieces, b: Pieces) returns (moves: bv64)
    requires Swept(t) && BoardOf(a, t) != 0
    ensures moves == SingleMoves(t, a, b)
  {
    match t
    case Pawn => moves := PawnMoveEx(a, b);
    case Bishop => moves := BishopMoveEx(a, b);
    case Rook => moves := RookMoveEx(a, b);
    case Queen => moves := QueenMoveEx(a, b);
  }

  /** The bit index of a1, where the wrapper loops start; named rather than written as a literal, so that the verifier unrolls the loops only where a proof asks for it. */
  const A1_INDEX: bv6 := 0

  /** The step `square <<= 1` of the wrapper loops. */
  function Next(square: bv64): bv64
  {
    square << 1
  }

  /**
   * The wrapper loop from bit i on, with acc the moves collected so far:
   * every square of bit i .. 62 that holds a piece of type t adds that
   * piece's single-piece moves. The counter stops at 63, so bit 63 (h8) is
   * never visited.
   */
  function SweepFrom(t: PieceType, a: Pieces, b: Pieces, i: bv6, acc: bv64): bv64
    requires Swept(t)
    decreases 63 - i as int
  {
    if i == 63 then acc
    else if Meets(BoardOf(a, t), Square(i)) then
      SweepFrom(t, a, b, i + 1, Join(acc, SingleMoves(t, Alone(a, t, Square(i)), b)))
    else
      SweepFrom(t, a, b, i + 1, acc)
  }

  /** The result of the wrapper of type t: 0 for an empty board, else the loop from a1. */
  function Sweep(t: PieceType, a: Pieces, b: Pieces): bv64
    requires Swept(t)
  {
    if BoardOf(a, t) == 0 then 0 else SweepFrom(t, a, b, A1_INDEX, 0)
  }

  /** A square holding a piece of type t adds that piece's moves. */
  lemma SweepVisits(t: PieceType, a: Pieces, b: Pieces, i: bv6, square: bv64, acc: bv64, single: bv64)
    requires Swept(t) && i != 63 && square == Square(i) && Meets(BoardOf(a, t), square)
    requires single == SingleMoves(t, Alone(a, t, square), b)
    ensures SweepFrom(t, a, b, i, acc) == SweepFrom(t, a, b, i + 1, Join(acc, single))
  {
  }

  /** Any other square adds nothing. */
  lemma SweepSkips(t: PieceType, a: Pieces, b: Pieces, i: bv6, square: bv64, acc: bv64)
    requires Swept(t) && i != 63 && square == Square(i) && !Meets(BoardOf(a, t), square)
    ensures SweepFrom(t, a, b, i, acc) == SweepFrom(t, a, b, i + 1, acc)
  {
  }

  /** The loop's shift `square <<= 1` moves from bit i to bit i + 1, and the counter goes up by one. */
  lemma NextSquare(i: bv6)
    requires i != 63
    ensures Next(Square(i)) == Square(i + 1) && (i + 1) as int == i as int + 1
  {
  }

  /**
   * The wrappers PiecesPawnMove, PiecesBishopMove, PiecesRookMove and
   * PiecesQueenMove, which share one shape: the loop over bits 0 .. 62 that
   * sets the found piece alone in a copy of A, parks the others in Reserved
   * and adds the single-piece moves.
   */
  method SweepMoves(t: PieceType, a: Pieces, b: Pieces) returns (moves: bv64)
    requires Swept(t)
    ensures moves == Sweep(t, a, b)
    ensures BoardOf(a, t) == 0 ==> moves == 0
  {
    var pieces := BoardOf(a, t);
    moves := 0;
    if pieces == 0 {
      return;
    }
    var square: bv64 := 1;
    var i: bv6 := 0;
    while i != 63
      invariant square == Square(i)
      invariant SweepFrom(t, a, b, i, moves) == SweepFrom(t, a, b, A1_INDEX, 0)
      decreases 63 - i as int
    {
      moves := SweepSquare(t, a, b, i, square, moves);
      NextSquare(i);
      i := i + 1;
      square := Next(square);
    }
  }

  /** One pass of the wrapper loop body: a piece of type t on square has its moves added. */
  method SweepSquare(t: PieceType, a: Pieces, b: Pieces, i: bv6, square: bv64, moves: bv64) returns (moves': bv64)
    requires Swept(t) && i != 63 && square == Square(i)
    ensures SweepFrom(t, a, b, i, moves) == SweepFrom(t, a, b, i + 1, moves')
  {
    moves' := moves;
    if Meets(BoardOf(a, t), square) {
      moves' := AddPiece(t, a, b, i, square, moves);
    } else {
      SweepSkips(t, a, b, i, square, moves);
    }
  }

  /**
   * The found piece: set it alone in a copy of A, with the type's other
   * pieces in Reserved, and add what the single-piece generator returns.
   */
  method AddPiece(t: PieceType, a: Pieces, b: Pieces, i: bv6, square: bv64, moves: bv64) returns (moves': bv64)
    requires Swept(t) && i != 63 && square == Square(i) && Meets(BoardOf(a, t), square)
    ensures SweepFrom(t, a, b, i, moves) == SweepFrom(t, a, b, i + 1, moves')
  {
    var movingSide := Alone(a, t, square);
    var single := SingleMovesOf(t, movingSide, b);
    SweepVisits(t, a, b, i, square, moves, single);
    moves' := Join(moves, single);
  }

  // ---------------------------------------------------------------------
  // What the wrappers return
  // ---------------------------------------------------------------------

  /** Two different bits are two disjoint squares. */
  lemma SquaresDisjoint(i: bv6, k: bv6)
    requires i != k
    ensures !Meets(Square(k), Square(i))
  {
  }

  /** Bit k lies outside the stretch of bits i .. j - 1. */
  predicate Outside(k: bv6, i: bv6, j: bv6)
  {
    k < i || j <= k
  }

  /** One step of a stretch i .. j - 1 that leaves out bit k: bit i is not k, and the rest of the stretch still leaves it out. */
  lemma StretchStep(i: bv6, j: bv6, k: bv6)
    requires i < j && Outside(k, i, j)
    ensures i != k && i != 63 && i + 1 <= j && Outside(k, i + 1, j)
    ensures (i + 1) as int == i as int + 1 && i as int < j as int
  {
  }

  /**
   * The loop passes the bits i .. j - 1 of a board holding at most the two
   * bits k and l, both outside that stretch, without adding anything.
   */
  lemma {:induction false} SweepFromGap(t: PieceType, a: Pieces, b: Pieces, i: bv6, j: bv6, k: bv6, l: bv6, acc: bv64)
    requires Swept(t) && i <= j && BoardOf(a, t) == Join(Square(k), Square(l))
    requires Outside(k, i, j) && Outside(l, i, j)
    ensures SweepFrom(t, a, b, i, acc) == SweepFrom(t, a, b, j, acc)
    decreases j as int - i as int
  {
    if i < j {
      StretchStep(i, j, k);
      StretchStep(i, j, l);
      SquaresDisjoint(i, k);
      SquaresDisjoint(i, l);
      UnionAvoids(Square(k), Square(l), Square(i));
      SweepSkips(t, a, b, i, Square(i), acc);
      SweepFromGap(t, a, b, i + 1, j, k, l, acc);
    }
  }

  /** The loop over a board holding only bit k, below h8, collects exactly the moves of that piece. */
  lemma SweepOneFrom(t: PieceType, a: Pieces, b: Pieces, k: bv6, single: bv64)
    requires Swept(t) && k != 63 && BoardOf(a, t) == Square(k)
    requires single == SingleMoves(t, Alone(a, t, Square(k)), b)
    ensures SweepFrom(t, a, b, A1_INDEX, 0) == single
  {
    assert BoardOf(a, t) == Join(Square(k), Square(k));
    SweepFromGap(t, a, b, A1_INDEX, k, k, k, 0);
    SweepVisits(t, a, b, k, Square(k), 0, single);
    SweepFromGap(t, a, b, k + 1, 63, k, k, Join(0, single));
  }

  /** A single piece of type t on a square below h8: the wrapper returns that piece's single-piece moves. */
  lemma SweepOne(t: PieceType, a: Pieces, b: Pieces, k: bv6)
    requires Swept(t) && k != 63 && BoardOf(a, t) == Square(k)
    ensures Sweep(t, a, b) == SingleMoves(t, Alone(a, t, Square(k)), b)
  {
    SweepOneFrom(t, a, b, k, SingleMoves(t, Alone(a, t, Square(k)), b));
  }

  /** The loop over a board holding two pieces, on bits k < l below h8, collects the moves of each, made with the other piece in Reserved. */
  lemma SweepTwoFrom(t: PieceType, a: Pieces, b: Pieces, k: bv6, l: bv6, first: bv64, second: bv64)
    requires Swept(t) && k as int < l as int && l != 63 && BoardOf(a, t) == Join(Square(k), Square(l))
    requires first == SingleMoves(t, Alone(a, t, Square(k)), b)
    requires second == SingleMoves(t, Alone(a, t, Square(l)), b)
    ensures SweepFrom(t, a, b, A1_INDEX, 0) == Join(first, second)
  {
    OrderedPair(k, l);
    SweepUpToSecond(t, a, b, k, l, first);
    SweepFromSecond(t, a, b, k, l, first, second);
  }

  /** Two bits ordered as integers are ordered as bit-vectors, and both meet their union. */
  lemma OrderedPair(k: bv6, l: bv6)
    requires k as int < l as int
    ensures k < l && k != 63 && k + 1 <= l
    ensures Meets(Join(Square(k), Square(l)), Square(k)) && Meets(Join(Square(k), Square(l)), Square(l))
  {
  }

  /** From a1 up to the second piece the loop adds the first piece's moves only. */
  lemma SweepUpToSecond(t: PieceType, a: Pieces, b: Pieces, k: bv6, l: bv6, first: bv64)
    requires Swept(t) && k < l && k + 1 <= l && BoardOf(a, t) == Join(Square(k), Square(l))
    requires Meets(BoardOf(a, t), Square(k))
    requires first == SingleMoves(t, Alone(a, t, Square(k)), b)
    ensures SweepFrom(t, a, b, A1_INDEX, 0) == SweepFrom(t, a, b, l, first)
  {
    SweepThroughFirst(t, a, b, k, l, first);
    SweepFromGap(t, a, b, k + 1, l, k, l, first);
  }

  /** From a1 through the first piece the loop adds that piece's moves. */
  lemma SweepThroughFirst(t: PieceType, a: Pieces, b: Pieces, k: bv6, l: bv6, first: bv64)
    requires Swept(t) && k < l && BoardOf(a, t) == Join(Square(k), Square(l))
    requires Meets(BoardOf(a, t), Square(k))
    requires first == SingleMoves(t, Alone(a, t, Square(k)), b)
    ensures SweepFrom(t, a, b, A1_INDEX, 0) == SweepFrom(t, a, b, k + 1, first)
  {
    SweepFromGap(t, a, b, A1_INDEX, k, k, l, 0);
    SweepVisits(t, a, b, k, Square(k), 0, first);
    assert Join(0, first) == first;
  }

  /** From the second piece on the loop adds that piece's moves and nothing more. */
  lemma SweepFromSecond(t: PieceType, a: Pieces, b: Pieces, k: bv6, l: bv6, acc: bv64, second: bv64)
    requires Swept(t) && k < l && l != 63 && BoardOf(a, t) == Join(Square(k), Square(l))
    requires Meets(BoardOf(a, t), Square(l))
    requires second == SingleMoves(t, Alone(a, t, Square(l)), b)
    ensures SweepFrom(t, a, b, l, acc) == Join(acc, second)
  {
    SweepVisits(t, a, b, l, Square(l), acc, second);
    SweepFromGap(t, a, b, l + 1, 63, k, l, Join(acc, second));
  }

  /** Two pieces of type t on bits k < l below h8: the wrapper returns the union of their single-piece moves. */
  lemma SweepTwo(t: PieceType, a: Pieces, b: Pieces, k: bv6, l: bv6)
    requires Swept(t) && k as int < l as int && l != 63 && BoardOf(a, t) == Join(Square(k), Square(l))
    ensures Sweep(t, a, b) ==
      Join(SingleMoves(t, Alone(a, t, Square(k)), b), SingleMoves(t, Alone(a, t, Square(l)), b))
  {
    SweepTwoFrom(t, a, b, k, l, SingleMoves(t, Alone(a, t, Square(k)), b), SingleMoves(t, Alone(a, t, Square(l)), b));
  }

  /** Bits i .. j - 1 of x are all clear, one at a time. */
  predicate ClearFrom(x: bv64, i: bv6, j: bv6)
    decreases j as int - i as int
  {
    i < j ==> !Meets(x, Square(i)) && ClearFrom(x, i + 1, j)
  }

  /** Bits i .. j - 1 of x are clear, read off one mask. */
  predicate ClearMask(x: bv64, i: bv6, j: bv6)
  {
    x & (Square(j) - 1) & !(Square(i) - 1) == 0
  }

  /** A board clear on bits i .. j - 1 as a mask has each of those bits clear. */
  lemma {:induction false} ClearBetween(x: bv64, i: bv6, j: bv6)
    requires i <= j && ClearMask(x, i, j)
    ensures ClearFrom(x, i, j)
    decreases j as int - i as int
  {
    if i < j {
      ClearStep(x, i, j);
      ClearBetween(x, i + 1, j);
    }
  }

  /** The first bit of a clear stretch is clear, and so is the rest of the stretch. */
  lemma ClearStep(x: bv64, i: bv6, j: bv6)
    requires i < j && ClearMask(x, i, j)
    ensures !Meets(x, Square(i)) && i + 1 <= j && (i + 1) as int == i as int + 1 && ClearMask(x, i + 1, j)
  {
  }

  /** The loop passes bits i .. j - 1 holding no piece of type t without adding anything. */
  lemma {:induction false} SweepFromEmpty(t: PieceType, a: Pieces, b: Pieces, x: bv64, i: bv6, j: bv6, acc: bv64)
    requires Swept(t) && i <= j && BoardOf(a, t) == x && ClearFrom(x, i, j)
    ensures SweepFrom(t, a, b, i, acc) == SweepFrom(t, a, b, j, acc)
    decreases j as int - i as int
  {
    if i < j {
      NextSquare(i);
      SweepSkips(t, a, b, i, Square(i), acc);
      SweepFromEmpty(t, a, b, x, i + 1, j, acc);
    }
  }

  /** A board below bit i has nothing on bit i, and is below bit i + 1 too. */
  lemma BelowSquare(x: bv64, i: bv6)
    requires i != 63 && x < Square(i)
    ensures !Meets(x, Square(i)) && x < Square(i + 1)
  {
  }

  /** Once the loop is past every piece of type t, it adds nothing more. */
  lemma {:induction false} SweepFromPast(t: PieceType, a: Pieces, b: Pieces, x: bv64, i: bv6, acc: bv64)
    requires Swept(t) && BoardOf(a, t) == x && x < Square(i)
    ensures SweepFrom(t, a, b, i, acc) == acc
    decreases 63 - i as int
  {
    if i != 63 {
      NextSquare(i);
      BelowSquare(x, i);
      SweepSkips(t, a, b, i, Square(i), acc);
      SweepFromPast(t, a, b, x, i + 1, acc);
    }
  }

  /** A board with nothing below bit j has nothing on a bit i below j. */
  lemma AboveSquare(x: bv64, i: bv6, j: bv6)
    requires i < j && x & (Square(j) - 1) == 0
    ensures !Meets(x, Square(i))
  {
  }

  /** Up to the first piece of type t, the loop adds nothing. */
  lemma {:induction false} SweepFromBefore(t: PieceType, a: Pieces, b: Pieces, x: bv64, i: bv6, j: bv6, acc: bv64)
    requires Swept(t) && i <= j && BoardOf(a, t) == x && x & (Square(j) - 1) == 0
    ensures SweepFrom(t, a, b, i, acc) == SweepFrom(t, a, b, j, acc)
    decreases j as int - i as int
  {
    if i < j {
      NextSquare(i);
      AboveSquare(x, i, j);
      SweepSkips(t, a, b, i, Square(i), acc);
      SweepFromBefore(t, a, b, x, i + 1, j, acc);
    }
  }

  /** The loop passes empty bits i .. j - 1, then takes up the piece on bit j. */
  lemma SweepReaches(t: PieceType, a: Pieces, b: Pieces, x: bv64, i: bv6, j: bv6, acc: bv64, single: bv64)
    requires Swept(t) && i <= j && j != 63 && BoardOf(a, t) == x && ClearFrom(x, i, j)
    requires Meets(x, Square(j)) && single == SingleMoves(t, Alone(a, t, Square(j)), b)
    ensures SweepFrom(t, a, b, i, acc) == SweepFrom(t, a, b, j + 1, Join(acc, single))
  {
    SweepFromEmpty(t, a, b, x, i, j, acc);
    SweepVisits(t, a, b, j, Square(j), acc, single);
  }

  /** A piece on h8 is never visited: the loop stops at bit 62. */
  lemma SweepMissesH8(t: PieceType, a: Pieces, b: Pieces)
    requires Swept(t) && BoardOf(a, t) == h8
    ensures Sweep(t, a, b) == 0
  {
    assert h8 == Join(Square(63), Square(63));
    SweepFromGap(t, a, b, A1_INDEX, 63, 63, 63, 0);
  }

  // ---------------------------------------------------------------------
  // The wrapper tests of UnitTest.cpp
  // ---------------------------------------------------------------------

  /** RookMovement of UnitTest.cpp:129-139: PiecesRookMove for a lone rook on d4. */
  lemma RookMovementTest(a: Pieces, b: Pieces)
    requires a == EmptySide(White).(rooks := d4) && b == EmptySide(White)
    ensures Sweep(Rook, a, b) == 0x8080808F7080808
  {
    SweepOne(Rook, a, b, 27);
    assert Union(Alone(a, Rook, d4)) == d4;
    RookAloneOnD4();
  }

  /** RookCapture of UnitTest.cpp:141-154: the rook on d4 among own pawns on d1, d6, h4, b4 and enemy pawns on d2, d7, g4, a4. */
  lemma RookCaptureTest(a: Pieces, b: Pieces)
    requires a == EmptySide(White).(rooks := d4, pawns := d1 | d6 | h4 | b4)
    requires b == EmptySide(White).(pawns := d2 | d7 | g4 | a4)
    ensures Sweep(Rook, a, b) == 0x874080800
  {
    SweepOne(Rook, a, b, 27);
    assert Union(Alone(a, Rook, d4)) == d4 | d1 | d6 | h4 | b4;
    RookCapturesOnD4();
  }

  /** BishopMovement of UnitTest.cpp:206-217: PiecesBishopMove for a lone bishop on d4. */
  lemma BishopMovementTest(a: Pieces, b: Pieces)
    requires a == EmptySide(White).(bishops := d4) && b == EmptySide(White)
    ensures Sweep(Bishop, a, b) == 0x8041221400142241
  {
    SweepOne(Bishop, a, b, 27);
    assert Union(Alone(a, Bishop, d4)) == d4;
    SquareRowCol(27);
    BishopAloneOnD4();
  }

  /** BishopCapture of UnitTest.cpp:219-232: the bishop on d4 with own pawns on f6 and c3 and an enemy pawn on b6. */
  lemma BishopCaptureTest(a: Pieces, b: Pieces)
    requires a == EmptySide(White).(bishops := d4, pawns := f6 | c3)
    requires b == EmptySide(White).(pawns := b6)
    ensures Sweep(Bishop, a, b) == 0x21400102040
  {
    SweepOne(Bishop, a, b, 27);
    assert Union(Alone(a, Bishop, d4)) == d4 | f6 | c3;
    SquareRowCol(27);
    BishopCapturesOnD4();
  }

  /** QueenMovement of UnitTest.cpp:246-257: PiecesQueenMove for a lone queen on d4. */
  lemma QueenMovementTest(a: Pieces, b: Pieces)
    requires a == EmptySide(White).(queen := d4) && b == EmptySide(White)
    ensures Sweep(Queen, a, b) == 0x88492A1CF71C2A49
  {
    SweepOne(Queen, a, b, 27);
    assert Union(Alone(a, Queen, d4)) == d4;
    QueenAloneOnD4();
  }

  /**
   * RookMultipleRooks of UnitTest.cpp:166-176: rooks on a1 and h1. Each is
   * generated with the other in Reserved, so neither moves onto or past the
   * other along rank 1.
   */
  lemma RookMultipleRooksTest(a: Pieces, b: Pieces)
    requires a == EmptySide(White).(rooks := a1 | h1) && b == EmptySide(White)
    ensures Sweep(Rook, a, b) == 0x818181818181817E
  {
    SweepTwo(Rook, a, b, 0, 7);
    assert Union(Alone(a, Rook, a1)) == a1 | h1;
    assert Union(Alone(a, Rook, h1)) == a1 | h1;
    RooksOnRankOne();
  }

  /**
   * RookHorizontalAttack of UnitTest.cpp:192-204 as the code computes it:
   * PiecesRookMove for a side whose one rook is on f7 and whose squares are
   * f7, d7, c7 and b7 (Black's rook and pawns there), against an empty side,
   * includes c7 and d7, where the unit test expects 0x20D0202020202020.
   */
  lemma RookHorizontalAttackTest(a: Pieces, b: Pieces)
    requires a.rooks == f7 && a.reserved == 0 && Union(a) == f7 | d7 | c7 | b7 && Union(b) == 0
    ensures Sweep(Rook, a, b) == 0x20DC202020202020
  {
    SweepOne(Rook, a, b, 53);
    assert Square(53) == f7;
    assert Alone(a, Rook, f7) == a;
    RookHorizontalSingle(a, b);
    RookHorizontalAsWritten();
  }

  /** The wrapper's one call: the rook alone on f7, its side's squares f7, d7, c7 and b7, and no enemy. */
  lemma RookHorizontalSingle(x: Pieces, b: Pieces)
    requires x.rooks == f7 && Union(x) == f7 | d7 | c7 | b7 && Union(b) == 0
    ensures SingleMoves(Rook, x, b) == StraightMoves(f7, f7 | d7 | c7 | b7, 0)
  {
  }
}
