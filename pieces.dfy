/**
 * The piece sets of one side (Pieces.hpp:6-45): six bitboards, the colour,
 * the castling and last-move state, and the two scratch boards Reserved and
 * Reserved2 that the generators count as the side's own pieces.
 *
 * Every function of the engine receives its Pieces through pointers to
 * private copies, so a value of the datatype below stands for the struct and
 * an updated value for the struct after the function has written it.
 */
module PieceSets {
  import opened Foundation

  /** PieceType of Pieces.hpp:13-21, NONE written NoPiece. */
  datatype PieceType = NoPiece | Pawn | Knight | Bishop | Rook | Queen | King

  /** WHITE_PIECE (0) and BLACK_PIECE (1) of Pieces.hpp:6-7. */
  datatype Color = White | Black

  /** A move from one square to another; both are one-bit masks when the move comes from ParseMove. */
  datatype Move = Move(startSquare: bv64, endSquare: bv64)

  /** PlayingState of Pieces.hpp:23-32. */
  datatype PlayingState = PlayingState(castle: bv8, lastMove: Move, lastMovedPiece: PieceType)

  /** Pieces of Pieces.hpp:34-45. */
  datatype Pieces = Pieces(
    pawns: bv64, knights: bv64, bishops: bv64, rooks: bv64, queen: bv64, king: bv64,
    color: Color, state: PlayingState, reserved: bv64, reserved2: bv64)

  /** The castling flags of Pieces.hpp:9-11. */
  const KING_HAS_MOVED: bv8 := 0x1
  const KING_ROOK_HAS_MOVED: bv8 := 0x2
  const QUEEN_ROOK_HAS_MOVED: bv8 := 0x4

  /** The "no more squares" value the search loops of Board.cpp stop on. */
  const NO_SQUARE: bv64 := 0

  const NoMove := Move(0, 0)
  const NoState := PlayingState(0, NoMove, NoPiece)

  /** A side with no pieces and a cleared state, as memset leaves it. */
  function EmptySide(c: Color): (p: Pieces)
    ensures Occupied(p) == 0 && p.color == c && p.state == NoState
  {
    Pieces(0, 0, 0, 0, 0, 0, c, NoState, 0, 0)
  }

  /** The six piece boards together, without the scratch boards. */
  function Occupied(p: Pieces): bv64
  {
    p.pawns | p.knights | p.bishops | p.rooks | p.queen | p.king
  }

  /**
   * Union of Foundation.hpp:124-131: every square the side counts as its own,
   * that is, each of the six boards and both scratch boards, and nothing else.
   */
  function Union(p: Pieces): (u: bv64)
    ensures Occupied(p) & !u == 0 && p.reserved & !u == 0 && p.reserved2 & !u == 0
    ensures u & !Occupied(p) & !p.reserved & !p.reserved2 == 0
  {
    p.pawns | p.knights | p.bishops | p.rooks | p.queen | p.king | p.reserved | p.reserved2
  }

  /** The board of one piece type; NONE has no board (the default of the switch at Board.cpp:537-558). */
  function BoardOf(p: Pieces, t: PieceType): bv64
  {
    match t
    case NoPiece => 0
    case Pawn => p.pawns
    case Knight => p.knights
    case Bishop => p.bishops
    case Rook => p.rooks
    case Queen => p.queen
    case King => p.king
  }

  /** The side with the board of type t replaced by x. */
  function WithBoard(p: Pieces, t: PieceType, x: bv64): (q: Pieces)
    requires t != NoPiece
    ensures BoardOf(q, t) == x
    ensures q.color == p.color && q.state == p.state && q.reserved == p.reserved && q.reserved2 == p.reserved2
  {
    match t
    case Pawn => p.(pawns := x)
    case Knight => p.(knights := x)
    case Bishop => p.(bishops := x)
    case Rook => p.(rooks := x)
    case Queen => p.(queen := x)
    case King => p.(king := x)
  }

  /** Replacing one board leaves every other board as it was. */
  lemma WithBoardOthers(p: Pieces, t: PieceType, x: bv64, u: PieceType)
    requires t != NoPiece && u != t
    ensures BoardOf(WithBoard(p, t, x), u) == BoardOf(p, u)
  {
  }

  /** A board meets a mask when they share a square. */
  predicate Meets(x: bv64, s: bv64)
  {
    x & s != 0
  }

  /**
   * PiecesMapSquareToPiece of Pieces.cpp:1007-1033: the first of the six
   * boards, in the order pawn .. king, that meets the mask s, or NONE when
   * none of the side's pieces is on s.
   */
  function MapSquareToPiece(p: Pieces, s: bv64): (t: PieceType)
    ensures t == NoPiece ==> !Meets(Occupied(p), s)
    ensures t.Pawn? ==> Meets(p.pawns, s)
    ensures t.Knight? ==> Meets(p.knights, s)
    ensures t.Bishop? ==> Meets(p.bishops, s)
    ensures t.Rook? ==> Meets(p.rooks, s)
    ensures t.Queen? ==> Meets(p.queen, s)
    ensures t.King? ==> Meets(p.king, s)
  {
    if Meets(p.pawns, s) then Pawn
    else if Meets(p.knights, s) then Knight
    else if Meets(p.bishops, s) then Bishop
    else if Meets(p.rooks, s) then Rook
    else if Meets(p.queen, s) then Queen
    else if Meets(p.king, s) then King
    else NoPiece
  }

  /** A mask meets the side's pieces exactly when it meets one of the six boards. */
  lemma OccupiedMeets(p: Pieces, s: bv64)
    ensures Meets(Occupied(p), s) <==>
      Meets(p.pawns, s) || Meets(p.knights, s) || Meets(p.bishops, s) || Meets(p.rooks, s) || Meets(p.queen, s) || Meets(p.king, s)
  {
    MeetsMeans(Occupied(p), s);
    MeetsMeans(p.pawns, s);
    MeetsMeans(p.knights, s);
    MeetsMeans(p.bishops, s);
    MeetsMeans(p.rooks, s);
    MeetsMeans(p.queen, s);
    MeetsMeans(p.king, s);
    if Meets(Occupied(p), s) {
      OccupiedHit(p, s);
    } else {
      OccupiedMissed(p, s);
    }
  }

  /** Meets spelled out, for proofs that mix it with masks written directly. */
  lemma MeetsMeans(x: bv64, s: bv64)
    ensures Meets(x, s) <==> x & s != 0
  {
  }

  /** A mask that meets the side's pieces meets one of the six boards. */
  lemma OccupiedHit(p: Pieces, s: bv64)
    requires Occupied(p) & s != 0
    ensures p.pawns & s != 0 || p.knights & s != 0 || p.bishops & s != 0 || p.rooks & s != 0 || p.queen & s != 0 || p.king & s != 0
  {
  }

  /** A mask that misses the side's pieces misses each of the six boards. */
  lemma OccupiedMissed(p: Pieces, s: bv64)
    requires Occupied(p) & s == 0
    ensures p.pawns & s == 0 && p.knights & s == 0 && p.bishops & s == 0
    ensures p.rooks & s == 0 && p.queen & s == 0 && p.king & s == 0
  {
  }

  /** The type MapSquareToPiece reports is one whose board meets the mask. */
  lemma MapSquareToPieceFound(p: Pieces, s: bv64, t: PieceType)
    requires t == MapSquareToPiece(p, s) && t != NoPiece
    ensures Meets(BoardOf(p, t), s)
  {
    match t
    case Pawn =>
    case Knight =>
    case Bishop =>
    case Rook =>
    case Queen =>
    case King =>
  }

  /** When exactly one board meets the mask, MapSquareToPiece names that board. */
  lemma MapSquareToPieceOfOwner(p: Pieces, t: PieceType, s: bv64)
    requires t != NoPiece && Meets(BoardOf(p, t), s)
    requires forall u: PieceType :: u != t ==> !Meets(BoardOf(p, u), s)
    ensures MapSquareToPiece(p, s) == t
  {
    var r := MapSquareToPiece(p, s);
    if r != t {
      if r == NoPiece {
        assert false;
      } else {
        MapSquareToPieceFound(p, s, r);
        assert false;
      }
    }
  }

  /** The union of two boards, named so that proofs about loops that accumulate squares stay small. */
  function Join(x: bv64, y: bv64): bv64
  {
    x | y
  }

  /** A union avoids a mask when both parts avoid it. */
  lemma UnionAvoids(x: bv64, y: bv64, own: bv64)
    requires !Meets(x, own) && !Meets(y, own)
    ensures !Meets(Join(x, y), own)
  {
  }

  /** What avoids a mask avoids every part of it. */
  lemma AvoidsPart(x: bv64, whole: bv64, part: bv64)
    requires !Meets(x, whole) && part & !whole == 0
    ensures !Meets(x, part)
  {
  }

  /** A board with the squares of a mask removed avoids that mask. */
  lemma RemovedAvoids(x: bv64, s: bv64)
    ensures !Meets(Intersect(x, s), s)
  {
  }

  /** Removing squares from a board leaves part of that board. */
  lemma RemovedWithin(x: bv64, s: bv64)
    ensures Intersect(x, s) & !x == 0
  {
  }

  /** Each board of a side lies inside its Union. */
  lemma BoardsInUnion(p: Pieces)
    ensures p.pawns & !Union(p) == 0 && p.knights & !Union(p) == 0 && p.bishops & !Union(p) == 0
    ensures p.rooks & !Union(p) == 0 && p.queen & !Union(p) == 0 && p.king & !Union(p) == 0
  {
  }

  /** A board meets the single square i exactly when it holds square i. */
  lemma HasSquare(x: bv64, i: bv6)
    ensures Meets(x, Square(i)) ==> Has(x, i)
    ensures Has(x, i) ==> Meets(x, Square(i))
  {
  }

  /** Adding squares to moves keeps every square of moves. */
  lemma JoinKeeps(moves: bv64, x: bv64, y: bv64)
    ensures Intersect(moves, Join(Join(moves, x), y)) == 0
  {
  }

  /** Adding squares inside c to moves adds nothing outside c. */
  lemma JoinAddsWithin(moves: bv64, x: bv64, y: bv64, c: bv64)
    requires x & !c == 0 && y & !c == 0
    ensures Intersect(Join(Join(moves, x), y), moves) & !c == 0
  {
  }

  /** Adding squares outside m to moves adds nothing in m. */
  lemma JoinAddsOutside(moves: bv64, x: bv64, y: bv64, m: bv64)
    requires !Meets(x, m) && !Meets(y, m)
    ensures Intersect(Join(Join(moves, x), y), moves) & m == 0
  {
  }

  /** A board that avoids m, grown by squares none of which is in m, still avoids m. */
  lemma AddedAvoids(x: bv64, y: bv64, m: bv64)
    requires !Meets(x, m) && Intersect(y, x) & m == 0
    ensures !Meets(y, m)
  {
  }

  /** A board inside r, grown by squares inside c, lies inside r and c together. */
  lemma AddedWithin(r: bv64, x: bv64, y: bv64, c: bv64)
    requires x & !r == 0 && Intersect(y, x) & !c == 0
    ensures Intersect(y, r) & !c == 0
  {
  }
}
