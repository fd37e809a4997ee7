/**
 * The board of Board.hpp:10-13 (White's and Black's piece sets) and the
 * operations of Board.cpp that set it up, compare it and play a move on it:
 * BoardInit, BoardZeroInit, BoardInitWithPieces, BoardAttemptMove,
 * BoardComparePieces and BoardCompare.
 *
 * BoardAttemptMove is specified by the function Attempt on the two sides; the
 * class method follows the engine's steps and writes the board back only
 * when the move is legal and the caller asks for the new position.
 */
module Boards {
  import opened Foundation
  import opened PieceSets
  import opened Attacks
  import opened Legality
  import opened Applier
  import opened Straight
  import opened Generators

  /** The colour codes BoardAttemptMove accepts (WHITE_PIECE and BLACK_PIECE of Pieces.hpp:6-7). */
  const WHITE_PIECE: bv64 := 0
  const BLACK_PIECE: bv64 := 1

  /** The side of colour c in a new game (Board.cpp:11-30). */
  function StartSide(c: Color): (p: Pieces)
    ensures p.color == c
    ensures p.state == NoState
    ensures p.reserved == 0 && p.reserved2 == 0
  {
    match c
    case White => Pieces(RANK_2, b1 | g1, c1 | f1, a1 | h1, d1, e1, White, NoState, 0, 0)
    case Black => Pieces(RANK_7, b8 | g8, c8 | f8, a8 | h8, d8, e8, Black, NoState, 0, 0)
  }

  /** The side of colour c on a cleared board: no pieces and every castling flag set (Board.cpp:41-50). */
  function ClearedSide(c: Color): (p: Pieces)
    ensures Occupied(p) == 0 && p.color == c
    ensures p.state.castle == KING_HAS_MOVED | KING_ROOK_HAS_MOVED | QUEEN_ROOK_HAS_MOVED
  {
    EmptySide(c).(state := NoState.(castle := KING_HAS_MOVED | KING_ROOK_HAS_MOVED | QUEEN_ROOK_HAS_MOVED))
  }

  /** In a new game White holds ranks 1 and 2, Black ranks 7 and 8, and neither has moved its king or rooks. */
  lemma StartingLayout()
    ensures Occupied(StartSide(White)) == RANK_1 | RANK_2
    ensures Occupied(StartSide(Black)) == RANK_7 | RANK_8
    ensures !Meets(Occupied(StartSide(White)), Occupied(StartSide(Black)))
    ensures StartSide(White).state.castle == 0 && StartSide(Black).state.castle == 0
  {
  }

  /**
   * PiecesRookMove in the starting position as the code computes it: the
   * rank blocker is the farthest own piece, so the rooks on a1 and h1
   * together "reach" b1 .. g1, squares of their own pieces.
   */
  lemma StartingRooksAsWritten()
    ensures Sweep(Rook, StartSide(White), StartSide(Black)) == 0x7E
  {
    var a, b := StartSide(White), StartSide(Black);
    SweepTwo(Rook, a, b, 0, 7);
    assert Union(Alone(a, Rook, a1)) == RANK_1 | RANK_2;
    assert Union(Alone(a, Rook, h1)) == RANK_1 | RANK_2;
    assert Union(b) == RANK_7 | RANK_8;
    StartingCornersAsWritten();
  }

  // ---------------------------------------------------------------------
  // BoardComparePieces and BoardCompare (Board.cpp:857-884)
  // ---------------------------------------------------------------------

  /** BoardComparePieces: the six boards and the castling flags agree. */
  predicate SamePieces(a: Pieces, b: Pieces)
  {
    a.pawns == b.pawns && a.knights == b.knights && a.bishops == b.bishops &&
    a.rooks == b.rooks && a.queen == b.queen && a.king == b.king &&
    a.state.castle == b.state.castle
  }

  /** The comparison looks at neither the colour, the scratch boards nor the last move. */
  lemma SamePiecesIgnores(a: Pieces, c: Color, r: bv64, r2: bv64, last: Move, t: PieceType)
    ensures SamePieces(a, a.(color := c, reserved := r, reserved2 := r2, state := a.state.(lastMove := last, lastMovedPiece := t)))
  {
  }

  /** Two sides compare equal exactly when they have the same pieces and flags. */
  lemma SamePiecesMeansSameBoards(a: Pieces, b: Pieces)
    ensures SamePieces(a, b) <==> (forall t: PieceType :: BoardOf(a, t) == BoardOf(b, t)) && a.state.castle == b.state.castle
  {
    if (forall t: PieceType :: BoardOf(a, t) == BoardOf(b, t)) && a.state.castle == b.state.castle {
      assert BoardOf(a, Pawn) == BoardOf(b, Pawn) && BoardOf(a, Knight) == BoardOf(b, Knight);
      assert BoardOf(a, Bishop) == BoardOf(b, Bishop) && BoardOf(a, Rook) == BoardOf(b, Rook);
      assert BoardOf(a, Queen) == BoardOf(b, Queen) && BoardOf(a, King) == BoardOf(b, King);
    }
    if SamePieces(a, b) {
      forall t: PieceType ensures BoardOf(a, t) == BoardOf(b, t) {
        match t
        case NoPiece =>
        case Pawn =>
        case Knight =>
        case Bishop =>
        case Rook =>
        case Queen =>
        case King =>
      }
    }
  }

  // ---------------------------------------------------------------------
  // BoardAttemptMove (Board.cpp:381-473)
  // ---------------------------------------------------------------------

  /** Why BoardAttemptMove returns false. */
  datatype Refusal = UnknownColor | NoPieceOnStart | NotGenerated | LeavesKingInCheck

  /** What BoardAttemptMove decides: a refusal, or the two sides of the new position. */
  datatype Outcome = Refused(why: Refusal) | Accepted(mover: Pieces, other: Pieces)

  /** The side with its last move and last moved piece replaced. */
  function Record(a: Pieces, last: Move, t: PieceType): (r: Pieces)
    ensures r.state.lastMove == last && r.state.lastMovedPiece == t
    ensures SamePieces(r, a) && r.color == a.color && r.reserved == a.reserved && r.reserved2 == a.reserved2
  {
    a.(state := a.state.(lastMove := last, lastMovedPiece := t))
  }

  /** The side that moves: White for WHITE_PIECE, Black otherwise. */
  function MoverOf(white: Pieces, black: Pieces, color: bv64): Pieces
  {
    if color == WHITE_PIECE then white else black
  }

  /** The side that does not move. */
  function OtherOf(white: Pieces, black: Pieces, color: bv64): Pieces
  {
    if color == WHITE_PIECE then black else white
  }

  /**
   * The move m by side a against side b, once the colour is known: the
   * piece on the origin, the generator's verdict, the move applied on
   * copies, and the test that a's king is not attacked afterwards. The
   * mover records m and the type it moved; the other side's record is
   * cleared.
   */
  function AttemptBy(a: Pieces, b: Pieces, m: Move, p: Promotion): Outcome
  {
    var t := MapSquareToPiece(a, m.startSquare);
    if t == NoPiece then Refused(NoPieceOnStart)
    else if !LegalByPiece(a, b, t, m) then Refused(NotGenerated)
    else
      var after := CompleteMove(a, t, b, MapSquareToPiece(b, m.endSquare), m, p);
      if InCheck(after.mover, after.other) then Refused(LeavesKingInCheck)
      else Accepted(Record(after.mover, m, t), Record(after.other, NoMove, NoPiece))
  }

  /** BoardAttemptMove on the position (white, black): a colour other than the two codes is refused. */
  function Attempt(white: Pieces, black: Pieces, m: Move, color: bv64, p: Promotion): Outcome
  {
    if color != WHITE_PIECE && color != BLACK_PIECE then Refused(UnknownColor)
    else AttemptBy(MoverOf(white, black, color), OtherOf(white, black, color), m, p)
  }

  /** A colour code other than WHITE_PIECE and BLACK_PIECE is always refused. */
  lemma UnknownColorRefused(white: Pieces, black: Pieces, m: Move, color: bv64, p: Promotion)
    ensures Attempt(white, black, m, color, p) == Refused(UnknownColor) <==> color != WHITE_PIECE && color != BLACK_PIECE
  {
  }

  /** MapSquareToPiece answers NONE exactly when none of the side's pieces is on the mask. */
  lemma MapSquareToPieceNone(a: Pieces, s: bv64)
    ensures MapSquareToPiece(a, s) == NoPiece <==> !Meets(Occupied(a), s)
  {
    OccupiedMeets(a, s);
  }

  /** A move is refused for want of a piece exactly when none of the mover's pieces is on the origin. */
  lemma NoPieceRefused(a: Pieces, b: Pieces, m: Move, p: Promotion)
    ensures AttemptBy(a, b, m, p) == Refused(NoPieceOnStart) <==> !Meets(Occupied(a), m.startSquare)
  {
    MapSquareToPieceNone(a, m.startSquare);
  }

  /** A move whose piece's generator does not produce the destination is refused for that reason. */
  lemma UngeneratedRefused(a: Pieces, b: Pieces, m: Move, p: Promotion)
    requires Meets(Occupied(a), m.startSquare)
    ensures AttemptBy(a, b, m, p) == Refused(NotGenerated) <==> !LegalByPiece(a, b, MapSquareToPiece(a, m.startSquare), m)
  {
    MapSquareToPieceNone(a, m.startSquare);
  }

  /** An accepted move starts on one of the mover's pieces, and that piece's generator produces it. */
  lemma AcceptedIsGenerated(a: Pieces, b: Pieces, m: Move, p: Promotion)
    requires AttemptBy(a, b, m, p).Accepted?
    ensures Meets(Occupied(a), m.startSquare) && LegalByPiece(a, b, MapSquareToPiece(a, m.startSquare), m)
  {
    MapSquareToPieceNone(a, m.startSquare);
  }

  /** The applied move of an accepted attempt. */
  function Applied(a: Pieces, b: Pieces, m: Move, p: Promotion): Sides
  {
    CompleteMove(a, MapSquareToPiece(a, m.startSquare), b, MapSquareToPiece(b, m.endSquare), m, p)
  }

  /**
   * An accepted move is the applier's result with the records updated: the
   * mover records the move and the type it moved, the other side records
   * none, and every board and flag is the applier's.
   */
  lemma AcceptedIsApplied(a: Pieces, b: Pieces, m: Move, p: Promotion)
    requires AttemptBy(a, b, m, p).Accepted?
    ensures SamePieces(AttemptBy(a, b, m, p).mover, Applied(a, b, m, p).mover)
    ensures SamePieces(AttemptBy(a, b, m, p).other, Applied(a, b, m, p).other)
    ensures AttemptBy(a, b, m, p).mover.state.lastMove == m
    ensures AttemptBy(a, b, m, p).mover.state.lastMovedPiece == MapSquareToPiece(a, m.startSquare)
    ensures AttemptBy(a, b, m, p).other.state.lastMove == NoMove
    ensures AttemptBy(a, b, m, p).other.state.lastMovedPiece == NoPiece
  {
  }

  /** After an accepted move the mover's king is on no square the other side attacks. */
  lemma AcceptedLeavesKingSafe(a: Pieces, b: Pieces, m: Move, p: Promotion)
    requires AttemptBy(a, b, m, p).Accepted?
    ensures !Meets(AttackSquares(Applied(a, b, m, p).other, Applied(a, b, m, p).mover), AttemptBy(a, b, m, p).mover.king)
  {
  }

  /** An accepted move that is not a promotion moves the piece on its board. */
  lemma AcceptedMovesPiece(a: Pieces, b: Pieces, m: Move, p: Promotion)
    requires AttemptBy(a, b, m, p).Accepted?
    requires !(MapSquareToPiece(a, m.startSquare) == Pawn && Promotes(a, b, m))
    ensures BoardOf(AttemptBy(a, b, m, p).mover, MapSquareToPiece(a, m.startSquare)) ==
      Moved(BoardOf(a, MapSquareToPiece(a, m.startSquare)), m)
  {
    var t := MapSquareToPiece(a, m.startSquare);
    MapSquareToPieceNone(a, m.startSquare);
    MoverMovesPiece(a, t, b, m, p);
    AcceptedIsApplied(a, b, m, p);
    SamePiecesMeansSameBoards(AttemptBy(a, b, m, p).mover, Applied(a, b, m, p).mover);
  }

  /** An accepted capture removes the destination from the captured type's board. */
  lemma AcceptedCaptures(a: Pieces, b: Pieces, m: Move, p: Promotion)
    requires AttemptBy(a, b, m, p).Accepted? && Meets(Occupied(b), m.endSquare)
    ensures BoardOf(AttemptBy(a, b, m, p).other, MapSquareToPiece(b, m.endSquare)) ==
      Intersect(BoardOf(b, MapSquareToPiece(b, m.endSquare)), m.endSquare)
  {
    var bt := MapSquareToPiece(b, m.endSquare);
    MapSquareToPieceNone(b, m.endSquare);
    CaptureClearsDestination(a, MapSquareToPiece(a, m.startSquare), b, bt, m);
    AcceptedIsApplied(a, b, m, p);
    SamePiecesMeansSameBoards(AttemptBy(a, b, m, p).other, Applied(a, b, m, p).other);
  }

  /** An accepted move keeps both colours and never clears a castling flag; the other side's flags stay. */
  lemma AcceptedKeepsFlags(a: Pieces, b: Pieces, m: Move, p: Promotion)
    requires AttemptBy(a, b, m, p).Accepted?
    ensures AttemptBy(a, b, m, p).mover.color == a.color && AttemptBy(a, b, m, p).other.color == b.color
    ensures a.state.castle & !AttemptBy(a, b, m, p).mover.state.castle == 0
    ensures AttemptBy(a, b, m, p).other.state.castle == b.state.castle
  {
    var t := MapSquareToPiece(a, m.startSquare);
    var bt := MapSquareToPiece(b, m.endSquare);
    MoverKeepsIdentity(a, t, b, m, p);
    FlagsOnlyGrow(a, t, b, m, p);
    OtherKeepsState(a, t, b, bt, m);
    OtherKeepsIdentity(a, t, b, bt, m);
  }

  /**
   * BoardPieceCollision of UnitTest.cpp:358-372: on a board of zeros with
   * White's rooks on a1 and h1, the rook on a1 may not move to h1.
   */
  lemma CollisionRefused(p: Promotion)
    ensures Attempt(EmptySide(White).(rooks := a1 | h1), EmptySide(White), Move(a1, h1), WHITE_PIECE, p) ==
      Refused(NotGenerated)
  {
    var a := EmptySide(White).(rooks := a1 | h1);
    assert MapSquareToPiece(a, a1) == Rook;
    RookCollisionTest(a, EmptySide(White));
  }

  /**
   * The steps of BoardAttemptMove once the colour is known, on copies of the
   * two sides: find the moving type, ask the generator, apply the move,
   * look for check, and record the move. It returns the verdict and, for a
   * legal move, the two sides to write back.
   */
  method AttemptOn(a: Pieces, b: Pieces, m: Move, p: Promotion) returns (legal: bool, mover: Pieces, other: Pieces)
    ensures legal == AttemptBy(a, b, m, p).Accepted?
    ensures legal ==> AttemptBy(a, b, m, p) == Accepted(mover, other)
  {
    mover, other := a, b;
    var t := MapSquareToPiece(a, m.startSquare);
    if t == NoPiece {
      legal := false;
      return;
    }
    legal := CheckMoveIsLegalByPieceEx(a, b, t, m);
    if !legal {
      return;
    }
    var bt := MapSquareToPiece(b, m.endSquare);
    var after := CompleteMove(a, t, b, bt, m, p);
    var attacked := GetAttackSquares(after.other, after.mover);
    if Meets(after.mover.king, attacked) {
      legal := false;
      return;
    }
    mover := Record(after.mover, m, t);
    other := Record(after.other, NoMove, NoPiece);
  }

  // ---------------------------------------------------------------------
  // The board
  // ---------------------------------------------------------------------

  /** Board of Board.hpp:10-13. */
  class Board {
    var white: Pieces
    var black: Pieces

    /** A board of zeros, as `Board board = {0}` makes it: both sides empty, both of colour code 0. */
    constructor ()
      ensures white == EmptySide(White) && black == EmptySide(White)
    {
      white := EmptySide(White);
      black := EmptySide(White);
    }

    /** BoardInit: the position of a new game. */
    method Init()
      modifies this
      ensures white == StartSide(White) && black == StartSide(Black)
    {
      white := StartSide(White);
      black := StartSide(Black);
    }

    /** BoardZeroInit: no pieces, and every castling flag set on both sides. */
    method ZeroInit()
      modifies this
      ensures white == ClearedSide(White) && black == ClearedSide(Black)
    {
      white := ClearedSide(White);
      black := ClearedSide(Black);
    }

    /** BoardInitWithPieces (Board.cpp:63-75): A goes to the side its colour names, B to the other. */
    method InitWithPieces(a: Pieces, b: Pieces)
      modifies this
      ensures a.color == White ==> white == a && black == b
      ensures a.color != White ==> black == a && white == b
    {
      if a.color == White {
        white := a;
        black := b;
      } else {
        black := a;
        white := b;
      }
    }

    /** BoardCompare: both sides compare equal. */
    predicate Compare(other: Board)
      reads this, other
    {
      SamePieces(white, other.white) && SamePieces(black, other.black)
    }

    /** Two boards compare equal exactly when each side has the same six boards and castling flags as its counterpart. */
    lemma CompareMeansSameBoards(other: Board)
      ensures Compare(other) <==>
        (forall t: PieceType :: BoardOf(white, t) == BoardOf(other.white, t) && BoardOf(black, t) == BoardOf(other.black, t)) &&
        white.state.castle == other.white.state.castle && black.state.castle == other.black.state.castle
    {
      SamePiecesMeansSameBoards(white, other.white);
      SamePiecesMeansSameBoards(black, other.black);
    }

    /**
     * BoardAttemptMove with the promotion answer p. The result says whether
     * Attempt accepts the move; the board changes only when it does and
     * returnPosition is set, and then to Attempt's position.
     */
    method AttemptMove(m: Move, color: bv64, returnPosition: bool, p: Promotion) returns (legal: bool)
      modifies this
      ensures legal == Attempt(old(white), old(black), m, color, p).Accepted?
      ensures legal && returnPosition && color == WHITE_PIECE ==>
        white == Attempt(old(white), old(black), m, color, p).mover && black == Attempt(old(white), old(black), m, color, p).other
      ensures legal && returnPosition && color != WHITE_PIECE ==>
        black == Attempt(old(white), old(black), m, color, p).mover && white == Attempt(old(white), old(black), m, color, p).other
      ensures !(legal && returnPosition) ==> white == old(white) && black == old(black)
    {
      legal := false;
      if color != WHITE_PIECE && color != BLACK_PIECE {
        return;
      }
      var mover, other;
      legal, mover, other := AttemptOn(MoverOf(white, black, color), OtherOf(white, black, color), m, p);
      if legal && returnPosition {
        if color == WHITE_PIECE {
          white := mover;
          black := other;
        } else {
          black := mover;
          white := other;
        }
      }
    }
  }
}
