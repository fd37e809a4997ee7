/**
 * The checkmate search of Board.cpp:489-755. BoardPieceHasLegalMovesEx
 * tries, lowest square first, every destination of a set of legal moves for
 * one piece; BoardPieceTypeHasLegalMovesEx does so for every piece of one
 * type; BoardCheckmated asks it of every type, king first. Each function
 * answers true when no destination gets the king out of check.
 *
 * The destinations are scanned with BoardFindNextMoveEx and the pieces with
 * BoardFindNextPieceEx. Each search is specified by a predicate that
 * recurses on the square the scan has reached, exactly as the loop steps from
 * one square to the next. The loops over destinations and over pieces are
 * written as tail-recursive methods, one call per pass, each pass a method
 * of its own; the loop over the piece types is a while loop.
 *
 * As in the source, the destinations of one piece are applied one after
 * another to the same pair of copies: a destination that fails is not taken
 * back before the next one is tried.
 */
module Checkmate {
  import opened Foundation
  import opened PieceSets
  import opened BitScan
  import opened Attacks
  import opened Applier
  import opened Generators

  // ---------------------------------------------------------------------
  // BoardFindNextMoveEx and BoardFindNextPieceEx (Board.cpp:489-571)
  // ---------------------------------------------------------------------

  /** BoardFindNextMoveEx: the lowest legal square at or above start, and NO_SQUARE once start is NO_SQUARE. */
  function FindNextMove(legal: bv64, start: bv64): (r: bv64)
    ensures SquareOrZero(r)
    ensures start == NO_SQUARE ==> r == NO_SQUARE
    ensures r != NO_SQUARE ==> Meets(legal, r)
  {
    if start == NO_SQUARE then NO_SQUARE else LeastSigBit(!(start - 1) & legal)
  }

  /** BoardFindNextPieceEx: the same scan over the board of type t, written with the mask on the other side; NONE has an empty board. */
  function FindNextPiece(a: Pieces, t: PieceType, start: bv64): (r: bv64)
    ensures r == FindNextMove(BoardOf(a, t), start)
  {
    if start == NO_SQUARE then NO_SQUARE else LeastSigBit(BoardOf(a, t) & !(start - 1))
  }

  /**
   * What BoardFindNextMoveEx promises for a square start: NO_SQUARE exactly
   * when no legal square lies at or above start; otherwise a legal square at
   * or above start, with no legal square from start up to it.
   */
  lemma FindNextMoveMeans(legal: bv64, start: bv64)
    requires IsSquare(start)
    ensures FindNextMove(legal, start) == NO_SQUARE ==> legal & !(start - 1) == 0
    ensures legal & !(start - 1) == 0 ==> FindNextMove(legal, start) == NO_SQUARE
    ensures FindNextMove(legal, start) != NO_SQUARE ==>
      NoneBelow(FindNextMove(legal, start), start) &&
      NoneBelow(legal & !(start - 1), FindNextMove(legal, start))
  {
    var r := FindNextMove(legal, start);
    if r != NO_SQUARE {
      AtOrAbove(legal & !(start - 1), start, r);
    }
  }

  /** A single square that meets the squares at or above start lies at or above start. */
  lemma AtOrAbove(x: bv64, start: bv64, r: bv64)
    requires IsSquare(start) && IsSquare(r) && Meets(r, x) && x & (start - 1) == 0
    ensures NoneBelow(r, start)
  {
  }

  /**
   * The shift `end <<= 1` and the scan after it reach a square strictly above
   * end, or NO_SQUARE: the set of squares at or above the scan's position
   * shrinks, so the loops stop.
   */
  lemma ScanAdvances(legal: bv64, s: bv64)
    requires IsSquare(s)
    ensures !(FindNextMove(legal, Next(s)) - 1) < !(s - 1)
  {
    var n := FindNextMove(legal, Next(s));
    if n != NO_SQUARE {
      var above := Next(s);
      assert IsSquare(above) by {
        ShiftedSquare(s);
      }
      AtOrAbove(!(above - 1) & legal, above, n);
      Beyond(s, n);
    }
  }

  /** The square above a square other than h8 is a square. */
  lemma ShiftedSquare(s: bv64)
    requires IsSquare(s) && Next(s) != NO_SQUARE
    ensures IsSquare(Next(s))
  {
  }

  /** A square at or above the square above s has a smaller set of squares at or above it. */
  lemma Beyond(s: bv64, n: bv64)
    requires IsSquare(s) && IsSquare(n) && IsSquare(Next(s)) && NoneBelow(n, Next(s))
    ensures !(n - 1) < !(s - 1)
  {
  }

  // ---------------------------------------------------------------------
  // BoardPieceHasLegalMovesEx (Board.cpp:620-664)
  // ---------------------------------------------------------------------

  /** The move to s, capturing whatever A has on s, applied to the copies mover and other. */
  function TryAt(a: Pieces, from: bv64, t: PieceType, p: Promotion, mover: Pieces, other: Pieces, s: bv64): Sides
  {
    CompleteMove(mover, t, other, MapSquareToPiece(a, s), Move(from, s), p)
  }

  /**
   * The answer of BoardPieceHasLegalMovesEx once the copies have become
   * mover and other and the scan has reached s: true when s is NO_SQUARE,
   * and otherwise the answer of the try at s.
   */
  predicate NoEscapeAt(a: Pieces, legal: bv64, from: bv64, t: PieceType, p: Promotion, mover: Pieces, other: Pieces, s: bv64)
    requires SquareOrZero(s)
    decreases !(s - 1), 1
  {
    s == NO_SQUARE || NoEscapeTrying(a, legal, from, t, p, mover, other, s)
  }

  /**
   * The try at the square s: the move to s, applied on top of the copies,
   * leaves the mover's king attacked, and the search from the next legal
   * square above s, on the copies that move produced, answers true as well.
   */
  predicate NoEscapeTrying(a: Pieces, legal: bv64, from: bv64, t: PieceType, p: Promotion, mover: Pieces, other: Pieces, s: bv64)
    requires IsSquare(s)
    decreases !(s - 1), 0
  {
    var after := TryAt(a, from, t, p, mover, other, s);
    ScanAdvances(legal, s);
    InCheck(after.mover, after.other) &&
    NoEscapeAt(a, legal, from, t, p, after.mover, after.other, FindNextMove(legal, Next(s)))
  }

  /** The answer of BoardPieceHasLegalMovesEx(A, B, legal, from, t): the scan starts on a1 with copies of B and A. */
  predicate NoEscapeByPiece(a: Pieces, b: Pieces, legal: bv64, from: bv64, t: PieceType, p: Promotion)
  {
    NoEscapeAt(a, legal, from, t, p, b, a, FindNextMove(legal, a1))
  }

  /** A try at s that leaves the king unattacked answers the search at s: an escape. */
  lemma TryEscapes(a: Pieces, legal: bv64, from: bv64, t: PieceType, p: Promotion, mover: Pieces, other: Pieces, s: bv64, after: Sides)
    requires IsSquare(s) && after == TryAt(a, from, t, p, mover, other, s) && !InCheck(after.mover, after.other)
    ensures !NoEscapeAt(a, legal, from, t, p, mover, other, s)
  {
  }

  /** No escape at s means no escape in the search from the next legal square above s, on the copies after the try. */
  lemma TryGoesOn(a: Pieces, legal: bv64, from: bv64, t: PieceType, p: Promotion, mover: Pieces, other: Pieces, s: bv64, after: Sides)
    requires IsSquare(s) && after == TryAt(a, from, t, p, mover, other, s)
    ensures NoEscapeAt(a, legal, from, t, p, mover, other, s) ==> NoEscapeAt(a, legal, from, t, p, after.mover, after.other, FindNextMove(legal, Next(s)))
  {
    TryingAt(a, legal, from, t, p, mover, other, s);
  }

  lemma TryingAt(a: Pieces, legal: bv64, from: bv64, t: PieceType, p: Promotion, mover: Pieces, other: Pieces, s: bv64)
    requires IsSquare(s)
    ensures NoEscapeAt(a, legal, from, t, p, mover, other, s) ==> NoEscapeTrying(a, legal, from, t, p, mover, other, s)
  {
  }

  /** A try at s that leaves the king attacked, followed by no escape further on, is no escape at s. */
  lemma TryFailed(a: Pieces, legal: bv64, from: bv64, t: PieceType, p: Promotion, mover: Pieces, other: Pieces, s: bv64, after: Sides)
    requires IsSquare(s) && after == TryAt(a, from, t, p, mover, other, s) && InCheck(after.mover, after.other)
    ensures NoEscapeAt(a, legal, from, t, p, after.mover, after.other, FindNextMove(legal, Next(s))) ==> NoEscapeAt(a, legal, from, t, p, mover, other, s)
  {
  }

  /**
   * One pass of the loop of BoardPieceHasLegalMovesEx: the move to end,
   * capturing what A has there, applied to the copies. Escaped when it left
   * the mover's king unattacked, which answers the search at end; otherwise
   * the search at end is the search at the next legal square above end on
   * the copies after.
   */
  method TryDestination(a: Pieces, legal: bv64, from: bv64, t: PieceType, p: Promotion, moving: Pieces, nonMoving: Pieces, end: bv64)
    returns (escaped: bool, after: Sides)
    requires IsSquare(end)
    ensures escaped ==> !NoEscapeAt(a, legal, from, t, p, moving, nonMoving, end)
    ensures !escaped ==> (NoEscapeAt(a, legal, from, t, p, moving, nonMoving, end) ==>
      NoEscapeAt(a, legal, from, t, p, after.mover, after.other, FindNextMove(legal, Next(end))))
    ensures !escaped ==> (NoEscapeAt(a, legal, from, t, p, after.mover, after.other, FindNextMove(legal, Next(end))) ==>
      NoEscapeAt(a, legal, from, t, p, moving, nonMoving, end))
  {
    var bt := MapSquareToPiece(a, end);
    after := CompleteMove(moving, t, nonMoving, bt, Move(from, end), p);
    var check := IsKingInCheck(after.mover, after.other);
    escaped := !check;
    if escaped {
      TryEscapes(a, legal, from, t, p, moving, nonMoving, end, after);
    } else {
      TryGoesOn(a, legal, from, t, p, moving, nonMoving, end, after);
      TryFailed(a, legal, from, t, p, moving, nonMoving, end, after);
    }
  }

  /**
   * The loop of BoardPieceHasLegalMovesEx from the destination end on, with
   * the copies moving and nonMoving: one call per pass, the next pass being
   * the call on the copies after the move and the next legal square above end.
   */
  method SearchFrom(a: Pieces, legal: bv64, from: bv64, t: PieceType, p: Promotion, moving: Pieces, nonMoving: Pieces, end: bv64)
    returns (checkmated: bool)
    requires SquareOrZero(end)
    ensures checkmated == NoEscapeAt(a, legal, from, t, p, moving, nonMoving, end)
    decreases !(end - 1)
  {
    if end == NO_SQUARE {
      return true;
    }
    var escaped, after := TryDestination(a, legal, from, t, p, moving, nonMoving, end);
    if escaped {
      return false;
    }
    ScanAdvances(legal, end);
    checkmated := SearchFrom(a, legal, from, t, p, after.mover, after.other, FindNextMove(legal, Next(end)));
  }

  /** BoardPieceHasLegalMovesEx: true when none of the destinations in legal takes B's king out of check. */
  method PieceHasLegalMovesEx(a: Pieces, b: Pieces, legal: bv64, from: bv64, t: PieceType, p: Promotion)
    returns (checkmated: bool)
    ensures checkmated == NoEscapeByPiece(a, b, legal, from, t, p)
  {
    checkmated := SearchFrom(a, legal, from, t, p, b, a, FindNextMove(legal, a1));
  }

  // ---------------------------------------------------------------------
  // BoardPieceTypeHasLegalMovesEx (Board.cpp:680-714)
  // ---------------------------------------------------------------------

  /**
   * The answer of the piece loop of BoardPieceTypeHasLegalMovesEx once it
   * has reached the piece of type t on loc: true when loc is NO_SQUARE, and
   * otherwise when that piece, tried with all of the type's moves legal, has
   * no escape and neither have the pieces of type t above it.
   */
  predicate NoEscapeFromPiece(a: Pieces, b: Pieces, t: PieceType, p: Promotion, legal: bv64, loc: bv64)
    requires SquareOrZero(loc)
    decreases !(loc - 1)
  {
    loc == NO_SQUARE ||
      (ScanAdvances(BoardOf(b, t), loc);
       NoEscapeByPiece(a, b, legal, loc, t, p) && NoEscapeFromPiece(a, b, t, p, legal, FindNextPiece(b, t, Next(loc))))
  }

  /**
   * The answer of BoardPieceTypeHasLegalMovesEx(A, B, t): true when the
   * moves of B's pieces of type t, taken together, are none, and otherwise
   * the answer of the piece loop from B's lowest piece of type t.
   */
  predicate NoEscapeByType(a: Pieces, b: Pieces, t: PieceType, p: Promotion)
    requires t != NoPiece
  {
    var legal := PieceMoves(t, b, a);
    legal == 0 || NoEscapeFromPiece(a, b, t, p, legal, FindNextPiece(b, t, a1))
  }

  /** A piece with an escape answers the piece loop at its square. */
  lemma PieceEscapes(a: Pieces, b: Pieces, t: PieceType, p: Promotion, legal: bv64, loc: bv64)
    requires IsSquare(loc) && !NoEscapeByPiece(a, b, legal, loc, t, p)
    ensures !NoEscapeFromPiece(a, b, t, p, legal, loc)
  {
  }

  /** A piece without an escape hands the piece loop on to the next piece of type t above it. */
  lemma PieceGoesOn(a: Pieces, b: Pieces, t: PieceType, p: Promotion, legal: bv64, loc: bv64)
    requires IsSquare(loc) && NoEscapeByPiece(a, b, legal, loc, t, p)
    ensures NoEscapeFromPiece(a, b, t, p, legal, loc) == NoEscapeFromPiece(a, b, t, p, legal, FindNextPiece(b, t, Next(loc)))
  {
  }

  /**
   * One pass of the piece loop of BoardPieceTypeHasLegalMovesEx: the piece
   * on loc, tried with the legal moves; escaped when one of them took B's
   * king out of check, and otherwise the next piece of type t above it.
   */
  method TryPiece(a: Pieces, b: Pieces, t: PieceType, p: Promotion, legal: bv64, loc: bv64)
    returns (escaped: bool, next: bv64)
    requires IsSquare(loc)
    ensures SquareOrZero(next) && !(next - 1) < !(loc - 1)
    ensures escaped ==> !NoEscapeFromPiece(a, b, t, p, legal, loc)
    ensures !escaped ==> NoEscapeFromPiece(a, b, t, p, legal, loc) == NoEscapeFromPiece(a, b, t, p, legal, next)
  {
    var checkmated := PieceHasLegalMovesEx(a, b, legal, loc, t, p);
    escaped := !checkmated;
    ScanAdvances(BoardOf(b, t), loc);
    next := FindNextPiece(b, t, Next(loc));
    if escaped {
      PieceEscapes(a, b, t, p, legal, loc);
    } else {
      PieceGoesOn(a, b, t, p, legal, loc);
    }
  }

  /**
   * The piece loop of BoardPieceTypeHasLegalMovesEx from the piece on loc
   * on, one call per pass.
   */
  method SearchPieces(a: Pieces, b: Pieces, t: PieceType, p: Promotion, legal: bv64, loc: bv64)
    returns (checkmated: bool)
    requires SquareOrZero(loc)
    ensures checkmated == NoEscapeFromPiece(a, b, t, p, legal, loc)
    decreases !(loc - 1)
  {
    if loc == NO_SQUARE {
      return true;
    }
    var escaped, next := TryPiece(a, b, t, p, legal, loc);
    if escaped {
      return false;
    }
    checkmated := SearchPieces(a, b, t, p, legal, next);
  }

  /**
   * The moves BoardGetPieceMoveCallbackEx's callback gives for B's pieces of
   * type t, and what they make of the answer of the piece type: true when
   * there are none, and otherwise the answer of the piece loop.
   */
  method TypeMoves(a: Pieces, b: Pieces, t: PieceType, p: Promotion) returns (legal: bv64)
    requires t != NoPiece
    ensures legal == 0 ==> NoEscapeByType(a, b, t, p)
    ensures legal != 0 ==> NoEscapeByType(a, b, t, p) == NoEscapeFromPiece(a, b, t, p, legal, FindNextPiece(b, t, a1))
  {
    legal := PieceMovesOf(t, b, a);
  }

  /**
   * BoardPieceTypeHasLegalMovesEx: true when no piece of B of type t, tried
   * with every move of the type, takes B's king out of check. NONE has no
   * move callback, so the type is one of the six.
   */
  method PieceTypeHasLegalMovesEx(a: Pieces, b: Pieces, t: PieceType, p: Promotion) returns (checkmated: bool)
    requires t != NoPiece
    ensures checkmated == NoEscapeByType(a, b, t, p)
  {
    var loc := FindNextPiece(b, t, a1);
    var legal := TypeMoves(a, b, t, p);
    if legal == 0 {
      return true;
    }
    checkmated := SearchPieces(a, b, t, p, legal, loc);
  }

  // ---------------------------------------------------------------------
  // BoardCheckmated (Board.cpp:728-755)
  // ---------------------------------------------------------------------

  /** The piece type of value n of Pieces.hpp:13-21, NONE = 0 up to KING = 6. */
  function TypeOf(n: nat): (t: PieceType)
    requires n <= 6
    ensures (t == NoPiece) == (n == 0)
  {
    [NoPiece, Pawn, Knight, Bishop, Rook, Queen, King][n]
  }

  /** No type of piece of B from the value n down to PAWN gives B an escape. */
  predicate NoEscapeDownFrom(a: Pieces, b: Pieces, p: Promotion, n: nat)
    requires n <= 6
  {
    n == 0 || (NoEscapeByType(a, b, TypeOf(n), p) && NoEscapeDownFrom(a, b, p, n - 1))
  }

  /** The countdown from n asks the type of every value k from 1 to n. */
  lemma {:induction false} DownFromAsks(a: Pieces, b: Pieces, p: Promotion, n: nat, k: nat)
    requires 1 <= k <= n <= 6 && NoEscapeDownFrom(a, b, p, n)
    ensures NoEscapeByType(a, b, TypeOf(k), p)
  {
    if k < n {
      DownFromAsks(a, b, p, n - 1, k);
    }
  }

  /** The countdown from n answers true once every type with a value from 1 to n has no escape. */
  lemma {:induction false} DownFromAll(a: Pieces, b: Pieces, p: Promotion, n: nat)
    requires n <= 6 && forall k :: 1 <= k <= n ==> NoEscapeByType(a, b, TypeOf(k), p)
    ensures NoEscapeDownFrom(a, b, p, n)
  {
    if n > 0 {
      DownFromAll(a, b, p, n - 1);
    }
  }

  /** No type of piece of B, KING down to PAWN, gives B an escape. */
  predicate NoEscapeByAnyType(a: Pieces, b: Pieces, p: Promotion)
  {
    NoEscapeDownFrom(a, b, p, 6)
  }

  /** What BoardCheckmated answers: B is in check, and no type of piece gives it an escape. */
  predicate IsCheckmated(a: Pieces, b: Pieces, p: Promotion)
  {
    InCheck(b, a) && NoEscapeByAnyType(a, b, p)
  }

  /** The value of a piece type in Pieces.hpp:13-21, the inverse of TypeOf. */
  function ValueOf(t: PieceType): (n: nat)
    ensures n <= 6 && TypeOf(n) == t
  {
    match t
    case NoPiece => 0
    case Pawn => 1
    case Knight => 2
    case Bishop => 3
    case Rook => 4
    case Queen => 5
    case King => 6
  }

  /** A checkmated side is in check, and no piece of any type gets it out. */
  lemma MatedFailsEveryType(a: Pieces, b: Pieces, p: Promotion, t: PieceType)
    requires IsCheckmated(a, b, p) && t != NoPiece
    ensures InCheck(b, a) && NoEscapeByType(a, b, t, p)
  {
    DownFromAsks(a, b, p, 6, ValueOf(t));
  }

  /** A side in check is checkmated once no type of its pieces gets it out. */
  lemma EveryTypeFailsMated(a: Pieces, b: Pieces, p: Promotion)
    requires InCheck(b, a) && forall t: PieceType :: t != NoPiece ==> NoEscapeByType(a, b, t, p)
    ensures IsCheckmated(a, b, p)
  {
    forall k | 1 <= k <= 6
      ensures NoEscapeByType(a, b, TypeOf(k), p)
    {
      assert TypeOf(k) != NoPiece;
    }
    DownFromAll(a, b, p, 6);
  }

  /** The loop of BoardCheckmated over the piece types, from KING down to PAWN. */
  method SearchTypes(a: Pieces, b: Pieces, p: Promotion) returns (checkmated: bool)
    ensures checkmated == NoEscapeByAnyType(a, b, p)
  {
    var n: nat := 6;
    while n > 0
      invariant n <= 6
      invariant NoEscapeDownFrom(a, b, p, n) == NoEscapeByAnyType(a, b, p)
    {
      checkmated := PieceTypeHasLegalMovesEx(a, b, TypeOf(n), p);
      if !checkmated {
        return;
      }
      n := n - 1;
    }
    return true;
  }

  /** BoardCheckmated: B is in check and no move of any of its pieces gets it out. */
  method Checkmated(a: Pieces, b: Pieces, p: Promotion) returns (checkmated: bool)
    ensures checkmated == IsCheckmated(a, b, p)
  {
    var check := IsKingInCheck(b, a);
    if !check {
      return false;
    }
    checkmated := SearchTypes(a, b, p);
  }
}
