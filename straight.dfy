/**
 * The rank and file moves of PiecesRookMoveEx (Pieces.cpp:521-600), which
 * PiecesQueenMoveEx repeats after its diagonal loops (Pieces.cpp:749-811).
 * No loop walks the rank or the file: the code picks a blocker on each side
 * with MostSigBit, LeastSigBit, minz and max and fills the squares before it
 * by subtracting one from a single bit.
 *
 * On the rank the code picks, for each side's squares separately, the one
 * FARTHEST from the piece in each direction (MostSigBit of the squares east
 * of it, LeastSigBit of those west of it), and then keeps the nearer of the
 * two sides' picks (minz east, max west). On the file it picks the NEAREST
 * square of each side (LeastSigBit north, MostSigBit south). A nearer piece
 * of either side on the rank is therefore passed over, and the piece taken is
 * the opponent's farthest on that side; the functions here follow the code as
 * written.
 */
module Straight {
  import opened Foundation
  import opened BitScan
  import opened PieceSets

  /** lmask: the squares below the piece. */
  function Below(piece: bv64): bv64
  {
    piece - 1
  }

  /** umask: the squares above the piece. */
  function Above(piece: bv64): bv64
  {
    !(piece - 1) << 1
  }

  /** A chosen blocker, moved one square up when it belongs to side. */
  function Past(blocker: bv64, side: bv64): bv64
  {
    if Meets(blocker, side) then blocker << 1 else blocker
  }

  /** msb - 1, except that 0 stays 0 (the guard of Pieces.cpp:574). */
  function Fill(msb: bv64): bv64
  {
    if msb != 0 then msb - 1 else msb
  }

  /** The squares of x on the line. */
  function Within(x: bv64, line: bv64): bv64
  {
    x & line
  }

  /** The squares of line strictly below the upper blocker lsb and at or above the lower blocker msb, each moved past when it may be taken. */
  function Between(line: bv64, own: bv64, opp: bv64, lsb: bv64, msb: bv64): bv64
  {
    Within(Intersect(Below(Past(lsb, opp)), Fill(Past(msb, own))), line)
  }

  /**
   * The horizontal moves of Pieces.cpp:548-576 in the rank rank, with own
   * and opp the two sides' squares already cut down to the piece's rank and file.
   */
  function RankMoves(piece: bv64, rank: bv64, own: bv64, opp: bv64): bv64
  {
    Between(rank, own, opp,
      Minz(HighestBit(own & Above(piece) & rank), HighestBit(opp & Above(piece) & rank)),
      Max(LeastSigBit(own & Below(piece) & rank), LeastSigBit(opp & Below(piece) & rank)))
  }

  /** The vertical moves of Pieces.cpp:580-596 in the file file. */
  function FileMoves(piece: bv64, file: bv64, own: bv64, opp: bv64): bv64
  {
    Between(file, own, opp,
      Minz(LeastSigBit(own & Above(piece) & file), LeastSigBit(opp & Above(piece) & file)),
      Max(HighestBit(own & Below(piece) & file), HighestBit(opp & Below(piece) & file)))
  }

  /** The rank and file moves of the piece board piece on the rank mask rank and the file mask file. */
  function StraightAt(piece: bv64, rank: bv64, file: bv64, own: bv64, opp: bv64): bv64
  {
    var own' := Within(own, Join(rank, file));
    var opp' := Within(opp, Join(rank, file));
    Intersect(Join(RankMoves(piece, rank, own', opp'), FileMoves(piece, file, own', opp')), piece)
  }

  /**
   * The rank and file moves of the piece board piece, with own the mover's
   * squares and opp the opponent's; piece must not be empty, since an empty
   * board makes RowIndex report 8 and Rank[8] lies outside the table.
   */
  function StraightMoves(piece: bv64, own: bv64, opp: bv64): bv64
    requires piece != 0
  {
    StraightAt(piece, Rank[RowOf(piece)], File[ColOf(piece)], own, opp)
  }

  /** MostSigBit, whose result HighestBitUnique identifies as HighestBit. */
  method HighestOf(value: bv64) returns (msb: bv64)
    ensures msb == HighestBit(value)
  {
    msb := MostSigBit(value);
    if value != 0 {
      HighestBitUnique(value, msb);
    }
  }

  /** The guarded shift `if (blocker & side) blocker <<= 1`. */
  method PastOf(blocker: bv64, side: bv64) returns (r: bv64)
    ensures r == Past(blocker, side)
  {
    r := blocker;
    if Meets(blocker, side) {
      r := blocker << 1;
    }
  }

  /** The two blocker steps shared by the horizontal and the vertical part. */
  method BetweenOf(line: bv64, own: bv64, opp: bv64, lsb0: bv64, msb0: bv64) returns (moves: bv64)
    ensures moves == Between(line, own, opp, lsb0, msb0)
  {
    var lsb := PastOf(lsb0, opp);
    moves := Below(lsb);
    var msb := PastOf(msb0, own);
    msb := Fill(msb);
    moves := Within(Intersect(moves, msb), line);
  }

  /** The horizontal part of Pieces.cpp:548-576. */
  method RankMovesOf(piece: bv64, rank: bv64, own: bv64, opp: bv64) returns (horizontal: bv64)
    ensures horizontal == RankMoves(piece, rank, own, opp)
  {
    var eastOwn := HighestOf(own & Above(piece) & rank);
    var eastOpp := HighestOf(opp & Above(piece) & rank);
    var lsb := Minz(eastOwn, eastOpp);
    var msb := Max(LeastSigBit(own & Below(piece) & rank), LeastSigBit(opp & Below(piece) & rank));
    horizontal := BetweenOf(rank, own, opp, lsb, msb);
  }

  /** The vertical part of Pieces.cpp:580-596. */
  method FileMovesOf(piece: bv64, file: bv64, own: bv64, opp: bv64) returns (vertical: bv64)
    ensures vertical == FileMoves(piece, file, own, opp)
  {
    var lsb := Minz(LeastSigBit(own & Above(piece) & file), LeastSigBit(opp & Above(piece) & file));
    var southOwn := HighestOf(own & Below(piece) & file);
    var southOpp := HighestOf(opp & Below(piece) & file);
    var msb := Max(southOwn, southOpp);
    vertical := BetweenOf(file, own, opp, lsb, msb);
  }

  /** The body of PiecesRookMoveEx once the rank and file masks are looked up. */
  method StraightAtOf(piece: bv64, rank: bv64, file: bv64, own: bv64, opp: bv64) returns (moves: bv64)
    ensures moves == StraightAt(piece, rank, file, own, opp)
  {
    var own' := Within(own, Join(rank, file));
    var opp' := Within(opp, Join(rank, file));
    var horizontal := RankMovesOf(piece, rank, own', opp');
    var vertical := FileMovesOf(piece, file, own', opp');
    moves := Intersect(Join(horizontal, vertical), piece);
  }

  /** The rank and file part of PiecesRookMoveEx and PiecesQueenMoveEx for the piece board piece. */
  method StraightMovesOf(piece: bv64, own: bv64, opp: bv64) returns (moves: bv64)
    requires piece != 0
    ensures moves == StraightMoves(piece, own, opp)
  {
    var row := RowIndex(piece);
    var col := ColIndex(piece);
    moves := StraightAtOf(piece, Rank[row], File[col], own, opp);
  }

  /**
   * PiecesRookMoveEx (Pieces.cpp:521-600) for A's single rook, blocked by
   * Union(A) and Union(B). An empty rook board is outside its domain (Rank[8]).
   */
  method RookMoveEx(a: Pieces, b: Pieces) returns (moves: bv64)
    requires a.rooks != 0
    ensures moves == StraightMoves(a.rooks, Union(a), Union(b))
    ensures !Meets(moves, a.rooks)
  {
    moves := StraightMovesOf(a.rooks, Union(a), Union(b));
    StraightAvoidsPiece(a.rooks, Union(a), Union(b));
  }

  /** The last step of Pieces.cpp:598 removes the piece's own square. */
  lemma StraightAtAvoidsPiece(piece: bv64, rank: bv64, file: bv64, own: bv64, opp: bv64)
    ensures !Meets(StraightAt(piece, rank, file, own, opp), piece)
  {
    var own', opp' := Within(own, Join(rank, file)), Within(opp, Join(rank, file));
    RemovedAvoids(Join(RankMoves(piece, rank, own', opp'), FileMoves(piece, file, own', opp')), piece);
  }

  /** The piece's own square is never among its rank and file moves. */
  lemma StraightAvoidsPiece(piece: bv64, own: bv64, opp: bv64)
    requires piece != 0
    ensures !Meets(StraightMoves(piece, own, opp), piece)
  {
    StraightAtAvoidsPiece(piece, Rank[RowOf(piece)], File[ColOf(piece)], own, opp);
  }

  /** RookMovement of UnitTest.cpp:129-139: a lone rook on d4. */
  lemma RookAloneOnD4()
    ensures StraightMoves(d4, d4, 0) == 0x8080808F7080808
  {
    SquareRowCol(27);
  }

  /** RookCapture of UnitTest.cpp:141-154: a rook on d4 between own pawns on d1, d6, h4, b4 and enemy ones on d2, d7, g4, a4. */
  lemma RookCapturesOnD4()
    ensures StraightMoves(d4, d4 | d1 | d6 | h4 | b4, d2 | d7 | g4 | a4) == 0x874080800
  {
    SquareRowCol(27);
  }

  /** The two rooks of RookMultipleRooks, on a1 and h1, each blocked by the other. */
  lemma RooksOnRankOne()
    ensures StraightMoves(a1, a1 | h1, 0) == 0x010101010101017E
    ensures StraightMoves(h1, a1 | h1, 0) == 0x808080808080807E
  {
    SquareRowCol(0);
    SquareRowCol(7);
  }

  /**
   * RookHorizontalAttack of UnitTest.cpp:192-204 as the code computes it: a
   * rook on f7 with its own pawns on d7, c7 and b7 passes over d7 and c7 and
   * stops only before b7, the farthest of them. The unit test expects
   * 0x20D0202020202020, without c7 and d7.
   */
  lemma RookHorizontalAsWritten()
    ensures StraightMoves(f7, f7 | d7 | c7 | b7, 0) == 0x20DC202020202020
  {
    SquareRowCol(53);
  }

  /**
   * The nearer of the two sides' picks wins: a rook on a1 with its own
   * pieces on b1 and h1 and an opponent's piece on e1 picks h1 among its own
   * and e1 among the opponent's, keeps e1 and takes it. Its own piece on b1
   * is passed over: the rook reaches b1 .. e1 and its whole file.
   */
  lemma RankNearerSideWins()
    ensures StraightMoves(a1, a1 | b1 | h1, e1) == 0x010101010101011E
  {
    SquareRowCol(0);
  }

  /**
   * The rooks of the starting position as the code computes them: on a1
   * and h1, with their own pieces on ranks 1 and 2 and the opponent's on
   * ranks 7 and 8, each rook passes over the pieces between them and
   * reaches b1 .. g1.
   */
  lemma StartingCornersAsWritten()
    ensures StraightMoves(a1, RANK_1 | RANK_2, RANK_7 | RANK_8) == 0x7E
    ensures StraightMoves(h1, RANK_1 | RANK_2, RANK_7 | RANK_8) == 0x7E
  {
    SquareRowCol(0);
    SquareRowCol(7);
  }

  /** With no other piece on its rank, the piece reaches the whole rank. */
  lemma RankMovesOpen(piece: bv64, rank: bv64, own: bv64, opp: bv64)
    requires own & Above(piece) & rank == 0 && opp & Above(piece) & rank == 0
    requires own & Below(piece) & rank == 0 && opp & Below(piece) & rank == 0
    ensures RankMoves(piece, rank, own, opp) == rank
  {
  }

  /** With no other piece on its file, the piece reaches the whole file. */
  lemma FileMovesOpen(piece: bv64, file: bv64, own: bv64, opp: bv64)
    requires own & Above(piece) & file == 0 && opp & Above(piece) & file == 0
    requires own & Below(piece) & file == 0 && opp & Below(piece) & file == 0
    ensures FileMoves(piece, file, own, opp) == file
  {
  }

  /** A single square lies neither above nor below itself. */
  lemma SquareNotAboveOrBelow(piece: bv64)
    requires IsSquare(piece)
    ensures piece & Above(piece) == 0 && piece & Below(piece) == 0
  {
  }

  /** A lone piece on an otherwise empty board reaches every other square of its rank and its file. */
  lemma StraightAtAlone(piece: bv64, rank: bv64, file: bv64)
    requires IsSquare(piece)
    ensures StraightAt(piece, rank, file, piece, 0) == Intersect(rank | file, piece)
  {
    AloneRankOpen(piece, rank, file);
    AloneFileOpen(piece, rank, file);
  }

  /** Alone on the board, the piece reaches its whole rank. */
  lemma AloneRankOpen(piece: bv64, rank: bv64, file: bv64)
    requires IsSquare(piece)
    ensures RankMoves(piece, rank, Within(piece, Join(rank, file)), Within(0, Join(rank, file))) == rank
  {
    var line := Join(rank, file);
    SquareNotAboveOrBelow(piece);
    assert Within(0, line) == 0;
    InsideAvoids(piece, line, Above(piece), rank);
    InsideAvoids(piece, line, Below(piece), rank);
    RankMovesOpen(piece, rank, Within(piece, line), Within(0, line));
  }

  /** Alone on the board, the piece reaches its whole file. */
  lemma AloneFileOpen(piece: bv64, rank: bv64, file: bv64)
    requires IsSquare(piece)
    ensures FileMoves(piece, file, Within(piece, Join(rank, file)), Within(0, Join(rank, file))) == file
  {
    var line := Join(rank, file);
    SquareNotAboveOrBelow(piece);
    assert Within(0, line) == 0;
    InsideAvoids(piece, line, Above(piece), file);
    InsideAvoids(piece, line, Below(piece), file);
    FileMovesOpen(piece, file, Within(piece, line), Within(0, line));
  }

  /** The part on a line of a board that avoids m still avoids m on every other line. */
  lemma InsideAvoids(x: bv64, line: bv64, m: bv64, r: bv64)
    requires x & m == 0
    ensures Within(x, line) & m & r == 0
  {
  }

  // ---------------------------------------------------------------------
  // What blocks the rank and file moves, on every board
  // ---------------------------------------------------------------------

  /** A square not below the square b has nothing below b. */
  lemma NotBelowPick(a: bv64, b: bv64)
    requires IsSquare(a) && IsSquare(b) && !(a < b)
    ensures NoneBelow(a, b)
  {
  }

  /** A square above the square a has nothing below a. */
  lemma AbovePick(a: bv64, b: bv64)
    requires IsSquare(a) && IsSquare(b) && a < b
    ensures NoneBelow(b, a)
  {
  }

  /** Nothing below a, and a not below b: nothing below b. */
  lemma NoneBelowOfLower(x: bv64, a: bv64, b: bv64)
    requires IsSquare(a) && IsSquare(b) && NoneBelow(x, a) && NoneBelow(a, b)
    ensures NoneBelow(x, b)
  {
  }

  /** A square not above the square b has nothing above b. */
  lemma NotAbovePick(a: bv64, b: bv64)
    requires IsSquare(a) && IsSquare(b) && !(a > b)
    ensures NoneAbove(a, b)
  {
  }

  /** A square below the square a has nothing above a. */
  lemma BelowPick(a: bv64, b: bv64)
    requires IsSquare(a) && IsSquare(b) && a > b
    ensures NoneAbove(b, a)
  {
  }

  /** Nothing above a, and a not above b: nothing above b. */
  lemma NoneAboveOfHigher(x: bv64, a: bv64, b: bv64)
    requires IsSquare(a) && IsSquare(b) && NoneAbove(x, a) && NoneAbove(a, b)
    ensures NoneAbove(x, b)
  {
  }

  /** The first branch of minz: y is below z, so whatever has nothing below z has nothing below y. */
  lemma MinzFirstNoneBelow(y: bv64, z: bv64, x: bv64)
    requires IsSquare(y) && SquareOrZero(z) && y < z
    requires NoneBelow(x, y) || (z != 0 && NoneBelow(x, z))
    ensures NoneBelow(x, y)
  {
    if !NoneBelow(x, y) {
      AbovePick(y, z);
      NoneBelowOfLower(x, z, y);
    }
  }

  /** The second branch of minz: y is not below z, so whatever has nothing below y has nothing below z. */
  lemma MinzSecondNoneBelow(y: bv64, z: bv64, x: bv64)
    requires SquareOrZero(y) && IsSquare(z) && !(y < z && y != 0)
    requires (y != 0 && NoneBelow(x, y)) || NoneBelow(x, z)
    ensures NoneBelow(x, z)
  {
    if !NoneBelow(x, z) {
      NotBelowPick(y, z);
      NoneBelowOfLower(x, y, z);
    }
  }

  lemma MaxFirstNoneAbove(y: bv64, z: bv64, x: bv64)
    requires SquareOrZero(y) && SquareOrZero(z) && y > z
    requires (y != 0 && NoneAbove(x, y)) || (z != 0 && NoneAbove(x, z))
    ensures IsSquare(y) && NoneAbove(x, y)
  {
    if !(y != 0 && NoneAbove(x, y)) {
      BelowPick(y, z);
      NoneAboveOfHigher(x, z, y);
    }
  }

  /** The second branch of max: y is not above z, so whatever has nothing above y has nothing above z. */
  lemma MaxSecondNoneAbove(y: bv64, z: bv64, x: bv64)
    requires SquareOrZero(y) && SquareOrZero(z) && !(y > z)
    requires (y != 0 && NoneAbove(x, y)) || (z != 0 && NoneAbove(x, z))
    ensures IsSquare(z) && NoneAbove(x, z)
  {
    if !(z != 0 && NoneAbove(x, z)) {
      assert z != 0;
      NotAbovePick(y, z);
      NoneAboveOfHigher(x, y, z);
    }
  }

  /** r is what LeastSigBit promises for v: zero exactly when v is, otherwise a square of v with nothing of v below it. */
  predicate IsLowestOf(r: bv64, v: bv64)
  {
    (v == 0 <==> r == 0) && (v != 0 ==> IsSquare(r) && r & v != 0 && NoneBelow(v, r))
  }

  /** r is what HighestBit promises for v: zero exactly when v is, otherwise a square of v with nothing of v above it. */
  predicate IsHighestOf(r: bv64, v: bv64)
  {
    (v == 0 <==> r == 0) && (v != 0 ==> IsSquare(r) && r & v != 0 && NoneAbove(v, r))
  }

  /** LeastSigBit(v) is the lowest square of v. */
  lemma LeastSigBitIsLowest(v: bv64)
    ensures IsLowestOf(LeastSigBit(v), v)
  {
  }

  /** HighestBit(v) is the highest square of v. */
  lemma HighestBitIsHighest(v: bv64)
    ensures IsHighestOf(HighestBit(v), v)
  {
  }

  /** A square meeting a part t of w lies in w. */
  lemma SquareInside(r: bv64, t: bv64, w: bv64)
    requires IsSquare(r) && r & t != 0 && t & !w == 0
    ensures r & !w == 0
  {
  }

  /** The lowest square of a part v of w is zero or a square of w. */
  lemma LowestInside(r: bv64, v: bv64, w: bv64)
    requires IsLowestOf(r, v) && v & !w == 0
    ensures SquareOrZero(r) && r & !w == 0
  {
    if v != 0 {
      SquareInside(r, v, w);
    }
  }

  /** The highest square of a part v of w is zero or a square of w. */
  lemma HighestInside(r: bv64, v: bv64, w: bv64)
    requires IsHighestOf(r, v) && v & !w == 0
    ensures SquareOrZero(r) && r & !w == 0
  {
    if v != 0 {
      SquareInside(r, v, w);
    }
  }

  /** A square of v has nothing below v's lowest square r, which is not zero. */
  lemma MemberNotBelowLowest(r: bv64, v: bv64, x: bv64)
    requires IsLowestOf(r, v) && IsSquare(x) && Meets(x, v)
    ensures r != 0 && NoneBelow(x, r)
  {
  }

  /** A square of v has nothing above v's highest square r, which is not zero. */
  lemma MemberNotAboveHighest(r: bv64, v: bv64, x: bv64)
    requires IsHighestOf(r, v) && IsSquare(x) && Meets(x, v)
    ensures r != 0 && NoneAbove(x, r)
  {
  }

  /** No square below a square piece is h8. */
  lemma BelowSkipsH8(piece: bv64)
    requires IsSquare(piece)
    ensures Below(piece) & h8 == 0
  {
  }

  /** A pick of the mover's own squares is none of the opponent's. */
  lemma PickAvoids(x: bv64, own: bv64, opp: bv64)
    requires own & opp == 0 && x & !own == 0
    ensures !Meets(x, opp)
  {
  }

  /** A nonzero pick of the opponent's squares is one of them, and none of the mover's. */
  lemma PickMeets(x: bv64, own: bv64, opp: bv64)
    requires own & opp == 0 && x & !opp == 0 && x != 0
    ensures Meets(x, opp) && x & own == 0
  {
  }

  /** A pick that is not on side stays where it is. */
  lemma PastKeeps(x: bv64, side: bv64)
    requires !Meets(x, side)
    ensures Past(x, side) == x
  {
  }

  /** A pick on side moves one square up. */
  lemma PastMoves(x: bv64, side: bv64)
    requires Meets(x, side)
    ensures Past(x, side) == x << 1
  {
  }

  /** Minz of a nonzero y and z, when it is not y, is z, a nonzero value at most y. */
  lemma MinzSecond(y: bv64, z: bv64)
    requires y != 0 && Minz(y, z) != y
    ensures z != 0 && Minz(y, z) == z && z <= y
  {
  }

  /** Max of a nonzero y and z, when it is not y, is z, which lies above y. */
  lemma MaxSecond(y: bv64, z: bv64)
    requires SquareOrZero(y) && SquareOrZero(z) && y != 0 && Max(y, z) != y
    ensures Max(y, z) == z && y < z
  {
    Trichotomy(y, z);
    if StrictlyBelow(z, y) {
      BelowLt(z, y);
    } else {
      BelowLt(y, z);
    }
  }

  /** A set with nothing below the square y has nothing below x << 1 either, for a square x under y. */
  lemma PastBelowMisses(x: bv64, y: bv64, t: bv64)
    requires IsSquare(x) && IsSquare(y) && x < y && NoneBelow(t, y)
    ensures Below(x << 1) & t == 0
  {
  }

  /** The upper cut when the mover's pick y is the lower one: Between stops below y. */
  lemma UpperCutOwn(own: bv64, opp: bv64, y: bv64, z: bv64, t: bv64)
    requires own & opp == 0 && y & !own == 0 && Minz(y, z) == y && NoneBelow(t, y)
    ensures Below(Past(Minz(y, z), opp)) & t == 0
  {
    PickAvoids(y, own, opp);
    PastKeeps(y, opp);
  }

  /** The upper cut when the opponent's pick z is the lower one: Between takes z and stops there. */
  lemma UpperCutOpp(own: bv64, opp: bv64, y: bv64, z: bv64, t: bv64)
    requires own & opp == 0 && IsSquare(y) && IsSquare(z) && z & !opp == 0
    requires Minz(y, z) == z && z < y && NoneBelow(t, y)
    ensures Below(Past(Minz(y, z), opp)) & t == 0
  {
    PickMeets(z, own, opp);
    PastMoves(z, opp);
    PastBelowMisses(z, y, t);
  }

  /**
   * The upper cut Below(Past(Minz(y, z), opp)) of Between, with y the pick
   * among the mover's squares and z the pick among the opponent's, misses
   * every square of t when t has nothing below y.
   */
  lemma UpperCutMisses(own: bv64, opp: bv64, y: bv64, z: bv64, t: bv64)
    requires own & opp == 0 && SquareOrZero(y) && SquareOrZero(z)
    requires y & !own == 0 && z & !opp == 0 && NoneBelow(t, y)
    ensures Below(Past(Minz(y, z), opp)) & t == 0
  {
    if y != 0 {
      if Minz(y, z) == y {
        UpperCutOwn(own, opp, y, z, t);
      } else {
        MinzSecond(y, z);
        PickMeets(z, own, opp);
        assert z != y;
        UpperCutOpp(own, opp, y, z, t);
      }
    }
  }

  /** A set with nothing above the square y lies within the squares up to y. */
  lemma UpToMisses(y: bv64, t: bv64)
    requires IsSquare(y) && y & h8 == 0 && NoneAbove(t, y)
    ensures !Fill(y << 1) & t == 0
  {
  }

  /** A set with nothing above the square y lies within the squares below a higher square z. */
  lemma BelowHigherHolds(y: bv64, z: bv64, t: bv64)
    requires IsSquare(y) && IsSquare(z) && y < z && NoneAbove(t, y)
    ensures !Fill(z) & t == 0
  {
  }

  /** The lower cut when the mover's pick y is the higher one: Between starts above y. */
  lemma LowerCutOwn(own: bv64, opp: bv64, y: bv64, z: bv64, t: bv64)
    requires own & opp == 0 && IsSquare(y) && y & !own == 0 && y & h8 == 0
    requires Max(y, z) == y && NoneAbove(t, y)
    ensures !Fill(Past(Max(y, z), own)) & t == 0
  {
    PickMeets(y, opp, own);
    PastMoves(y, own);
    UpToMisses(y, t);
  }

  /** The lower cut when the opponent's pick z is the higher one: Between starts at z. */
  lemma LowerCutOpp(own: bv64, opp: bv64, y: bv64, z: bv64, t: bv64)
    requires own & opp == 0 && IsSquare(y) && IsSquare(z) && z & !opp == 0
    requires Max(y, z) == z && y < z && NoneAbove(t, y)
    ensures !Fill(Past(Max(y, z), own)) & t == 0
  {
    PickAvoids(z, opp, own);
    PastKeeps(z, own);
    BelowHigherHolds(y, z, t);
  }

  /**
   * The lower cut Fill(Past(Max(y, z), own)) of Between, with y the pick
   * among the mover's squares and z the pick among the opponent's, covers
   * every square of t when t has nothing above y, so Between keeps none of them.
   */
  lemma LowerCutCovers(own: bv64, opp: bv64, y: bv64, z: bv64, t: bv64)
    requires own & opp == 0 && SquareOrZero(y) && SquareOrZero(z)
    requires y & !own == 0 && z & !opp == 0 && y & h8 == 0
    requires NoneAbove(t, y) && (y == 0 ==> t == 0)
    ensures !Fill(Past(Max(y, z), own)) & t == 0
  {
    if y != 0 {
      if Max(y, z) == y {
        LowerCutOwn(own, opp, y, z, t);
      } else {
        MaxSecond(y, z);
        LowerCutOpp(own, opp, y, z, t);
      }
    }
  }

  /** Below a square n, or below the square past it, lies nothing above a square x that has nothing below n. */
  lemma UpperCutStops(n: bv64, x: bv64, side: bv64)
    requires IsSquare(n) && IsSquare(x) && NoneBelow(x, n)
    ensures Below(Past(n, side)) & Above(x) == 0
  {
    if Meets(n, side) {
      PastMoves(n, side);
    } else {
      PastKeeps(n, side);
    }
  }

  /** The lower cut at a square m below h8, or at the square past it, covers everything below a square x that has nothing above m. */
  lemma LowerCutStops(m: bv64, x: bv64, side: bv64)
    requires IsSquare(m) && IsSquare(x) && NoneAbove(x, m) && m & h8 == 0
    ensures Below(x) & !Fill(Past(m, side)) == 0
  {
    if Meets(m, side) {
      PastMoves(m, side);
    } else {
      PastKeeps(m, side);
    }
  }

  /** The upper cut at the lowest squares y of t and z of p, a part of the opponent's squares disjoint from t, misses t. */
  lemma LowestCutMisses(opp: bv64, t: bv64, p: bv64, y: bv64, z: bv64)
    requires t & opp == 0 && p & !opp == 0 && IsLowestOf(y, t) && IsLowestOf(z, p)
    ensures Below(Past(Minz(y, z), opp)) & t == 0
  {
    LowestInside(y, t, t);
    LowestInside(z, p, opp);
    UpperCutMisses(t, opp, y, z, t);
  }

  /** LowestCutMisses for every t and p. */
  lemma AllLowestCutsMiss()
    ensures forall opp: bv64, t: bv64, p: bv64 {:trigger Past(Minz(LeastSigBit(t), LeastSigBit(p)), opp)} ::
      t & opp == 0 && p & !opp == 0 ==> Below(Past(Minz(LeastSigBit(t), LeastSigBit(p)), opp)) & t == 0
  {
    forall opp: bv64, t: bv64, p: bv64 | t & opp == 0 && p & !opp == 0
      ensures Below(Past(Minz(LeastSigBit(t), LeastSigBit(p)), opp)) & t == 0
    {
      LeastSigBitIsLowest(t);
      LeastSigBitIsLowest(p);
      LowestCutMisses(opp, t, p, LeastSigBit(t), LeastSigBit(p));
    }
  }

  /** The upper cut at the highest squares y of t and z of p, a part of the opponent's squares disjoint from t, misses y. */
  lemma HighestCutMisses(opp: bv64, t: bv64, p: bv64, y: bv64, z: bv64)
    requires t & opp == 0 && p & !opp == 0 && IsHighestOf(y, t) && IsHighestOf(z, p)
    ensures Below(Past(Minz(y, z), opp)) & y == 0
  {
    HighestInside(y, t, t);
    HighestInside(z, p, opp);
    UpperCutMisses(t, opp, y, z, y);
  }

  /** HighestCutMisses for every t and p. */
  lemma AllHighestCutsMiss()
    ensures forall opp: bv64, t: bv64, p: bv64 {:trigger Past(Minz(HighestBit(t), HighestBit(p)), opp)} ::
      t & opp == 0 && p & !opp == 0 ==> Below(Past(Minz(HighestBit(t), HighestBit(p)), opp)) & HighestBit(t) == 0
  {
    forall opp: bv64, t: bv64, p: bv64 | t & opp == 0 && p & !opp == 0
      ensures Below(Past(Minz(HighestBit(t), HighestBit(p)), opp)) & HighestBit(t) == 0
    {
      HighestBitIsHighest(t);
      HighestBitIsHighest(p);
      HighestCutMisses(opp, t, p, HighestBit(t), HighestBit(p));
    }
  }

  /** The lower cut at the highest squares y of t, a part of own, and z of p, disjoint from own, leaves out all of t. */
  lemma LowerCutMisses(own: bv64, t: bv64, p: bv64, y: bv64, z: bv64)
    requires t & !own == 0 && p & own == 0 && t & h8 == 0 && IsHighestOf(y, t) && IsHighestOf(z, p)
    ensures !Fill(Past(Max(y, z), own)) & t == 0
  {
    if t != 0 {
      if Max(y, z) == y {
        SquareInside(y, t, own);
        LowerCutOwn(own, p, y, z, t);
      } else {
        SquareInside(z, p, p);
        MaxSecond(y, z);
        LowerCutOpp(own, p, y, z, t);
      }
    }
  }

  /** LowerCutMisses for every t and p. */
  lemma AllLowerCutsMiss()
    ensures forall own: bv64, t: bv64, p: bv64 {:trigger Past(Max(HighestBit(t), HighestBit(p)), own)} ::
      t & !own == 0 && p & own == 0 && t & h8 == 0 ==> !Fill(Past(Max(HighestBit(t), HighestBit(p)), own)) & t == 0
  {
    forall own: bv64, t: bv64, p: bv64 | t & !own == 0 && p & own == 0 && t & h8 == 0
      ensures !Fill(Past(Max(HighestBit(t), HighestBit(p)), own)) & t == 0
    {
      HighestBitIsHighest(t);
      HighestBitIsHighest(p);
      LowerCutMisses(own, t, p, HighestBit(t), HighestBit(p));
    }
  }

  /** The lower cut at the lowest squares y of t, a part of own, and z of p, disjoint from own, leaves out y. */
  lemma LowestLowerCutMisses(own: bv64, t: bv64, p: bv64, y: bv64, z: bv64)
    requires t & !own == 0 && p & own == 0 && t & h8 == 0 && IsLowestOf(y, t) && IsLowestOf(z, p)
    ensures !Fill(Past(Max(y, z), own)) & y == 0
  {
    LowestInside(y, t, own);
    LowestInside(z, p, p);
    if t != 0 {
      SquareInside(y, t, !h8);
    }
    LowerCutCovers(own, p, y, z, y);
  }

  /** LowestLowerCutMisses for every t and p. */
  lemma AllLowestLowerCutsMiss()
    ensures forall own: bv64, t: bv64, p: bv64 {:trigger Past(Max(LeastSigBit(t), LeastSigBit(p)), own)} ::
      t & !own == 0 && p & own == 0 && t & h8 == 0 ==> !Fill(Past(Max(LeastSigBit(t), LeastSigBit(p)), own)) & LeastSigBit(t) == 0
  {
    forall own: bv64, t: bv64, p: bv64 | t & !own == 0 && p & own == 0 && t & h8 == 0
      ensures !Fill(Past(Max(LeastSigBit(t), LeastSigBit(p)), own)) & LeastSigBit(t) == 0
    {
      LeastSigBitIsLowest(t);
      LeastSigBitIsLowest(p);
      LowestLowerCutMisses(own, t, p, LeastSigBit(t), LeastSigBit(p));
    }
  }

  /** The pieces of each side above a piece on a line: opp's miss own, own's lie in own. */
  lemma SidesAbove(piece: bv64, line: bv64, own: bv64, opp: bv64)
    requires own & opp == 0
    ensures (own & Above(piece) & line) & opp == 0
    ensures (opp & Above(piece) & line) & !opp == 0
  {
  }

  /** The pieces of each side below a square piece on a line: own's lie in own, opp's miss own, and neither reaches h8. */
  lemma SidesBelow(piece: bv64, line: bv64, own: bv64, opp: bv64)
    requires IsSquare(piece) && own & opp == 0
    ensures (own & Below(piece) & line) & !own == 0
    ensures (opp & Below(piece) & line) & own == 0
    ensures (own & Below(piece) & line) & h8 == 0
  {
    BelowSkipsH8(piece);
  }

  /** On its file the piece never reaches a square of its own side above it. */
  lemma FileMovesMissOwnAbove(piece: bv64, file: bv64, own: bv64, opp: bv64)
    requires own & opp == 0
    ensures FileMoves(piece, file, own, opp) & (own & Above(piece) & file) == 0
  {
    SidesAbove(piece, file, own, opp);
    AllLowestCutsMiss();
  }

  /** On its file the piece never reaches a square of its own side below it. */
  lemma FileMovesMissOwnBelow(piece: bv64, file: bv64, own: bv64, opp: bv64)
    requires IsSquare(piece) && own & opp == 0
    ensures FileMoves(piece, file, own, opp) & (own & Below(piece) & file) == 0
  {
    SidesBelow(piece, file, own, opp);
    AllLowerCutsMiss();
  }

  /** On its rank the piece never reaches the farthest square of its own side east of it, the one the code picks. */
  lemma RankMovesMissFarthestOwnEast(piece: bv64, rank: bv64, own: bv64, opp: bv64)
    requires own & opp == 0
    ensures !Meets(RankMoves(piece, rank, own, opp), HighestBit(own & Above(piece) & rank))
  {
    SidesAbove(piece, rank, own, opp);
    AllHighestCutsMiss();
  }

  /** On its rank the piece never reaches the farthest square of its own side west of it, the one the code picks. */
  lemma RankMovesMissFarthestOwnWest(piece: bv64, rank: bv64, own: bv64, opp: bv64)
    requires IsSquare(piece) && own & opp == 0
    ensures !Meets(RankMoves(piece, rank, own, opp), LeastSigBit(own & Below(piece) & rank))
  {
    SidesBelow(piece, rank, own, opp);
    AllLowestLowerCutsMiss();
  }

  /** Nothing above x survives the upper cut at the smaller of two picks when one of them is a square with nothing of x below it. */
  lemma UpperStopPicks(y: bv64, z: bv64, x: bv64, side: bv64)
    requires SquareOrZero(y) && SquareOrZero(z) && IsSquare(x)
    requires (y != 0 && NoneBelow(x, y)) || (z != 0 && NoneBelow(x, z))
    ensures Below(Past(Minz(y, z), side)) & Above(x) == 0
  {
    if y < z && y != 0 {
      MinzFirstNoneBelow(y, z, x);
      UpperCutStops(y, x, side);
    } else if z != 0 {
      MinzSecondNoneBelow(y, z, x);
      UpperCutStops(z, x, side);
    } else {
      UpperCutStops(y, x, side);
    }
  }

  /** The upper cut at the lowest squares y of t and z of p keeps nothing above a square x of t or of p. */
  lemma UpperStop(t: bv64, p: bv64, x: bv64, side: bv64, y: bv64, z: bv64)
    requires IsSquare(x) && (Meets(x, t) || Meets(x, p)) && IsLowestOf(y, t) && IsLowestOf(z, p)
    ensures Below(Past(Minz(y, z), side)) & Above(x) == 0
  {
    LowestInside(y, t, t);
    LowestInside(z, p, p);
    if Meets(x, t) {
      MemberNotBelowLowest(y, t, x);
    } else {
      MemberNotBelowLowest(z, p, x);
    }
    UpperStopPicks(y, z, x, side);
  }

  /** UpperStop for every t, p and a square x of t. */
  lemma AllUpperStopsAtFirst()
    ensures forall t: bv64, p: bv64, x: bv64, side: bv64 {:trigger Past(Minz(LeastSigBit(t), LeastSigBit(p)), side), Above(x)} ::
      IsSquare(x) && Meets(x, t) ==> Below(Past(Minz(LeastSigBit(t), LeastSigBit(p)), side)) & Above(x) == 0
  {
    forall t: bv64, p: bv64, x: bv64, side: bv64 | IsSquare(x) && Meets(x, t)
      ensures Below(Past(Minz(LeastSigBit(t), LeastSigBit(p)), side)) & Above(x) == 0
    {
      LeastSigBitIsLowest(t);
      LeastSigBitIsLowest(p);
      UpperStop(t, p, x, side, LeastSigBit(t), LeastSigBit(p));
    }
  }

  /** UpperStop for every t, p and a square x of p. */
  lemma AllUpperStopsAtSecond()
    ensures forall t: bv64, p: bv64, x: bv64, side: bv64 {:trigger Past(Minz(LeastSigBit(t), LeastSigBit(p)), side), Above(x)} ::
      IsSquare(x) && Meets(x, p) ==> Below(Past(Minz(LeastSigBit(t), LeastSigBit(p)), side)) & Above(x) == 0
  {
    forall t: bv64, p: bv64, x: bv64, side: bv64 | IsSquare(x) && Meets(x, p)
      ensures Below(Past(Minz(LeastSigBit(t), LeastSigBit(p)), side)) & Above(x) == 0
    {
      LeastSigBitIsLowest(t);
      LeastSigBitIsLowest(p);
      UpperStop(t, p, x, side, LeastSigBit(t), LeastSigBit(p));
    }
  }

  /** On its file the piece reaches nothing beyond a piece x of either side above it. */
  lemma FileMovesStopAbove(piece: bv64, file: bv64, own: bv64, opp: bv64, x: bv64)
    requires IsSquare(x) && (Meets(x, own & Above(piece) & file) || Meets(x, opp & Above(piece) & file))
    ensures FileMoves(piece, file, own, opp) & Above(x) == 0
  {
    if Meets(x, own & Above(piece) & file) {
      AllUpperStopsAtFirst();
    } else {
      AllUpperStopsAtSecond();
    }
  }

  /** Nothing below x survives the lower cut at the larger of two picks when one of them is a square with nothing of x above it. */
  lemma LowerStopPicks(y: bv64, z: bv64, x: bv64, side: bv64)
    requires SquareOrZero(y) && SquareOrZero(z) && IsSquare(x) && y & h8 == 0 && z & h8 == 0
    requires (y != 0 && NoneAbove(x, y)) || (z != 0 && NoneAbove(x, z))
    ensures Below(x) & !Fill(Past(Max(y, z), side)) == 0
  {
    if y > z {
      MaxFirstNoneAbove(y, z, x);
      LowerCutStops(y, x, side);
    } else {
      MaxSecondNoneAbove(y, z, x);
      LowerCutStops(z, x, side);
    }
  }

  /** The lower cut at the highest squares y of t and z of p, both clear of h8, keeps nothing below a square x of t or of p. */
  lemma LowerStop(t: bv64, p: bv64, x: bv64, side: bv64, y: bv64, z: bv64)
    requires IsSquare(x) && (Meets(x, t) || Meets(x, p)) && t & h8 == 0 && p & h8 == 0
    requires IsHighestOf(y, t) && IsHighestOf(z, p)
    ensures Below(x) & !Fill(Past(Max(y, z), side)) == 0
  {
    HighestInside(y, t, !h8);
    HighestInside(z, p, !h8);
    if Meets(x, t) {
      MemberNotAboveHighest(y, t, x);
    } else {
      MemberNotAboveHighest(z, p, x);
    }
    LowerStopPicks(y, z, x, side);
  }

  /** LowerStop for every t and p clear of h8 and a square x of t. */
  lemma AllLowerStopsAtFirst()
    ensures forall t: bv64, p: bv64, x: bv64, side: bv64 {:trigger Past(Max(HighestBit(t), HighestBit(p)), side), Below(x)} ::
      IsSquare(x) && Meets(x, t) && t & h8 == 0 && p & h8 == 0 ==>
        Below(x) & !Fill(Past(Max(HighestBit(t), HighestBit(p)), side)) == 0
  {
    forall t: bv64, p: bv64, x: bv64, side: bv64 | IsSquare(x) && Meets(x, t) && t & h8 == 0 && p & h8 == 0
      ensures Below(x) & !Fill(Past(Max(HighestBit(t), HighestBit(p)), side)) == 0
    {
      HighestBitIsHighest(t);
      HighestBitIsHighest(p);
      LowerStop(t, p, x, side, HighestBit(t), HighestBit(p));
    }
  }

  /** LowerStop for every t and p clear of h8 and a square x of p. */
  lemma AllLowerStopsAtSecond()
    ensures forall t: bv64, p: bv64, x: bv64, side: bv64 {:trigger Past(Max(HighestBit(t), HighestBit(p)), side), Below(x)} ::
      IsSquare(x) && Meets(x, p) && t & h8 == 0 && p & h8 == 0 ==>
        Below(x) & !Fill(Past(Max(HighestBit(t), HighestBit(p)), side)) == 0
  {
    forall t: bv64, p: bv64, x: bv64, side: bv64 | IsSquare(x) && Meets(x, p) && t & h8 == 0 && p & h8 == 0
      ensures Below(x) & !Fill(Past(Max(HighestBit(t), HighestBit(p)), side)) == 0
    {
      HighestBitIsHighest(t);
      HighestBitIsHighest(p);
      LowerStop(t, p, x, side, HighestBit(t), HighestBit(p));
    }
  }

  /** On its file the piece reaches nothing beyond a piece x of either side below it. */
  lemma FileMovesStopBelow(piece: bv64, file: bv64, own: bv64, opp: bv64, x: bv64)
    requires IsSquare(piece) && IsSquare(x)
    requires Meets(x, own & Below(piece) & file) || Meets(x, opp & Below(piece) & file)
    ensures FileMoves(piece, file, own, opp) & Below(x) == 0
  {
    if Meets(x, own & Below(piece) & file) {
      FileMovesStopBelowOwn(piece, file, own, opp, x);
    } else {
      FileMovesStopBelowOpp(piece, file, own, opp, x);
    }
  }

  /** FileMovesStopBelow for a piece x of the mover's side. */
  lemma FileMovesStopBelowOwn(piece: bv64, file: bv64, own: bv64, opp: bv64, x: bv64)
    requires IsSquare(piece) && IsSquare(x) && Meets(x, own & Below(piece) & file)
    ensures FileMoves(piece, file, own, opp) & Below(x) == 0
  {
    ClearBelow(piece, file, own, opp);
    AllLowerStopsAtFirst();
  }

  /** FileMovesStopBelow for a piece x of the opponent's side. */
  lemma FileMovesStopBelowOpp(piece: bv64, file: bv64, own: bv64, opp: bv64, x: bv64)
    requires IsSquare(piece) && IsSquare(x) && Meets(x, opp & Below(piece) & file)
    ensures FileMoves(piece, file, own, opp) & Below(x) == 0
  {
    ClearBelow(piece, file, own, opp);
    AllLowerStopsAtSecond();
  }

  /** The pieces of either side below a square piece on a line do not reach h8. */
  lemma ClearBelow(piece: bv64, line: bv64, own: bv64, opp: bv64)
    requires IsSquare(piece)
    ensures (own & Below(piece) & line) & h8 == 0
    ensures (opp & Below(piece) & line) & h8 == 0
  {
    BelowSkipsH8(piece);
  }


  // ---------------------------------------------------------------------
  // How far the rank reaches past the opponent's pieces, on every board
  // ---------------------------------------------------------------------

  /**
   * The opponent's pieces on the rank are scanned like the mover's: the code
   * picks the opponent's farthest piece on each side. A rook on a1 with the
   * opponent's pieces on c1 and e1 passes over c1 and takes on e1.
   */
  lemma RankJumpsOpponent()
    ensures StraightMoves(a1, a1, c1 | e1) == 0x010101010101011E
  {
    SquareRowCol(0);
  }

  /** Between is the line cut down to the upper cut minus the lower cut. */
  lemma BetweenCuts(line: bv64, own: bv64, opp: bv64, lsb: bv64, msb: bv64)
    ensures Between(line, own, opp, lsb, msb) == Within(Intersect(Below(Past(lsb, opp)), Fill(Past(msb, own))), line)
  {
  }

  /** What the upper cut u misses, the cut-down line misses too. */
  lemma CutMisses(u: bv64, l: bv64, line: bv64, m: bv64)
    requires u & m == 0
    ensures Within(Intersect(u, l), line) & m == 0
  {
  }

  /** What the lower cut l covers, the cut-down line misses. */
  lemma CutCovers(u: bv64, l: bv64, line: bv64, m: bv64)
    requires m & !l == 0
    ensures Within(Intersect(u, l), line) & m == 0
  {
  }

  /** A square of the line in the upper cut u and not in the lower cut l is in the cut-down line. */
  lemma CutHas(u: bv64, l: bv64, line: bv64, x: bv64)
    requires IsSquare(x) && Meets(x, line) && Meets(u, x) && !Meets(l, x)
    ensures Meets(Within(Intersect(u, l), line), x)
  {
  }

  /** Between misses whatever its lower cut covers. */
  lemma BetweenCovers(line: bv64, own: bv64, opp: bv64, lsb: bv64, msb: bv64, m: bv64)
    requires m & !Fill(Past(msb, own)) == 0
    ensures Between(line, own, opp, lsb, msb) & m == 0
  {
    CutCovers(Below(Past(lsb, opp)), Fill(Past(msb, own)), line, m);
    BetweenCuts(line, own, opp, lsb, msb);
  }

  /** A square is not below itself and not above itself. */
  lemma SquareBounds(z: bv64)
    requires SquareOrZero(z)
    ensures NoneBelow(z, z) && NoneAbove(z, z)
  {
  }

  /** The squares of side in a on the line: the sets the scans of Pieces.cpp:548-596 pick from. */
  function Part(side: bv64, a: bv64, line: bv64): bv64
  {
    side & a & line
  }

  /** Every square of a is a square of b. */
  predicate Inside(a: bv64, b: bv64)
  {
    a & !b == 0
  }

  /** a and b share no square. */
  predicate Apart(a: bv64, b: bv64)
  {
    a & b == 0
  }

  /** The part of side in a on the line lies in side and in a. */
  lemma PartOf(side: bv64, a: bv64, line: bv64)
    ensures Inside(Part(side, a, line), side) && Inside(Part(side, a, line), a)
  {
  }

  /** With no piece of either side in a & b on the line, neither side's part of a on the line meets b. */
  lemma PartClear(own: bv64, opp: bv64, a: bv64, b: bv64, line: bv64)
    requires (own | opp) & a & b & line == 0
    ensures Apart(Part(own, a, line), b) && Apart(Part(opp, a, line), b)
  {
  }

  /** On its rank the piece reaches nothing east of the opponent's farthest piece east of it, the one the code picks. */
  lemma RankMovesStopEast(piece: bv64, rank: bv64, own: bv64, opp: bv64)
    requires opp & Above(piece) & rank != 0
    ensures RankMoves(piece, rank, own, opp) & Above(HighestBit(opp & Above(piece) & rank)) == 0
  {
    var y := HighestBit(own & Above(piece) & rank);
    var z := HighestBit(opp & Above(piece) & rank);
    var msb := Max(LeastSigBit(own & Below(piece) & rank), LeastSigBit(opp & Below(piece) & rank));
    HighestOfPart(own & Above(piece) & rank);
    HighestBitIsHighest(opp & Above(piece) & rank);
    HighestOfPart(opp & Above(piece) & rank);
    SquareBounds(z);
    UpperStopPicks(y, z, z, opp);
    CutMisses(Below(Past(Minz(y, z), opp)), Fill(Past(msb, own)), rank, Above(z));
    BetweenCuts(rank, own, opp, Minz(y, z), msb);
  }

  /** The lower cut at max of the lowest squares of t and p, both clear of h8, keeps nothing below the lowest square of p. */
  lemma LowerStopAtLowest(t: bv64, p: bv64, side: bv64)
    requires Apart(t, h8) && Apart(p, h8) && p != 0
    ensures Below(LeastSigBit(p)) & !Fill(Past(Max(LeastSigBit(t), LeastSigBit(p)), side)) == 0
  {
    LeastSigBitIsLowest(t);
    LeastSigBitIsLowest(p);
    LowestInside(LeastSigBit(t), t, !h8);
    LowestInside(LeastSigBit(p), p, !h8);
    SquareBounds(LeastSigBit(p));
    LowerStopPicks(LeastSigBit(t), LeastSigBit(p), LeastSigBit(p), side);
  }

  /** Neither side's squares below a square piece on a line reach h8. */
  lemma SidesBelowClear(piece: bv64, line: bv64, own: bv64, opp: bv64)
    requires IsSquare(piece)
    ensures Apart(own & Below(piece) & line, h8) && Apart(opp & Below(piece) & line, h8)
  {
    BelowSkipsH8(piece);
  }

  /** On its rank the piece reaches nothing west of the opponent's farthest piece west of it, the one the code picks. */
  lemma RankMovesStopWest(piece: bv64, rank: bv64, own: bv64, opp: bv64)
    requires IsSquare(piece) && opp & Below(piece) & rank != 0
    ensures RankMoves(piece, rank, own, opp) & Below(LeastSigBit(opp & Below(piece) & rank)) == 0
  {
    var lsb := Minz(HighestBit(own & Above(piece) & rank), HighestBit(opp & Above(piece) & rank));
    var msb := Max(LeastSigBit(own & Below(piece) & rank), LeastSigBit(opp & Below(piece) & rank));
    SidesBelowClear(piece, rank, own, opp);
    LowerStopAtLowest(own & Below(piece) & rank, opp & Below(piece) & rank, own);
    BetweenCovers(rank, own, opp, lsb, msb, Below(LeastSigBit(opp & Below(piece) & rank)));
  }

  // ---------------------------------------------------------------------
  // What the rank and file moves reach, on every board
  // ---------------------------------------------------------------------

  /** The upper cut at a pick l not below x keeps x, unless l is x and the mover's. */
  lemma UpperCutKeeps(l: bv64, x: bv64, opp: bv64)
    requires IsSquare(x) && SquareOrZero(l) && l & Below(x) == 0 && (l == x ==> Meets(l, opp))
    ensures Meets(Below(Past(l, opp)), x)
  {
    if Meets(l, opp) {
      PastMoves(l, opp);
    } else {
      PastKeeps(l, opp);
    }
  }

  /** The lower cut at a pick m not above x leaves x out, unless m is x and the mover's. */
  lemma LowerCutKeeps(m: bv64, x: bv64, own: bv64)
    requires IsSquare(x) && SquareOrZero(m) && m & Above(x) == 0 && (m == x ==> !Meets(m, own))
    ensures !Meets(Fill(Past(m, own)), x)
  {
    if Meets(m, own) {
      PastMoves(m, own);
    } else {
      PastKeeps(m, own);
    }
  }

  /** The upper cut at a pick above the piece keeps every square below the piece. */
  lemma UpperCutOver(l: bv64, piece: bv64, x: bv64, side: bv64)
    requires IsSquare(piece) && IsSquare(x) && SquareOrZero(l) && l & !Above(piece) == 0 && x & !Below(piece) == 0
    ensures Meets(Below(Past(l, side)), x)
  {
    if Meets(l, side) {
      PastMoves(l, side);
    } else {
      PastKeeps(l, side);
    }
  }

  /** The lower cut at a pick below the piece leaves out every square above the piece. */
  lemma LowerCutUnder(m: bv64, piece: bv64, x: bv64, side: bv64)
    requires IsSquare(piece) && IsSquare(x) && SquareOrZero(m) && m & !Below(piece) == 0 && x & !Above(piece) == 0
    ensures !Meets(Fill(Past(m, side)), x)
  {
    if Meets(m, side) {
      PastMoves(m, side);
    } else {
      PastKeeps(m, side);
    }
  }

  /** A pick of the mover's squares is not a square x that the mover does not hold. */
  lemma PickNotTarget(y: bv64, x: bv64, own: bv64)
    requires IsSquare(x) && x & own == 0 && y & !own == 0
    ensures y != x
  {
  }

  /** The upper cut at minz of the mover's pick y and the opponent's pick z, neither below x, keeps x when x is not the mover's. */
  lemma MinzKeeps(own: bv64, opp: bv64, x: bv64, y: bv64, z: bv64)
    requires IsSquare(x) && own & opp == 0 && x & own == 0
    requires SquareOrZero(y) && SquareOrZero(z) && y & !own == 0 && z & !opp == 0
    requires y & Below(x) == 0 && z & Below(x) == 0
    ensures Meets(Below(Past(Minz(y, z), opp)), x)
  {
    if Minz(y, z) == y {
      PickNotTarget(y, x, own);
      UpperCutKeeps(y, x, opp);
    } else {
      if z != 0 {
        PickMeets(z, own, opp);
      }
      UpperCutKeeps(z, x, opp);
    }
  }

  /** The lower cut at max of the mover's pick y and the opponent's pick z, neither above x, leaves x out when x is not the mover's. */
  lemma MaxKeeps(own: bv64, opp: bv64, x: bv64, y: bv64, z: bv64)
    requires IsSquare(x) && own & opp == 0 && x & own == 0
    requires SquareOrZero(y) && SquareOrZero(z) && y & !own == 0 && z & !opp == 0
    requires y & Above(x) == 0 && z & Above(x) == 0
    ensures !Meets(Fill(Past(Max(y, z), own)), x)
  {
    if Max(y, z) == y {
      PickNotTarget(y, x, own);
      LowerCutKeeps(y, x, own);
    } else {
      if z != 0 {
        PickMeets(z, own, opp);
      }
      LowerCutKeeps(z, x, own);
    }
  }

  /** The upper cut at minz of two picks above the piece keeps every square below the piece. */
  lemma MinzOver(piece: bv64, x: bv64, y: bv64, z: bv64, side: bv64)
    requires IsSquare(piece) && IsSquare(x) && x & !Below(piece) == 0
    requires SquareOrZero(y) && SquareOrZero(z) && y & !Above(piece) == 0 && z & !Above(piece) == 0
    ensures Meets(Below(Past(Minz(y, z), side)), x)
  {
    if Minz(y, z) == y {
      UpperCutOver(y, piece, x, side);
    } else {
      UpperCutOver(z, piece, x, side);
    }
  }

  /** The lower cut at max of two picks below the piece leaves out every square above the piece. */
  lemma MaxUnder(piece: bv64, x: bv64, y: bv64, z: bv64, side: bv64)
    requires IsSquare(piece) && IsSquare(x) && x & !Above(piece) == 0
    requires SquareOrZero(y) && SquareOrZero(z) && y & !Below(piece) == 0 && z & !Below(piece) == 0
    ensures !Meets(Fill(Past(Max(y, z), side)), x)
  {
    if Max(y, z) == y {
      LowerCutUnder(y, piece, x, side);
    } else {
      LowerCutUnder(z, piece, x, side);
    }
  }

  /** r is zero or a square of v: what the code's scans return for v. */
  predicate PickIn(r: bv64, v: bv64)
  {
    SquareOrZero(r) && r & !v == 0
  }

  /** A pick of a part v of w is a pick of w, and misses whatever v misses. */
  lemma PickWithin(r: bv64, v: bv64, w: bv64, m: bv64)
    requires PickIn(r, v) && v & !w == 0 && v & m == 0
    ensures PickIn(r, w) && r & m == 0
  {
  }

  /** The lowest square of v is a pick of v. */
  lemma LowestOfPart(v: bv64)
    ensures PickIn(LeastSigBit(v), v)
  {
    LeastSigBitIsLowest(v);
    LowestInside(LeastSigBit(v), v, v);
  }

  /** The highest square of v is a pick of v. */
  lemma HighestOfPart(v: bv64)
    ensures PickIn(HighestBit(v), v)
  {
    HighestBitIsHighest(v);
    HighestInside(HighestBit(v), v, v);
  }

  /** A square x in a & line lies in a and on the line. */
  lemma SquareOfPart(x: bv64, a: bv64, line: bv64)
    requires IsSquare(x) && Meets(x, a & line)
    ensures x & !a == 0 && Meets(x, line)
  {
  }

  /** With no piece of either side in near & far on the line, each side's part of near on the line is that side's and misses far. */
  lemma NearParts(own: bv64, opp: bv64, near: bv64, far: bv64, line: bv64)
    requires (own | opp) & near & far & line == 0
    ensures Inside(Part(own, near, line), own) && Apart(Part(own, near, line), far)
    ensures Inside(Part(opp, near, line), opp) && Apart(Part(opp, near, line), far)
  {
    PartClear(own, opp, near, far, line);
    PartOf(own, near, line);
    PartOf(opp, near, line);
  }

  /** Each side's part of a on the line lies in a. */
  lemma FarParts(own: bv64, opp: bv64, a: bv64, line: bv64)
    ensures Inside(Part(own, a, line), a) && Inside(Part(opp, a, line), a)
  {
    PartOf(own, a, line);
    PartOf(opp, a, line);
  }

  /**
   * The upper cut at minz of picks y of v, the mover's squares, and z of w,
   * the opponent's, keeps x, a square not of the mover's side, when neither
   * v nor w has a square below x.
   */
  lemma UpperKeepsNear(own: bv64, opp: bv64, x: bv64, v: bv64, w: bv64, y: bv64, z: bv64)
    requires IsSquare(x) && own & opp == 0 && x & own == 0
    requires Inside(v, own) && Inside(w, opp) && Apart(v, Below(x)) && Apart(w, Below(x))
    requires PickIn(y, v) && PickIn(z, w)
    ensures Meets(Below(Past(Minz(y, z), opp)), x)
  {
    PickWithin(y, v, own, Below(x));
    PickWithin(z, w, opp, Below(x));
    MinzKeeps(own, opp, x, y, z);
  }

  /**
   * The lower cut at max of picks y of v, the mover's squares, and z of w,
   * the opponent's, leaves out x, a square not of the mover's side, when
   * neither v nor w has a square above x.
   */
  lemma LowerLeavesNear(own: bv64, opp: bv64, x: bv64, v: bv64, w: bv64, y: bv64, z: bv64)
    requires IsSquare(x) && own & opp == 0 && x & own == 0
    requires Inside(v, own) && Inside(w, opp) && Apart(v, Above(x)) && Apart(w, Above(x))
    requires PickIn(y, v) && PickIn(z, w)
    ensures !Meets(Fill(Past(Max(y, z), own)), x)
  {
    PickWithin(y, v, own, Above(x));
    PickWithin(z, w, opp, Above(x));
    MaxKeeps(own, opp, x, y, z);
  }

  /** The upper cut at minz of picks y of v and z of w, both above the piece, keeps x, a square below the piece. */
  lemma UpperKeepsFar(piece: bv64, x: bv64, v: bv64, w: bv64, y: bv64, z: bv64, side: bv64)
    requires IsSquare(piece) && IsSquare(x) && x & !Below(piece) == 0
    requires Inside(v, Above(piece)) && Inside(w, Above(piece)) && PickIn(y, v) && PickIn(z, w)
    ensures Meets(Below(Past(Minz(y, z), side)), x)
  {
    PickWithin(y, v, Above(piece), 0);
    PickWithin(z, w, Above(piece), 0);
    MinzOver(piece, x, y, z, side);
  }

  /** The lower cut at max of picks y of v and z of w, both below the piece, leaves out x, a square above the piece. */
  lemma LowerLeavesFar(piece: bv64, x: bv64, v: bv64, w: bv64, y: bv64, z: bv64, side: bv64)
    requires IsSquare(piece) && IsSquare(x) && x & !Above(piece) == 0
    requires Inside(v, Below(piece)) && Inside(w, Below(piece)) && PickIn(y, v) && PickIn(z, w)
    ensures !Meets(Fill(Past(Max(y, z), side)), x)
  {
    PickWithin(y, v, Below(piece), 0);
    PickWithin(z, w, Below(piece), 0);
    MaxUnder(piece, x, y, z, side);
  }

  /** Between keeps x when its upper cut keeps x and its lower cut leaves x out. */
  lemma BetweenHas(line: bv64, own: bv64, opp: bv64, lsb: bv64, msb: bv64, x: bv64)
    requires IsSquare(x) && Meets(x, line)
    requires Meets(Below(Past(lsb, opp)), x) && !Meets(Fill(Past(msb, own)), x)
    ensures Meets(Between(line, own, opp, lsb, msb), x)
  {
    CutHas(Below(Past(lsb, opp)), Fill(Past(msb, own)), line, x);
    BetweenCuts(line, own, opp, lsb, msb);
  }

  /** The upper cut of the file moves keeps a square x above the piece that no piece screens. */
  lemma FileUpperKeepsAbove(piece: bv64, file: bv64, own: bv64, opp: bv64, x: bv64)
    requires IsSquare(x) && own & opp == 0 && x & own == 0 && (own | opp) & Above(piece) & Below(x) & file == 0
    ensures Meets(Below(Past(Minz(LeastSigBit(Part(own, Above(piece), file)), LeastSigBit(Part(opp, Above(piece), file))), opp)), x)
  {
    NearParts(own, opp, Above(piece), Below(x), file);
    LowestOfPart(Part(own, Above(piece), file));
    LowestOfPart(Part(opp, Above(piece), file));
    UpperKeepsNear(own, opp, x, Part(own, Above(piece), file), Part(opp, Above(piece), file), LeastSigBit(Part(own, Above(piece), file)), LeastSigBit(Part(opp, Above(piece), file)));
  }

  /** The lower cut of the file moves leaves out a square x above the piece. */
  lemma FileLowerLeavesAbove(piece: bv64, file: bv64, own: bv64, opp: bv64, x: bv64)
    requires IsSquare(piece) && IsSquare(x) && x & !Above(piece) == 0
    ensures !Meets(Fill(Past(Max(HighestBit(Part(own, Below(piece), file)), HighestBit(Part(opp, Below(piece), file))), own)), x)
  {
    FarParts(own, opp, Below(piece), file);
    HighestOfPart(Part(own, Below(piece), file));
    HighestOfPart(Part(opp, Below(piece), file));
    LowerLeavesFar(piece, x, Part(own, Below(piece), file), Part(opp, Below(piece), file), HighestBit(Part(own, Below(piece), file)), HighestBit(Part(opp, Below(piece), file)), own);
  }

  /** The upper cut of the file moves keeps every square x below the piece. */
  lemma FileUpperKeepsBelow(piece: bv64, file: bv64, own: bv64, opp: bv64, x: bv64)
    requires IsSquare(piece) && IsSquare(x) && x & !Below(piece) == 0
    ensures Meets(Below(Past(Minz(LeastSigBit(Part(own, Above(piece), file)), LeastSigBit(Part(opp, Above(piece), file))), opp)), x)
  {
    FarParts(own, opp, Above(piece), file);
    LowestOfPart(Part(own, Above(piece), file));
    LowestOfPart(Part(opp, Above(piece), file));
    UpperKeepsFar(piece, x, Part(own, Above(piece), file), Part(opp, Above(piece), file), LeastSigBit(Part(own, Above(piece), file)), LeastSigBit(Part(opp, Above(piece), file)), opp);
  }

  /** The lower cut of the file moves leaves out a square x below the piece that no piece screens. */
  lemma FileLowerLeavesBelow(piece: bv64, file: bv64, own: bv64, opp: bv64, x: bv64)
    requires IsSquare(x) && own & opp == 0 && x & own == 0 && (own | opp) & Below(piece) & Above(x) & file == 0
    ensures !Meets(Fill(Past(Max(HighestBit(Part(own, Below(piece), file)), HighestBit(Part(opp, Below(piece), file))), own)), x)
  {
    NearParts(own, opp, Below(piece), Above(x), file);
    HighestOfPart(Part(own, Below(piece), file));
    HighestOfPart(Part(opp, Below(piece), file));
    LowerLeavesNear(own, opp, x, Part(own, Below(piece), file), Part(opp, Below(piece), file), HighestBit(Part(own, Below(piece), file)), HighestBit(Part(opp, Below(piece), file)));
  }

  /** The upper cut of the rank moves keeps a square x east of the piece that no piece screens. */
  lemma RankUpperKeepsEast(piece: bv64, rank: bv64, own: bv64, opp: bv64, x: bv64)
    requires IsSquare(x) && own & opp == 0 && x & own == 0 && (own | opp) & Above(piece) & Below(x) & rank == 0
    ensures Meets(Below(Past(Minz(HighestBit(Part(own, Above(piece), rank)), HighestBit(Part(opp, Above(piece), rank))), opp)), x)
  {
    NearParts(own, opp, Above(piece), Below(x), rank);
    HighestOfPart(Part(own, Above(piece), rank));
    HighestOfPart(Part(opp, Above(piece), rank));
    UpperKeepsNear(own, opp, x, Part(own, Above(piece), rank), Part(opp, Above(piece), rank), HighestBit(Part(own, Above(piece), rank)), HighestBit(Part(opp, Above(piece), rank)));
  }

  /** The lower cut of the rank moves leaves out a square x east of the piece. */
  lemma RankLowerLeavesEast(piece: bv64, rank: bv64, own: bv64, opp: bv64, x: bv64)
    requires IsSquare(piece) && IsSquare(x) && x & !Above(piece) == 0
    ensures !Meets(Fill(Past(Max(LeastSigBit(Part(own, Below(piece), rank)), LeastSigBit(Part(opp, Below(piece), rank))), own)), x)
  {
    FarParts(own, opp, Below(piece), rank);
    LowestOfPart(Part(own, Below(piece), rank));
    LowestOfPart(Part(opp, Below(piece), rank));
    LowerLeavesFar(piece, x, Part(own, Below(piece), rank), Part(opp, Below(piece), rank), LeastSigBit(Part(own, Below(piece), rank)), LeastSigBit(Part(opp, Below(piece), rank)), own);
  }

  /** The upper cut of the rank moves keeps every square x west of the piece. */
  lemma RankUpperKeepsWest(piece: bv64, rank: bv64, own: bv64, opp: bv64, x: bv64)
    requires IsSquare(piece) && IsSquare(x) && x & !Below(piece) == 0
    ensures Meets(Below(Past(Minz(HighestBit(Part(own, Above(piece), rank)), HighestBit(Part(opp, Above(piece), rank))), opp)), x)
  {
    FarParts(own, opp, Above(piece), rank);
    HighestOfPart(Part(own, Above(piece), rank));
    HighestOfPart(Part(opp, Above(piece), rank));
    UpperKeepsFar(piece, x, Part(own, Above(piece), rank), Part(opp, Above(piece), rank), HighestBit(Part(own, Above(piece), rank)), HighestBit(Part(opp, Above(piece), rank)), opp);
  }

  /** The lower cut of the rank moves leaves out a square x west of the piece that no piece screens. */
  lemma RankLowerLeavesWest(piece: bv64, rank: bv64, own: bv64, opp: bv64, x: bv64)
    requires IsSquare(x) && own & opp == 0 && x & own == 0 && (own | opp) & Below(piece) & Above(x) & rank == 0
    ensures !Meets(Fill(Past(Max(LeastSigBit(Part(own, Below(piece), rank)), LeastSigBit(Part(opp, Below(piece), rank))), own)), x)
  {
    NearParts(own, opp, Below(piece), Above(x), rank);
    LowestOfPart(Part(own, Below(piece), rank));
    LowestOfPart(Part(opp, Below(piece), rank));
    LowerLeavesNear(own, opp, x, Part(own, Below(piece), rank), Part(opp, Below(piece), rank), LeastSigBit(Part(own, Below(piece), rank)), LeastSigBit(Part(opp, Below(piece), rank)));
  }

  /**
   * On its file the piece reaches a square x above it, empty or the
   * opponent's, when no piece of either side stands between them.
   */
  lemma FileMovesReachAbove(piece: bv64, file: bv64, own: bv64, opp: bv64, x: bv64)
    requires IsSquare(piece) && IsSquare(x) && own & opp == 0 && x & own == 0
    requires Meets(x, Above(piece) & file) && (own | opp) & Above(piece) & Below(x) & file == 0
    ensures Meets(FileMoves(piece, file, own, opp), x)
  {
    SquareOfPart(x, Above(piece), file);
    FileUpperKeepsAbove(piece, file, own, opp, x);
    FileLowerLeavesAbove(piece, file, own, opp, x);
    BetweenHas(file, own, opp,
      Minz(LeastSigBit(own & Above(piece) & file), LeastSigBit(opp & Above(piece) & file)),
      Max(HighestBit(own & Below(piece) & file), HighestBit(opp & Below(piece) & file)), x);
  }

  /**
   * On its file the piece reaches a square x below it, empty or the
   * opponent's, when no piece of either side stands between them.
   */
  lemma FileMovesReachBelow(piece: bv64, file: bv64, own: bv64, opp: bv64, x: bv64)
    requires IsSquare(piece) && IsSquare(x) && own & opp == 0 && x & own == 0
    requires Meets(x, Below(piece) & file) && (own | opp) & Below(piece) & Above(x) & file == 0
    ensures Meets(FileMoves(piece, file, own, opp), x)
  {
    SquareOfPart(x, Below(piece), file);
    FileUpperKeepsBelow(piece, file, own, opp, x);
    FileLowerLeavesBelow(piece, file, own, opp, x);
    BetweenHas(file, own, opp,
      Minz(LeastSigBit(own & Above(piece) & file), LeastSigBit(opp & Above(piece) & file)),
      Max(HighestBit(own & Below(piece) & file), HighestBit(opp & Below(piece) & file)), x);
  }

  /**
   * On its rank the piece reaches a square x east of it, empty or the
   * opponent's, when no piece of either side stands between them.
   */
  lemma RankMovesReachEast(piece: bv64, rank: bv64, own: bv64, opp: bv64, x: bv64)
    requires IsSquare(piece) && IsSquare(x) && own & opp == 0 && x & own == 0
    requires Meets(x, Above(piece) & rank) && (own | opp) & Above(piece) & Below(x) & rank == 0
    ensures Meets(RankMoves(piece, rank, own, opp), x)
  {
    SquareOfPart(x, Above(piece), rank);
    RankUpperKeepsEast(piece, rank, own, opp, x);
    RankLowerLeavesEast(piece, rank, own, opp, x);
    BetweenHas(rank, own, opp,
      Minz(HighestBit(own & Above(piece) & rank), HighestBit(opp & Above(piece) & rank)),
      Max(LeastSigBit(own & Below(piece) & rank), LeastSigBit(opp & Below(piece) & rank)), x);
  }

  /**
   * On its rank the piece reaches a square x west of it, empty or the
   * opponent's, when no piece of either side stands between them.
   */
  lemma RankMovesReachWest(piece: bv64, rank: bv64, own: bv64, opp: bv64, x: bv64)
    requires IsSquare(piece) && IsSquare(x) && own & opp == 0 && x & own == 0
    requires Meets(x, Below(piece) & rank) && (own | opp) & Below(piece) & Above(x) & rank == 0
    ensures Meets(RankMoves(piece, rank, own, opp), x)
  {
    SquareOfPart(x, Below(piece), rank);
    RankUpperKeepsWest(piece, rank, own, opp, x);
    RankLowerLeavesWest(piece, rank, own, opp, x);
    BetweenHas(rank, own, opp,
      Minz(HighestBit(own & Above(piece) & rank), HighestBit(opp & Above(piece) & rank)),
      Max(LeastSigBit(own & Below(piece) & rank), LeastSigBit(opp & Below(piece) & rank)), x);
  }
}
