/**
 * The bit helpers at the top of Pieces.cpp (lines 3-80): ColEx, LeastSigBit,
 * minz, max, MostSigBit, RowIndex and ColIndex.
 *
 * The loops of MostSigBit, RowIndex and ColIndex are methods proved equal to
 * specification functions (HighestBit, RowOf, ColOf) whose own contracts and
 * lemmas say which bit, rank or file they find.
 */
module BitScan {
  import opened Foundation

  /** ColEx of Pieces.cpp:3-10: ORs all eight ranks into the lowest byte. */
  function ColEx(x: bv64): (r: bv64)
    ensures r & !0xFF == 0
  {
    ((RANK_8 & x) >> 56) |
    ((RANK_7 & x) >> 48) |
    ((RANK_6 & x) >> 40) |
    ((RANK_5 & x) >> 32) |
    ((RANK_4 & x) >> 24) |
    ((RANK_3 & x) >> 16) |
    ((RANK_2 & x) >> 8) |
    (RANK_1 & x)
  }

  /** Bit f of ColEx(x) is set exactly when x occupies file f. */
  lemma ColExFile(x: bv64, f: bv3)
    ensures Has(ColEx(x), f as bv6) <==> x & (FILE_A << f) != 0
  {
    if Has(ColEx(x), f as bv6) {
      ColExFileOccupied(x, f);
    }
    if x & (FILE_A << f) != 0 {
      ColExOccupiedFile(x, f);
    }
  }

  lemma ColExFileOccupied(x: bv64, f: bv3)
    requires Has(ColEx(x), f as bv6)
    ensures x & (FILE_A << f) != 0
  {
  }

  lemma ColExOccupiedFile(x: bv64, f: bv3)
    requires x & (FILE_A << f) != 0
    ensures Has(ColEx(x), f as bv6)
  {
  }

  /** Zero, or a single square. */
  predicate SquareOrZero(x: bv64)
  {
    x & (x - 1) == 0
  }

  /** No bit of x lies strictly below the single bit s. */
  predicate NoneBelow(x: bv64, s: bv64)
  {
    x & (s - 1) == 0
  }

  /** No bit of x lies strictly above the single bit s. */
  predicate NoneAbove(x: bv64, s: bv64)
  {
    x & !(s | (s - 1)) == 0
  }

  /** The single square (or zero) x lies strictly below the single square y. */
  predicate StrictlyBelow(x: bv64, y: bv64)
  {
    y != 0 && x != y && x & (y - 1) == x
  }

  /** LeastSigBit of Pieces.cpp:12: the lowest member of x, or 0 when x is empty. */
  function LeastSigBit(x: bv64): (r: bv64)
    ensures x == 0 ==> r == 0
    ensures x != 0 ==> IsSquare(r) && r & x != 0 && NoneBelow(x, r)
  {
    x & (!x + 1)
  }

  /** A member of x with nothing below it is the lowest bit. */
  lemma LeastSigBitUnique(x: bv64, r: bv64)
    ensures IsSquare(r) && r & x != 0 && NoneBelow(x, r) ==>
      r == LeastSigBit(x)
  {
  }

  /**
   * The highest member of v, or 0 when v is empty: the value MostSigBit
   * returns. Computed in closed form (every bit below the highest one is
   * smeared in, then the highest one is kept), independently of the loop.
   */
  function HighestBit(v: bv64): (r: bv64)
    ensures v == 0 <==> r == 0
    ensures v != 0 ==> IsSquare(r) && r & v != 0 && NoneAbove(v, r)
  {
    var s1 := v | (v >> 1);
    var s2 := s1 | (s1 >> 2);
    var s3 := s2 | (s2 >> 4);
    var s4 := s3 | (s3 >> 8);
    var s5 := s4 | (s4 >> 16);
    var s6 := s5 | (s5 >> 32);
    s6 & !(s6 >> 1)
  }

  /** A member of v with nothing above it is the highest bit. */
  lemma HighestBitUnique(v: bv64, r: bv64)
    ensures IsSquare(r) && r & v != 0 && NoneAbove(v, r) ==>
      r == HighestBit(v)
  {
  }

  // ---------------------------------------------------------------------
  // minz and max on single squares
  // ---------------------------------------------------------------------

  /** minz of Pieces.cpp:13: the smaller of two values, ignoring a zero one. */
  function Minz(x: bv64, y: bv64): (r: bv64)
    ensures r == x || r == y
    ensures r == 0 <==> x == 0 && y == 0
  {
    if x < y && x != 0 then x else if y != 0 then y else x
  }

  /** max of Pieces.cpp:15 (unsigned comparison). */
  function Max(x: bv64, y: bv64): (r: bv64)
    ensures r == x || r == y
  {
    if x > y then x else y
  }

  lemma LtBelow(x: bv64, y: bv64)
    requires SquareOrZero(x) && SquareOrZero(y) && x < y
    ensures StrictlyBelow(x, y)
  {
  }

  lemma BelowLt(x: bv64, y: bv64)
    requires SquareOrZero(x) && SquareOrZero(y) && StrictlyBelow(x, y)
    ensures x < y && !(y < x)
  {
  }

  /** On single squares (or zero), the unsigned order is the order of the squares. */
  lemma LtSquares(x: bv64, y: bv64)
    requires SquareOrZero(x) && SquareOrZero(y)
    ensures x < y <==> StrictlyBelow(x, y)
  {
    if x < y {
      LtBelow(x, y);
    }
    if StrictlyBelow(x, y) {
      BelowLt(x, y);
    }
  }

  /** Two different single squares: one lies below the other. */
  lemma Trichotomy(x: bv64, y: bv64)
    requires IsSquare(x) && IsSquare(y) && x != y
    ensures StrictlyBelow(x, y) || StrictlyBelow(y, x)
  {
  }

  lemma LowestOfBelow(x: bv64, y: bv64)
    requires SquareOrZero(x) && SquareOrZero(y) && StrictlyBelow(x, y) && x != 0
    ensures LeastSigBit(x | y) == x && LeastSigBit(y | x) == x
  {
  }

  lemma HighestOfBelow(x: bv64, y: bv64)
    requires SquareOrZero(x) && SquareOrZero(y) && StrictlyBelow(x, y)
    ensures HighestBit(x | y) == y && HighestBit(y | x) == y
  {
  }

  lemma LowestOfOne(x: bv64)
    requires SquareOrZero(x)
    ensures LeastSigBit(x) == x && HighestBit(x) == x
  {
  }

  lemma MinzPicksLeft(x: bv64, y: bv64)
    requires x < y && x != 0
    ensures Minz(x, y) == x
  {
  }

  lemma MinzPicksRight(x: bv64, y: bv64)
    requires !(x < y) && y != 0
    ensures Minz(x, y) == y
  {
  }

  lemma MaxPicksLeft(x: bv64, y: bv64)
    requires x > y
    ensures Max(x, y) == x
  {
  }

  lemma MaxPicksRight(x: bv64, y: bv64)
    requires !(x > y)
    ensures Max(x, y) == y
  {
  }

  lemma MinzOfBelow(x: bv64, y: bv64)
    requires SquareOrZero(x) && SquareOrZero(y) && StrictlyBelow(x, y) && x != 0
    ensures Minz(x, y) == LeastSigBit(x | y) && Minz(y, x) == LeastSigBit(y | x)
  {
    BelowLt(x, y);
    MinzPicksLeft(x, y);
    MinzPicksRight(y, x);
    LowestOfBelow(x, y);
  }

  lemma MaxOfBelow(x: bv64, y: bv64)
    requires SquareOrZero(x) && SquareOrZero(y) && StrictlyBelow(x, y)
    ensures Max(x, y) == HighestBit(x | y) && Max(y, x) == HighestBit(y | x)
  {
    BelowLt(x, y);
    MaxPicksLeft(y, x);
    MaxPicksRight(x, y);
    HighestOfBelow(x, y);
  }

  lemma MinzOfOne(x: bv64)
    requires SquareOrZero(x)
    ensures Minz(x, x) == LeastSigBit(x) && Minz(0, x) == LeastSigBit(x) && Minz(x, 0) == LeastSigBit(x)
  {
    LowestOfOne(x);
  }

  lemma MaxOfOne(x: bv64)
    requires SquareOrZero(x)
    ensures Max(x, x) == HighestBit(x) && Max(0, x) == HighestBit(x) && Max(x, 0) == HighestBit(x)
  {
    LowestOfOne(x);
  }

  /** On two values that are each zero or a single square, minz picks the lower square of the two. */
  lemma MinzLowest(x: bv64, y: bv64)
    requires SquareOrZero(x) && SquareOrZero(y)
    ensures Minz(x, y) == LeastSigBit(x | y)
  {
    if x == 0 || x == y {
      MinzOfOne(y);
    } else if y == 0 {
      MinzOfOne(x);
    } else if StrictlyBelow(x, y) {
      MinzOfBelow(x, y);
    } else {
      Trichotomy(x, y);
      MinzOfBelow(y, x);
    }
  }

  /** On two values that are each zero or a single square, max picks the higher square of the two. */
  lemma MaxHighest(x: bv64, y: bv64)
    requires SquareOrZero(x) && SquareOrZero(y)
    ensures Max(x, y) == HighestBit(x | y)
  {
    if x == y || x == 0 {
      MaxOfOne(y);
    } else if y == 0 {
      MaxOfOne(x);
    } else if StrictlyBelow(y, x) {
      MaxOfBelow(y, x);
    } else {
      Trichotomy(x, y);
      MaxOfBelow(x, y);
    }
  }

  // ---------------------------------------------------------------------
  // The scanning loops
  // ---------------------------------------------------------------------

  /** What MostSigBit's loop keeps: msb is a single bit and nothing of value lies above it. */
  predicate MsbScan(value: bv64, msb: bv64)
  {
    IsSquare(msb) && NoneAbove(value, msb)
  }

  lemma MsbStep(value: bv64, msb: bv64)
    requires value != 0 && MsbScan(value, msb) && msb & value == 0
    ensures MsbScan(value, msb >> 1) && msb >> 1 < msb
  {
  }

  /**
   * MostSigBit of Pieces.cpp:25-38: the highest member of value, or 0 when
   * value is empty (HighestBitUnique makes it equal to HighestBit).
   */
  method MostSigBit(value: bv64) returns (msb: bv64)
    ensures value == 0 ==> msb == 0
    ensures value != 0 ==> IsSquare(msb) && msb & value != 0 && NoneAbove(value, msb)
  {
    msb := 0x8000000000000000;
    if value == 0 {
      return 0;
    }
    while msb & value == 0
      invariant MsbScan(value, msb)
      decreases msb
    {
      MsbStep(value, msb);
      msb := msb >> 1;
    }
  }

  /**
   * The rank (0 .. 7) holding the lowest member of piece, or 8 when piece is
   * empty: the value RowIndex returns, read off the rank masks from RANK_1 up.
   */
  function RowOf(piece: bv64): (row: bv4)
    ensures row == 8 <==> piece == 0
  {
    if piece & RANK_1 != 0 then 0
    else if piece & RANK_2 != 0 then 1
    else if piece & RANK_3 != 0 then 2
    else if piece & RANK_4 != 0 then 3
    else if piece & RANK_5 != 0 then 4
    else if piece & RANK_6 != 0 then 5
    else if piece & RANK_7 != 0 then 6
    else if piece & RANK_8 != 0 then 7
    else 8
  }

  /** The first occupied rank, counted from rank 1, is unique. */
  lemma RowOfUnique(piece: bv64, row: bv4)
    ensures row <= 8 && piece & ((1 << (8 * (row as bv7))) - 1) == 0 && (row != 8 ==> piece & (0xFF << (8 * (row as bv7))) != 0) ==>
      row == RowOf(piece)
  {
  }

  /** RowIndex of Pieces.cpp:50-61; the counter, a UInt64 there, never exceeds 8. */
  method RowIndex(piece: bv64) returns (row: bv4)
    ensures row == RowOf(piece)
  {
    row := 0;
    while row < 8
      invariant row <= 8
      invariant piece & ((1 << (8 * (row as bv7))) - 1) == 0
    {
      if piece & (0xFF << ((row as bv7) * 8)) != 0 {
        break;
      }
      row := row + 1;
    }
    RowOfUnique(piece, row);
  }

  /**
   * The highest occupied file (0 .. 7) of piece, or 0 when piece is empty: the
   * value ColIndex returns, read off the bits of ColEx from file h down.
   */
  function ColOf(piece: bv64): (col: bv3)
  {
    var b := ColEx(piece);
    if b & 0x80 != 0 then 7
    else if b & 0x40 != 0 then 6
    else if b & 0x20 != 0 then 5
    else if b & 0x10 != 0 then 4
    else if b & 0x08 != 0 then 3
    else if b & 0x04 != 0 then 2
    else if b & 0x02 != 0 then 1
    else 0
  }

  /** ColOf names an occupied file, and no file to its right is occupied. */
  lemma ColOfFile(piece: bv64, f: bv3)
    requires piece != 0
    ensures piece & (FILE_A << ColOf(piece)) != 0
    ensures ColOf(piece) < f ==> piece & (FILE_A << f) == 0
  {
    ColExFile(piece, ColOf(piece));
    ColExFile(piece, f);
  }

  /** What ColIndex's loop keeps: bit is ColEx shifted past file col, and col is 0 or below an occupied file. */
  predicate ColScan(b: bv64, bit: bv64, col: bv3)
  {
    bit == b >> ((col as bv4) + 1) && (col == 0 || b >> col != 0)
  }

  lemma ColStep(b: bv64, bit: bv64, col: bv3)
    requires b & !0xFF == 0 && ColScan(b, bit, col) && bit != 0
    ensures col != 7 && ColScan(b, bit >> 1, col + 1)
  {
  }

  lemma ColOfExit(piece: bv64, col: bv3)
    requires ColScan(ColEx(piece), 0, col)
    ensures col == ColOf(piece)
  {
  }

  /** ColIndex of Pieces.cpp:73-80; the counter, a UInt64 there, never exceeds 7. */
  method ColIndex(piece: bv64) returns (col: bv3)
    ensures col == ColOf(piece)
  {
    var b := ColEx(piece);
    var bit := b >> 1;
    col := 0;
    while bit != 0
      invariant ColScan(b, bit, col)
      decreases 7 - col
    {
      ColStep(b, bit, col);
      col := col + 1;
      bit := bit >> 1;
    }
    ColOfExit(piece, col);
  }

  // ---------------------------------------------------------------------
  // Square indices
  // ---------------------------------------------------------------------

  /** For a single square, RowOf and ColOf give its rank and file. */
  lemma SquareRowCol(i: bv6)
    ensures RowOf(Square(i)) == RankOf(i) as bv4
    ensures ColOf(Square(i)) == FileOf(i)
  {
  }

  /** The index of a single square, found bit by bit of the index. */
  function IndexOf(s: bv64): (i: bv6)
    requires IsSquare(s)
    ensures s == Square(i)
  {
    (if s & 0xFFFFFFFF00000000 != 0 then 32 else 0) |
    (if s & 0xFFFF0000FFFF0000 != 0 then 16 else 0) |
    (if s & 0xFF00FF00FF00FF00 != 0 then 8 else 0) |
    (if s & 0xF0F0F0F0F0F0F0F0 != 0 then 4 else 0) |
    (if s & 0xCCCCCCCCCCCCCCCC != 0 then 2 else 0) |
    (if s & 0xAAAAAAAAAAAAAAAA != 0 then 1 else 0)
  }

  /** A single square is the bit 8 * row + col of its RowOf and ColOf, with the row below 8. */
  lemma SquareFromRowCol(s: bv64)
    requires IsSquare(s)
    ensures RowOf(s) < 8
    ensures s == SquareAt(ColOf(s), RowOf(s) as bv3)
  {
    SquareRowCol(IndexOf(s));
  }
}
