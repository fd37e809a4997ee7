/**
 * The bitboard vocabulary (Foundation.hpp, Foundation.cpp).
 *
 * A bitboard is a 64-bit set of squares: bit 8 * r + f stands for the square
 * on file f (0 = file a) and rank r (0 = rank 1), so a1 is bit 0 and h8 is
 * bit 63. A square index is a bv6 (0 .. 63), a file or rank number a bv3
 * (0 .. 7), so every index is in range by its type.
 */
module Foundation {

  // ---------------------------------------------------------------------
  // Files, ranks and squares (Foundation.hpp:17-98)
  // ---------------------------------------------------------------------

  const FILE_A: bv64 := 0x0101010101010101
  const FILE_B: bv64 := 0x0202020202020202
  const FILE_C: bv64 := 0x0404040404040404
  const FILE_D: bv64 := 0x0808080808080808
  const FILE_E: bv64 := 0x1010101010101010
  const FILE_F: bv64 := 0x2020202020202020
  const FILE_G: bv64 := 0x4040404040404040
  const FILE_H: bv64 := 0x8080808080808080

  const RANK_1: bv64 := 0x00000000000000FF
  const RANK_2: bv64 := 0x000000000000FF00
  const RANK_3: bv64 := 0x0000000000FF0000
  const RANK_4: bv64 := 0x00000000FF000000
  const RANK_5: bv64 := 0x000000FF00000000
  const RANK_6: bv64 := 0x0000FF0000000000
  const RANK_7: bv64 := 0x00FF000000000000
  const RANK_8: bv64 := 0xFF00000000000000

  const a1: bv64 := 0x1
  const b1: bv64 := 0x2
  const c1: bv64 := 0x4
  const d1: bv64 := 0x8
  const e1: bv64 := 0x10
  const f1: bv64 := 0x20
  const g1: bv64 := 0x40
  const h1: bv64 := 0x80
  const a2: bv64 := 0x100
  const b2: bv64 := 0x200
  const c2: bv64 := 0x400
  const d2: bv64 := 0x800
  const e2: bv64 := 0x1000
  const f2: bv64 := 0x2000
  const g2: bv64 := 0x4000
  const h2: bv64 := 0x8000
  const a3: bv64 := 0x10000
  const b3: bv64 := 0x20000
  const c3: bv64 := 0x40000
  const d3: bv64 := 0x80000
  const e3: bv64 := 0x100000
  const f3: bv64 := 0x200000
  const g3: bv64 := 0x400000
  const h3: bv64 := 0x800000
  const a4: bv64 := 0x1000000
  const b4: bv64 := 0x2000000
  const c4: bv64 := 0x4000000
  const d4: bv64 := 0x8000000
  const e4: bv64 := 0x10000000
  const f4: bv64 := 0x20000000
  const g4: bv64 := 0x40000000
  const h4: bv64 := 0x80000000
  const a5: bv64 := 0x100000000
  const b5: bv64 := 0x200000000
  const c5: bv64 := 0x400000000
  const d5: bv64 := 0x800000000
  const e5: bv64 := 0x1000000000
  const f5: bv64 := 0x2000000000
  const g5: bv64 := 0x4000000000
  const h5: bv64 := 0x8000000000
  const a6: bv64 := 0x10000000000
  const b6: bv64 := 0x20000000000
  const c6: bv64 := 0x40000000000
  const d6: bv64 := 0x80000000000
  const e6: bv64 := 0x100000000000
  const f6: bv64 := 0x200000000000
  const g6: bv64 := 0x400000000000
  const h6: bv64 := 0x800000000000
  const a7: bv64 := 0x1000000000000
  const b7: bv64 := 0x2000000000000
  const c7: bv64 := 0x4000000000000
  const d7: bv64 := 0x8000000000000
  const e7: bv64 := 0x10000000000000
  const f7: bv64 := 0x20000000000000
  const g7: bv64 := 0x40000000000000
  const h7: bv64 := 0x80000000000000
  const a8: bv64 := 0x100000000000000
  const b8: bv64 := 0x200000000000000
  const c8: bv64 := 0x400000000000000
  const d8: bv64 := 0x800000000000000
  const e8: bv64 := 0x1000000000000000
  const f8: bv64 := 0x2000000000000000
  const g8: bv64 := 0x4000000000000000
  const h8: bv64 := 0x8000000000000000

  /** The lookup tables of Foundation.cpp:3-4, indexed by rank and by file. */
  const Rank: seq<bv64> := [RANK_1, RANK_2, RANK_3, RANK_4, RANK_5, RANK_6, RANK_7, RANK_8]
  const File: seq<bv64> := [FILE_A, FILE_B, FILE_C, FILE_D, FILE_E, FILE_F, FILE_G, FILE_H]

  /** Bit i of x is set, that is, square i belongs to the set x. */
  predicate Has(x: bv64, i: bv6)
  {
    (x >> i) & 1 == 1
  }

  /** The set holding square i alone. */
  function Square(i: bv6): (s: bv64)
    ensures Has(s, i) && s != 0
  {
    1 << i
  }

  /** x holds exactly one square. */
  predicate IsSquare(x: bv64)
  {
    x != 0 && x & (x - 1) == 0
  }

  /** The rank (0 .. 7) of square i. */
  function RankOf(i: bv6): bv3
  {
    (i >> 3) as bv3
  }

  /** The file (0 .. 7) of square i. */
  function FileOf(i: bv6): bv3
  {
    (i & 7) as bv3
  }

  /** The index 8 * r + f of the square on file f and rank r. */
  function IndexAt(f: bv3, r: bv3): (i: bv6)
    ensures FileOf(i) == f && RankOf(i) == r
  {
    (r as bv6) * 8 + f as bv6
  }

  /** The square on file f and rank r, which is bit 8 * r + f. */
  function SquareAt(f: bv3, r: bv3): (s: bv64)
    ensures s == Square(IndexAt(f, r))
    ensures s == Rank[r] & File[f]
  {
    1 << (8 * (r as bv7) + f as bv7)
  }

  /** Every named square constant is the bit of its file and rank. */
  lemma SquareConstants()
    ensures a1 == SquareAt(0, 0) && b1 == SquareAt(1, 0) && c1 == SquareAt(2, 0) && d1 == SquareAt(3, 0) && e1 == SquareAt(4, 0) && f1 == SquareAt(5, 0) && g1 == SquareAt(6, 0) && h1 == SquareAt(7, 0)
    ensures a2 == SquareAt(0, 1) && b2 == SquareAt(1, 1) && c2 == SquareAt(2, 1) && d2 == SquareAt(3, 1) && e2 == SquareAt(4, 1) && f2 == SquareAt(5, 1) && g2 == SquareAt(6, 1) && h2 == SquareAt(7, 1)
    ensures a3 == SquareAt(0, 2) && b3 == SquareAt(1, 2) && c3 == SquareAt(2, 2) && d3 == SquareAt(3, 2) && e3 == SquareAt(4, 2) && f3 == SquareAt(5, 2) && g3 == SquareAt(6, 2) && h3 == SquareAt(7, 2)
    ensures a4 == SquareAt(0, 3) && b4 == SquareAt(1, 3) && c4 == SquareAt(2, 3) && d4 == SquareAt(3, 3) && e4 == SquareAt(4, 3) && f4 == SquareAt(5, 3) && g4 == SquareAt(6, 3) && h4 == SquareAt(7, 3)
    ensures a5 == SquareAt(0, 4) && b5 == SquareAt(1, 4) && c5 == SquareAt(2, 4) && d5 == SquareAt(3, 4) && e5 == SquareAt(4, 4) && f5 == SquareAt(5, 4) && g5 == SquareAt(6, 4) && h5 == SquareAt(7, 4)
    ensures a6 == SquareAt(0, 5) && b6 == SquareAt(1, 5) && c6 == SquareAt(2, 5) && d6 == SquareAt(3, 5) && e6 == SquareAt(4, 5) && f6 == SquareAt(5, 5) && g6 == SquareAt(6, 5) && h6 == SquareAt(7, 5)
    ensures a7 == SquareAt(0, 6) && b7 == SquareAt(1, 6) && c7 == SquareAt(2, 6) && d7 == SquareAt(3, 6) && e7 == SquareAt(4, 6) && f7 == SquareAt(5, 6) && g7 == SquareAt(6, 6) && h7 == SquareAt(7, 6)
    ensures a8 == SquareAt(0, 7) && b8 == SquareAt(1, 7) && c8 == SquareAt(2, 7) && d8 == SquareAt(3, 7) && e8 == SquareAt(4, 7) && f8 == SquareAt(5, 7) && g8 == SquareAt(6, 7) && h8 == SquareAt(7, 7)
  {
  }

  /** RANK_k is the byte of rank k - 1 and FILE_x the bit of file x in every byte. */
  lemma RanksAndFiles(r: bv3, f: bv3)
    ensures Rank[r] == 0xFF << (8 * (r as bv7))
    ensures File[f] == FILE_A << f
    ensures forall i: bv6 :: Has(Rank[r], i) <==> RankOf(i) == r
    ensures forall i: bv6 :: Has(File[f], i) <==> FileOf(i) == f
  {
  }

  /** The eight ranks are pairwise disjoint and cover the board; so are the eight files. */
  lemma RanksAndFilesPartition()
    ensures forall r1: bv3, r2: bv3 :: r1 != r2 ==> Rank[r1] & Rank[r2] == 0
    ensures forall f1: bv3, f2: bv3 :: f1 != f2 ==> File[f1] & File[f2] == 0
    ensures RANK_1 | RANK_2 | RANK_3 | RANK_4 | RANK_5 | RANK_6 | RANK_7 | RANK_8 == 0xFFFFFFFFFFFFFFFF
    ensures FILE_A | FILE_B | FILE_C | FILE_D | FILE_E | FILE_F | FILE_G | FILE_H == 0xFFFFFFFFFFFFFFFF
  {
  }

  // ---------------------------------------------------------------------
  // Set operations (Foundation.hpp:113-123)
  // ---------------------------------------------------------------------

  /** Intersect(A, B) of Foundation.hpp:123. */
  function Intersect(a: bv64, b: bv64): bv64
  {
    a & !b
  }

  /** Despite its name, Intersect(a, b) is the set difference: the squares of a that are not in b. */
  lemma IntersectIsDifference(a: bv64, b: bv64)
    ensures forall i: bv6 :: Has(Intersect(a, b), i) <==> Has(a, i) && !Has(b, i)
  {
    forall i: bv6
      ensures Has(a & !b, i) <==> Has(a, i) && !Has(b, i)
    {
      HasAndNot(a, b, i);
    }
  }

  lemma HasAndNot(a: bv64, b: bv64, i: bv6)
    ensures Has(a & !b, i) <==> Has(a, i) && !Has(b, i)
  {
  }

  /** Flip of Foundation.hpp:113-120: reverses the order of the eight ranks. */
  function Flip(board: bv64): bv64
  {
    (board << 56) |
    ((board << 40) & 0x00ff000000000000) |
    ((board << 24) & 0x0000ff0000000000) |
    ((board << 8) & 0x000000ff00000000) |
    ((board >> 8) & 0x00000000ff000000) |
    ((board >> 24) & 0x0000000000ff0000) |
    ((board >> 40) & 0x000000000000ff00) |
    (board >> 56)
  }

  /** Flip moves every square to the same file of the opposite rank, and undoes itself. */
  lemma FlipMirrorsRanks(board: bv64)
    ensures forall i: bv6 :: Has(Flip(board), i) <==> Has(board, IndexAt(FileOf(i), 7 - RankOf(i)))
    ensures Flip(Flip(board)) == board
  {
  }

  /** Flip exchanges rank 1 and rank 8 and leaves every file in place. */
  lemma FlipRanksAndFiles()
    ensures Flip(RANK_1) == RANK_8 && Flip(RANK_8) == RANK_1
    ensures forall f: bv3 :: Flip(File[f]) == File[f]
  {
  }

  // ---------------------------------------------------------------------
  // Mirror and BitCount (Foundation.cpp:6-47)
  // ---------------------------------------------------------------------

  /** Mirror of Foundation.cpp:6-15: swaps neighbouring bits, pairs, nibbles, bytes, halves of words. */
  function Mirror(x: bv64): bv64
  {
    var x1 := ((x & 0x5555555555555555) << 1) | ((x & 0xAAAAAAAAAAAAAAAA) >> 1);
    var x2 := ((x1 & 0x3333333333333333) << 2) | ((x1 & 0xCCCCCCCCCCCCCCCC) >> 2);
    var x3 := ((x2 & 0x0F0F0F0F0F0F0F0F) << 4) | ((x2 & 0xF0F0F0F0F0F0F0F0) >> 4);
    var x4 := ((x3 & 0x00FF00FF00FF00FF) << 8) | ((x3 & 0xFF00FF00FF00FF00) >> 8);
    var x5 := ((x4 & 0x0000FFFF0000FFFF) << 16) | ((x4 & 0xFFFF0000FFFF0000) >> 16);
    ((x5 & 0x00000000FFFFFFFF) << 32) | ((x5 & 0xFFFFFFFF00000000) >> 32)
  }

  /** Mirror reverses the 64 bits: square i goes to square 63 - i; applying it twice changes nothing. */
  lemma MirrorReversesBits(x: bv64)
    ensures forall i: bv6 :: Has(Mirror(x), i) <==> Has(x, 63 - i)
    ensures Mirror(Mirror(x)) == x
  {
  }
  /** The value (0 or 1) of bit i of x. */
  function Bit(x: bv64, i: bv6): (b: bv64)
    ensures b == if Has(x, i) then 1 else 0
  {
    (x >> i) & 1
  }

  /** Nibble k (bits 4k .. 4k+3) of s. */
  function Nib(s: bv64, k: bv4): bv64
  {
    (s >> (4 * (k as bv7))) & 0xF
  }

  /** First stage of BitCount (Foundation.cpp:30-33). */
  function NibbleSums(x: bv64): bv64
  {
    var lsbb: bv64 := 0x1111111111111111;
    (lsbb & x) + (lsbb & (x >> 1)) + (lsbb & (x >> 2)) + (lsbb & (x >> 3))
  }

  /** The first stage leaves in every nibble the number of set bits among that nibble's four bits. */
  lemma NibbleSumsCountNibbles(x: bv64, k: bv4)
    ensures Nib(NibbleSums(x), k) == ((Bit(x, 4 * (k as bv6)) + Bit(x, 4 * (k as bv6) + 1)) + Bit(x, 4 * (k as bv6) + 2)) + Bit(x, 4 * (k as bv6) + 3)
  {
  }

  /** Second stage of BitCount for one 32-bit half (Foundation.cpp:38-44). */
  function HalfSum(v: bv64): bv64
  {
    var mask: bv64 := 0xF0F;
    var v1 := v + (v >> 16);
    var v2 := (v1 & mask) + (mask & (v1 >> 4));
    ((v2 >> 8) + v2) & 0x3F
  }

  /** BitCount of Foundation.cpp:17-47: the SWAR population count, 0 for the empty set. */
  function BitCount(x: bv64): (count: bv64)
    ensures x == 0 ==> count == 0
    ensures x == 0xFFFFFFFFFFFFFFFF ==> count == 64
  {
    if x == 0 then 0
    else
      var sum := NibbleSums(x);
      HalfSum(sum >> 32) + HalfSum((sum << 32) >> 32)
  }

  /** The first stage maps a single square to a 1 in the nibble holding it. */
  lemma NibbleSumsSquare(i: bv6)
    ensures NibbleSums(Square(i)) == 1 << (4 * (i / 4))
  {
  }

  /** The second stage maps a lone 1 in nibble k of a half to 1. */
  lemma HalfSumNibble(k: bv3)
    ensures HalfSum(1 << (4 * (k as bv6))) == 1
  {
  }

  /** A set of one square has one member. */
  lemma BitCountSquare(i: bv6)
    ensures BitCount(Square(i)) == 1
  {
    NibbleSumsSquare(i);
    if i < 32 {
      HalfSumNibble((i / 4) as bv3);
      assert (NibbleSums(Square(i)) << 32) >> 32 == 1 << (4 * (i / 4));
      assert NibbleSums(Square(i)) >> 32 == 0;
    } else {
      HalfSumNibble((i / 4 - 8) as bv3);
      assert NibbleSums(Square(i)) >> 32 == 1 << (4 * (i / 4 - 8));
      assert (NibbleSums(Square(i)) << 32) >> 32 == 0;
    }
  }
}
