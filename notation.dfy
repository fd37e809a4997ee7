/**
 * ParseMove of Game.cpp:13-78: the two squares of a move typed in
 * algebraic notation ("e2", "e4") turned into one-bit masks.
 *
 * A std::string is a sequence of bytes; here each char of a string stands
 * for one byte. The source subtracts from a char and keeps the difference in
 * an unsigned 64-bit variable, so a character below the expected range wraps
 * around to a huge value; the model writes that wrap-around out.
 */
module Notation {
  import opened Foundation
  import opened PieceSets

  datatype Option<T> = None | Some(value: T)

  /** Unsigned 64-bit arithmetic works modulo 2^64. */
  const TWO_TO_64: int := 0x1_0000_0000_0000_0000

  /** c - '0' - offset, computed as an int and stored in a UInt64 (Game.cpp:37, 46). */
  function Unsigned(c: char, offset: int): (r: int)
    ensures 0 <= r < TWO_TO_64
    ensures 0 <= c as int - '0' as int - offset < TWO_TO_64 ==> r == c as int - '0' as int - offset
    ensures c as int < '0' as int + offset ==> r >= TWO_TO_64 - '0' as int - offset
  {
    (c as int - '0' as int - offset) % TWO_TO_64
  }

  /**
   * The file a character names, with the test of Game.cpp:37-43: the
   * difference from '0' + 49 must be at most 7 as an unsigned number (the
   * test `file < 0` cannot hold for a UInt64). So 'a' .. 'h' give 0 .. 7.
   */
  function FileIndex(c: char): (r: Option<bv3>)
    ensures r.Some? <==> 'a' <= c <= 'h'
    ensures r.Some? ==> r.value as int == c as int - 'a' as int
  {
    var file := Unsigned(c, 49);
    if file > 7 then None else Some(file as bv3)
  }

  /** The rank a character names, with the test of Game.cpp:46-52: '1' .. '8' give 0 .. 7. */
  function RankIndex(c: char): (r: Option<bv3>)
    ensures r.Some? <==> '1' <= c <= '8'
    ensures r.Some? ==> r.value as int == c as int - '1' as int
  {
    var rank := Unsigned(c, 1);
    if rank > 7 then None else Some(rank as bv3)
  }

  /** The square of file f and rank r as Game.cpp:45, 54 build it: the file's bit of rank 1, shifted up by whole ranks. */
  function ParsedSquare(f: bv3, r: bv3): (s: bv64)
    ensures s == SquareAt(f, r)
  {
    (1 << f) << (8 * (r as bv7))
  }

  /**
   * The square a string names, or None: the string has exactly two
   * characters (Game.cpp:24-30), a file and then a rank.
   */
  function ParseSquare(s: string): (r: Option<bv64>)
    ensures r.Some? <==> |s| == 2 && 'a' <= s[0] <= 'h' && '1' <= s[1] <= '8'
    ensures r.Some? ==> r == Some(SquareAt(FileIndex(s[0]).value, RankIndex(s[1]).value))
  {
    if |s| != 2 then None
    else
      match (FileIndex(s[0]), RankIndex(s[1]))
      case (Some(f), Some(k)) => Some(ParsedSquare(f, k))
      case _ => None
  }

  /** The name of square i: its file letter and its rank digit. */
  function SquareName(i: bv6): (s: string)
    ensures |s| == 2 && 'a' <= s[0] <= 'h' && '1' <= s[1] <= '8'
  {
    [('a' as int + FileOf(i) as int) as char, ('1' as int + RankOf(i) as int) as char]
  }

  /** Every square's name parses back to that square. */
  lemma ParseName(i: bv6)
    ensures ParseSquare(SquareName(i)) == Some(Square(i))
  {
    var s := SquareName(i);
    var f, r := FileIndex(s[0]).value, RankIndex(s[1]).value;
    assert f == FileOf(i) && r == RankOf(i);
    NameIndex(i, f, r);
  }

  /** The square on the file and rank of square i is square i. */
  lemma NameIndex(i: bv6, f: bv3, r: bv3)
    requires f == FileOf(i) && r == RankOf(i)
    ensures SquareAt(f, r) == Square(i)
  {
    assert IndexAt(f, r) == i;
  }

  /** Every string that parses is the name of the square it parses to. */
  lemma NameParsed(s: string, x: bv64)
    requires ParseSquare(s) == Some(x)
    ensures exists i: bv6 :: x == Square(i) && SquareName(i) == s
  {
    var f, r := FileIndex(s[0]).value, RankIndex(s[1]).value;
    var i := IndexAt(f, r);
    assert SquareName(i) == s;
  }

  /**
   * ParseMove: both strings must name squares, and then the move goes from
   * the first to the second. The C function writes its Move only when both
   * parse (Game.cpp:75): on failure the result is the move passed in. Each
   * failure prints a message, which is not modelled.
   */
  method ParseMove(move: Move, fromSquare: string, endSquare: string) returns (valid: bool, result: Move)
    ensures valid == (ParseSquare(fromSquare).Some? && ParseSquare(endSquare).Some?)
    ensures valid ==> result == Move(ParseSquare(fromSquare).value, ParseSquare(endSquare).value)
    ensures !valid ==> result == move
  {
    if |fromSquare| < 2 || |endSquare| < 2 || |fromSquare| > 2 || |endSquare| > 2 {
      return false, move;
    }
    var file := Unsigned(fromSquare[0], 49);
    if file > 7 {
      return false, move;
    }
    var rank := Unsigned(fromSquare[1], 1);
    if rank > 7 {
      return false, move;
    }
    var start := ParsedSquare(file as bv3, rank as bv3);
    file := Unsigned(endSquare[0], 49);
    if file > 7 {
      return false, move;
    }
    rank := Unsigned(endSquare[1], 1);
    if rank > 7 {
      return false, move;
    }
    var end := ParsedSquare(file as bv3, rank as bv3);
    return true, Move(start, end);
  }

  /** "e2" to "e4" is the move from e2 to e4; a file past 'h' or a rank past '8' is refused. */
  lemma ParseExamples()
    ensures ParseSquare("e2") == Some(e2) && ParseSquare("e4") == Some(e4)
    ensures ParseSquare("i1") == None && ParseSquare("e9") == None && ParseSquare("e22") == None
  {
    SquareConstants();
  }
}
