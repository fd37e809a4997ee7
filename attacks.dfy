/**
 * The full king generator PiecesKingMove (Pieces.cpp:912-966), the attack
 * aggregator PiecesGetAttackSquares (977-988), the check test
 * PiecesIsKingInCheck (990-1001) and the type-to-generator dispatch of
 * BoardGetPieceMoveCallbackEx (Board.cpp:582-602).
 *
 * Each is given as a function, which the other functions and the lemmas
 * use, and as a method that calls the wrapper loops the way the engine does.
 */
module Attacks {
  import opened Foundation
  import opened PieceSets
  import opened Pawns
  import opened Leapers
  import opened Generators

  // ---------------------------------------------------------------------
  // PiecesGetAttackSquares (Pieces.cpp:977-988)
  // ---------------------------------------------------------------------

  /**
   * The squares A attacks: the pawns' diagonal steps, the knight jumps, the
   * bishop, rook and queen wrappers and the king's neighbours. The king part
   * is the fast one, so no castling and no look at B's attacks.
   */
  function AttackSquares(a: Pieces, b: Pieces): bv64
  {
    Join(Join(Join(Join(Join(PawnMoveFast(a, b), KnightMove(a, b)), Sweep(Bishop, a, b)), Sweep(Rook, a, b)),
      Sweep(Queen, a, b)), KingMoveFast(a, b))
  }

  /** PiecesGetAttackSquares, calling the three sliding wrappers. */
  method GetAttackSquares(a: Pieces, b: Pieces) returns (squares: bv64)
    ensures squares == AttackSquares(a, b)
  {
    var bishops := SweepMoves(Bishop, a, b);
    var rooks := SweepMoves(Rook, a, b);
    var queens := SweepMoves(Queen, a, b);
    squares := PawnMoveFast(a, b);
    squares := Join(squares, KnightMove(a, b));
    squares := Join(squares, bishops);
    squares := Join(squares, rooks);
    squares := Join(squares, queens);
    squares := Join(squares, KingMoveFast(a, b));
  }

  /** A side with no pieces attacks nothing. */
  lemma NothingAttacks(a: Pieces, b: Pieces)
    requires Occupied(a) == 0
    ensures AttackSquares(a, b) == 0
  {
    EmptyBoards(a);
  }

  /** A side with no pieces has every board empty. */
  lemma EmptyBoards(a: Pieces)
    requires Occupied(a) == 0
    ensures a.pawns == 0 && a.knights == 0 && a.bishops == 0
    ensures a.rooks == 0 && a.queen == 0 && a.king == 0
  {
  }

  // ---------------------------------------------------------------------
  // PiecesIsKingInCheck (Pieces.cpp:990-1001)
  // ---------------------------------------------------------------------

  /** A's king stands on a square that B attacks. */
  predicate InCheck(a: Pieces, b: Pieces)
  {
    Meets(AttackSquares(b, a), a.king)
  }

  /** PiecesIsKingInCheck. */
  method IsKingInCheck(a: Pieces, b: Pieces) returns (check: bool)
    ensures check == InCheck(a, b)
  {
    var attacked := GetAttackSquares(b, a);
    check := Meets(attacked, a.king);
  }

  /** A side without a king, or facing a side without pieces, is never in check. */
  lemma NeverInCheck(a: Pieces, b: Pieces)
    requires a.king == 0 || Occupied(b) == 0
    ensures !InCheck(a, b)
  {
    if Occupied(b) == 0 {
      NothingAttacks(b, a);
    }
  }

  // ---------------------------------------------------------------------
  // Castling in PiecesKingMove (Pieces.cpp:929-962)
  // ---------------------------------------------------------------------

  /** The file squares a castling king lands on. */
  const CastleTargets: bv64 := g1 | c1 | g8 | c8

  /** The king has not moved and stands on no attacked square, so castling may be added. */
  predicate MayCastle(a: Pieces, attacked: bv64)
  {
    a.state.castle & KING_HAS_MOVED == 0 && !Meets(a.king, attacked)
  }

  /**
   * The square the short castle adds: g1 for White when f1 and g1 are
   * unattacked, g8 for Black when f8 and g8 are, nothing once the king's
   * rook has moved.
   */
  function ShortCastle(a: Pieces, attacked: bv64): (s: bv64)
    ensures s == 0 || s == g1 || s == g8
    ensures s == g1 ==> a.state.castle & KING_ROOK_HAS_MOVED == 0 && a.color == White && !Meets(attacked, f1 | g1)
    ensures a.state.castle & KING_ROOK_HAS_MOVED == 0 && a.color == White && !Meets(attacked, f1 | g1) ==> s == g1
    ensures s == g8 ==> a.state.castle & KING_ROOK_HAS_MOVED == 0 && a.color == Black && !Meets(attacked, f8 | g8)
    ensures a.state.castle & KING_ROOK_HAS_MOVED == 0 && a.color == Black && !Meets(attacked, f8 | g8) ==> s == g8
  {
    if a.state.castle & KING_ROOK_HAS_MOVED != 0 then 0
    else if a.color == White && !Meets(attacked, f1 | g1) then g1
    else if a.color == Black && !Meets(attacked, f8 | g8) then g8
    else 0
  }

  /** The square the long castle adds: c1 (c8) when d1 and c1 (d8 and c8) are unattacked, nothing once the queen's rook has moved. */
  function LongCastle(a: Pieces, attacked: bv64): (s: bv64)
    ensures s == 0 || s == c1 || s == c8
    ensures s == c1 ==> a.state.castle & QUEEN_ROOK_HAS_MOVED == 0 && a.color == White && !Meets(attacked, d1 | c1)
    ensures a.state.castle & QUEEN_ROOK_HAS_MOVED == 0 && a.color == White && !Meets(attacked, d1 | c1) ==> s == c1
    ensures s == c8 ==> a.state.castle & QUEEN_ROOK_HAS_MOVED == 0 && a.color == Black && !Meets(attacked, d8 | c8)
    ensures a.state.castle & QUEEN_ROOK_HAS_MOVED == 0 && a.color == Black && !Meets(attacked, d8 | c8) ==> s == c8
  {
    if a.state.castle & QUEEN_ROOK_HAS_MOVED != 0 then 0
    else if a.color == White && !Meets(attacked, d1 | c1) then c1
    else if a.color == Black && !Meets(attacked, d8 | c8) then c8
    else 0
  }

  /** Both castles, tried only when the king may castle at all. */
  function Castles(a: Pieces, attacked: bv64, moves: bv64): bv64
  {
    if MayCastle(a, attacked) then Join(Join(moves, ShortCastle(a, attacked)), LongCastle(a, attacked)) else moves
  }

  /** A castle target is never an attacked square: its own square is among the two the castle checks. */
  lemma CastleSquaresSafe(a: Pieces, attacked: bv64)
    ensures !Meets(ShortCastle(a, attacked), attacked) && !Meets(LongCastle(a, attacked), attacked)
    ensures ShortCastle(a, attacked) & !CastleTargets == 0 && LongCastle(a, attacked) & !CastleTargets == 0
  {
  }

  /** Castling never removes a square. */
  lemma CastlesKeepMoves(a: Pieces, attacked: bv64, moves: bv64)
    ensures Intersect(moves, Castles(a, attacked, moves)) == 0
  {
    if MayCastle(a, attacked) {
      JoinKeeps(moves, ShortCastle(a, attacked), LongCastle(a, attacked));
    }
  }

  /** Castling adds castle targets only. */
  lemma CastlesAddTargets(a: Pieces, attacked: bv64, moves: bv64)
    ensures Intersect(Castles(a, attacked, moves), moves) & !CastleTargets == 0
  {
    if MayCastle(a, attacked) {
      CastleSquaresSafe(a, attacked);
      JoinAddsWithin(moves, ShortCastle(a, attacked), LongCastle(a, attacked), CastleTargets);
    }
  }

  /** Castling adds no attacked square. */
  lemma CastlesAddUnattacked(a: Pieces, attacked: bv64, moves: bv64)
    ensures Intersect(Castles(a, attacked, moves), moves) & attacked == 0
  {
    if MayCastle(a, attacked) {
      CastleSquaresSafe(a, attacked);
      JoinAddsOutside(moves, ShortCastle(a, attacked), LongCastle(a, attacked), attacked);
    }
  }

  /** A king that has moved, or stands on an attacked square, gains no castle. */
  lemma CastlesNeedSafeUnmovedKing(a: Pieces, attacked: bv64, moves: bv64)
    requires a.state.castle & KING_HAS_MOVED != 0 || Meets(a.king, attacked)
    ensures Castles(a, attacked, moves) == moves
  {
  }

  // ---------------------------------------------------------------------
  // PiecesKingMove (Pieces.cpp:912-966)
  // ---------------------------------------------------------------------

  /**
   * PiecesKingMove: with FastSearch the neighbours A does not hold; without
   * it those neighbours that B does not attack, plus the castles. The castle
   * test looks at attacks only, so the squares between king and rook may be
   * occupied.
   */
  function KingMoves(a: Pieces, b: Pieces, fast: bool): bv64
  {
    if fast then KingMoveFast(a, b)
    else
      var attacked := AttackSquares(b, a);
      Castles(a, attacked, Intersect(KingMoveFast(a, b), attacked))
  }

  /** PiecesKingMove. */
  method KingMove(a: Pieces, b: Pieces, fast: bool) returns (moves: bv64)
    ensures moves == KingMoves(a, b, fast)
  {
    moves := KingMoveFast(a, b);
    if fast {
      return;
    }
    var attacked := GetAttackSquares(b, a);
    moves := Intersect(moves, attacked);
    moves := Castles(a, attacked, moves);
  }

  /** Without FastSearch the king never goes to a square B attacks. */
  lemma KingMovesUnattacked(a: Pieces, b: Pieces)
    ensures !Meets(KingMoves(a, b, false), AttackSquares(b, a))
  {
    var attacked := AttackSquares(b, a);
    var free := Intersect(KingMoveFast(a, b), attacked);
    CastlesAddUnattacked(a, attacked, free);
    RemovedAvoids(KingMoveFast(a, b), attacked);
    AddedAvoids(free, Castles(a, attacked, free), attacked);
  }

  /** Without FastSearch the king gets, besides its free neighbours, at most the castle targets. */
  lemma KingMovesWithinReach(a: Pieces, b: Pieces)
    ensures Intersect(KingMoves(a, b, false), KingMoveFast(a, b)) & !CastleTargets == 0
  {
    var attacked := AttackSquares(b, a);
    var free := Intersect(KingMoveFast(a, b), attacked);
    CastlesAddTargets(a, attacked, free);
    RemovedWithin(KingMoveFast(a, b), attacked);
    AddedWithin(KingMoveFast(a, b), free, Castles(a, attacked, free), CastleTargets);
  }

  /** A king whose flag says it has moved gets no castle. */
  lemma KingMovesAfterKingMoved(a: Pieces, b: Pieces)
    requires a.state.castle & KING_HAS_MOVED != 0
    ensures KingMoves(a, b, false) == Intersect(KingMoveFast(a, b), AttackSquares(b, a))
  {
    var attacked := AttackSquares(b, a);
    CastlesNeedSafeUnmovedKing(a, attacked, Intersect(KingMoveFast(a, b), attacked));
  }

  /** KingMovement of UnitTest.cpp:286-298: after BoardZeroInit, a king on d4 next to its own bishop on d5. */
  lemma KingMovementTest(a: Pieces, b: Pieces)
    requires a == EmptySide(White).(king := d4, bishops := d5, state := NoState.(castle := 0x7))
    requires Occupied(b) == 0
    ensures KingMoves(a, b, false) == 0x14141C0000
  {
    KingMovesUnopposed(a, b);
    assert KingMoveFast(a, b) == 0x14141C0000;
  }

  /** Facing a side with no pieces, the king gets its free neighbours and every castle its flags allow. */
  lemma KingMovesUnopposed(a: Pieces, b: Pieces)
    requires Occupied(b) == 0
    ensures KingMoves(a, b, false) == Castles(a, 0, KingMoveFast(a, b))
  {
    NothingAttacks(b, a);
    assert Intersect(KingMoveFast(a, b), 0) == KingMoveFast(a, b);
  }

  /**
   * KingCastle of UnitTest.cpp:329-342: after BoardZeroInit with White's
   * flags cleared, the king on e1 and rooks on a1 and h1 may castle both
   * ways.
   */
  lemma KingCastleTest(a: Pieces, b: Pieces)
    requires a == EmptySide(White).(king := e1, rooks := a1 | h1)
    requires Occupied(b) == 0
    ensures KingMoves(a, b, false) == 0x386C
  {
    KingMovesUnopposed(a, b);
    assert KingMoveFast(a, b) == 0x3828;
  }

  // ---------------------------------------------------------------------
  // BoardGetPieceMoveCallbackEx (Board.cpp:582-602)
  // ---------------------------------------------------------------------

  /** The generator the callback table names for a piece type; KING is PiecesKingMove with FastSearch false. */
  function PieceMoves(t: PieceType, a: Pieces, b: Pieces): bv64
    requires t != NoPiece
  {
    match t
    case Pawn => Sweep(Pawn, a, b)
    case Knight => KnightMove(a, b)
    case Bishop => Sweep(Bishop, a, b)
    case Rook => Sweep(Rook, a, b)
    case Queen => Sweep(Queen, a, b)
    case King => KingMoves(a, b, false)
  }

  /** The call through the callback. */
  method PieceMovesOf(t: PieceType, a: Pieces, b: Pieces) returns (moves: bv64)
    requires t != NoPiece
    ensures moves == PieceMoves(t, a, b)
  {
    match t
    case Pawn => moves := SweepMoves(Pawn, a, b);
    case Knight => moves := KnightMove(a, b);
    case Bishop => moves := SweepMoves(Bishop, a, b);
    case Rook => moves := SweepMoves(Rook, a, b);
    case Queen => moves := SweepMoves(Queen, a, b);
    case King => moves := KingMove(a, b, false);
  }

  /** Every generator of the table gives nothing for an empty board of its type. */
  lemma PieceMovesOfNothing(t: PieceType, a: Pieces, b: Pieces)
    requires t != NoPiece && BoardOf(a, t) == 0
    ensures t != King ==> PieceMoves(t, a, b) == 0
    ensures t == King ==> PieceMoves(t, a, b) & !CastleTargets == 0
  {
    if t == King {
      KingMovesWithinReach(a, b);
    }
  }
}
