/**
 * BoardCompleteMoveEx (Board.cpp:195-365) and the effect of
 * BoardPromotePawnEx (Board.cpp:145-180): the applier that moves A's piece
 * of type AType, removes B's piece of type BType from the destination, and
 * carries out en passant, castling, the rook flags and promotion. The
 * promotion choice, read from the console by the engine, is a parameter.
 */
module Applier {
  import opened Foundation
  import opened PieceSets

  /** The four answers the promotion prompt accepts: Q, R, B and N. */
  datatype Promotion = ToQueen | ToRook | ToBishop | ToKnight

  /** The type a promoted pawn becomes. */
  function PromotedType(p: Promotion): (t: PieceType)
    ensures t == Queen || t == Rook || t == Bishop || t == Knight
  {
    match p
    case ToQueen => Queen
    case ToRook => Rook
    case ToBishop => Bishop
    case ToKnight => Knight
  }

  /** Both sides after a move: the mover A and the other side B. */
  datatype Sides = Sides(mover: Pieces, other: Pieces)

  /**
   * The en passant test of Board.cpp:206-230: B's last move was a pawn's
   * double step (rank 7 to 5 for a White mover, rank 2 to 4 for Black) and
   * the destination lies just behind the pawn that made it.
   */
  predicate EnPassantPattern(a: Pieces, b: Pieces, m: Move)
  {
    var last := b.state.lastMove;
    b.state.lastMovedPiece == Pawn &&
    if a.color == White then
      Meets(last.endSquare, RANK_5) && Meets(last.startSquare, RANK_7) && Meets(m.endSquare >> 8, last.endSquare)
    else
      Meets(last.endSquare, RANK_4) && Meets(last.startSquare, RANK_2) && Meets(m.endSquare << 8, last.endSquare)
  }

  /** The rank on which a pawn of colour c promotes. */
  function LastRank(c: Color): bv64
  {
    if c == White then RANK_8 else RANK_1
  }

  /** A pawn move that promotes: it is not en passant and ends on the last rank. */
  predicate Promotes(a: Pieces, b: Pieces, m: Move)
  {
    !EnPassantPattern(a, b, m) && Meets(m.endSquare, LastRank(a.color))
  }

  /** A board after one of its pieces moves: the destination is added, then the origin removed. */
  function Moved(x: bv64, m: Move): bv64
  {
    Intersect(Join(x, m.endSquare), m.startSquare)
  }

  /** The side with the castling flags f set in addition to its own. */
  function WithFlags(a: Pieces, f: bv8): (r: Pieces)
    ensures r.state.castle == a.state.castle | f
    ensures SameIdentity(r, a)
  {
    a.(state := a.state.(castle := a.state.castle | f))
  }

  /** Colour, scratch boards and last move of a side: what the applier never changes. */
  predicate SameIdentity(x: Pieces, y: Pieces)
  {
    x.color == y.color && x.reserved == y.reserved && x.reserved2 == y.reserved2 &&
    x.state.lastMove == y.state.lastMove && x.state.lastMovedPiece == y.state.lastMovedPiece
  }

  /**
   * BoardPromotePawnEx with the answer p: the destination joins the board of
   * the chosen type, then leaves the pawns.
   */
  function Promote(a: Pieces, m: Move, p: Promotion): (r: Pieces)
    ensures r.pawns == Intersect(a.pawns, m.endSquare)
    ensures r.color == a.color && r.state == a.state && r.reserved == a.reserved && r.reserved2 == a.reserved2
  {
    match p
    case ToQueen => a.(queen := Join(a.queen, m.endSquare), pawns := Intersect(a.pawns, m.endSquare))
    case ToRook => a.(rooks := Join(a.rooks, m.endSquare), pawns := Intersect(a.pawns, m.endSquare))
    case ToBishop => a.(bishops := Join(a.bishops, m.endSquare), pawns := Intersect(a.pawns, m.endSquare))
    case ToKnight => a.(knights := Join(a.knights, m.endSquare), pawns := Intersect(a.pawns, m.endSquare))
  }

  /** A rook leaving its corner sets the flag of that side of the board (Board.cpp:250-271). */
  function RookLeaves(a: Pieces, m: Move): Pieces
  {
    WithFlags(a, CornerFlag(a.color, m.startSquare))
  }

  /** The flag a rook leaving from sets: none unless from is one of the side's two corners. */
  function CornerFlag(c: Color, from: bv64): bv8
  {
    if c == White then
      if from == a1 then QUEEN_ROOK_HAS_MOVED else if from == h1 then KING_ROOK_HAS_MOVED else 0
    else
      if from == a8 then QUEEN_ROOK_HAS_MOVED else if from == h8 then KING_ROOK_HAS_MOVED else 0
  }

  /** What castling does to the rooks: the flag it sets and the squares the rook leaves and reaches. */
  datatype RookJump = RookJump(flag: bv8, from: bv64, to: bv64)

  /** No castling: no flag, and no rook leaves or reaches a square. */
  const NoJump := RookJump(0, 0, 0)

  /**
   * The castle logic of Board.cpp:281-321, run after the king has moved: with
   * the king's flag clear, a king landing on g1 / c1 (g8 / c8) whose rook flag
   * is clear takes the rook from h1 to f1 / a1 to d1 (h8 to f8 / a8 to d8).
   * Nothing about the squares in between or the attacked squares is looked at.
   */
  function CastleJump(c: Color, castle: bv8, end: bv64): RookJump
  {
    if castle & KING_HAS_MOVED != 0 then NoJump
    else if c == White then
      if end == g1 && castle & KING_ROOK_HAS_MOVED == 0 then RookJump(KING_ROOK_HAS_MOVED, h1, f1)
      else if end == c1 && castle & QUEEN_ROOK_HAS_MOVED == 0 then RookJump(QUEEN_ROOK_HAS_MOVED, a1, d1)
      else NoJump
    else
      if end == g8 && castle & KING_ROOK_HAS_MOVED == 0 then RookJump(KING_ROOK_HAS_MOVED, h8, f8)
      else if end == c8 && castle & QUEEN_ROOK_HAS_MOVED == 0 then RookJump(QUEEN_ROOK_HAS_MOVED, a8, d8)
      else NoJump
  }

  /** The side after a rook jump: the jump's flag set, its rook origin emptied and its rook destination filled. */
  function Jumped(a: Pieces, j: RookJump): (r: Pieces)
    ensures r.rooks == Join(Intersect(a.rooks, j.from), j.to)
    ensures r.state.castle == a.state.castle | j.flag
    ensures SameIdentity(r, a)
  {
    WithBoard(WithFlags(a, j.flag), Rook, Join(Intersect(a.rooks, j.from), j.to))
  }

  /** The castle step applied to the side whose king has just moved; without castling it changes nothing. */
  function CastleRook(a: Pieces, m: Move): Pieces
  {
    Jumped(a, CastleJump(a.color, a.state.castle, m.endSquare))
  }

  /** The first step of every type's case: the destination joins the type's board, then the origin leaves it. */
  function Step(a: Pieces, t: PieceType, m: Move): (r: Pieces)
    requires t != NoPiece
    ensures BoardOf(r, t) == Moved(BoardOf(a, t), m)
    ensures r.color == a.color && r.state == a.state && r.reserved == a.reserved && r.reserved2 == a.reserved2
  {
    WithBoard(a, t, Moved(BoardOf(a, t), m))
  }

  /**
   * A after the first switch of BoardCompleteMoveEx. Every type's case takes
   * its first step; the pawn case then promotes, the rook case sets its flag,
   * and the king case castles and sets the king's flag. NONE changes nothing.
   */
  function MoverAfter(a: Pieces, t: PieceType, b: Pieces, m: Move, p: Promotion): Pieces
  {
    if t == NoPiece then a
    else if t == Pawn then (if Promotes(a, b, m) then Promote(Step(a, Pawn, m), m, p) else Step(a, Pawn, m))
    else if t == Rook then RookLeaves(Step(a, Rook, m), m)
    else if t == King then WithFlags(CastleRook(Step(a, King, m), m), KING_HAS_MOVED)
    else Step(a, t, m)
  }

  /** The square of the pawn an en passant capture takes: behind the destination, seen from the mover. */
  function PassedPawn(c: Color, m: Move): bv64
  {
    if c == White then m.endSquare >> 8 else m.endSquare << 8
  }

  /**
   * B after the second switch: a captured type's board loses the
   * destination; with nothing captured, an en passant move takes the passed
   * pawn.
   */
  function OtherAfter(a: Pieces, t: PieceType, b: Pieces, bt: PieceType, m: Move): Pieces
  {
    if bt != NoPiece then WithBoard(b, bt, Intersect(BoardOf(b, bt), m.endSquare))
    else if t == Pawn && EnPassantPattern(a, b, m) then WithBoard(b, Pawn, Intersect(b.pawns, PassedPawn(a.color, m)))
    else b
  }

  /** Both sides after BoardCompleteMoveEx. */
  function CompleteMove(a: Pieces, t: PieceType, b: Pieces, bt: PieceType, m: Move, p: Promotion): Sides
  {
    Sides(MoverAfter(a, t, b, m, p), OtherAfter(a, t, b, bt, m))
  }

  // ---------------------------------------------------------------------
  // Frames of the building blocks
  // ---------------------------------------------------------------------

  lemma FlagsKeepBoards(a: Pieces, f: bv8, u: PieceType)
    ensures BoardOf(WithFlags(a, f), u) == BoardOf(a, u)
  {
    match u
    case NoPiece =>
    case Pawn =>
    case Knight =>
    case Bishop =>
    case Rook =>
    case Queen =>
    case King =>
  }

  lemma StepKeeps(a: Pieces, t: PieceType, m: Move, u: PieceType)
    requires t != NoPiece && u != t
    ensures BoardOf(Step(a, t, m), u) == BoardOf(a, u)
  {
    WithBoardOthers(a, t, Moved(BoardOf(a, t), m), u);
  }

  lemma JumpedKeepsBoards(a: Pieces, j: RookJump, u: PieceType)
    requires u != Rook
    ensures BoardOf(Jumped(a, j), u) == BoardOf(a, u)
  {
    FlagsKeepBoards(a, j.flag, u);
    WithBoardOthers(WithFlags(a, j.flag), Rook, Join(Intersect(a.rooks, j.from), j.to), u);
  }

  /** The jump of a short castle. */
  lemma ShortJump(c: Color, castle: bv8, end: bv64)
    requires castle & (KING_HAS_MOVED | KING_ROOK_HAS_MOVED) == 0
    requires (c == White && end == g1) || (c == Black && end == g8)
    ensures CastleJump(c, castle, end) ==
      if c == White then RookJump(KING_ROOK_HAS_MOVED, h1, f1) else RookJump(KING_ROOK_HAS_MOVED, h8, f8)
  {
  }

  /** The jump of a long castle. */
  lemma LongJump(c: Color, castle: bv8, end: bv64)
    requires castle & (KING_HAS_MOVED | QUEEN_ROOK_HAS_MOVED) == 0
    requires (c == White && end == c1) || (c == Black && end == c8)
    ensures CastleJump(c, castle, end) ==
      if c == White then RookJump(QUEEN_ROOK_HAS_MOVED, a1, d1) else RookJump(QUEEN_ROOK_HAS_MOVED, a8, d8)
  {
  }

  /** No jump once the king has moved or when the king lands off the castle targets. */
  lemma NoJumpOffTargets(c: Color, castle: bv8, end: bv64)
    requires castle & KING_HAS_MOVED != 0 || (end != g1 && end != c1 && end != g8 && end != c8)
    ensures CastleJump(c, castle, end) == NoJump
  {
  }

  lemma PromoteAdds(a: Pieces, m: Move, p: Promotion)
    ensures BoardOf(Promote(a, m, p), PromotedType(p)) == Join(BoardOf(a, PromotedType(p)), m.endSquare)
  {
  }

  lemma PromoteKeeps(a: Pieces, m: Move, p: Promotion, u: PieceType)
    requires u != Pawn && u != PromotedType(p)
    ensures BoardOf(Promote(a, m, p), u) == BoardOf(a, u)
  {
    match p
    case ToQueen =>
    case ToRook =>
    case ToBishop =>
    case ToKnight =>
  }

  /** The king's whole case: its first step, the castle step and the king's flag. */
  lemma KingCase(a: Pieces, b: Pieces, m: Move, p: Promotion)
    ensures MoverAfter(a, King, b, m, p) ==
      WithFlags(Jumped(Step(a, King, m), CastleJump(a.color, a.state.castle, m.endSquare)), KING_HAS_MOVED)
  {
  }

  /** The rook's whole case: its first step and its corner flag. */
  lemma RookCase(a: Pieces, b: Pieces, m: Move, p: Promotion)
    ensures MoverAfter(a, Rook, b, m, p) == RookLeaves(Step(a, Rook, m), m)
  {
  }

  /** The pawn's case when it promotes. */
  lemma PromotingCase(a: Pieces, b: Pieces, m: Move, p: Promotion)
    requires Promotes(a, b, m)
    ensures MoverAfter(a, Pawn, b, m, p) == Promote(Step(a, Pawn, m), m, p)
  {
  }

  /** The cases that take the first step only. */
  lemma PlainCase(a: Pieces, t: PieceType, b: Pieces, m: Move, p: Promotion)
    requires t == Knight || t == Bishop || t == Queen || (t == Pawn && !Promotes(a, b, m))
    ensures MoverAfter(a, t, b, m, p) == Step(a, t, m)
  {
  }

  // ---------------------------------------------------------------------
  // What the applier changes on the moving side
  // ---------------------------------------------------------------------

  /** Unless a pawn promotes, the moving type's board loses the origin and gains the destination. */
  lemma MoverMovesPiece(a: Pieces, t: PieceType, b: Pieces, m: Move, p: Promotion)
    requires t != NoPiece && !(t == Pawn && Promotes(a, b, m))
    ensures BoardOf(MoverAfter(a, t, b, m, p), t) == Moved(BoardOf(a, t), m)
  {
    if t == Rook {
      RookCase(a, b, m, p);
      FlagsKeepBoards(Step(a, Rook, m), CornerFlag(a.color, m.startSquare), Rook);
    } else if t == King {
      KingCase(a, b, m, p);
      var j := CastleJump(a.color, a.state.castle, m.endSquare);
      JumpedKeepsBoards(Step(a, King, m), j, King);
      FlagsKeepBoards(Jumped(Step(a, King, m), j), KING_HAS_MOVED, King);
    } else {
      PlainCase(a, t, b, m, p);
    }
  }

  /** Unless a pawn promotes, the mover's other boards stay, except the rooks when the king castles. */
  lemma MoverKeepsOtherBoards(a: Pieces, t: PieceType, b: Pieces, m: Move, p: Promotion, u: PieceType)
    requires u != t && !(t == Pawn && Promotes(a, b, m)) && (t == King ==> u != Rook)
    ensures BoardOf(MoverAfter(a, t, b, m, p), u) == BoardOf(a, u)
  {
    if t == NoPiece {
    } else if t == Rook {
      RookCase(a, b, m, p);
      StepKeeps(a, Rook, m, u);
      FlagsKeepBoards(Step(a, Rook, m), CornerFlag(a.color, m.startSquare), u);
    } else if t == King {
      KingCase(a, b, m, p);
      StepKeeps(a, King, m, u);
      var j := CastleJump(a.color, a.state.castle, m.endSquare);
      JumpedKeepsBoards(Step(a, King, m), j, u);
      FlagsKeepBoards(Jumped(Step(a, King, m), j), KING_HAS_MOVED, u);
    } else {
      PlainCase(a, t, b, m, p);
      StepKeeps(a, t, m, u);
    }
  }

  /** The mover keeps its colour, its scratch boards and its last move. */
  lemma MoverKeepsIdentity(a: Pieces, t: PieceType, b: Pieces, m: Move, p: Promotion)
    ensures SameIdentity(MoverAfter(a, t, b, m, p), a)
  {
    if t == NoPiece {
    } else if t == Rook {
      RookCase(a, b, m, p);
    } else if t == King {
      KingCase(a, b, m, p);
    } else if t == Pawn && Promotes(a, b, m) {
      PromotingCase(a, b, m, p);
    } else {
      PlainCase(a, t, b, m, p);
    }
  }

  /** Only rook and king moves touch the castling flags. */
  lemma MoverKeepsFlags(a: Pieces, t: PieceType, b: Pieces, m: Move, p: Promotion)
    requires t != Rook && t != King
    ensures MoverAfter(a, t, b, m, p).state.castle == a.state.castle
  {
    if t == NoPiece {
    } else if t == Pawn && Promotes(a, b, m) {
      PromotingCase(a, b, m, p);
    } else {
      PlainCase(a, t, b, m, p);
    }
  }

  /** Castling flags are only ever set, never cleared. */
  lemma FlagsOnlyGrow(a: Pieces, t: PieceType, b: Pieces, m: Move, p: Promotion)
    ensures a.state.castle & !MoverAfter(a, t, b, m, p).state.castle == 0
  {
    if t == Rook {
      RookCase(a, b, m, p);
    } else if t == King {
      KingCase(a, b, m, p);
    } else {
      MoverKeepsFlags(a, t, b, m, p);
    }
  }

  /** A rook leaving a1 (White) or a8 (Black) sets the queen-rook flag. */
  lemma RookLeavesQueenCorner(a: Pieces, b: Pieces, m: Move, p: Promotion)
    requires (a.color == White && m.startSquare == a1) || (a.color == Black && m.startSquare == a8)
    ensures MoverAfter(a, Rook, b, m, p).state.castle == a.state.castle | QUEEN_ROOK_HAS_MOVED
  {
    RookCase(a, b, m, p);
  }

  /** A rook leaving h1 (White) or h8 (Black) sets the king-rook flag. */
  lemma RookLeavesKingCorner(a: Pieces, b: Pieces, m: Move, p: Promotion)
    requires (a.color == White && m.startSquare == h1) || (a.color == Black && m.startSquare == h8)
    ensures MoverAfter(a, Rook, b, m, p).state.castle == a.state.castle | KING_ROOK_HAS_MOVED
  {
    RookCase(a, b, m, p);
  }

  /** A rook move from anywhere but a corner sets no flag. */
  lemma RookLeavesElsewhere(a: Pieces, b: Pieces, m: Move, p: Promotion)
    requires m.startSquare != a1 && m.startSquare != h1 && m.startSquare != a8 && m.startSquare != h8
    ensures MoverAfter(a, Rook, b, m, p).state.castle == a.state.castle
  {
    RookCase(a, b, m, p);
    assert CornerFlag(a.color, m.startSquare) == 0;
  }

  /** Every king move sets the king's flag. */
  lemma KingSetsFlag(a: Pieces, b: Pieces, m: Move, p: Promotion)
    ensures MoverAfter(a, King, b, m, p).state.castle & KING_HAS_MOVED != 0
  {
    KingCase(a, b, m, p);
  }

  /** Short castling: the king's move onto g1 (g8) with both flags clear takes the rook from h1 to f1 (h8 to f8). */
  lemma ShortCastleMovesRook(a: Pieces, b: Pieces, m: Move, p: Promotion)
    requires a.state.castle & (KING_HAS_MOVED | KING_ROOK_HAS_MOVED) == 0
    requires (a.color == White && m.endSquare == g1) || (a.color == Black && m.endSquare == g8)
    ensures MoverAfter(a, King, b, m, p).rooks ==
      if a.color == White then Join(Intersect(a.rooks, h1), f1) else Join(Intersect(a.rooks, h8), f8)
  {
    KingCase(a, b, m, p);
    StepKeeps(a, King, m, Rook);
    FlagsKeepBoards(Jumped(Step(a, King, m), CastleJump(a.color, a.state.castle, m.endSquare)), KING_HAS_MOVED, Rook);
    ShortJump(a.color, a.state.castle, m.endSquare);
  }

  /** Long castling: the king's move onto c1 (c8) with both flags clear takes the rook from a1 to d1 (a8 to d8). */
  lemma LongCastleMovesRook(a: Pieces, b: Pieces, m: Move, p: Promotion)
    requires a.state.castle & (KING_HAS_MOVED | QUEEN_ROOK_HAS_MOVED) == 0
    requires (a.color == White && m.endSquare == c1) || (a.color == Black && m.endSquare == c8)
    ensures MoverAfter(a, King, b, m, p).rooks ==
      if a.color == White then Join(Intersect(a.rooks, a1), d1) else Join(Intersect(a.rooks, a8), d8)
  {
    KingCase(a, b, m, p);
    StepKeeps(a, King, m, Rook);
    FlagsKeepBoards(Jumped(Step(a, King, m), CastleJump(a.color, a.state.castle, m.endSquare)), KING_HAS_MOVED, Rook);
    LongJump(a.color, a.state.castle, m.endSquare);
  }

  /** Short castling sets the king-rook flag as well as the king's. */
  lemma ShortCastleSetsFlags(a: Pieces, b: Pieces, m: Move, p: Promotion)
    requires a.state.castle & (KING_HAS_MOVED | KING_ROOK_HAS_MOVED) == 0
    requires (a.color == White && m.endSquare == g1) || (a.color == Black && m.endSquare == g8)
    ensures MoverAfter(a, King, b, m, p).state.castle == a.state.castle | KING_ROOK_HAS_MOVED | KING_HAS_MOVED
  {
    KingCase(a, b, m, p);
    ShortJump(a.color, a.state.castle, m.endSquare);
  }

  /** Long castling sets the queen-rook flag as well as the king's. */
  lemma LongCastleSetsFlags(a: Pieces, b: Pieces, m: Move, p: Promotion)
    requires a.state.castle & (KING_HAS_MOVED | QUEEN_ROOK_HAS_MOVED) == 0
    requires (a.color == White && m.endSquare == c1) || (a.color == Black && m.endSquare == c8)
    ensures MoverAfter(a, King, b, m, p).state.castle == a.state.castle | QUEEN_ROOK_HAS_MOVED | KING_HAS_MOVED
  {
    KingCase(a, b, m, p);
    LongJump(a.color, a.state.castle, m.endSquare);
  }

  /** A king that has moved before, or moves anywhere but a castle target, leaves the rooks where they are. */
  lemma KingMoveKeepsRooks(a: Pieces, b: Pieces, m: Move, p: Promotion)
    requires a.state.castle & KING_HAS_MOVED != 0 ||
      (m.endSquare != g1 && m.endSquare != c1 && m.endSquare != g8 && m.endSquare != c8)
    ensures MoverAfter(a, King, b, m, p).rooks == a.rooks
  {
    KingCase(a, b, m, p);
    StepKeeps(a, King, m, Rook);
    FlagsKeepBoards(Jumped(Step(a, King, m), CastleJump(a.color, a.state.castle, m.endSquare)), KING_HAS_MOVED, Rook);
    NoJumpOffTargets(a.color, a.state.castle, m.endSquare);
  }

  /** A promoting pawn leaves the pawns altogether: neither its origin nor its destination holds a pawn. */
  lemma PromotionClearsPawn(a: Pieces, b: Pieces, m: Move, p: Promotion)
    requires Promotes(a, b, m)
    ensures MoverAfter(a, Pawn, b, m, p).pawns == Intersect(Moved(a.pawns, m), m.endSquare)
  {
    PromotingCase(a, b, m, p);
  }

  /** A promoting pawn's destination joins the board of the chosen type. */
  lemma PromotionAddsPiece(a: Pieces, b: Pieces, m: Move, p: Promotion)
    requires Promotes(a, b, m)
    ensures BoardOf(MoverAfter(a, Pawn, b, m, p), PromotedType(p)) == Join(BoardOf(a, PromotedType(p)), m.endSquare)
  {
    PromotingCase(a, b, m, p);
    PromoteAdds(Step(a, Pawn, m), m, p);
    StepKeeps(a, Pawn, m, PromotedType(p));
  }

  /** A promotion changes no board but the pawns and the chosen one. */
  lemma PromotionKeepsOtherBoards(a: Pieces, b: Pieces, m: Move, p: Promotion, u: PieceType)
    requires Promotes(a, b, m) && u != Pawn && u != PromotedType(p)
    ensures BoardOf(MoverAfter(a, Pawn, b, m, p), u) == BoardOf(a, u)
  {
    PromotingCase(a, b, m, p);
    PromoteKeeps(Step(a, Pawn, m), m, p, u);
    StepKeeps(a, Pawn, m, u);
  }

  /** An en passant move is never also a promotion: the pawn lands on the board it was moved on. */
  lemma EnPassantDoesNotPromote(a: Pieces, b: Pieces, m: Move, p: Promotion)
    requires EnPassantPattern(a, b, m)
    ensures MoverAfter(a, Pawn, b, m, p).pawns == Moved(a.pawns, m)
  {
    PlainCase(a, Pawn, b, m, p);
  }

  // ---------------------------------------------------------------------
  // What the applier changes on the other side
  // ---------------------------------------------------------------------

  /** B's state, and with it its castling flags and last move, never changes. */
  lemma OtherKeepsState(a: Pieces, t: PieceType, b: Pieces, bt: PieceType, m: Move)
    ensures OtherAfter(a, t, b, bt, m).state == b.state
  {
  }

  /** B keeps its colour, its scratch boards and its last move. */
  lemma OtherKeepsIdentity(a: Pieces, t: PieceType, b: Pieces, bt: PieceType, m: Move)
    ensures SameIdentity(OtherAfter(a, t, b, bt, m), b)
  {
  }

  /** A capture removes the destination from the captured type's board. */
  lemma CaptureClearsDestination(a: Pieces, t: PieceType, b: Pieces, bt: PieceType, m: Move)
    requires bt != NoPiece
    ensures BoardOf(OtherAfter(a, t, b, bt, m), bt) == Intersect(BoardOf(b, bt), m.endSquare)
  {
  }

  /** A capture changes no other board of B. */
  lemma CaptureKeepsOtherBoards(a: Pieces, t: PieceType, b: Pieces, bt: PieceType, m: Move, u: PieceType)
    requires bt != NoPiece && u != bt
    ensures BoardOf(OtherAfter(a, t, b, bt, m), u) == BoardOf(b, u)
  {
    WithBoardOthers(b, bt, Intersect(BoardOf(b, bt), m.endSquare), u);
  }

  /** En passant by White onto an empty destination removes B's pawn on the square below it. */
  lemma WhiteEnPassantRemovesPawn(a: Pieces, b: Pieces, m: Move)
    requires a.color == White && EnPassantPattern(a, b, m)
    ensures OtherAfter(a, Pawn, b, NoPiece, m).pawns == Intersect(b.pawns, m.endSquare >> 8)
  {
  }

  /** En passant by Black onto an empty destination removes B's pawn on the square above it. */
  lemma BlackEnPassantRemovesPawn(a: Pieces, b: Pieces, m: Move)
    requires a.color == Black && EnPassantPattern(a, b, m)
    ensures OtherAfter(a, Pawn, b, NoPiece, m).pawns == Intersect(b.pawns, m.endSquare << 8)
  {
  }

  /** En passant changes no other board of B. */
  lemma EnPassantKeepsOtherBoards(a: Pieces, b: Pieces, m: Move, u: PieceType)
    requires u != Pawn
    ensures BoardOf(OtherAfter(a, Pawn, b, NoPiece, m), u) == BoardOf(b, u)
  {
    WithBoardOthers(b, Pawn, Intersect(b.pawns, PassedPawn(a.color, m)), u);
  }

  /** A move onto an empty square that is not en passant leaves B as it was. */
  lemma QuietMoveKeepsOther(a: Pieces, t: PieceType, b: Pieces, m: Move)
    requires !(t == Pawn && EnPassantPattern(a, b, m))
    ensures OtherAfter(a, t, b, NoPiece, m) == b
  {
  }
}
