/** Pseudo-legal move generation (src/chess/moves.rs). Every generator of the
    source builds a vector by pushing moves inside loops over bitboards; here
    each generator is a method whose loops are proved to build exactly the
    sequence a specification function describes, and what the generated moves
    look like is proved about those functions. */
module Moves {
  import opened Wrappers
  import opened Squares
  import opened Sides
  import opened Bitboards
  import opened MoveTables
  import opened Boards
  import opened Games

  /** `Move`. A promotion code of 0 means both "no promotion" and the first of
      the three promotion choices, as in the source. */
  datatype Move = Move(from: Square, to: Square, capture: bool, enPassant: bool, promotion: U8)

  // Specification functions. Sequences are built back to front (the last
  // element split off), the way a loop that pushes onto a vector extends them.

  /** One move per target, in order: from `from`, a capture exactly when the
      opponent occupies the target, never en passant, promotion 0. */
  function TargetMoves(from: Square, targets: seq<Square>, opponentOccupied: Bitboard): (r: seq<Move>)
    ensures |r| == |targets|
    ensures forall i :: 0 <= i < |targets| ==> r[i] == Move(from, targets[i], opponentOccupied.IsSet(targets[i]), false, 0)
  {
    if |targets| == 0 then []
    else
      var to := targets[|targets| - 1];
      TargetMoves(from, targets[..|targets| - 1], opponentOccupied) + [Move(from, to, opponentOccupied.IsSet(to), false, 0)]
  }

  /** The records of `TargetMoves` are exactly the moves from `from` to a
      target, flagged as captures exactly when the opponent holds the target. */
  lemma TargetMovesExact(from: Square, targets: seq<Square>, opponentOccupied: Bitboard)
    ensures forall m :: m in TargetMoves(from, targets, opponentOccupied) <==>
              m.from == from && m.to in targets && m.capture == opponentOccupied.IsSet(m.to) &&
              !m.enPassant && m.promotion == 0
  {
    var r := TargetMoves(from, targets, opponentOccupied);
    forall m ensures m in r <==> m.from == from && m.to in targets && m.capture == opponentOccupied.IsSet(m.to) &&
                                 !m.enPassant && m.promotion == 0 {
      if m in r {
        var i :| 0 <= i < |r| && r[i] == m;
        assert targets[i] in targets;
      }
      if m.from == from && m.to in targets && m.capture == opponentOccupied.IsSet(m.to) && !m.enPassant &&
         m.promotion == 0 {
        var i :| 0 <= i < |targets| && targets[i] == m.to;
        assert r[i] == m;
      }
    }
  }

  /** Ascending targets give records with ascending targets. */
  lemma TargetMovesAscending(from: Square, targets: seq<Square>, opponentOccupied: Bitboard)
    requires forall i, j :: 0 <= i < j < |targets| ==> targets[i] < targets[j]
    ensures var r := TargetMoves(from, targets, opponentOccupied);
            forall i, j :: 0 <= i < j < |r| ==> r[i].to < r[j].to
  {
  }

  /** What `generate_ray_moves` returns: exactly the moves from `from` to the
      squares of the attack table that our pieces leave free, a capture exactly
      when the opponent holds the target, never en passant, promotion 0; the
      targets strictly ascend, so none is repeated. */
  function RayMoves(from: Square, ourOccupied: Bitboard, opponentOccupied: Bitboard, attackTable: Bitboard): (r: seq<Move>)
    ensures forall m :: m in r <==>
              m.from == from && attackTable.IsSet(m.to) && !ourOccupied.IsSet(m.to) &&
              m.capture == opponentOccupied.IsSet(m.to) && !m.enPassant && m.promotion == 0
    ensures forall i, j :: 0 <= i < j < |r| ==> r[i].to < r[j].to
  {
    var free := attackTable.And(ourOccupied.Not());
    var targets := free.Squares();
    TargetMovesExact(from, targets, opponentOccupied);
    TargetMovesAscending(from, targets, opponentOccupied);
    assert forall m: Move :: m.to in targets <==> attackTable.IsSet(m.to) && !ourOccupied.IsSet(m.to) by {
      forall m: Move ensures m.to in targets <==> attackTable.IsSet(m.to) && !ourOccupied.IsSet(m.to) {
        assert m.to in targets <==> free.IsSet(m.to);
      }
    }
    TargetMoves(from, targets, opponentOccupied)
  }

  /** The attack-table lookups of the pieces other than pawns, as functions of
      the origin square for a given occupancy. */
  function KnightAttacks(occupied: Bitboard): Square -> Bitboard {
    (s: Square) => AttackTableKnight(occupied, s)
  }

  function BishopAttacks(occupied: Bitboard): Square -> Bitboard {
    (s: Square) => SliderAttacks(true, false, occupied, s)
  }

  function RookAttacks(occupied: Bitboard): Square -> Bitboard {
    (s: Square) => SliderAttacks(false, true, occupied, s)
  }

  function QueenAttacks(occupied: Bitboard): Square -> Bitboard {
    (s: Square) => SliderAttacks(true, true, occupied, s)
  }

  function KingAttacks(occupied: Bitboard): Square -> Bitboard {
    (s: Square) => AttackTableKing(occupied, s)
  }

  /** The moves of the pieces standing on `froms`, origin after origin, each
      origin's targets taken from `attacks`: exactly the moves from one of
      those origins to a square of its entry that our pieces leave free,
      flagged as in `RayMoves`. */
  function PieceMoves(froms: seq<Square>, attacks: Square -> Bitboard, ourOccupied: Bitboard,
                      opponentOccupied: Bitboard): (r: seq<Move>)
    ensures forall m :: m in r <==>
              m.from in froms && attacks(m.from).IsSet(m.to) && !ourOccupied.IsSet(m.to) &&
              m.capture == opponentOccupied.IsSet(m.to) && !m.enPassant && m.promotion == 0
  {
    if |froms| == 0 then []
    else
      var from := froms[|froms| - 1];
      assert froms == froms[..|froms| - 1] + [from];
      PieceMoves(froms[..|froms| - 1], attacks, ourOccupied, opponentOccupied) +
      RayMoves(from, ourOccupied, opponentOccupied, attacks(from))
  }

  /** `promotion_rank`: 7 for White, 0 for Black. */
  function PromotionRank(side: Side): nat {
    if side == White then 7 else 0
  }

  /** `side_offset` of the en-passant test: -1 for White, +1 for Black. */
  function EpOffset(side: Side): int {
    if side == White then -1 else 1
  }

  /** The records of one pawn push or capture to `to`: on the promotion rank
      three of them, with promotion codes 0, 1 and 2; elsewhere one, with code
      0. As a set, every record from `from` to `to` with that capture flag,
      not en passant, and a code the rank allows. */
  function Promotions(from: Square, to: Square, capture: bool, promotionRank: nat): (r: seq<Move>)
    ensures |r| == if Rank(to) == promotionRank then 3 else 1
    ensures forall i :: 0 <= i < |r| ==> r[i] == Move(from, to, capture, false, i)
    ensures forall m :: m in r <==>
              m.from == from && m.to == to && m.capture == capture && !m.enPassant &&
              (if Rank(to) == promotionRank then m.promotion < 3 else m.promotion == 0)
  {
    var r := if Rank(to) == promotionRank then
               [Move(from, to, capture, false, 0), Move(from, to, capture, false, 1), Move(from, to, capture, false, 2)]
             else
               [Move(from, to, capture, false, 0)];
    assert forall m: Move | m.from == from && m.to == to && m.capture == capture && !m.enPassant &&
                            (if Rank(to) == promotionRank then m.promotion < 3 else m.promotion == 0) :: m in r by {
      forall m: Move | m.from == from && m.to == to && m.capture == capture && !m.enPassant &&
                       (if Rank(to) == promotionRank then m.promotion < 3 else m.promotion == 0)
        ensures m in r
      {
        assert r[m.promotion] == m;
      }
    }
    r
  }

  /** The records of the pushes or of the captures of one pawn, target after
      target: one per target, three on the promotion rank. */
  function PawnTargetMoves(from: Square, targets: seq<Square>, capture: bool, promotionRank: nat): (r: seq<Move>)
    ensures forall m :: m in r <==>
              m.from == from && m.to in targets && m.capture == capture && !m.enPassant &&
              (if Rank(m.to) == promotionRank then m.promotion < 3 else m.promotion == 0)
  {
    if |targets| == 0 then []
    else
      assert targets == targets[..|targets| - 1] + [targets[|targets| - 1]];
      PawnTargetMoves(from, targets[..|targets| - 1], capture, promotionRank) +
      Promotions(from, targets[|targets| - 1], capture, promotionRank)
  }

  /** The single-push square, if the board has one, is empty. */
  predicate AheadFree(side: Side, from: Square, occupied: Bitboard) {
    forall u: Square :: PushTarget(side, from, u) ==> !occupied.IsSet(u)
  }

  /** `move_board` after the double-push step: the empty single-push square,
      and the empty double-push square when the single-push square is empty
      too. */
  function PushBoard(side: Side, from: Square, occupied: Bitboard): (r: Bitboard)
    ensures forall t: Square :: r.IsSet(t) <==>
              !occupied.IsSet(t) &&
              (PushTarget(side, from, t) || (DoublePushTarget(side, from, t) && AheadFree(side, from, occupied)))
  {
    var single := PawnMoveBoard(side, from).And(occupied.Not());
    var r := if single.Data() != 0 then single.Or(PawnDoubleMoveBoard(side, from).And(occupied.Not())) else single;
    assert forall t: Square :: r.IsSet(t) <==>
             !occupied.IsSet(t) &&
             (PushTarget(side, from, t) || (DoublePushTarget(side, from, t) && AheadFree(side, from, occupied))) by {
      forall t: Square {
        SinglePushBoard(side, from, occupied, t);
      }
    }
    r
  }

  /** The single-push board is empty exactly when the single-push square is not free. */
  lemma SinglePushBoard(side: Side, from: Square, occupied: Bitboard, t: Square)
    ensures PawnMoveBoard(side, from).And(occupied.Not()).Data() != 0 ==> AheadFree(side, from, occupied)
    ensures PawnMoveBoard(side, from).And(occupied.Not()).Data() == 0 ==>
            (DoublePushTarget(side, from, t) ==> !AheadFree(side, from, occupied))
  {
    if PawnMoveBoard(side, from).And(occupied.Not()).data != 0 {
      SinglePushFree(side, from, occupied);
    } else if DoublePushTarget(side, from, t) {
      SinglePushBlocked(side, from, occupied, t);
    }
  }

  lemma SinglePushFree(side: Side, from: Square, occupied: Bitboard)
    requires PawnMoveBoard(side, from).And(occupied.Not()).data != 0
    ensures AheadFree(side, from, occupied)
  {
    var v := PawnMoveBoard(side, from).And(occupied.Not()).FindFirst();
    forall u: Square | PushTarget(side, from, u) ensures !occupied.IsSet(u) {
      PushTargetUnique(side, from, u, v);
    }
  }

  lemma SinglePushBlocked(side: Side, from: Square, occupied: Bitboard, t: Square)
    requires PawnMoveBoard(side, from).And(occupied.Not()).data == 0
    requires DoublePushTarget(side, from, t)
    ensures !AheadFree(side, from, occupied)
  {
    var u := At(File(from), Rank(from) + Forward(side));
    assert PushTarget(side, from, u);
    if !occupied.IsSet(u) {
      MemberNonZero(PawnMoveBoard(side, from).And(occupied.Not()), u);
    }
  }

  /** `(x as i8) as u8`, masked to three bits, is x modulo 8. */
  lemma AsU8Mod8(x: int)
    ensures AsU8(x) % 8 == x % 8
  {
    assert x == 256 * (x / 256) + AsU8(x);
  }

  /** The square `new_file_rank` builds from an offset of `from`'s file and
      rank, through the source's `i8` to `u8` casts. */
  lemma OffsetSquare(from: Square, fileOffset: int, rankOffset: int, e: Square)
    ensures NewFileRank(AsU8(File(from) + fileOffset), AsU8(Rank(from) + rankOffset)) == e <==>
            File(e) == (File(from) + fileOffset) % 8 && Rank(e) == (Rank(from) + rankOffset) % 8
  {
    var s := NewFileRank(AsU8(File(from) + fileOffset), AsU8(Rank(from) + rankOffset));
    AsU8Mod8(File(from) + fileOffset);
    AsU8Mod8(Rank(from) + rankOffset);
    if File(e) == File(s) && Rank(e) == Rank(s) {
      SquareFromCoordinates(e, s);
    }
  }

  /** `ep_board`, computed with the source's `i8` and `u8` conversions: the
      en-passant square, exactly when there is one, it lies `EpOffset` ranks
      away and on an adjacent file, where both the rank and the file wrap
      around the board edge (modulo 8). */
  function EpBoard(side: Side, from: Square, epSquare: Option<Square>): (r: Bitboard)
    ensures forall t: Square :: r.IsSet(t) <==>
              epSquare == Some(t) && Rank(t) == (Rank(from) + EpOffset(side)) % 8 &&
              (File(t) == (File(from) - 1) % 8 || File(t) == (File(from) + 1) % 8)
  {
    match epSquare
    case None => Bitboard.New()
    case Some(e) =>
      var west := NewFileRank(AsU8(File(from) + -1), AsU8(Rank(from) + EpOffset(side)));
      var east := NewFileRank(AsU8(File(from) + 1), AsU8(Rank(from) + EpOffset(side)));
      OffsetSquare(from, -1, EpOffset(side), e);
      OffsetSquare(from, 1, EpOffset(side), e);
      if west == e || east == e then Bitboard.New().Set(e) else Bitboard.New()
  }

  /** The en-passant records of one pawn, target after target: a capture, en
      passant, promotion 0, onto each target. */
  function EpMoves(from: Square, targets: seq<Square>): (r: seq<Move>)
    ensures forall m :: m in r <==>
              m.from == from && m.to in targets && m.capture && m.enPassant && m.promotion == 0
  {
    if |targets| == 0 then []
    else
      assert targets == targets[..|targets| - 1] + [targets[|targets| - 1]];
      EpMoves(from, targets[..|targets| - 1]) + [Move(from, targets[|targets| - 1], true, true, 0)]
  }

  /** The moves of one pawn given the targets of its push, capture and
      en-passant boards: pushes, then normal captures, then en passant. */
  function PawnTargetsMoves(from: Square, pushTargets: seq<Square>, captureTargets: seq<Square>,
                            epTargets: seq<Square>, promotionRank: nat): seq<Move> {
    PawnTargetMoves(from, pushTargets, false, promotionRank) +
    PawnTargetMoves(from, captureTargets, true, promotionRank) +
    EpMoves(from, epTargets)
  }

  /** The moves of one pawn: pushes to its push board, normal captures to
      its capture squares the opponent holds, each with a promotion code the
      target rank allows, and en-passant captures to its en-passant board. */
  function PawnMovesFrom(side: Side, from: Square, occupied: Bitboard, opponentOccupied: Bitboard,
                         epSquare: Option<Square>): (r: seq<Move>)
    ensures forall m :: m in r <==>
              m.from == from &&
              ((!m.capture && !m.enPassant && PushBoard(side, from, occupied).IsSet(m.to) &&
                (if Rank(m.to) == PromotionRank(side) then m.promotion < 3 else m.promotion == 0)) ||
               (m.capture && !m.enPassant && PawnAttackBoard(side, from).And(opponentOccupied).IsSet(m.to) &&
                (if Rank(m.to) == PromotionRank(side) then m.promotion < 3 else m.promotion == 0)) ||
               (m.capture && m.enPassant && m.promotion == 0 && EpBoard(side, from, epSquare).IsSet(m.to)))
  {
    PawnTargetsMoves(from, PushBoard(side, from, occupied).Squares(),
                     PawnAttackBoard(side, from).And(opponentOccupied).Squares(),
                     EpBoard(side, from, epSquare).Squares(), PromotionRank(side))
  }

  /** The moves of each pawn, as a function of its square. */
  function PawnMover(side: Side, occupied: Bitboard, opponentOccupied: Bitboard,
                     epSquare: Option<Square>): Square -> seq<Move> {
    (s: Square) => PawnMovesFrom(side, s, occupied, opponentOccupied, epSquare)
  }

  /** What `generate_pawn_moves` returns: the moves of the pawns on `froms`,
      pawn after pawn; a move is listed exactly when it is a move of one of
      those pawns. */
  function PawnMoves(froms: seq<Square>, movesFrom: Square -> seq<Move>): (r: seq<Move>)
    ensures forall m :: m in r <==> exists s :: s in froms && m in movesFrom(s)
  {
    if |froms| == 0 then []
    else
      assert froms == froms[..|froms| - 1] + [froms[|froms| - 1]];
      PawnMoves(froms[..|froms| - 1], movesFrom) + movesFrom(froms[|froms| - 1])
  }

  /** The pieces of the side not to move. */
  function OpponentPieces(game: Game): SideBoard {
    if game.active == White then game.board.SidePieces(Black) else game.board.SidePieces(White)
  }

  /** What `generate_pseudolegal_moves` returns: the active side's pawn,
      knight, bishop, rook, queen and king moves, in that order. Every move
      starts on a square of the side to move. */
  function PseudolegalMoves(game: Game): (r: seq<Move>)
    ensures forall m :: m in r ==> game.board.SidePieces(game.active).Occupied().IsSet(m.from)
  {
    var side := game.active;
    var occupied := game.board.Occupied();
    var ourPieces := game.board.SidePieces(side);
    var ourOccupied := ourPieces.Occupied();
    var opponentOccupied := OpponentPieces(game).Occupied();
    var pawns := PawnMoves(ourPieces.pawns.Squares(), PawnMover(side, occupied, opponentOccupied, game.EpSquare()));
    PawnMovesStartOn(ourPieces, side, occupied, opponentOccupied, game.EpSquare());
    var knights := PieceMoves(ourPieces.knights.Squares(), KnightAttacks(occupied), ourOccupied, opponentOccupied);
    var bishops := PieceMoves(ourPieces.bishops.Squares(), BishopAttacks(occupied), ourOccupied, opponentOccupied);
    var rooks := PieceMoves(ourPieces.rooks.Squares(), RookAttacks(occupied), ourOccupied, opponentOccupied);
    var queens := PieceMoves(ourPieces.queens.Squares(), QueenAttacks(occupied), ourOccupied, opponentOccupied);
    var kings := PieceMoves(ourPieces.kings.Squares(), KingAttacks(occupied), ourOccupied, opponentOccupied);
    KindBoards(ourPieces);
    PieceMovesStartOn(ourPieces, Knight, KnightAttacks(occupied), ourOccupied, opponentOccupied);
    PieceMovesStartOn(ourPieces, Bishop, BishopAttacks(occupied), ourOccupied, opponentOccupied);
    PieceMovesStartOn(ourPieces, Rook, RookAttacks(occupied), ourOccupied, opponentOccupied);
    PieceMovesStartOn(ourPieces, Queen, QueenAttacks(occupied), ourOccupied, opponentOccupied);
    PieceMovesStartOn(ourPieces, King, KingAttacks(occupied), ourOccupied, opponentOccupied);
    pawns + knights + bishops + rooks + queens + kings
  }

  /** `Get` selects the board named by the kind. */
  lemma KindBoards(pieces: SideBoard)
    ensures pieces.Get(Knight) == pieces.knights && pieces.Get(Bishop) == pieces.bishops
    ensures pieces.Get(Rook) == pieces.rooks && pieces.Get(Queen) == pieces.queens
    ensures pieces.Get(King) == pieces.kings
  {
  }

  /** The pawn moves start on a square of their side. */
  lemma PawnMovesStartOn(pieces: SideBoard, side: Side, occupied: Bitboard, opponentOccupied: Bitboard,
                         epSquare: Option<Square>)
    ensures forall m :: m in PawnMoves(pieces.pawns.Squares(), PawnMover(side, occupied, opponentOccupied, epSquare)) ==>
              pieces.Occupied().IsSet(m.from)
  {
    var mover := PawnMover(side, occupied, opponentOccupied, epSquare);
    forall m | m in PawnMoves(pieces.pawns.Squares(), mover) ensures pieces.Occupied().IsSet(m.from) {
      var s :| s in pieces.pawns.Squares() && m in mover(s);
      assert m in PawnMovesFrom(side, s, occupied, opponentOccupied, epSquare);
      assert pieces.Get(Pawn).IsSet(s);
    }
  }

  /** The moves of the pieces of one kind start on a square of their side. */
  lemma PieceMovesStartOn(pieces: SideBoard, kind: PieceKind, attacks: Square -> Bitboard, ourOccupied: Bitboard,
                          opponentOccupied: Bitboard)
    ensures forall m :: m in PieceMoves(pieces.Get(kind).Squares(), attacks, ourOccupied, opponentOccupied) ==>
              pieces.Occupied().IsSet(m.from)
  {
  }

  // The generators.

  /** The loop over the target squares shared by `generate_ray_moves` and the
      inner loops of `generate_knight_moves` and `generate_king_moves`: one
      move per target, appended to `prefix`. */
  method PushTargetMoves(prefix: seq<Move>, from: Square, targets: seq<Square>, opponentOccupied: Bitboard)
    returns (result: seq<Move>)
    ensures result == prefix + TargetMoves(from, targets, opponentOccupied)
  {
    result := prefix;
    for i := 0 to |targets|
      invariant result == prefix + TargetMoves(from, targets[..i], opponentOccupied)
    {
      var toSquare := targets[i];
      var capture := opponentOccupied.IsSet(toSquare);
      result := result + [Move(from, toSquare, capture, false, 0)];
      assert targets[..i + 1][..i] == targets[..i];
    }
    assert targets[..|targets|] == targets;
  }

  /** `generate_ray_moves`. */
  method GenerateRayMoves(from: Square, ourPieces: SideBoard, opponentPieces: SideBoard, attackTable: Bitboard)
    returns (result: seq<Move>)
    ensures result == RayMoves(from, ourPieces.Occupied(), opponentPieces.Occupied(), attackTable)
  {
    var ourOccupied := ourPieces.Occupied();
    var opponentOccupied := opponentPieces.Occupied();
    var attacked := attackTable.And(ourOccupied.Not());
    result := PushTargetMoves([], from, attacked.Squares(), opponentOccupied);
  }

  /** One more origin extends the piece moves by that origin's moves. */
  lemma PieceMovesSnoc(froms: seq<Square>, i: nat, attacks: Square -> Bitboard, ourOccupied: Bitboard,
                       opponentOccupied: Bitboard)
    requires i < |froms|
    ensures PieceMoves(froms[..i + 1], attacks, ourOccupied, opponentOccupied) ==
            PieceMoves(froms[..i], attacks, ourOccupied, opponentOccupied) +
            RayMoves(froms[i], ourOccupied, opponentOccupied, attacks(froms[i]))
  {
    assert froms[..i + 1][..i] == froms[..i];
  }

  /** One more pawn extends the pawn moves by that pawn's moves. */
  lemma PawnMovesSnoc(froms: seq<Square>, i: nat, movesFrom: Square -> seq<Move>)
    requires i < |froms|
    ensures PawnMoves(froms[..i + 1], movesFrom) == PawnMoves(froms[..i], movesFrom) + movesFrom(froms[i])
  {
    assert froms[..i + 1][..i] == froms[..i];
  }

  /** The body of the push loop and of the normal-capture loop of
      `generate_pawn_moves` for one target: three records on the promotion
      rank, pushed by the inner promotion loop, and one elsewhere. */
  method PushPromotions(prefix: seq<Move>, from: Square, toSquare: Square, capture: bool, promotionRank: nat)
    returns (result: seq<Move>)
    ensures result == prefix + Promotions(from, toSquare, capture, promotionRank)
  {
    result := prefix;
    if Rank(toSquare) == promotionRank {
      for promote := 0 to 3
        invariant result == prefix + Promotions(from, toSquare, capture, promotionRank)[..promote]
      {
        result := result + [Move(from, toSquare, capture, false, promote)];
      }
    } else {
      result := result + [Move(from, toSquare, capture, false, 0)];
    }
    assert Promotions(from, toSquare, capture, promotionRank)[..|Promotions(from, toSquare, capture, promotionRank)|]
        == Promotions(from, toSquare, capture, promotionRank);
  }

  /** One more pawn extends the pawn moves by the moves of that pawn. */
  lemma PawnMoverSnoc(froms: seq<Square>, i: nat, side: Side, occupied: Bitboard, opponentOccupied: Bitboard,
                      epSquare: Option<Square>)
    requires i < |froms|
    ensures PawnMoves(froms[..i + 1], PawnMover(side, occupied, opponentOccupied, epSquare)) ==
            PawnMoves(froms[..i], PawnMover(side, occupied, opponentOccupied, epSquare)) +
            PawnMovesFrom(side, froms[i], occupied, opponentOccupied, epSquare)
  {
    PawnMovesSnoc(froms, i, PawnMover(side, occupied, opponentOccupied, epSquare));
  }

  /** The push loop and the normal-capture loop of `generate_pawn_moves`,
      which differ only in the capture flag, appending to `prefix`. */
  method PushPawnTargets(prefix: seq<Move>, from: Square, targets: seq<Square>, capture: bool, promotionRank: nat)
    returns (result: seq<Move>)
    ensures result == prefix + PawnTargetMoves(from, targets, capture, promotionRank)
  {
    result := prefix;
    for i := 0 to |targets|
      invariant result == prefix + PawnTargetMoves(from, targets[..i], capture, promotionRank)
    {
      result := PushPromotions(result, from, targets[i], capture, promotionRank);
      assert targets[..i + 1][..i] == targets[..i];
    }
    assert targets[..|targets|] == targets;
  }

  /** The en-passant loop of `generate_pawn_moves`, appending to `prefix`. */
  method PushEpMoves(prefix: seq<Move>, from: Square, targets: seq<Square>) returns (result: seq<Move>)
    ensures result == prefix + EpMoves(from, targets)
  {
    result := prefix;
    for j := 0 to |targets|
      invariant result == prefix + EpMoves(from, targets[..j])
    {
      result := result + [Move(from, targets[j], true, true, 0)];
      assert targets[..j + 1][..j] == targets[..j];
    }
    assert targets[..|targets|] == targets;
  }

  /** The `move_board` of `generate_pawn_moves`: the single push, and the
      double push added in place when the single push is free. */
  method PawnPushBoard(side: Side, fromSquare: Square, occupied: Bitboard) returns (moveBoard: Bitboard)
    ensures moveBoard == PushBoard(side, fromSquare, occupied)
  {
    moveBoard := PawnMoveBoard(side, fromSquare).And(occupied.Not());
    if moveBoard.Data() != 0 {
      moveBoard := moveBoard.Or(PawnDoubleMoveBoard(side, fromSquare).And(occupied.Not()));
    }
  }

  /** The `ep_board` of `generate_pawn_moves`, set in place when the en-passant
      square is one of the two squares the source compares it with. */
  method PawnEpBoard(side: Side, fromSquare: Square, epSquare: Option<Square>) returns (epBoard: Bitboard)
    ensures epBoard == EpBoard(side, fromSquare, epSquare)
  {
    epBoard := Bitboard.New();
    match epSquare {
      case Some(e) =>
        var sideOffset := if side == White then -1 else 1;
        var epSquareW := NewFileRank(AsU8(File(fromSquare) + -1), AsU8(Rank(fromSquare) + sideOffset));
        var epSquareE := NewFileRank(AsU8(File(fromSquare) + 1), AsU8(Rank(fromSquare) + sideOffset));
        if epSquareW == e || epSquareE == e {
          epBoard := epBoard.Set(e);
        }
      case None =>
    }
  }

  /** The three target loops of `generate_pawn_moves` for one pawn, appending
      to `prefix`. */
  method PushPawnTargetsMoves(prefix: seq<Move>, fromSquare: Square, pushTargets: seq<Square>,
                              captureTargets: seq<Square>, epTargets: seq<Square>, promotionRank: nat)
    returns (result: seq<Move>)
    ensures result == prefix + PawnTargetsMoves(fromSquare, pushTargets, captureTargets, epTargets, promotionRank)
  {
    result := PushPawnTargets(prefix, fromSquare, pushTargets, false, promotionRank);
    result := PushPawnTargets(result, fromSquare, captureTargets, true, promotionRank);
    result := PushEpMoves(result, fromSquare, epTargets);
  }

  /** The body of the pawn loop of `generate_pawn_moves`: the moves of the pawn
      on `fromSquare`, appended to `prefix`. */
  method PushPawnMoves(prefix: seq<Move>, side: Side, fromSquare: Square, occupied: Bitboard,
                       opponentOccupied: Bitboard, epSquare: Option<Square>)
    returns (result: seq<Move>)
    ensures result == prefix + PawnMovesFrom(side, fromSquare, occupied, opponentOccupied, epSquare)
  {
    var moveBoard := PawnPushBoard(side, fromSquare, occupied);
    var captureBoard := PawnAttackBoard(side, fromSquare).And(opponentOccupied);
    var epBoard := PawnEpBoard(side, fromSquare, epSquare);
    var promotionRank := if side == White then 7 else 0;
    result := PushPawnTargetsMoves(prefix, fromSquare, moveBoard.Squares(), captureBoard.Squares(), epBoard.Squares(),
                                   promotionRank);
  }

  /** `generate_pawn_moves`. */
  method GeneratePawnMoves(ourPieces: SideBoard, opponentPieces: SideBoard, occupied: Bitboard, side: Side,
                           epSquare: Option<Square>)
    returns (result: seq<Move>)
    ensures result == PawnMoves(ourPieces.pawns.Squares(), PawnMover(side, occupied, opponentPieces.Occupied(), epSquare))
  {
    result := [];
    var ourPawns := ourPieces.pawns;
    var opponentOccupied := opponentPieces.Occupied();
    var froms := ourPawns.Squares();
    for i := 0 to |froms|
      invariant result == PawnMoves(froms[..i], PawnMover(side, occupied, opponentOccupied, epSquare))
    {
      result := PushPawnMoves(result, side, froms[i], occupied, opponentOccupied, epSquare);
      PawnMoverSnoc(froms, i, side, occupied, opponentOccupied, epSquare);
    }
    assert froms[..|froms|] == froms;
  }

  /** The loop of `generate_knight_moves` and `generate_king_moves`, which
      differ only in the table they look up: for each origin, the moves to the
      squares of its table entry that our pieces do not occupy. */
  method LeaperMoves(froms: seq<Square>, attacks: Square -> Bitboard, ourOccupied: Bitboard,
                     opponentOccupied: Bitboard)
    returns (result: seq<Move>)
    ensures result == PieceMoves(froms, attacks, ourOccupied, opponentOccupied)
  {
    result := [];
    for i := 0 to |froms|
      invariant result == PieceMoves(froms[..i], attacks, ourOccupied, opponentOccupied)
    {
      var fromSquare := froms[i];
      var attacked := attacks(fromSquare).And(ourOccupied.Not());
      result := PushTargetMoves(result, fromSquare, attacked.Squares(), opponentOccupied);
      PieceMovesSnoc(froms, i, attacks, ourOccupied, opponentOccupied);
    }
    assert froms[..|froms|] == froms;
  }

  /** The loop of `generate_bishop_moves`, `generate_rook_moves` and
      `generate_queen_moves`, which differ only in the table they look up:
      `generate_ray_moves` for each origin, appended. */
  method SliderMoves(froms: seq<Square>, attacks: Square -> Bitboard, ourPieces: SideBoard,
                     opponentPieces: SideBoard)
    returns (result: seq<Move>)
    ensures result == PieceMoves(froms, attacks, ourPieces.Occupied(), opponentPieces.Occupied())
  {
    result := [];
    for i := 0 to |froms|
      invariant result == PieceMoves(froms[..i], attacks, ourPieces.Occupied(), opponentPieces.Occupied())
    {
      var attacked := attacks(froms[i]);
      var moves := GenerateRayMoves(froms[i], ourPieces, opponentPieces, attacked);
      result := result + moves;
      PieceMovesSnoc(froms, i, attacks, ourPieces.Occupied(), opponentPieces.Occupied());
    }
    assert froms[..|froms|] == froms;
  }

  /** `generate_knight_moves`. */
  method GenerateKnightMoves(ourPieces: SideBoard, opponentPieces: SideBoard, occupied: Bitboard)
    returns (result: seq<Move>)
    ensures result == PieceMoves(ourPieces.knights.Squares(), KnightAttacks(occupied), ourPieces.Occupied(),
                                 opponentPieces.Occupied())
  {
    result := LeaperMoves(ourPieces.knights.Squares(), KnightAttacks(occupied), ourPieces.Occupied(),
                          opponentPieces.Occupied());
  }

  /** `generate_bishop_moves`. */
  method GenerateBishopMoves(ourPieces: SideBoard, opponentPieces: SideBoard, occupied: Bitboard)
    returns (result: seq<Move>)
    ensures result == PieceMoves(ourPieces.bishops.Squares(), BishopAttacks(occupied), ourPieces.Occupied(),
                                 opponentPieces.Occupied())
  {
    result := SliderMoves(ourPieces.bishops.Squares(), BishopAttacks(occupied), ourPieces, opponentPieces);
  }

  /** `generate_rook_moves`. */
  method GenerateRookMoves(ourPieces: SideBoard, opponentPieces: SideBoard, occupied: Bitboard)
    returns (result: seq<Move>)
    ensures result == PieceMoves(ourPieces.rooks.Squares(), RookAttacks(occupied), ourPieces.Occupied(),
                                 opponentPieces.Occupied())
  {
    result := SliderMoves(ourPieces.rooks.Squares(), RookAttacks(occupied), ourPieces, opponentPieces);
  }

  /** `generate_queen_moves`. */
  method GenerateQueenMoves(ourPieces: SideBoard, opponentPieces: SideBoard, occupied: Bitboard)
    returns (result: seq<Move>)
    ensures result == PieceMoves(ourPieces.queens.Squares(), QueenAttacks(occupied), ourPieces.Occupied(),
                                 opponentPieces.Occupied())
  {
    result := SliderMoves(ourPieces.queens.Squares(), QueenAttacks(occupied), ourPieces, opponentPieces);
  }

  /** `generate_king_moves`. */
  method GenerateKingMoves(ourPieces: SideBoard, opponentPieces: SideBoard, occupied: Bitboard)
    returns (result: seq<Move>)
    ensures result == PieceMoves(ourPieces.kings.Squares(), KingAttacks(occupied), ourPieces.Occupied(),
                                 opponentPieces.Occupied())
  {
    result := LeaperMoves(ourPieces.kings.Squares(), KingAttacks(occupied), ourPieces.Occupied(),
                          opponentPieces.Occupied());
  }

  /** `generate_pseudolegal_moves`. */
  method GeneratePseudolegalMoves(game: Game) returns (result: seq<Move>)
    ensures result == PseudolegalMoves(game)
  {
    var side := game.active;
    var board := game.board;
    var occupied := board.Occupied();
    var ourPieces := board.SidePieces(side);
    var epSquare := game.EpSquare();
    var opponentPieces := if side == White then board.SidePieces(Black) else board.SidePieces(White);

    result := [];
    var pawnMoves := GeneratePawnMoves(ourPieces, opponentPieces, occupied, side, epSquare);
    assert result + pawnMoves == pawnMoves;
    result := result + pawnMoves;
    var knightMoves := GenerateKnightMoves(ourPieces, opponentPieces, occupied);
    result := result + knightMoves;
    var bishopMoves := GenerateBishopMoves(ourPieces, opponentPieces, occupied);
    result := result + bishopMoves;
    var rookMoves := GenerateRookMoves(ourPieces, opponentPieces, occupied);
    result := result + rookMoves;
    var queenMoves := GenerateQueenMoves(ourPieces, opponentPieces, occupied);
    result := result + queenMoves;
    var kingMoves := GenerateKingMoves(ourPieces, opponentPieces, occupied);
    result := result + kingMoves;
  }
}
