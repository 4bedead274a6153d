/** What the generated moves look like (src/chess/moves.rs): each generator's
    specification function is characterised move by move, and the whole
    pseudo-legal list is shown to respect the side to move. */
module MoveFacts {
  import opened Wrappers
  import opened Squares
  import opened Sides
  import opened Bitboards
  import opened MoveTables
  import opened Boards
  import opened Games
  import opened Moves

  // Moves of the pieces other than pawns.

  /** The moves of the pieces standing on a bitboard, origin by origin in
      iteration order: a move leaves one of those pieces. */
  lemma PieceMovesOn(pieces: Bitboard, attacks: Square -> Bitboard, ourOccupied: Bitboard, opponentOccupied: Bitboard)
    ensures forall m :: m in PieceMoves(pieces.Squares(), attacks, ourOccupied, opponentOccupied) <==>
              pieces.IsSet(m.from) && attacks(m.from).IsSet(m.to) && !ourOccupied.IsSet(m.to) &&
              m.capture == opponentOccupied.IsSet(m.to) && !m.enPassant && m.promotion == 0
  {
  }

  /** `generate_knight_moves`: every knight step from one of our knights to a
      square our pieces leave free, and nothing else. */
  lemma KnightMovesExact(ourPieces: SideBoard, opponentPieces: SideBoard, occupied: Bitboard)
    ensures forall m :: m in PieceMoves(ourPieces.knights.Squares(), KnightAttacks(occupied), ourPieces.Occupied(),
                                        opponentPieces.Occupied()) <==>
              ourPieces.knights.IsSet(m.from) && KnightStep(m.from, m.to) && !ourPieces.Occupied().IsSet(m.to) &&
              m.capture == opponentPieces.Occupied().IsSet(m.to) && !m.enPassant && m.promotion == 0
  {
    PieceMovesOn(ourPieces.knights, KnightAttacks(occupied), ourPieces.Occupied(), opponentPieces.Occupied());
  }

  /** `generate_king_moves`: every king step from our king to a square our
      pieces leave free, and nothing else. */
  lemma KingMovesExact(ourPieces: SideBoard, opponentPieces: SideBoard, occupied: Bitboard)
    ensures forall m :: m in PieceMoves(ourPieces.kings.Squares(), KingAttacks(occupied), ourPieces.Occupied(),
                                        opponentPieces.Occupied()) <==>
              ourPieces.kings.IsSet(m.from) && KingStep(m.from, m.to) && !ourPieces.Occupied().IsSet(m.to) &&
              m.capture == opponentPieces.Occupied().IsSet(m.to) && !m.enPassant && m.promotion == 0
  {
    PieceMovesOn(ourPieces.kings, KingAttacks(occupied), ourPieces.Occupied(), opponentPieces.Occupied());
  }

  /** `generate_bishop_moves`: the squares a bishop sees along the diagonals,
      up to and including the first occupied one, minus our own. */
  lemma BishopMovesExact(ourPieces: SideBoard, opponentPieces: SideBoard, occupied: Bitboard)
    ensures forall m :: m in PieceMoves(ourPieces.bishops.Squares(), BishopAttacks(occupied), ourPieces.Occupied(),
                                        opponentPieces.Occupied()) <==>
              ourPieces.bishops.IsSet(m.from) && Attacked(true, false, occupied, m.from, m.to) &&
              !ourPieces.Occupied().IsSet(m.to) &&
              m.capture == opponentPieces.Occupied().IsSet(m.to) && !m.enPassant && m.promotion == 0
  {
    PieceMovesOn(ourPieces.bishops, BishopAttacks(occupied), ourPieces.Occupied(), opponentPieces.Occupied());
  }

  /** `generate_rook_moves`: the same along the ranks and files. */
  lemma RookMovesExact(ourPieces: SideBoard, opponentPieces: SideBoard, occupied: Bitboard)
    ensures forall m :: m in PieceMoves(ourPieces.rooks.Squares(), RookAttacks(occupied), ourPieces.Occupied(),
                                        opponentPieces.Occupied()) <==>
              ourPieces.rooks.IsSet(m.from) && Attacked(false, true, occupied, m.from, m.to) &&
              !ourPieces.Occupied().IsSet(m.to) &&
              m.capture == opponentPieces.Occupied().IsSet(m.to) && !m.enPassant && m.promotion == 0
  {
    PieceMovesOn(ourPieces.rooks, RookAttacks(occupied), ourPieces.Occupied(), opponentPieces.Occupied());
  }

  /** `generate_queen_moves`: the same along all eight directions. */
  lemma QueenMovesExact(ourPieces: SideBoard, opponentPieces: SideBoard, occupied: Bitboard)
    ensures forall m :: m in PieceMoves(ourPieces.queens.Squares(), QueenAttacks(occupied), ourPieces.Occupied(),
                                        opponentPieces.Occupied()) <==>
              ourPieces.queens.IsSet(m.from) && Attacked(true, true, occupied, m.from, m.to) &&
              !ourPieces.Occupied().IsSet(m.to) &&
              m.capture == opponentPieces.Occupied().IsSet(m.to) && !m.enPassant && m.promotion == 0
  {
    PieceMovesOn(ourPieces.queens, QueenAttacks(occupied), ourPieces.Occupied(), opponentPieces.Occupied());
  }

  // Pawn moves.

  /** As written, a pawn on the a-file takes en passant onto the h-file of
      the en-passant rank: the west neighbour's file wraps from -1 to 7. */
  lemma EpBoardWrapsAround(side: Side, from: Square, e: Square)
    requires File(from) == 0 && File(e) == 7 && Rank(e) == (Rank(from) + EpOffset(side)) % 8
    ensures EpBoard(side, from, Some(e)).IsSet(e)
  {
    assert File(e) == (File(from) - 1) % 8;
  }

  /** The moves of the pawns on `froms` are the moves of each of them. */
  lemma PawnMovesExact(froms: seq<Square>, movesFrom: Square -> seq<Move>)
    requires forall s, m :: m in movesFrom(s) ==> m.from == s
    ensures forall m :: m in PawnMoves(froms, movesFrom) <==> m.from in froms && m in movesFrom(m.from)
  {
    forall m | m in PawnMoves(froms, movesFrom) ensures m.from in froms && m in movesFrom(m.from) {
      var s :| s in froms && m in movesFrom(s);
    }
  }

  /** `generate_pawn_moves`: the moves of each of our pawns, as
      `PawnMovesFrom` describes them. */
  lemma PawnMovesOn(side: Side, pawns: Bitboard, occupied: Bitboard, opponentOccupied: Bitboard,
                    epSquare: Option<Square>)
    ensures forall m :: m in PawnMoves(pawns.Squares(), PawnMover(side, occupied, opponentOccupied, epSquare)) <==>
              pawns.IsSet(m.from) && m in PawnMovesFrom(side, m.from, occupied, opponentOccupied, epSquare)
  {
    PawnMovesExact(pawns.Squares(), PawnMover(side, occupied, opponentOccupied, epSquare));
  }

  // The whole list.

  /** What every pseudo-legal move respects: it starts on a square of the side
      to move; an en-passant move is a capture with promotion 0 onto the
      en-passant square; any other move never lands on the mover's own
      pieces, and is flagged as a capture exactly when it lands on the
      opponent's. */
  predicate RespectsSides(game: Game, m: Move) {
    var ourOccupied := game.board.SidePieces(game.active).Occupied();
    var opponentOccupied := OpponentPieces(game).Occupied();
    ourOccupied.IsSet(m.from) &&
    (m.enPassant ==> m.capture && m.promotion == 0 && game.EpSquare() == Some(m.to)) &&
    (!m.enPassant ==> !ourOccupied.IsSet(m.to) && (m.capture <==> opponentOccupied.IsSet(m.to)))
  }

  /** On a board where no square holds two pieces, no square is held by both sides. */
  lemma SidesDisjoint(board: Board, q: Square)
    requires board.Disjoint()
    ensures !(board.white.Occupied().IsSet(q) && board.black.Occupied().IsSet(q))
  {
    forall k1, k2
      ensures !(board.white.Get(k1).IsSet(q) && board.black.Get(k2).IsSet(q))
    {
      assert !(board.Get(White, k1).IsSet(q) && board.Get(Black, k2).IsSet(q));
    }
  }

  /** The moves of the pieces of one kind other than pawns respect the sides. */
  lemma PieceMovesRespectSides(game: Game, kind: PieceKind, attacks: Square -> Bitboard)
    ensures var ourPieces := game.board.SidePieces(game.active);
            forall m :: m in PieceMoves(ourPieces.Get(kind).Squares(), attacks, ourPieces.Occupied(),
                                        OpponentPieces(game).Occupied()) ==>
                          RespectsSides(game, m)
  {
    var ourPieces := game.board.SidePieces(game.active);
    PieceMovesOn(ourPieces.Get(kind), attacks, ourPieces.Occupied(), OpponentPieces(game).Occupied());
  }

  /** The moves of our pawns respect the sides. */
  lemma PawnMovesRespectSides(game: Game)
    requires game.board.Disjoint()
    ensures var mover := PawnMover(game.active, game.board.Occupied(), OpponentPieces(game).Occupied(), game.EpSquare());
            forall m :: m in PawnMoves(game.board.SidePieces(game.active).pawns.Squares(), mover) ==>
                          RespectsSides(game, m)
  {
    var side, occupied, opponentOccupied := game.active, game.board.Occupied(), OpponentPieces(game).Occupied();
    var ourPieces := game.board.SidePieces(side);
    PawnMovesOn(side, ourPieces.pawns, occupied, opponentOccupied, game.EpSquare());
    forall m: Move | ourPieces.pawns.IsSet(m.from) && m in PawnMovesFrom(side, m.from, occupied, opponentOccupied, game.EpSquare())
      ensures RespectsSides(game, m)
    {
      assert ourPieces.Get(Pawn).IsSet(m.from);
      PawnMoveRespectsSides(game, m);
    }
  }

  /** A move of one of our pawns respects the sides. */
  lemma PawnMoveRespectsSides(game: Game, m: Move)
    requires game.board.Disjoint()
    requires game.board.SidePieces(game.active).Occupied().IsSet(m.from)
    requires m in PawnMovesFrom(game.active, m.from, game.board.Occupied(), OpponentPieces(game).Occupied(),
                                game.EpSquare())
    ensures RespectsSides(game, m)
  {
    PawnMoveKinds(game.active, m, game.board.Occupied(), OpponentPieces(game).Occupied(), game.EpSquare());
    if !m.capture {
      NonCaptureRespectsSides(game, m);
    } else if !m.enPassant {
      CaptureRespectsSides(game, m);
    }
  }

  /** A pawn move is a push onto an empty square, a normal capture of an
      opponent piece, or an en-passant capture onto the en-passant square. */
  lemma PawnMoveKinds(side: Side, m: Move, occupied: Bitboard, opponentOccupied: Bitboard, epSquare: Option<Square>)
    requires m in PawnMovesFrom(side, m.from, occupied, opponentOccupied, epSquare)
    ensures !m.capture ==> !m.enPassant && !occupied.IsSet(m.to)
    ensures m.capture && !m.enPassant ==> opponentOccupied.IsSet(m.to)
    ensures m.enPassant ==> m.capture && m.promotion == 0 && epSquare == Some(m.to)
  {
  }

  /** A move from one of our squares that is no capture and lands on an
      empty square respects the sides. */
  lemma NonCaptureRespectsSides(game: Game, m: Move)
    requires game.board.SidePieces(game.active).Occupied().IsSet(m.from)
    requires !m.capture && !m.enPassant && !game.board.Occupied().IsSet(m.to)
    ensures RespectsSides(game, m)
  {
  }

  /** A normal capture from one of our squares of an opponent piece respects
      the sides, provided no square holds two pieces. */
  lemma CaptureRespectsSides(game: Game, m: Move)
    requires game.board.Disjoint()
    requires game.board.SidePieces(game.active).Occupied().IsSet(m.from)
    requires m.capture && !m.enPassant && OpponentPieces(game).Occupied().IsSet(m.to)
    ensures RespectsSides(game, m)
  {
    SidesDisjoint(game.board, m.to);
  }

  /** Every move `generate_pseudolegal_moves` returns respects the sides,
      provided no square holds two pieces. */
  lemma PseudolegalMovesSound(game: Game)
    requires game.board.Disjoint()
    ensures forall m :: m in PseudolegalMoves(game) ==> RespectsSides(game, m)
  {
    var occupied := game.board.Occupied();
    var ourPieces := game.board.SidePieces(game.active);
    var ourOccupied, opponentOccupied := ourPieces.Occupied(), OpponentPieces(game).Occupied();
    var pawns := PawnMoves(ourPieces.pawns.Squares(), PawnMover(game.active, occupied, opponentOccupied, game.EpSquare()));
    var knights := PieceMoves(ourPieces.knights.Squares(), KnightAttacks(occupied), ourOccupied, opponentOccupied);
    var bishops := PieceMoves(ourPieces.bishops.Squares(), BishopAttacks(occupied), ourOccupied, opponentOccupied);
    var rooks := PieceMoves(ourPieces.rooks.Squares(), RookAttacks(occupied), ourOccupied, opponentOccupied);
    var queens := PieceMoves(ourPieces.queens.Squares(), QueenAttacks(occupied), ourOccupied, opponentOccupied);
    var kings := PieceMoves(ourPieces.kings.Squares(), KingAttacks(occupied), ourOccupied, opponentOccupied);
    KindBoards(ourPieces);
    PawnMovesRespectSides(game);
    PieceMovesRespectSides(game, Knight, KnightAttacks(occupied));
    PieceMovesRespectSides(game, Bishop, BishopAttacks(occupied));
    PieceMovesRespectSides(game, Rook, RookAttacks(occupied));
    PieceMovesRespectSides(game, Queen, QueenAttacks(occupied));
    PieceMovesRespectSides(game, King, KingAttacks(occupied));
    assert PseudolegalMoves(game) == pawns + knights + bishops + rooks + queens + kings;
  }
}
