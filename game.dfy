/** A game position (src/chess/game.rs) and its parser for the six-field FEN
    form: placement, active colour, castling rights, en-passant square,
    half-move clock and full-move number, separated by single spaces. */
module Games {
  import opened Wrappers
  import opened Squares
  import opened Sides
  import opened Bitboards
  import opened Text
  import opened Notation
  import opened Boards

  /** Rust `u16`. */
  type U16 = i: nat | i < 65536

  datatype Variant = Classical

  /** The four castling flags. */
  datatype Castling = Castling(whiteKingside: bool, whiteQueenside: bool, blackKingside: bool, blackQueenside: bool)

  /** `Game`. The en-passant square is kept as the source keeps it, a byte in
      which 64 means "none". */
  datatype Game = Game(kind: Variant, board: Board, active: Side, castling: Castling,
                       epSquare: U8, halfMove: U8, fullMove: U16)
  {
    /** `ep_square()`: the stored square when it names one, that is when it is
        below 64. */
    function EpSquare(): (r: Option<Square>)
      ensures r.Some? <==> epSquare < 64
      ensures r.Some? ==> r.value == epSquare
    {
      if epSquare < 64 then Some(epSquare) else None
    }
  }

  /** Why `from_fen` panics: not six fields, an unknown active colour, an
      unknown castling letter, an en-passant name `algebraic_square_to_bit`
      rejects, a clock that does not parse, or a bad placement field. */
  datatype GameError =
    | FieldCount(fields: nat)
    | InvalidActive(text: string)
    | InvalidCastling
    | InvalidEpSquare(notation: NotationError)
    | InvalidHalfMove(parse: ParseError)
    | InvalidFullMove(parse: ParseError)
    | InvalidPlacement(placement: PlacementError)

  /** The castling field, declaratively: "-" grants nothing; otherwise every
      character must be one of K, Q, k, q, and each flag is set exactly when
      its letter occurs, whatever the order or repetition. */
  function CastlingRights(field: string): (r: Result<Castling, GameError>)
    ensures r.Ok? <==> field == "-" || forall c :: c in field ==> c in "KQkq"
    ensures r.Ok? ==> r.value == Castling('K' in field, 'Q' in field, 'k' in field, 'q' in field)
    ensures r.Err? ==> r.error == InvalidCastling
  {
    if field == "-" then Ok(Castling(false, false, false, false))
    else if exists i :: 0 <= i < |field| && field[i] !in "KQkq" then Err(InvalidCastling)
    else Ok(Castling('K' in field, 'Q' in field, 'k' in field, 'q' in field))
  }

  /** The castling loop of `from_fen`: four flags, each set by its letter, any
      other letter a panic. */
  method ParseCastling(fenCastle: string) returns (r: Result<Castling, GameError>)
    ensures r == CastlingRights(fenCastle)
  {
    var whiteCastleKingside, whiteCastleQueenside := false, false;
    var blackCastleKingside, blackCastleQueenside := false, false;
    if fenCastle != "-" {
      for i := 0 to |fenCastle|
        invariant forall j :: 0 <= j < i ==> fenCastle[j] in "KQkq"
        invariant whiteCastleKingside == ('K' in fenCastle[..i])
        invariant whiteCastleQueenside == ('Q' in fenCastle[..i])
        invariant blackCastleKingside == ('k' in fenCastle[..i])
        invariant blackCastleQueenside == ('q' in fenCastle[..i])
      {
        assert fenCastle[..i + 1] == fenCastle[..i] + [fenCastle[i]];
        match fenCastle[i] {
          case 'K' => whiteCastleKingside := true;
          case 'Q' => whiteCastleQueenside := true;
          case 'k' => blackCastleKingside := true;
          case 'q' => blackCastleQueenside := true;
          case _ => return Err(InvalidCastling);
        }
      }
      assert fenCastle[..|fenCastle|] == fenCastle;
    }
    r := Ok(Castling(whiteCastleKingside, whiteCastleQueenside, blackCastleKingside, blackCastleQueenside));
  }

  /** The active-colour field. */
  function ActiveSide(field: string): (r: Result<Side, GameError>)
    ensures r == Ok(White) <==> field == "w"
    ensures r == Ok(Black) <==> field == "b"
  {
    if field == "w" then Ok(White) else if field == "b" then Ok(Black) else Err(InvalidActive(field))
  }

  /** The en-passant field: "-" is the sentinel 64, anything else a square
      name. A field that starts with a name a1..h8 gives that square, whose
      name reads back; any other failure of the name parser is the only error. */
  function EpField(field: string): (r: Result<U8, GameError>)
    ensures field == "-" ==> r == Ok(64)
    ensures field != "-" ==> (r.Ok? <==> AlgebraicSquareToBit(field).Ok?)
    ensures |field| >= 2 && 'a' <= field[0] <= 'h' && '1' <= field[1] <= '8' ==>
              r.Ok? && r.value < 64 && BitToAlgebraicSquare(r.value) == field[..2]
    ensures r.Err? ==> r.error.InvalidEpSquare?
  {
    assert |field| >= 2 && 'a' <= field[0] <= 'h' && '1' <= field[1] <= '8' ==>
             AlgebraicSquareToBit(field) == AlgebraicSquareToBit(field[..2]) && AlgebraicSquareToBit(field[..2]).Ok? &&
             AlgebraicSquareToBit(field[..2]).value < 64 &&
             BitToAlgebraicSquare(AlgebraicSquareToBit(field[..2]).value) == field[..2] by {
      if |field| >= 2 && 'a' <= field[0] <= 'h' && '1' <= field[1] <= '8' {
        Notation.TrailingIgnored(field);
        NameRoundTrip(field[..2]);
      }
    }
    if field == "-" then Ok(64)
    else
      match AlgebraicSquareToBit(field)
      case Ok(e) => Ok(e)
      case Err(e) => Err(InvalidEpSquare(e))
  }

  /** What `from_fen` computes: the fields are checked in source order (count,
      colour, castling, en passant, half-move, full-move), and the placement
      is parsed last, when the value is built. */
  function ParseFen(fen: string): (r: Result<Game, GameError>)
    ensures r.Ok? <==>
              var fields := Split(fen, ' ');
              |fields| == 6 && ActiveSide(fields[1]).Ok? && CastlingRights(fields[2]).Ok? && EpField(fields[3]).Ok? &&
              ParseUnsigned(fields[4], 255).Ok? && ParseUnsigned(fields[5], 65535).Ok? && ParsePlacement(fields[0]).Ok?
    ensures r.Ok? ==>
              var fields := Split(fen, ' ');
              ActiveSide(fields[1]) == Ok(r.value.active) && (r.value.active == White <==> fields[1] == "w") &&
              CastlingRights(fields[2]) == Ok(r.value.castling) &&
              (fields[3] == "-" ==> r.value.EpSquare() == None) &&
              (fields[3] != "-" ==> AlgebraicSquareToBit(fields[3]) == Ok(r.value.epSquare)) &&
              ParseUnsigned(fields[4], 255) == Ok(r.value.halfMove as nat) &&
              ParseUnsigned(fields[5], 65535) == Ok(r.value.fullMove as nat) &&
              ParsePlacement(fields[0]) == Ok(r.value.board)
  {
    var fields := Split(fen, ' ');
    if |fields| != 6 then Err(FieldCount(|fields|))
    else
      match ActiveSide(fields[1])
      case Err(e) => Err(e)
      case Ok(active) =>
        match CastlingRights(fields[2])
        case Err(e) => Err(e)
        case Ok(castling) =>
          match EpField(fields[3])
          case Err(e) => Err(e)
          case Ok(ep) =>
            match ParseUnsigned(fields[4], 255)
            case Err(e) => Err(InvalidHalfMove(e))
            case Ok(halfMove) =>
              match ParseUnsigned(fields[5], 65535)
              case Err(e) => Err(InvalidFullMove(e))
              case Ok(fullMove) =>
                match ParsePlacement(fields[0])
                case Err(e) => Err(InvalidPlacement(e))
                case Ok(board) => Ok(Game(Classical, board, active, castling, ep, halfMove, fullMove))
  }

  /** `Game::from_fen`, with its panics as errors. */
  method FromFen(fen: string) returns (r: Result<Game, GameError>)
    ensures r == ParseFen(fen)
  {
    var fenSplit := Split(fen, ' ');
    if |fenSplit| != 6 {
      return Err(FieldCount(|fenSplit|));
    }
    var fenPieces, fenActive, fenCastle := fenSplit[0], fenSplit[1], fenSplit[2];
    var fenEpSquare, fenHalfMove, fenFullMove := fenSplit[3], fenSplit[4], fenSplit[5];

    var active := ActiveSide(fenActive);
    if active.Err? {
      return Err(active.error);
    }
    var castling := ParseCastling(fenCastle);
    if castling.Err? {
      return Err(castling.error);
    }
    var epSquare := EpField(fenEpSquare);
    if epSquare.Err? {
      return Err(epSquare.error);
    }
    var halfMove := ParseUnsigned(fenHalfMove, 255);
    if halfMove.Err? {
      return Err(InvalidHalfMove(halfMove.error));
    }
    var fullMove := ParseUnsigned(fenFullMove, 65535);
    if fullMove.Err? {
      return Err(InvalidFullMove(fullMove.error));
    }
    var board := FromFenPieces(fenPieces);
    if board.Err? {
      return Err(InvalidPlacement(board.error));
    }
    r := Ok(Game(Classical, board.value, active.value, castling.value, epSquare.value,
                 halfMove.value, fullMove.value));
  }

  /** `Game::new_empty`: no pieces, White to move, no castling rights, no
      en-passant square, half-move 0, full-move 1. */
  function NewEmpty(): (g: Game)
    ensures forall side, kind, q: Square :: !g.board.Get(side, kind).IsSet(q)
    ensures g.active == White && g.castling == Castling(false, false, false, false)
    ensures g.EpSquare() == None && g.halfMove == 0 && g.fullMove == 1
  {
    Game(Classical, NewBoard(SideBoard.NewEmpty(), SideBoard.NewEmpty()), White,
         Castling(false, false, false, false), 64, 0, 1)
  }

  // Properties of the parser.

  /** Castling rights do not depend on the order or repetition of the letters:
      two fields other than "-" with the same letters give the same result. */
  lemma CastlingOrderIrrelevant(a: string, b: string)
    requires a != "-" && b != "-"
    requires forall c :: c in a <==> c in b
    ensures CastlingRights(a) == CastlingRights(b)
  {
    if exists i :: 0 <= i < |a| && a[i] !in "KQkq" {
      var i :| 0 <= i < |a| && a[i] !in "KQkq";
      assert a[i] in b;
    } else {
      forall i | 0 <= i < |b|
        ensures b[i] in "KQkq"
      {
        assert b[i] in a;
      }
    }
  }

  /** A FEN assembled from six space-free fields, with a clock and a move number
      in range written in decimal, parses to exactly those values; the field
      values the parser can fail on are its only sources of error. */
  lemma ParseFenFields(placement: string, active: Side, castling: string, ep: string, halfMove: U8, fullMove: U16)
    requires ' ' !in placement && ' ' !in castling && ' ' !in ep
    requires ParsePlacement(placement).Ok? && CastlingRights(castling).Ok? && EpField(ep).Ok?
    ensures var fen := Join([placement, if active == White then "w" else "b", castling, ep,
                             Decimal(halfMove), Decimal(fullMove)], ' ');
            ParseFen(fen) == Ok(Game(Classical, ParsePlacement(placement).value, active,
                                     CastlingRights(castling).value, EpField(ep).value, halfMove, fullMove))
  {
    var fields := [placement, if active == White then "w" else "b", castling, ep, Decimal(halfMove), Decimal(fullMove)];
    forall i | 0 <= i < |fields| ensures ' ' !in fields[i] {
      if i >= 4 {
        assert forall j :: 0 <= j < |fields[i]| ==> IsDigit(fields[i][j]);
      }
    }
    SplitJoin(fields, ' ');
    ParseDecimal(halfMove, 255);
    ParseDecimal(fullMove, 65535);
  }

  /** The ranks of the starting position, eighth rank first. */
  const StartRanks: seq<string> := ["rnbqkbnr", "pppppppp", "8", "8", "8", "8", "PPPPPPPP", "RNBQKBNR"]

  /** The standard starting position. */
  const StartFen: string := Join([Join(StartRanks, '/'), "w", "KQkq", "-", "0", "1"], ' ')

  /** `Game::new_classical`: the starting position parses, to the placement of
      its ranks with White to move, all four castling rights, no en-passant
      square and clocks 0 and 1; and no square of its board holds two pieces. */
  function NewClassical(): (r: Result<Game, GameError>)
    ensures ParsePlacement(Join(StartRanks, '/')).Ok?
    ensures r == Ok(Game(Classical, ParsePlacement(Join(StartRanks, '/')).value, White,
                         Castling(true, true, true, true), 64, 0, 1))
    ensures r.value.EpSquare() == None && r.value.board.Disjoint()
  {
    StartFenFields();
    StartPlacementParses();
    ParseFen(StartFen)
  }

  /** Every character is a piece letter. */
  predicate PieceLetters(row: string) {
    |row| == 0 || (PieceOf(row[0]).Some? && PieceLetters(row[1..]))
  }

  /** A run of piece letters no longer than the files left fits the rank, and
      holds neither separator. */
  lemma {:induction false} PieceLettersFit(row: string, tile: nat)
    requires tile + |row| <= 8 && PieceLetters(row)
    ensures TallyFits(row, tile) && '/' !in row && ' ' !in row
    decreases |row|
  {
    if |row| > 0 {
      PieceLettersFit(row[1..], tile + 1);
      assert row == [row[0]] + row[1..];
    }
  }

  /** A rank of the starting position holds neither separator and fits. */
  predicate RankFits(row: string) {
    '/' !in row && ' ' !in row && TallyFits(row, 0)
  }

  lemma BlackBackRankFits() ensures RankFits("rnbqkbnr") { PieceLettersFit("rnbqkbnr", 0); }
  lemma BlackPawnsFit() ensures RankFits("pppppppp") { PieceLettersFit("pppppppp", 0); }
  lemma WhitePawnsFit() ensures RankFits("PPPPPPPP") { PieceLettersFit("PPPPPPPP", 0); }
  lemma WhiteBackRankFits() ensures RankFits("RNBQKBNR") { PieceLettersFit("RNBQKBNR", 0); }

  /** Each rank of the starting position is a run of piece letters or "8". */
  lemma StartRanksFit(i: nat)
    requires i < 8
    ensures RankFits(StartRanks[i])
  {
    if i == 0 { BlackBackRankFits(); }
    else if i == 1 { BlackPawnsFit(); }
    else if i == 6 { WhitePawnsFit(); }
    else if i == 7 { WhiteBackRankFits(); }
    else { assert StartRanks[i] == "8"; }
  }

  /** The starting placement parses, and no square holds two pieces. */
  lemma StartPlacementParses()
    ensures ParsePlacement(Join(StartRanks, '/')).Ok? && ParsePlacement(Join(StartRanks, '/')).value.Disjoint()
  {
    forall i | 0 <= i < 8 ensures '/' !in StartRanks[i] && TallyFits(StartRanks[i], 0) {
      StartRanksFit(i);
    }
    SplitJoin(StartRanks, '/');
    PlacementDisjoint(Join(StartRanks, '/'));
  }

  /** "KQkq" grants all four rights. */
  lemma FullCastling()
    ensures CastlingRights("KQkq") == Ok(Castling(true, true, true, true))
  {
    var field := "KQkq";
    assert forall i :: 0 <= i < |field| ==> field[i] in "KQkq";
    assert field[0] == 'K' && field[1] == 'Q' && field[2] == 'k' && field[3] == 'q';
  }

  /** The starting FEN parses to the placement of its ranks with White to
      move, all four castling rights, no en-passant square and clocks 0 and 1. */
  lemma StartFenFields()
    ensures ParsePlacement(Join(StartRanks, '/')).Ok?
    ensures ParseFen(StartFen) == Ok(Game(Classical, ParsePlacement(Join(StartRanks, '/')).value, White,
                                          Castling(true, true, true, true), 64, 0, 1))
  {
    StartPlacementParses();
    forall i | 0 <= i < |StartRanks| ensures ' ' !in StartRanks[i] {
      StartRanksFit(i);
    }
    JoinAvoids(StartRanks, '/', ' ');
    FullCastling();
    assert Decimal(0) == "0" && Decimal(1) == "1";
    ParseFenFields(Join(StartRanks, '/'), White, "KQkq", "-", 0, 1);
  }
}
