/** Piece placement (src/chess/board.rs): six bitboards per side, and the
    parser for the piece-placement field of FEN. */
module Boards {
  import opened Wrappers
  import opened Squares
  import opened Sides
  import opened Bitboards
  import opened Text

  datatype PieceKind = Pawn | Knight | Bishop | Rook | Queen | King

  /** `SideBoard`: one side's pieces, a bitboard per kind. */
  datatype SideBoard = SideBoard(pawns: Bitboard, knights: Bitboard, bishops: Bitboard,
                                 rooks: Bitboard, queens: Bitboard, kings: Bitboard)
  {
    /** `SideBoard::new`: the accessors give back exactly the arguments. */
    static function New(pawns: Bitboard, knights: Bitboard, bishops: Bitboard,
                        rooks: Bitboard, queens: Bitboard, kings: Bitboard): (b: SideBoard)
      ensures b.Get(Pawn) == pawns && b.Get(Knight) == knights && b.Get(Bishop) == bishops
      ensures b.Get(Rook) == rooks && b.Get(Queen) == queens && b.Get(King) == kings
    {
      SideBoard(pawns, knights, bishops, rooks, queens, kings)
    }

    /** `SideBoard::new_empty`: all six boards empty. */
    static function NewEmpty(): (b: SideBoard)
      ensures forall kind, i :: 0 <= i < 64 ==> !b.Get(kind).IsSet(i)
    {
      New(Bitboard.New(), Bitboard.New(), Bitboard.New(), Bitboard.New(), Bitboard.New(), Bitboard.New())
    }

    /** The accessors `pawns()` .. `kings()`, by kind. */
    function Get(kind: PieceKind): Bitboard {
      match kind
      case Pawn => pawns
      case Knight => knights
      case Bishop => bishops
      case Rook => rooks
      case Queen => queens
      case King => kings
    }

    /** `occupied()`: the union of the six boards. */
    function Occupied(): (r: Bitboard)
      ensures forall i: Square :: r.IsSet(i) <==> exists kind :: Get(kind).IsSet(i)
    {
      var r := pawns.Or(knights).Or(bishops).Or(rooks).Or(queens).Or(kings);
      assert forall i: Square :: r.IsSet(i) ==> exists kind :: Get(kind).IsSet(i) by {
        forall i: Square | r.IsSet(i) ensures exists kind :: Get(kind).IsSet(i) {
          if pawns.IsSet(i) { assert Get(Pawn).IsSet(i); }
          else if knights.IsSet(i) { assert Get(Knight).IsSet(i); }
          else if bishops.IsSet(i) { assert Get(Bishop).IsSet(i); }
          else if rooks.IsSet(i) { assert Get(Rook).IsSet(i); }
          else if queens.IsSet(i) { assert Get(Queen).IsSet(i); }
          else { assert Get(King).IsSet(i); }
        }
      }
      r
    }

    /** The board of `kind` with `bit` added; the other five unchanged. */
    function Place(kind: PieceKind, bit: Square): (r: SideBoard)
      ensures r.Get(kind) == Get(kind).Set(bit)
      ensures forall k :: k != kind ==> r.Get(k) == Get(k)
    {
      match kind
      case Pawn => this.(pawns := pawns.Set(bit))
      case Knight => this.(knights := knights.Set(bit))
      case Bishop => this.(bishops := bishops.Set(bit))
      case Rook => this.(rooks := rooks.Set(bit))
      case Queen => this.(queens := queens.Set(bit))
      case King => this.(kings := kings.Set(bit))
    }
  }

  /** `Board`: both sides' pieces. */
  datatype Board = Board(white: SideBoard, black: SideBoard)
  {
    /** `side_pieces(side)`, with `white_pieces()` and `black_pieces()`. */
    function SidePieces(side: Side): SideBoard {
      if side == White then white else black
    }

    /** The board of one kind of piece of one side. */
    function Get(side: Side, kind: PieceKind): Bitboard {
      SidePieces(side).Get(kind)
    }

    /** `occupied()`: the union of both sides' pieces. */
    function Occupied(): (r: Bitboard)
      ensures forall i: Square :: r.IsSet(i) <==> white.Occupied().IsSet(i) || black.Occupied().IsSet(i)
    {
      white.Occupied().Or(black.Occupied())
    }

    /** Adds `bit` to the board of one kind of piece of one side. */
    function Place(side: Side, kind: PieceKind, bit: Square): (r: Board)
      ensures r.Get(side, kind) == Get(side, kind).Set(bit)
      ensures forall s, k :: (s, k) != (side, kind) ==> r.Get(s, k) == Get(s, k)
    {
      if side == White then this.(white := white.Place(kind, bit)) else this.(black := black.Place(kind, bit))
    }

    /** No square holds two pieces. */
    predicate Disjoint() {
      forall s1, k1, s2, k2, q: Square :: (s1, k1) != (s2, k2) && Get(s1, k1).IsSet(q) ==> !Get(s2, k2).IsSet(q)
    }
  }

  /** `Board::new`. */
  function NewBoard(white: SideBoard, black: SideBoard): (b: Board)
    ensures b.SidePieces(White) == white && b.SidePieces(Black) == black
  {
    Board(white, black)
  }

  /** The board with no pieces. */
  function EmptyBoard(): (b: Board)
    ensures forall side, kind, q: Square :: !b.Get(side, kind).IsSet(q)
  {
    NewBoard(SideBoard.NewEmpty(), SideBoard.NewEmpty())
  }

  // The piece-placement parser.

  /** Why `from_fen_pieces` panics: not eight rows; a character that is neither
      a digit nor a piece letter; `u8` overflow of the square number or of the
      running file counter; a square number of 64 or more reaching `set`. */
  datatype PlacementError = WrongRowCount(rows: nat) | InvalidCharacter(c: char) | ArithmeticOverflow | SquareOutOfRange(bit: nat)

  /** The piece letters: lower case black, upper case white. */
  function PieceOf(c: char): Option<(Side, PieceKind)> {
    match c
    case 'p' => Some((Black, Pawn))
    case 'n' => Some((Black, Knight))
    case 'b' => Some((Black, Bishop))
    case 'r' => Some((Black, Rook))
    case 'q' => Some((Black, Queen))
    case 'k' => Some((Black, King))
    case 'P' => Some((White, Pawn))
    case 'N' => Some((White, Knight))
    case 'B' => Some((White, Bishop))
    case 'R' => Some((White, Rook))
    case 'Q' => Some((White, Queen))
    case 'K' => Some((White, King))
    case _ => None
  }

  /** A character the row scan accepts. */
  predicate ValidChar(c: char) { IsDigit(c) || PieceOf(c).Some? }

  /** The file counter after a valid character: a digit adds its value, a
      piece letter adds one. */
  function NextTile(c: char, tile: nat): nat
    requires ValidChar(c)
  {
    if IsDigit(c) then tile + DigitValue(c) else tile + 1
  }

  /** Stop after this character if the counter is exactly 8, otherwise go on. */
  function Continue(row: string, bitRank: nat, tile: nat, board: Board): Result<Board, PlacementError>
    requires |row| > 0
    decreases |row|, 0
  {
    if tile == 8 then Ok(board) else ScanRow(row[1..], bitRank, tile, board)
  }

  /** The inner loop of `from_fen_pieces` over one row's characters: the square
      is `bitRank + tile`, a digit advances the counter by its value, a piece
      letter sets the square in its board and advances the counter by one, and
      the scan stops once the counter is exactly 8. */
  function ScanRow(row: string, bitRank: nat, tile: nat, board: Board): (r: Result<Board, PlacementError>)
    ensures r.Err? ==> !r.error.WrongRowCount?
    decreases |row|, 1
  {
    if |row| == 0 then Ok(board)
    else if bitRank + tile > 255 then Err(ArithmeticOverflow)
    else
      var bit := bitRank + tile;
      var c := row[0];
      if IsDigit(c) then
        if tile + DigitValue(c) > 255 then Err(ArithmeticOverflow)
        else Continue(row, bitRank, tile + DigitValue(c), board)
      else if PieceOf(c).None? then Err(InvalidCharacter(c))
      else if bit >= 64 then Err(SquareOutOfRange(bit))
      else if tile + 1 > 255 then Err(ArithmeticOverflow)
      else Continue(row, bitRank, tile + 1, board.Place(PieceOf(c).value.0, PieceOf(c).value.1, bit))
  }

  /** The outer loop: rows k - 1 down to 0, row i starting at square 8i. */
  function ScanRows(rows: seq<string>, k: nat, board: Board): (r: Result<Board, PlacementError>)
    requires k <= |rows|
    ensures r.Err? ==> !r.error.WrongRowCount?
  {
    if k == 0 then Ok(board)
    else
      match ScanRow(rows[k - 1], (k - 1) * 8, 0, board)
      case Err(e) => Err(e)
      case Ok(next) => ScanRows(rows, k - 1, next)
  }

  /** What `from_fen_pieces` computes: split on '/', require eight rows, and
      scan rows 7 down to 0 into an empty board. Text row i lands on squares
      8i .. 8i + 7, so the first row of the text is rank 0. */
  function ParsePlacement(fen: string): (r: Result<Board, PlacementError>)
    ensures |Split(fen, '/')| != 8 <==> r.Err? && r.error.WrongRowCount?
  {
    var rows := Split(fen, '/');
    if |rows| != 8 then Err(WrongRowCount(|rows|)) else ScanRows(rows, 8, EmptyBoard())
  }

  /** `Board::from_fen_pieces`, with its panics as errors. The source's twelve
      local bitboards are held as one `Board` value; its outer loop is the
      method `FillRows` and the body of that loop the method `FillRow`. */
  method FromFenPieces(fen: string) returns (r: Result<Board, PlacementError>)
    ensures r == ParsePlacement(fen)
  {
    var rowStrings := Split(fen, '/');
    if |rowStrings| != 8 {
      return Err(WrongRowCount(|rowStrings|));
    }
    r := FillRows(rowStrings);
  }

  /** The outer loop of `from_fen_pieces`: rows 7 down to 0, each onto squares
      8 * row .. 8 * row + 7 of the board built so far. */
  method FillRows(rowStrings: seq<string>) returns (r: Result<Board, PlacementError>)
    requires |rowStrings| == 8
    ensures r == ScanRows(rowStrings, 8, EmptyBoard())
  {
    var board := EmptyBoard();
    for row := 8 downto 0
      invariant ScanRows(rowStrings, row, board) == ScanRows(rowStrings, 8, EmptyBoard())
    {
      var filled := FillRow(rowStrings[row], row * 8, board);
      if filled.Err? {
        return Err(filled.error);
      }
      board := filled.value;
    }
    r := Ok(board);
  }

  /** One pass of the outer loop of `from_fen_pieces`: the characters of one
      row, with the running counter `tile` and the early `break` at 8. The
      twelve-arm match on the piece letter is `PieceOf` followed by `Place`. */
  method FillRow(rowString: string, bitRank: nat, board: Board) returns (r: Result<Board, PlacementError>)
    ensures r == ScanRow(rowString, bitRank, 0, board)
  {
    var current := board;
    var tile := 0;
    for i := 0 to |rowString|
      invariant ScanRow(rowString[i..], bitRank, tile, current) == ScanRow(rowString, bitRank, 0, board)
    {
      var rowChar := rowString[i];
      assert rowString[i..][1..] == rowString[i + 1..];
      if bitRank + tile > 255 {
        return Err(ArithmeticOverflow);
      }
      var bit := bitRank + tile;
      if IsDigit(rowChar) {
        var rowNumber := DigitValue(rowChar);
        if tile + rowNumber > 255 {
          return Err(ArithmeticOverflow);
        }
        tile := tile + rowNumber;
      } else {
        match PieceOf(rowChar) {
          case None =>
            return Err(InvalidCharacter(rowChar));
          case Some(piece) =>
            if bit >= 64 {
              return Err(SquareOutOfRange(bit));
            }
            current := current.Place(piece.0, piece.1, bit);
        }
        if tile + 1 > 255 {
          return Err(ArithmeticOverflow);
        }
        tile := tile + 1;
      }
      if tile == 8 {
        return Ok(current);
      }
    }
    r := Ok(current);
  }

  // Properties of the parser.

  /** The running counter stays at most 8 over the characters the scan reads,
      and each of them is a digit or a piece letter. */
  predicate TallyFits(row: string, tile: nat)
    decreases |row|
  {
    |row| == 0 ||
    (ValidChar(row[0]) && NextTile(row[0], tile) <= 8 &&
     (NextTile(row[0], tile) == 8 || TallyFits(row[1..], NextTile(row[0], tile))))
  }

  /** The counter reaches exactly 8 within the row, every character up to that
      point being valid. */
  predicate Reaches8(row: string, tile: nat)
    decreases |row|
  {
    |row| > 0 && ValidChar(row[0]) &&
    (NextTile(row[0], tile) == 8 || Reaches8(row[1..], NextTile(row[0], tile)))
  }

  /** The pieces a row places, as (side, kind, square), read off the text alone:
      a digit moves the square on by its value, a piece letter is placed on the
      current square and moves it on by one, and reading stops at 8. */
  function Placements(row: string, bitRank: nat, tile: nat): seq<(Side, PieceKind, nat)>
    decreases |row|
  {
    if |row| == 0 || !ValidChar(row[0]) then []
    else
      var next := NextTile(row[0], tile);
      var here := if IsDigit(row[0]) then [] else [(PieceOf(row[0]).value.0, PieceOf(row[0]).value.1, bitRank + tile)];
      here + (if next == 8 then [] else Placements(row[1..], bitRank, next))
  }

  /** A successful row scan sets exactly the placements of the row on top of
      the board it started from. */
  lemma {:induction false} ScanRowPlaces(row: string, bitRank: nat, tile: nat, board: Board)
    requires ScanRow(row, bitRank, tile, board).Ok?
    ensures forall side, kind, q: Square :: ScanRow(row, bitRank, tile, board).value.Get(side, kind).IsSet(q) <==>
              board.Get(side, kind).IsSet(q) || (side, kind, q) in Placements(row, bitRank, tile)
    decreases |row|
  {
    if |row| > 0 {
      var c := row[0];
      var next := NextTile(c, tile);
      if IsDigit(c) {
        if next != 8 {
          ScanRowPlaces(row[1..], bitRank, next, board);
        }
      } else {
        var piece := PieceOf(c).value;
        var placed := board.Place(piece.0, piece.1, bitRank + tile);
        if next != 8 {
          ScanRowPlaces(row[1..], bitRank, next, placed);
        }
      }
    }
  }

  /** A row whose counter stays at most 8 is accepted, and writes only squares
      of its own rank, at or after the current square; pieces land on distinct
      free squares, so a board with no square held twice stays that way. */
  lemma {:induction false} RowKeepsDisjoint(row: string, bitRank: nat, tile: nat, board: Board)
    requires TallyFits(row, tile) && tile <= 8 && bitRank <= 56
    requires board.Disjoint()
    requires forall s, k, q: Square :: board.Get(s, k).IsSet(q) ==> q < bitRank + tile || q >= bitRank + 8
    ensures ScanRow(row, bitRank, tile, board).Ok?
    ensures ScanRow(row, bitRank, tile, board).value.Disjoint()
    ensures forall s, k, q: Square :: ScanRow(row, bitRank, tile, board).value.Get(s, k).IsSet(q) ==>
              board.Get(s, k).IsSet(q) || bitRank + tile <= q < bitRank + 8
    decreases |row|
  {
    if |row| > 0 {
      var c := row[0];
      var next := NextTile(c, tile);
      if IsDigit(c) {
        if next != 8 {
          RowKeepsDisjoint(row[1..], bitRank, next, board);
        }
      } else {
        var piece := PieceOf(c).value;
        var bit := bitRank + tile;
        PlaceFreeKeepsDisjoint(board, piece.0, piece.1, bit);
        var placed := board.Place(piece.0, piece.1, bit);
        if next != 8 {
          RowKeepsDisjoint(row[1..], bitRank, next, placed);
        }
      }
    }
  }

  /** Placing a piece on a square no board holds keeps the board disjoint. */
  lemma PlaceFreeKeepsDisjoint(board: Board, side: Side, kind: PieceKind, bit: Square)
    requires board.Disjoint()
    requires forall s, k :: !board.Get(s, k).IsSet(bit)
    ensures board.Place(side, kind, bit).Disjoint()
    ensures forall s, k, q: Square :: board.Place(side, kind, bit).Get(s, k).IsSet(q) <==>
              board.Get(s, k).IsSet(q) || ((s, k) == (side, kind) && q == bit)
  {
    var placed := board.Place(side, kind, bit);
    forall s, k, q: Square
      ensures placed.Get(s, k).IsSet(q) <==> board.Get(s, k).IsSet(q) || ((s, k) == (side, kind) && q == bit)
    {
      if (s, k) == (side, kind) {
        assert placed.Get(s, k) == board.Get(s, k).Set(bit);
      }
    }
  }

  /** Every piece on the board stands on square low or above. */
  predicate AllFrom(board: Board, low: nat) {
    forall s, kind, q: Square :: board.Get(s, kind).IsSet(q) ==> q >= low
  }

  /** One row of the outer scan: row k - 1, whose counter stays at most 8,
      scanned onto a disjoint board holding nothing below rank k, is accepted
      and leaves a disjoint board holding nothing below rank k - 1. */
  lemma RowStep(rows: seq<string>, k: nat, board: Board)
    requires 0 < k <= |rows| && k <= 8
    requires TallyFits(rows[k - 1], 0)
    requires board.Disjoint() && AllFrom(board, 8 * k)
    ensures ScanRow(rows[k - 1], (k - 1) * 8, 0, board).Ok?
    ensures var next := ScanRow(rows[k - 1], (k - 1) * 8, 0, board).value;
            next.Disjoint() && AllFrom(next, 8 * (k - 1)) && ScanRows(rows, k, board) == ScanRows(rows, k - 1, next)
  {
    var bitRank := (k - 1) * 8;
    assert bitRank + 8 == 8 * k;
    RowKeepsDisjoint(rows[k - 1], bitRank, 0, board);
  }

  /** Rows k - 1 .. 0 whose counters stay at most 8 are all accepted and keep
      the board disjoint. */
  lemma {:induction false} RowsKeepDisjoint(rows: seq<string>, k: nat, board: Board)
    requires k <= |rows| && k <= 8
    requires forall i :: 0 <= i < k ==> TallyFits(rows[i], 0)
    requires board.Disjoint()
    requires AllFrom(board, 8 * k)
    ensures ScanRows(rows, k, board).Ok?
    ensures ScanRows(rows, k, board).value.Disjoint()
  {
    if k > 0 {
      RowStep(rows, k, board);
      RowsKeepDisjoint(rows, k - 1, ScanRow(rows[k - 1], (k - 1) * 8, 0, board).value);
    }
  }

  /** Eight rows whose counters never pass 8 always parse, and then no square
      holds two pieces: the twelve bitboards are pairwise disjoint. */
  lemma PlacementDisjoint(fen: string)
    requires |Split(fen, '/')| == 8
    requires forall i :: 0 <= i < 8 ==> TallyFits(Split(fen, '/')[i], 0)
    ensures ParsePlacement(fen).Ok?
    ensures ParsePlacement(fen).value.Disjoint()
  {
    RowsKeepDisjoint(Split(fen, '/'), 8, EmptyBoard());
  }

  /** Characters after the counter reaches exactly 8 are never read. */
  lemma {:induction false} TrailingIgnored(row: string, rest: string, bitRank: nat, tile: nat, board: Board)
    requires Reaches8(row, tile)
    ensures ScanRow(row + rest, bitRank, tile, board) == ScanRow(row, bitRank, tile, board)
    decreases |row|
  {
    var c := row[0];
    assert (row + rest)[0] == c;
    assert (row + rest)[1..] == row[1..] + rest;
    var next := NextTile(c, tile);
    if next != 8 {
      if IsDigit(c) {
        TrailingIgnored(row[1..], rest, bitRank, next, board);
      } else if bitRank + tile < 64 {
        TrailingIgnored(row[1..], rest, bitRank, next, board.Place(PieceOf(c).value.0, PieceOf(c).value.1, bitRank + tile));
      }
    }
  }

  /** A character that is neither a digit nor a piece letter, read before the
      counter reaches 8, is rejected. */
  lemma {:induction false} InvalidCharacterRejected(prefix: string, c: char, rest: string, bitRank: nat, tile: nat, board: Board)
    requires TallyFits(prefix, tile) && !Reaches8(prefix, tile) && tile < 8 && bitRank <= 56
    requires !ValidChar(c)
    ensures ScanRow(prefix + [c] + rest, bitRank, tile, board) == Err(InvalidCharacter(c))
    decreases |prefix|
  {
    var row := prefix + [c] + rest;
    if |prefix| == 0 {
      assert row[0] == c;
    } else {
      var d := prefix[0];
      assert row[0] == d;
      assert row[1..] == prefix[1..] + [c] + rest;
      var next := NextTile(d, tile);
      if IsDigit(d) {
        InvalidCharacterRejected(prefix[1..], c, rest, bitRank, next, board);
      } else {
        InvalidCharacterRejected(prefix[1..], c, rest, bitRank, next,
                                 board.Place(PieceOf(d).value.0, PieceOf(d).value.1, bitRank + tile));
      }
    }
  }
}
