# chess-engine-rs move generator, modelled in Dafny

This project models the core of the Rust chess engine chess-engine-rs:

- **Bitboards.** A 64-bit set of squares with membership, setting a bit, and an 8×8 text rendering.
- **Attack tables.**
  - Pawn push, double-push and capture tables.
  - Knight and king step tables.
  - The eight directional ray tables.
  - The sliding-piece resolver `ray_attack_table`. It clips each ray at its nearest blocker by XOR-ing away the ray that starts at the blocker. A sentinel bit stands in for "no blocker".
- **Pseudo-legal move generator.** It covers pawn pushes, double pushes, captures, en passant and promotion records. It also covers leaper moves (knight, king) and slider moves (bishop, rook, queen), and their concatenation for the side to move.
- **FEN parsers.** The piece-placement field and the six-field position form.
- **Square names.** Conversion between algebraic names ("e4") and indices.

The model follows the code as written, including three places where it differs from textbook chess:

- **Placement is flipped vertically.** Text row i of the placement field fills squares 8i .. 8i+7.
- **En passant looks the wrong way.** The en-passant probe uses rank offset −1 for White.
- **Promotion codes are ambiguous.** A pawn reaching the promotion rank produces three records, with promotion codes 0, 1 and 2. Code 0 also means "no promotion".

## Modules and files

| file | module | what it holds |
|---|---|---|
| `wrappers.dfy` | `Wrappers` | `Option` and `Result` |
| `square.dfy` | `Squares` | squares: index = rank·8 + file, and `new_file_rank` |
| `bitboard.dfy` | `Bitboards` | `Bitboard` over `bv64` |
| `side.dfy` | `Sides` | `Side` and its index |
| `rays.dfy` | `Rays` | the eight directions and ray geometry |
| `move_tables.dfy` | `MoveTables` | the tables, the table-building loops and the resolver |
| `notation.dfy` | `ByteArith`, `Notation` | square names |
| `text.dfy` | `Text` | split, join, and decimal parsing of unsigned integers |
| `board.dfy` | `Boards` | side boards, boards and the placement parser |
| `game.dfy` | `Games` | the game record and the FEN parser |
| `moves.dfy` | `Moves` | move records, the generators and their specification functions |
| `move_facts.dfy` | `MoveFacts` | what each generator's output is, and that moves respect the sides |

## Model

**Representation choices**

- **Lookup tables.** The source builds its tables lazily with loops. Each table is stated as a pure function (`PawnMoveBoard`, `KnightTable`, `RayTable`, …). A `Compute…` method runs the source's loops over arrays and is proved to fill every entry with that function's value.
- **Generators.** Each generator is a method with the source's loops. It is proved equal to a specification function in `Moves`, and `MoveFacts` proves the properties of that function.

| member | source | states |
|---|---|---|
| Bitboards.Bitboard.New | src/utils/bitboard.rs:7-9 | the new bitboard has no square set |
| Bitboards.Bitboard.FromData | src/utils/bitboard.rs:11-13 | the bitboard holds the given word, so square i is a member exactly when bit i of the word is 1 |
| Bitboards.BitAtMask | src/utils/bitboard.rs:11-17 | `is_set(i)` of a word holds exactly when bit i of the word is 1 |
| Bitboards.Bitboard.Set | src/utils/bitboard.rs:19-22 | after `set(i)` bit i is set and every other bit is unchanged; the index must be below 64 |
| Bitboards.SetMonotoneIdempotent | src/utils/bitboard.rs:21 | `set` only adds: every old member stays, and setting a member already present changes nothing |
| Bitboards.Bitboard.ToString | src/utils/bitboard.rs:25-40 | the text is 71 characters: 8 lines of 8 `'0'`/`'1'` joined by `'\n'`; character f of line r is `'1'` exactly when bit r·8+f is set |
| Bitboards.JoinLinesLayout | src/utils/bitboard.rs:38 | joining rows of 8 characters with `'\n'` puts row p/9, column p%9 at position p, and a newline at every ninth position |
| Bitboards.Bitboard.And | src/chess/moves.rs:26 | `&` holds the squares in both operands |
| Bitboards.Bitboard.Or | src/chess/move_tables.rs:228 | `\|` holds the squares in either operand |
| Bitboards.Bitboard.Xor | src/chess/move_tables.rs:230-231 | `^` holds the squares in exactly one operand |
| Bitboards.Bitboard.Not | src/chess/moves.rs:26 | `!` holds exactly the squares not in the operand |
| Bitboards.Bitboard.FindFirst | src/chess/move_tables.rs:229 | on a non-empty board, the lowest set square |
| Bitboards.Bitboard.FindLast | src/chess/move_tables.rs:241 | on a non-empty board, the highest set square |
| Bitboards.Bitboard.Squares | src/chess/moves.rs:28 | iterating a bitboard visits exactly its set squares, in ascending order |
| Bitboards.Extensional | src/chess/move_tables.rs:228-231 | two bitboards with the same members are equal |
| Bitboards.EmptyIffZero | src/chess/moves.rs:56 | `data() == 0` exactly when no square is set |
| Bitboards.Sentinels | src/chess/move_tables.rs:228-240 | the sentinel words 0x8000000000000000 and 1 hold exactly square 63 and square 0 |
| Squares.At | src/chess/move_tables.rs:28-30 | the on-board square with a given file and rank has that file and rank |
| Squares.NewFileRank | src/chess/move_tables.rs:38 | `new_file_rank` keeps the low three bits of each coordinate |
| Squares.SquareDecomposes | src/chess/move_tables.rs:28-30 | a square is rank·8 + file, with both below 8 |
| Squares.SquareFromCoordinates | src/chess/move_tables.rs:28-30 | a square is determined by its file and rank |
| Squares.NewFileRankOnBoard | src/chess/move_tables.rs:100 | for on-board coordinates the byte casts and the masking change nothing, so `new_file_rank` gives that square |
| Sides.Side.Index | src/chess/game.rs:9-12 | White is index 0 and Black index 1 |
| Sides.Side.Opponent | src/chess/moves.rs:275-279 | the opponent is the other side |
| Sides.SideAt | src/chess/move_tables.rs:23-25 | table row i belongs to the side whose index is i |
| Rays.Direction.FileStep | src/chess/move_tables.rs:10-17 | a direction's file step is −1, 0 or 1 |
| Rays.Direction.RankStep | src/chess/move_tables.rs:10-17 | a direction's rank step is −1, 0 or 1, and it is not zero when the file step is zero |
| Rays.SentinelSquare | src/chess/move_tables.rs:228-240 | no square comes before the sentinel (63 or 0) along the direction |
| Rays.OnRayMeans | src/chess/move_tables.rs:195-210 | t is on the ray from s exactly when t = s + k·step for some k ≥ 1 |
| Rays.RayOrder | src/chess/move_tables.rs:195-210 | along a ray, squares further from the origin come later in the direction's index order; equal distance means the same square |
| Rays.RayNest | src/chess/move_tables.rs:230-231 | for t on the ray from s, the ray from t is the part of the ray from s beyond t |
| Rays.SentinelRayEmpty | src/chess/move_tables.rs:228-231 | the ray from the sentinel square is empty |
| Rays.StepSquare | src/chess/move_tables.rs:206 | the k-th step square, when on the board, is the unique ray square at distance k |
| Rays.RayEnds | src/chess/move_tables.rs:199-204 | once a step leaves the board, no ray square lies at that distance or further |
| MoveTables.PawnMoveBoard | src/chess/move_tables.rs:20-46 | the single-push entry holds exactly the square one rank forward on the same file (+1 for White, −1 for Black), if that rank is on the board |
| MoveTables.PawnDoubleMoveBoard | src/chess/move_tables.rs:48-74 | the double-push entry holds exactly the square two ranks forward, and only from rank 1 (White) or rank 6 (Black) |
| MoveTables.PawnAttackBoard | src/chess/move_tables.rs:76-110 | the capture entry holds exactly the on-board squares one file to either side and one rank forward |
| MoveTables.KnightTable | src/chess/move_tables.rs:112-149 | t is in the entry for s exactly when the file and rank distances are (1,2) or (2,1) |
| MoveTables.KingTable | src/chess/move_tables.rs:151-188 | t is in the entry for s exactly when t ≠ s and both distances are at most 1 |
| MoveTables.RayTable | src/chess/move_tables.rs:190-216 | the ray entry holds exactly the squares on the ray |
| MoveTables.KnightOffsetsExact | src/chess/move_tables.rs:113-122 | the eight listed knight offsets, kept when on the board, reach exactly the knight-step squares |
| MoveTables.KingOffsetsExact | src/chess/move_tables.rs:152-161 | the eight listed king offsets, kept when on the board, reach exactly the king-step squares |
| MoveTables.LeaperEntry | src/chess/move_tables.rs:126-145 | the inner offset loop sets exactly the on-board offset squares |
| MoveTables.ComputeKnightTable | src/chess/move_tables.rs:112-149 | the 64 entries computed are the knight-step sets |
| MoveTables.ComputeKingTable | src/chess/move_tables.rs:151-188 | the 64 entries computed are the king-step sets |
| MoveTables.PushEntry | src/chess/move_tables.rs:27-39 | one single-push entry is the push target set |
| MoveTables.ComputePawnMoveTables | src/chess/move_tables.rs:20-46 | the 2×64 entries computed are the single-push sets of side 0 (White) and side 1 (Black) |
| MoveTables.DoublePushEntry | src/chess/move_tables.rs:56-67 | one double-push entry is the double-push target set |
| MoveTables.ComputePawnDoubleMoveTables | src/chess/move_tables.rs:48-74 | the 2×64 entries computed are the double-push sets |
| MoveTables.CaptureOffsetsExact | src/chess/move_tables.rs:77-101 | the two offsets (−1, dir) and (1, dir), kept when on the board, reach exactly the capture targets |
| MoveTables.ComputePawnCaptureTables | src/chess/move_tables.rs:76-110 | the 2×64 entries computed are the capture sets |
| MoveTables.ComputeRayTable | src/chess/move_tables.rs:190-216 | the stepping loop fills each entry with exactly the ray squares |
| MoveTables.SentinelBoard | src/chess/move_tables.rs:228-240 | the sentinel bitboard holds exactly the direction's sentinel square |
| MoveTables.RayLookup | src/chess/move_tables.rs:227 | the `RAY_TABLE_*` lookup is the ray |
| MoveTables.ClipRay | src/chess/move_tables.rs:227-231 | ray, blockers plus sentinel, nearest blocker, then XOR: the result is exactly the ray up to and including the first occupied square |
| MoveTables.Nearest | src/chess/move_tables.rs:229-241 | `find_first` on ascending rays and `find_last` on descending rays give a blocker with no blocker before it |
| MoveTables.BlockersMembers | src/chess/move_tables.rs:228 | the blocker board is the occupied squares of the ray plus the sentinel, and it is never empty |
| MoveTables.ClipMembers | src/chess/move_tables.rs:230-231 | XOR with the blocker's ray leaves exactly the visible squares |
| MoveTables.NearestIsBlocker | src/chess/move_tables.rs:228-231 | with b the nearest blocker (or the sentinel), being on the ray from the origin but not on the ray from b is visibility |
| MoveTables.UpToBlockerVisible | src/chess/move_tables.rs:228-231 | a ray square no further than the first occupied square is visible |
| MoveTables.SliderAttacks | src/chess/move_tables.rs:218-283 | the resolver's value holds exactly the squares visible along a generated direction |
| MoveTables.VisibleAlongAnyMeans | src/chess/move_tables.rs:251-279 | the union over generated directions is the set of attacked squares |
| MoveTables.SliderAttacksExact | src/chess/move_tables.rs:218-283 | any board whose members are the visible squares equals the resolver's value |
| MoveTables.RayAttackTable | src/chess/move_tables.rs:218-283 | the resolver, four clipped rays per group, computes `SliderAttacks` |
| MoveTables.AttackTableKnight | src/chess/move_tables.rs:297-299 | the knight lookup is the knight-step set and ignores occupancy |
| MoveTables.AttackTableKing | src/chess/move_tables.rs:313-315 | the king lookup is the king-step set and ignores occupancy |
| MoveTables.AttackTableBishop | src/chess/move_tables.rs:301-303 | bishop attacks are the four clipped diagonals |
| MoveTables.AttackTableRook | src/chess/move_tables.rs:305-307 | rook attacks are the four clipped orthogonals |
| MoveTables.AttackTableQueen | src/chess/move_tables.rs:309-311 | queen attacks are all eight clipped rays |
| MoveTables.PushTargetUnique | src/chess/move_tables.rs:33-38 | there is at most one single-push square, and there is one exactly when the rank ahead is on the board |
| MoveTables.DoublePushTargetExact | src/chess/move_tables.rs:53-65 | the double-push target exists only on the double-push rank and is the same-file square two ranks forward |
| MoveTables.CaptureTargetExact | src/chess/move_tables.rs:90-101 | the capture targets are the at most two on-board diagonal squares, and never on the origin's file |
| MoveTables.RayShape | src/chess/move_tables.rs:190-216 | indices strictly increase along N/E/NE/NW and strictly decrease along S/W/SE/SW; the origin is never on its ray; the sentinel's ray is empty |
| MoveTables.RayXorSegment | src/chess/move_tables.rs:230-231 | for t on the ray from s, the ray from t is a subset of the ray from s, and their XOR is exactly the segment from s (exclusive) to t (inclusive) |
| MoveTables.QueenIsBishopOrRook | src/chess/move_tables.rs:309-311 | queen attacks are bishop attacks ∪ rook attacks |
| MoveTables.UnionOfGroups | src/chess/move_tables.rs:251-279 | a board holding the queen's attacks is the union of boards holding the bishop's and the rook's attacks |
| MoveTables.GroupsSplit | src/chess/move_tables.rs:226-280 | a square is attacked along all eight directions exactly when it is attacked diagonally or orthogonally |
| MoveTables.EmptyBoardFullRays | src/chess/move_tables.rs:218-283 | with no occupancy the resolver gives the full union of the generated rays |
| MoveTables.OffRayOccupancyIrrelevant | src/chess/move_tables.rs:218-283 | occupancy off the generated rays does not change the resolver's value |
| MoveTables.SameVisibility | src/chess/move_tables.rs:218-283 | two occupancies that agree on the generated rays give the same attacked boards |
| ByteArith.MasksAsRemainders | src/utils/notation.rs:11-12 | `& 0b00111000` then `/ 8` is the rank of index % 64, and `& 0b00000111` is index % 8 |
| Notation.DecimalDigit | src/utils/notation.rs:6 | `to_digit(10)` succeeds exactly on '0'..'9' and gives the digit's value |
| Notation.AlgebraicSquareToBit | src/utils/notation.rs:1-8 | succeeds exactly when there are at least two characters, the first not below 'a' and the second a digit from 1 to 9 (later characters are ignored); the value is (rank − 1)·8 + (file − 'a') |
| Notation.BitToAlgebraicSquare | src/utils/notation.rs:10-16 | always two characters: a file in a..h and a rank in 1..8 that name index % 64 |
| Notation.MaskedParts | src/utils/notation.rs:11-12 | the masks extract the rank and file of index % 64 |
| Notation.NameIgnoresHighBits | src/utils/notation.rs:11-12 | the name depends only on index & 63, so 64 is named "a1" |
| Notation.IndexRoundTrip | src/utils/notation.rs:1-16 | parsing the name of a square gives the square back |
| Notation.NameRoundTrip | src/utils/notation.rs:1-16 | a two-character name with file a..h and rank 1..8 parses to a square below 64 whose name is the same text |
| Notation.TrailingIgnored | src/utils/notation.rs:2-3 | characters after the second do not affect the result |
| Text.Split | src/chess/board.rs:81 | splitting yields one more part than there are separators, and no part holds the separator |
| Text.JoinAvoids | src/chess/board.rs:81 | joining parts that avoid a character, other than the separator, avoids it too |
| Text.JoinSplit | src/chess/board.rs:81 | joining the parts of a split restores the text |
| Text.SplitJoin | src/chess/game.rs:29 | splitting a join of separator-free parts restores the parts |
| Text.SplitNoSeparator | src/chess/game.rs:29 | text without the separator splits into itself |
| Text.SplitPrefix | src/chess/game.rs:29 | a separator-free head followed by the separator splits off as the first part |
| Text.ParseUnsigned | src/chess/game.rs:67-68 | `parse::<u8>`/`parse::<u16>`: empty text is `Empty`; the value is returned exactly when, after an optional '+', there are one or more digits whose value is at most the maximum; the error is an overflow exactly when some all-digit prefix already exceeds the maximum, and an invalid digit otherwise |
| Text.ScanDigits | src/chess/game.rs:67-68 | the digit loop, read left to right from a valid prefix, succeeds exactly on an all-digit text within range with its value, and overflows exactly when a longer all-digit prefix exceeds the maximum |
| Text.PrefixValueBounded | src/chess/game.rs:67-68 | every prefix of an all-digit text is all digits and has a value no larger than the whole |
| Text.Decimal | src/chess/game.rs:67-68 | the decimal text of a number is a non-empty run of digits |
| Text.DecimalValueOfDecimal | src/chess/game.rs:67-68 | the value of a number's decimal text is that number |
| Text.ParseDecimal | src/chess/game.rs:67-68 | a number within range parses back from its decimal text, with or without a leading '+' |
| Text.ParseOverflow | src/chess/game.rs:67-68 | one past the maximum is rejected as an overflow |
| Text.FirstFailureWins | src/chess/game.rs:67-68 | the first failure met decides the error: "999x" overflows a `u8` and "99999x" a `u16`, while "12x" and "x999" are invalid digits |
| Boards.SideBoard.New | src/chess/board.rs:18-34 | the accessors give back exactly the constructor arguments |
| Boards.SideBoard.NewEmpty | src/chess/board.rs:36-45 | all six boards are empty |
| Boards.SideBoard.Occupied | src/chess/moves.rs:24-25 | a square is occupied exactly when one of the six piece boards holds it |
| Boards.SideBoard.Place | src/chess/board.rs:112-126 | placing a piece sets the square in that kind's board and leaves the other five unchanged |
| Boards.Board.Occupied | src/chess/moves.rs:272 | a square is occupied exactly when either side occupies it |
| Boards.Board.Place | src/chess/board.rs:112-126 | placing a piece changes only that side's board for that kind, by setting the square |
| Boards.NewBoard | src/chess/board.rs:73-78 | `side_pieces` gives back the white and black arguments |
| Boards.EmptyBoard | src/chess/board.rs:86-97 | before the rows are read, all twelve boards are empty |
| Boards.ScanRow | src/chess/board.rs:103-134 | one row's characters in order, square = bitRank + tally: a digit advances the tally by its value, a piece letter sets its square and advances the tally by one, other characters fail, and the scan stops once the tally is exactly 8; the `u8` overflow, invalid-character and square-range failures come in the source's order, and none is a row-count error (what the row adds is `Boards.ScanRowPlaces`) |
| Boards.ScanRows | src/chess/board.rs:99-135 | the rows from the last read down to row 0, row i scanned from square 8i, stopping at the first row that fails; no failure is a row-count error (its disjointness is `Boards.RowsKeepDisjoint`) |
| Boards.ParsePlacement | src/chess/board.rs:81-84 | a row-count error is reported exactly when the text does not split into 8 rows at '/' |
| Boards.FromFenPieces | src/chess/board.rs:80-184 | `from_fen_pieces`, with its panics as errors, computes `ParsePlacement` |
| Boards.FillRows | src/chess/board.rs:99-135 | the loop over the rows, from row 7 down to row 0, computes `ScanRows` from the empty board |
| Boards.FillRow | src/chess/board.rs:100-134 | the loop over one row's characters computes `ScanRow` |
| Boards.ScanRowPlaces | src/chess/board.rs:103-129 | a row adds exactly its placements: a square is set after the row exactly when it was set before or the row places that side and kind there (digits advance the tally, letters set square 8i + tally) |
| Boards.RowKeepsDisjoint | src/chess/board.rs:99-129 | a row whose tally stays within 8 is accepted, keeps the pieces on distinct squares, and writes only into its own rank |
| Boards.PlaceFreeKeepsDisjoint | src/chess/board.rs:112-126 | placing a piece on a free square keeps the board disjoint and adds exactly that piece |
| Boards.RowStep | src/chess/board.rs:99-135 | one step of the row loop keeps the board disjoint and the unread ranks empty |
| Boards.RowsKeepDisjoint | src/chess/board.rs:99-135 | when every row's tally stays within 8, the scan succeeds and the twelve boards are pairwise disjoint |
| Boards.PlacementDisjoint | src/chess/board.rs:80-184 | eight rows whose tallies stay within 8 parse to a board in which no square holds two pieces |
| Boards.TrailingIgnored | src/chess/board.rs:131-133 | characters after the tally reaches exactly 8 are ignored |
| Boards.InvalidCharacterRejected | src/chess/board.rs:112-125 | a character that is neither a digit nor a piece letter, met before the tally reaches 8, fails with that character |
| Games.Game.EpSquare | src/chess/game.rs:63-66 | the stored en-passant byte names a square exactly when it is below 64; 64 means none |
| Games.CastlingRights | src/chess/game.rs:47-61 | the castling field is accepted exactly when it is "-" or every character is one of K, Q, k, q; each flag is then set exactly when its letter occurs; the only error is an invalid castling field |
| Games.ParseCastling | src/chess/game.rs:47-61 | the flag loop computes the castling rights: "-" gives none; otherwise each of K, Q, k, q sets its own flag, and any other character fails |
| Games.CastlingOrderIrrelevant | src/chess/game.rs:47-61 | two castling fields with the same letters give the same result, whatever the order or repetition |
| Games.FullCastling | src/chess/game.rs:47-61 | "KQkq" grants all four rights |
| Games.ActiveSide | src/chess/game.rs:41-45 | "w" gives White, "b" gives Black, anything else fails |
| Games.EpField | src/chess/game.rs:63-66 | "-" gives 64; any other field succeeds exactly when the square-name parser does, and a field starting with a name a1..h8 gives a square below 64 whose name is that text |
| Games.ParseFen | src/chess/game.rs:28-82 | succeeds exactly when there are 6 space-separated fields and each parses; then each component of the game is what its field parses to (en passant "-" is none) |
| Games.FromFen | src/chess/game.rs:28-82 | `from_fen`, with its panics as errors, computes `ParseFen` |
| Games.ParseFenFields | src/chess/game.rs:28-82 | joining six valid fields with spaces and parsing gives back the game built from those fields |
| Games.NewEmpty | src/chess/game.rs:90-103 | empty boards, White to move, no castling rights, no en-passant square, half-move 0, full-move 1 |
| Games.PieceLettersFit | src/chess/board.rs:112-128 | a run of piece letters no longer than the files left keeps the tally within 8 |
| Games.StartRanksFit | src/chess/game.rs:84-88 | every rank of the standard start fits the board |
| Games.StartPlacementParses | src/chess/game.rs:84-88 | the start placement parses, and no square holds two pieces |
| Games.StartFenFields | src/chess/game.rs:84-88 | the starting FEN parses to the start placement with White to move, full castling rights, en passant 64, half-move 0 and full-move 1 |
| Games.NewClassical | src/chess/game.rs:84-88 | `new_classical` succeeds with the start placement, White to move, all four rights, no en-passant square, clocks 0 and 1, and a board in which no square holds two pieces |
| Moves.TargetMoves | src/chess/moves.rs:28-37 | one record per target, in target order, from the origin, a capture exactly when the opponent occupies the target, no en passant, promotion 0 |
| Moves.TargetMovesExact | src/chess/moves.rs:28-37 | the records are exactly the moves from the origin to a target, a capture exactly when opponent-occupied, no en passant, promotion 0 |
| Moves.TargetMovesAscending | src/chess/moves.rs:28 | ascending targets give records with ascending target squares |
| Moves.RayMoves | src/chess/moves.rs:16-40 | `generate_ray_moves` lists exactly the moves from the origin to the squares of `attack_table & !our_occupied`, a capture exactly when opponent-occupied, no en passant, promotion 0, with strictly ascending targets |
| Moves.PieceMoves | src/chess/moves.rs:160-173 | over a list of origins, the records are exactly the moves from one of them to an attacked square we do not occupy, flagged as in `RayMoves` |
| Moves.Promotions | src/chess/moves.rs:88-107 | a push or capture onto the promotion rank gives three records with codes 0, 1, 2; any other target gives one record with code 0; the records are exactly those moves |
| Moves.PawnTargetMoves | src/chess/moves.rs:86-132 | push or capture records are exactly the moves from the pawn to a target, with the given capture flag, no en passant, and a code below 3 on the promotion rank and 0 elsewhere |
| Moves.PushBoard | src/chess/moves.rs:55-58 | a push target is an empty square that is either the single-push square or the double-push square when the single-push square is also empty |
| Moves.SinglePushBoard | src/chess/moves.rs:56 | the `data() != 0` test holds exactly when the single-push square is free, as far as a double push is concerned |
| Moves.OffsetSquare | src/chess/moves.rs:67-74 | `new_file_rank` of the byte-cast offsets is the square whose file and rank are the offset coordinates mod 8 |
| Moves.EpBoard | src/chess/moves.rs:63-82 | the en-passant board holds t exactly when the en-passant square is t, on the rank offset by −1 (White) or +1 (Black) mod 8, with file ±1 mod 8 |
| Moves.EpMoves | src/chess/moves.rs:134-143 | en-passant records are exactly the moves from the pawn to a target with capture and en passant set and promotion 0 |
| Moves.PawnMovesFrom | src/chess/moves.rs:55-143 | a pawn's records are exactly: non-captures onto the push board, captures onto the capture table ∩ opponent squares (both with the promotion codes the rank allows), and en-passant captures onto the en-passant board |
| Moves.PawnMoves | src/chess/moves.rs:54-144 | a move is listed exactly when it is a record of one of the pawns listed |
| Moves.PseudolegalMoves | src/chess/moves.rs:269-317 | every pseudo-legal move starts on a square of the side to move |
| Moves.KindBoards | src/chess/moves.rs:290-314 | the board of each piece kind that the knight to king generators read is that kind's own board |
| Moves.PawnMovesStartOn | src/chess/moves.rs:51-54 | every pawn move starts on a square occupied by its side |
| Moves.PieceMovesStartOn | src/chess/moves.rs:160-173 | every move of the pieces of one kind starts on a square occupied by their side |
| Moves.PushPromotions | src/chess/moves.rs:88-107 | the promotion loop for one target appends `Promotions` |
| Moves.PawnMoverSnoc | src/chess/moves.rs:54-144 | one more pawn appends that pawn's `PawnMovesFrom` records |
| Moves.PushTargetMoves | src/chess/moves.rs:28-37 | the loop appends one record per target |
| Moves.GenerateRayMoves | src/chess/moves.rs:16-40 | `generate_ray_moves` computes `RayMoves` |
| Moves.PushPawnTargets | src/chess/moves.rs:86-132 | the push and capture loops with the promotion expansion append `PawnTargetMoves` |
| Moves.PushEpMoves | src/chess/moves.rs:134-143 | the en-passant loop appends `EpMoves` |
| Moves.PawnPushBoard | src/chess/moves.rs:55-58 | the in-place move board computation gives `PushBoard` |
| Moves.PawnEpBoard | src/chess/moves.rs:63-82 | the en-passant board computation gives `EpBoard` |
| Moves.PushPawnTargetsMoves | src/chess/moves.rs:86-143 | the three loops of one pawn append pushes, then captures, then en passant |
| Moves.PushPawnMoves | src/chess/moves.rs:55-143 | the body of the pawn loop appends `PawnMovesFrom` |
| Moves.GeneratePawnMoves | src/chess/moves.rs:42-147 | `generate_pawn_moves` computes `PawnMoves` over the pawns in ascending order |
| Moves.LeaperMoves | src/chess/moves.rs:160-173 | the knight/king double loop computes `PieceMoves` |
| Moves.SliderMoves | src/chess/moves.rs:186-194 | the slider loop with `append` computes `PieceMoves` |
| Moves.GenerateKnightMoves | src/chess/moves.rs:149-176 | knight moves are `PieceMoves` with the knight table |
| Moves.GenerateBishopMoves | src/chess/moves.rs:178-197 | bishop moves are `PieceMoves` with the bishop resolver |
| Moves.GenerateRookMoves | src/chess/moves.rs:199-218 | rook moves are `PieceMoves` with the rook resolver |
| Moves.GenerateQueenMoves | src/chess/moves.rs:220-239 | queen moves are `PieceMoves` with the queen resolver |
| Moves.GenerateKingMoves | src/chess/moves.rs:241-267 | king moves are `PieceMoves` with the king table |
| Moves.GeneratePseudolegalMoves | src/chess/moves.rs:269-317 | the result is pawn, knight, bishop, rook, queen and king moves of the active side against the other side's pieces, in that order |
| Moves.PieceMovesSnoc | src/chess/moves.rs:160-173 | one more origin appends that origin's moves |
| Moves.PawnMovesSnoc | src/chess/moves.rs:54-144 | one more pawn appends that pawn's moves |
| MoveFacts.PieceMovesOn | src/chess/moves.rs:160-173 | the same, for the origins on a bitboard |
| MoveFacts.KnightMovesExact | src/chess/moves.rs:149-176 | knight moves go from our knights to knight-step squares that we do not occupy, with capture exactly when the opponent occupies the target |
| MoveFacts.KingMovesExact | src/chess/moves.rs:241-267 | king moves go from our kings to king-step squares that we do not occupy, with capture exactly when the opponent occupies the target |
| MoveFacts.BishopMovesExact | src/chess/moves.rs:178-197 | bishop moves go from our bishops to diagonally visible squares that we do not occupy |
| MoveFacts.RookMovesExact | src/chess/moves.rs:199-218 | rook moves go from our rooks to orthogonally visible squares that we do not occupy |
| MoveFacts.QueenMovesExact | src/chess/moves.rs:220-239 | queen moves go from our queens to squares visible in any direction that we do not occupy |
| MoveFacts.EpBoardWrapsAround | src/chess/moves.rs:67-70 | as written, an a-file pawn takes en passant onto the h-file: the west probe's file wraps from −1 to 7 |
| MoveFacts.PawnMovesExact | src/chess/moves.rs:54-144 | the pawn moves are exactly the records of the pawns listed |
| MoveFacts.PawnMovesOn | src/chess/moves.rs:54-144 | every pawn move starts on one of our pawns and is one of that pawn's records |
| MoveFacts.SidesDisjoint | src/chess/board.rs:99-129 | on a disjoint board no square is held by both sides |
| MoveFacts.PieceMovesRespectSides | src/chess/moves.rs:160-173 | every knight, bishop, rook, queen or king move starts on our piece and never targets our own piece |
| MoveFacts.PawnMoveKinds | src/chess/moves.rs:55-143 | a non-capture goes to an empty square; a normal capture goes to an opponent square; an en-passant capture goes to the en-passant square with promotion 0 |
| MoveFacts.NonCaptureRespectsSides | src/chess/moves.rs:55-58 | a push to an empty square respects the sides |
| MoveFacts.CaptureRespectsSides | src/chess/moves.rs:60-61 | a normal capture of an opponent square respects the sides |
| MoveFacts.PawnMoveRespectsSides | src/chess/moves.rs:54-143 | a move of one of our pawns respects the sides |
| MoveFacts.PawnMovesRespectSides | src/chess/moves.rs:42-147 | every pawn move starts on our pawn; pushes go to empty squares; captures are exactly the moves onto opponent squares |
| MoveFacts.PseudolegalMovesSound | src/chess/moves.rs:269-317 | on a disjoint board, every pseudo-legal move starts on our piece. A non-en-passant move never targets our own piece and captures exactly when the opponent occupies the target. An en-passant move captures onto the en-passant square with promotion 0 |

## Left out

**Side effects and runtime**

- The `println!` output of `Bitboard::set` and `from_fen_pieces` is I/O and is not modelled.
- `lazy_static!` initialisation and its thread safety are not modelled. The tables are pure functions of side and square. The `Compute…` methods model the loops that fill them.
- Rust panics are modelled as `Err` results: a wrong field or row count, unknown characters, failed `unwrap`s, and `u8` under- or overflow. Debug-versus-release arithmetic is not distinguished.

**Text handling**

- `char::is_numeric`, `to_digit` and `str::split` are modelled on ASCII character sequences. A non-ASCII numeric character fails as an invalid character, not through the source's separate `to_digit` branch.

**Types not defined in these files**

- `Square`, the `Bitboard` operators, `find_first`/`find_last`, bitboard iteration and the `occupied`/`side_pieces`/`ep_square` accessors are not defined in these files. They are given the minimal semantics their uses need:
  - index = rank·8 + file;
  - `new_file_rank` keeps the low three bits of each coordinate;
  - iteration is in ascending index order;
  - `ep_square()` is `Some` exactly when the stored byte is below 64.
- The en-passant wrap-around (`MoveFacts.EpBoardWrapsAround`) follows from the assumed masking of `new_file_rank`. It is not listed as a defect because that constructor's code is not part of this model.

**In-place updates and locals**

- `Bitboard::set` updates a `Copy` value in place. The model returns the updated value and callers reassign it.
- `from_fen_pieces` holds twelve local bitboards. The model keeps them as one `Board` value, so `FillRows`/`FillRow` update that value.
- `Vec::append` and `push` are modelled as sequence concatenation.

**Properties not proved**

- MoveTables.KnightTable: the count of squares per entry (2 to 8) is not stated. Neither is the king's count (3 to 8) in MoveTables.KingTable, nor the capture entry's count of at most two. The entries are stated as exact predicates instead.
- The number of moves in the standard start position (4, all knight moves, because the flipped placement pushes White's pawns into White's own back rank) is not proved.
- In this functional model the generator is deterministic and leaves its input unchanged by construction, so no lemma states either.
- The demo driver `src/main.rs` is not part of this model.
- Legality filtering, check detection, castling moves, move application and search are not part of the code modelled.
