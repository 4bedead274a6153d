/** Attack geometry (src/chess/move_tables.rs). The source precomputes its tables
    once into statics; here each table entry is a function of its square (and side),
    written down from the geometry it encodes, and each `compute_*` routine is a
    method whose loops are proved to fill exactly those entries. */
module MoveTables {
  import opened Squares
  import opened Sides
  import opened Bitboards
  import opened Rays

  function Abs(x: int): nat { if x < 0 then -x else x }

  /** Pawn direction: +1 for White (table index 0), -1 for Black. */
  function Forward(side: Side): int {
    if side == White then 1 else -1
  }

  /** The rank from which a pawn of this side may double-push. */
  function DoublePushRank(side: Side): nat {
    if side == White then 1 else 6
  }

  predicate PushTarget(side: Side, s: Square, t: Square) {
    File(t) == File(s) && Rank(t) == Rank(s) + Forward(side)
  }

  predicate DoublePushTarget(side: Side, s: Square, t: Square) {
    Rank(s) == DoublePushRank(side) && File(t) == File(s) && Rank(t) == Rank(s) + 2 * Forward(side)
  }

  predicate CaptureTarget(side: Side, s: Square, t: Square) {
    Abs(File(t) - File(s)) == 1 && Rank(t) == Rank(s) + Forward(side)
  }

  predicate KnightStep(s: Square, t: Square) {
    var df, dr := Abs(File(t) - File(s)), Abs(Rank(t) - Rank(s));
    (df == 1 && dr == 2) || (df == 2 && dr == 1)
  }

  predicate KingStep(s: Square, t: Square) {
    var df, dr := Abs(File(t) - File(s)), Abs(Rank(t) - Rank(s));
    df <= 1 && dr <= 1 && (df == 1 || dr == 1)
  }

  // The tables, entry by entry. These are the public lookups: each one is what
  // the corresponding static table holds at that index.

  /** `pawn_move_board`: the single-push square, if on the board. */
  function PawnMoveBoard(side: Side, s: Square): (r: Bitboard)
    ensures forall t: Square :: r.IsSet(t) <==> PushTarget(side, s, t)
  {
    FromPredicate((t: Square) => PushTarget(side, s, t))
  }

  /** `pawn_double_move_board`: the double-push square, from the start rank only. */
  function PawnDoubleMoveBoard(side: Side, s: Square): (r: Bitboard)
    ensures forall t: Square :: r.IsSet(t) <==> DoublePushTarget(side, s, t)
  {
    FromPredicate((t: Square) => DoublePushTarget(side, s, t))
  }

  /** `pawn_attack_board`: the diagonal squares one rank forward. */
  function PawnAttackBoard(side: Side, s: Square): (r: Bitboard)
    ensures forall t: Square :: r.IsSet(t) <==> CaptureTarget(side, s, t)
  {
    FromPredicate((t: Square) => CaptureTarget(side, s, t))
  }

  /** The knight table entry for s. */
  function KnightTable(s: Square): (r: Bitboard)
    ensures forall t: Square :: r.IsSet(t) <==> KnightStep(s, t)
  {
    FromPredicate((t: Square) => KnightStep(s, t))
  }

  /** The king table entry for s. */
  function KingTable(s: Square): (r: Bitboard)
    ensures forall t: Square :: r.IsSet(t) <==> KingStep(s, t)
  {
    FromPredicate((t: Square) => KingStep(s, t))
  }

  /** The ray table entry for s in direction d. */
  function RayTable(d: Direction, s: Square): (r: Bitboard)
    ensures forall t: Square :: r.IsSet(t) <==> OnRay(d, s, t)
  {
    FromPredicate((t: Square) => OnRay(d, s, t))
  }

  // Table construction.

  /** The square reached from s by the offset (file, rank), when it is on the board. */
  predicate Hit(s: Square, offset: (int, int), t: Square) {
    OnBoard(File(s) + offset.0, Rank(s) + offset.1) && t == At(File(s) + offset.0, Rank(s) + offset.1)
  }

  /** `compute_knight_table`'s offsets, in its order. */
  const KnightOffsets: seq<(int, int)> := [(-2, 1), (-1, 2), (1, 2), (2, 1), (2, -1), (1, -2), (-1, -2), (-2, -1)]

  /** `compute_king_table`'s offsets, in its order. */
  const KingOffsets: seq<(int, int)> := [(-1, -1), (-1, 0), (-1, 1), (0, 1), (1, 1), (1, 0), (1, -1), (0, -1)]

  /** The eight knight offsets reach exactly the knight-step squares. */
  lemma KnightOffsetsExact(s: Square, t: Square)
    ensures (exists j :: 0 <= j < 8 && Hit(s, KnightOffsets[j], t)) <==> KnightStep(s, t)
  {
    SquareDecomposes(t);
    var df, dr := File(t) - File(s), Rank(t) - Rank(s);
    if KnightStep(s, t) {
      var j := if df == -2 && dr == 1 then 0 else if df == -1 && dr == 2 then 1
               else if df == 1 && dr == 2 then 2 else if df == 2 && dr == 1 then 3
               else if df == 2 && dr == -1 then 4 else if df == 1 && dr == -2 then 5
               else if df == -1 && dr == -2 then 6 else 7;
      assert Hit(s, KnightOffsets[j], t);
    }
  }

  /** The eight king offsets reach exactly the king-step squares. */
  lemma KingOffsetsExact(s: Square, t: Square)
    ensures (exists j :: 0 <= j < 8 && Hit(s, KingOffsets[j], t)) <==> KingStep(s, t)
  {
    SquareDecomposes(t);
    var df, dr := File(t) - File(s), Rank(t) - Rank(s);
    if KingStep(s, t) {
      var j := if df == -1 && dr == -1 then 0 else if df == -1 && dr == 0 then 1
               else if df == -1 && dr == 1 then 2 else if df == 0 && dr == 1 then 3
               else if df == 1 && dr == 1 then 4 else if df == 1 && dr == 0 then 5
               else if df == 1 && dr == -1 then 6 else 7;
      assert Hit(s, KingOffsets[j], t);
    }
  }

  /** Fills one leaper table entry the way the compute loops do: one `set` per
      offset that stays on the board. */
  method LeaperEntry(index: Square, offsets: seq<(int, int)>) returns (board: Bitboard)
    ensures forall t: Square :: board.IsSet(t) <==> exists j :: 0 <= j < |offsets| && Hit(index, offsets[j], t)
  {
    var file, rank := File(index), Rank(index);
    board := Bitboard.New();
    for j := 0 to |offsets|
      invariant forall t: Square :: board.IsSet(t) <==> exists i :: 0 <= i < j && Hit(index, offsets[i], t)
    {
      var fileOffset, rankOffset := offsets[j].0, offsets[j].1;
      var attackFile, attackRank := file + fileOffset, rank + rankOffset;
      if attackFile < 0 || attackFile > 7 {
        continue;
      }
      if attackRank < 0 || attackRank > 7 {
        continue;
      }
      NewFileRankOnBoard(attackFile, attackRank);
      var target := NewFileRank(AsU8(attackFile), AsU8(attackRank));
      assert Hit(index, offsets[j], target);
      board := board.Set(target);
    }
  }

  /** `compute_knight_table`: entry s holds exactly the knight-step squares of s. */
  method ComputeKnightTable() returns (result: array<Bitboard>)
    ensures result.Length == 64
    ensures forall s: Square, t: Square :: result[s].IsSet(t) <==> KnightStep(s, t)
  {
    result := new Bitboard[64](_ => Bitboard.New());
    for index := 0 to 64
      invariant forall s: Square, t: Square :: s < index ==> (result[s].IsSet(t) <==> KnightStep(s, t))
    {
      var board := LeaperEntry(index, KnightOffsets);
      forall t: Square ensures board.IsSet(t) <==> KnightStep(index, t) {
        KnightOffsetsExact(index, t);
      }
      result[index] := board;
    }
  }

  /** `compute_king_table`: entry s holds exactly the king-step squares of s. */
  method ComputeKingTable() returns (result: array<Bitboard>)
    ensures result.Length == 64
    ensures forall s: Square, t: Square :: result[s].IsSet(t) <==> KingStep(s, t)
  {
    result := new Bitboard[64](_ => Bitboard.New());
    for index := 0 to 64
      invariant forall s: Square, t: Square :: s < index ==> (result[s].IsSet(t) <==> KingStep(s, t))
    {
      var board := LeaperEntry(index, KingOffsets);
      forall t: Square ensures board.IsSet(t) <==> KingStep(index, t) {
        KingOffsetsExact(index, t);
      }
      result[index] := board;
    }
  }

  /** One entry of `compute_pawn_move_tables`: a `set` of the square one rank
      forward, skipped when that rank is off the board. `direction` is +1 for
      table index 0 (White) and -1 for index 1. */
  method PushEntry(side: nat, index: Square) returns (board: Bitboard)
    requires side < 2
    ensures forall t: Square :: board.IsSet(t) <==> PushTarget(SideAt(side), index, t)
  {
    var direction: int := if side == 0 then 1 else -1;
    var file, rank := File(index), Rank(index);
    board := Bitboard.New();
    var rankOffset := rank + direction;
    if rankOffset < 0 || rankOffset > 7 {
      return;
    }
    NewFileRankOnBoard(file, rankOffset);
    var target := NewFileRank(file, AsU8(rankOffset));
    board := board.Set(target);
    forall t: Square ensures board.IsSet(t) <==> PushTarget(SideAt(side), index, t) {
      if PushTarget(SideAt(side), index, t) {
        SquareFromCoordinates(t, target);
      }
    }
  }

  /** `compute_pawn_move_tables`: entry (i, s) holds exactly the single-push
      square of a pawn of side i on s. */
  method ComputePawnMoveTables() returns (result: array2<Bitboard>)
    ensures result.Length0 == 2 && result.Length1 == 64
    ensures forall i, s: Square, t: Square :: 0 <= i < 2 ==>
              (result[i, s].IsSet(t) <==> PushTarget(SideAt(i), s, t))
  {
    result := new Bitboard[2, 64]((_, _) => Bitboard.New());
    for side := 0 to 2
      invariant forall i, s: Square, t: Square :: 0 <= i < side ==>
                  (result[i, s].IsSet(t) <==> PushTarget(SideAt(i), s, t))
    {
      var sideResult := new Bitboard[64](_ => Bitboard.New());
      for index := 0 to 64
        modifies sideResult
        invariant forall s: Square, t: Square :: s < index ==>
                    (sideResult[s].IsSet(t) <==> PushTarget(SideAt(side), s, t))
      {
        var board := PushEntry(side, index);
        sideResult[index] := board;
      }
      forall s | 0 <= s < 64 {
        result[side, s] := sideResult[s];
      }
    }
  }

  /** One entry of `compute_pawn_double_move_tables`: from the start rank (1 for
      White, 6 for Black) a `set` of the square two ranks forward, otherwise
      nothing. */
  method DoublePushEntry(side: nat, index: Square) returns (board: Bitboard)
    requires side < 2
    ensures forall t: Square :: board.IsSet(t) <==> DoublePushTarget(SideAt(side), index, t)
  {
    var direction: int := if side == 0 then 2 else -2;
    var doubleMoveRank := if side == 0 then 1 else 6;
    var file, rank := File(index), Rank(index);
    board := Bitboard.New();
    if rank == doubleMoveRank {
      var rankOffset := rank + direction;
      NewFileRankOnBoard(file, rankOffset);
      var target := NewFileRank(file, AsU8(rankOffset));
      board := board.Set(target);
      forall t: Square ensures board.IsSet(t) <==> DoublePushTarget(SideAt(side), index, t) {
        if DoublePushTarget(SideAt(side), index, t) {
          SquareFromCoordinates(t, target);
        }
      }
    }
  }

  /** `compute_pawn_double_move_tables`: entry (i, s) holds exactly the
      double-push square of a pawn of side i on s, which exists only on the
      side's start rank. */
  method ComputePawnDoubleMoveTables() returns (result: array2<Bitboard>)
    ensures result.Length0 == 2 && result.Length1 == 64
    ensures forall i, s: Square, t: Square :: 0 <= i < 2 ==>
              (result[i, s].IsSet(t) <==> DoublePushTarget(SideAt(i), s, t))
  {
    result := new Bitboard[2, 64]((_, _) => Bitboard.New());
    for side := 0 to 2
      invariant forall i, s: Square, t: Square :: 0 <= i < side ==>
                  (result[i, s].IsSet(t) <==> DoublePushTarget(SideAt(i), s, t))
    {
      var sideResult := new Bitboard[64](_ => Bitboard.New());
      for index := 0 to 64
        modifies sideResult
        invariant forall s: Square, t: Square :: s < index ==>
                    (sideResult[s].IsSet(t) <==> DoublePushTarget(SideAt(side), s, t))
      {
        var board := DoublePushEntry(side, index);
        sideResult[index] := board;
      }
      forall s | 0 <= s < 64 {
        result[side, s] := sideResult[s];
      }
    }
  }

  /** The two capture offsets of `compute_pawn_capture_tables` reach exactly the
      capture squares. */
  lemma CaptureOffsetsExact(side: Side, s: Square, t: Square)
    ensures (exists j :: 0 <= j < 2 && Hit(s, [(-1, Forward(side)), (1, Forward(side))][j], t))
            <==> CaptureTarget(side, s, t)
  {
    SquareDecomposes(t);
    var offsets := [(-1, Forward(side)), (1, Forward(side))];
    if CaptureTarget(side, s, t) {
      var j := if File(t) < File(s) then 0 else 1;
      assert Hit(s, offsets[j], t);
    }
  }

  /** `compute_pawn_capture_tables`: entry (i, s) holds exactly the squares one
      rank forward and one file to either side. The per-offset loop is the same
      as the leaper tables', with the offsets (-1, direction) and (1, direction). */
  method ComputePawnCaptureTables() returns (result: array2<Bitboard>)
    ensures result.Length0 == 2 && result.Length1 == 64
    ensures forall i, s: Square, t: Square :: 0 <= i < 2 ==>
              (result[i, s].IsSet(t) <==> CaptureTarget(SideAt(i), s, t))
  {
    result := new Bitboard[2, 64]((_, _) => Bitboard.New());
    for side := 0 to 2
      invariant forall i, s: Square, t: Square :: 0 <= i < side ==>
                  (result[i, s].IsSet(t) <==> CaptureTarget(SideAt(i), s, t))
    {
      var sideResult := new Bitboard[64](_ => Bitboard.New());
      var direction: int := if side == 0 then 1 else -1;
      for index := 0 to 64
        modifies sideResult
        invariant forall s: Square, t: Square :: s < index ==>
                    (sideResult[s].IsSet(t) <==> CaptureTarget(SideAt(side), s, t))
      {
        var board := LeaperEntry(index, [(-1, direction), (1, direction)]);
        forall t: Square ensures board.IsSet(t) <==> CaptureTarget(SideAt(side), index, t) {
          CaptureOffsetsExact(SideAt(side), index, t);
        }
        sideResult[index] := board;
      }
      forall s | 0 <= s < 64 {
        result[side, s] := sideResult[s];
      }
    }
  }

  /** `compute_ray_table::<FILE_DIRECTION, RANK_DIRECTION>`: entry s holds
      exactly the squares of the ray from s in direction d. The walk stops at the
      first step that leaves the board. */
  method ComputeRayTable(d: Direction) returns (result: array<Bitboard>)
    ensures result.Length == 64
    ensures forall s: Square, t: Square :: result[s].IsSet(t) <==> OnRay(d, s, t)
  {
    result := new Bitboard[64](_ => Bitboard.New());
    for index := 0 to 64
      invariant forall s: Square, t: Square :: s < index ==> (result[s].IsSet(t) <==> OnRay(d, s, t))
    {
      var board := Bitboard.New();
      var file := File(index) + d.FileStep();
      var rank := Rank(index) + d.RankStep();
      ghost var k := 1;
      while 0 <= file <= 7 && 0 <= rank <= 7
        modifies {}
        invariant k >= 1
        invariant file == File(index) + Along(d.FileStep(), k) && rank == Rank(index) + Along(d.RankStep(), k)
        invariant forall t: Square :: board.IsSet(t) <==> OnRay(d, index, t) && Steps(d, index, t) < k
        decreases 8 - k
      {
        NewFileRankOnBoard(file, rank);
        var target := NewFileRank(AsU8(file), AsU8(rank));
        board := board.Set(target);
        forall t: Square ensures board.IsSet(t) <==> OnRay(d, index, t) && Steps(d, index, t) < k + 1 {
          StepSquare(d, index, k, t);
        }
        file := file + d.FileStep();
        rank := rank + d.RankStep();
        k := k + 1;
      }
      forall t: Square ensures board.IsSet(t) <==> OnRay(d, index, t) {
        RayEnds(d, index, k, t);
      }
      result[index] := board;
    }
  }

  // The sliding-attack resolver.

  /** t is on the ray from `from` and every square strictly between them is
      empty; t itself may be occupied (a capture) or not. */
  predicate Visible(d: Direction, occupied: Bitboard, from: Square, t: Square) {
    OnRay(d, from, t) &&
    forall u: Square :: OnRay(d, from, u) && Steps(d, from, u) < Steps(d, from, t) ==> !occupied.IsSet(u)
  }

  /** `Bitboard::from_data(0x8000000000000000)` for ascending directions and
      `Bitboard::from_data(1)` otherwise: the sentinel square alone. */
  function SentinelBoard(d: Direction): (b: Bitboard)
    ensures forall i: Square :: b.IsSet(i) <==> i == SentinelSquare(d)
  {
    Sentinels();
    if d.Ascending() then Bitboard.FromData(0x8000_0000_0000_0000) else Bitboard.FromData(1)
  }

  /** Reading the ray table `RAY_TABLE_<d>[s]`. */
  method RayLookup(d: Direction, s: Square) returns (r: Bitboard)
    ensures forall t: Square :: r.IsSet(t) <==> OnRay(d, s, t)
  {
    r := RayTable(d, s);
  }

  /** One direction of `ray_attack_table`: take the ray, find its nearest
      blocker among `(ray & occupied) | sentinel` (`find_first` for ascending
      directions, `find_last` otherwise) and XOR away the blocker's own ray.
      The result is exactly the squares visible from `from` in direction d. */
  method ClipRay(d: Direction, occupied: Bitboard, from: Square) returns (attacked: Bitboard)
    ensures forall t: Square :: attacked.IsSet(t) <==> Visible(d, occupied, from, t)
  {
    attacked := RayLookup(d, from);
    var blockers := attacked.And(occupied).Or(SentinelBoard(d));
    BlockersMembers(d, occupied, from, attacked, blockers);
    var blockingSquare := Nearest(d, blockers);
    ghost var ray := attacked;
    var blockerRay := RayLookup(d, blockingSquare);
    attacked := attacked.Xor(blockerRay);
    ClipMembers(d, occupied, from, blockers, blockingSquare, ray, blockerRay, attacked);
  }

  /** The blocker the resolver picks: `find_first` for ascending directions,
      `find_last` otherwise, so the first set square in scan order. */
  function Nearest(d: Direction, blockers: Bitboard): (b: Square)
    requires blockers.data != 0
    ensures blockers.IsSet(b)
    ensures forall u: Square :: Before(d, u, b) ==> !blockers.IsSet(u)
  {
    if d.Ascending() then blockers.FindFirst() else blockers.FindLast()
  }

  /** `(ray & occupied) | sentinel` holds the occupied squares of the ray and the
      sentinel square, so it is never empty. */
  lemma BlockersMembers(d: Direction, occupied: Bitboard, from: Square, ray: Bitboard, blockers: Bitboard)
    requires forall t: Square :: ray.IsSet(t) <==> OnRay(d, from, t)
    requires blockers == ray.And(occupied).Or(SentinelBoard(d))
    ensures forall u: Square :: blockers.IsSet(u) <==> (OnRay(d, from, u) && occupied.IsSet(u)) || u == SentinelSquare(d)
    ensures blockers.data != 0
  {
    MemberNonZero(blockers, SentinelSquare(d));
  }

  /** XOR-ing away the ray of the first blocker in scan order leaves exactly the
      visible squares. */
  lemma ClipMembers(d: Direction, occupied: Bitboard, from: Square, blockers: Bitboard, b: Square,
                    ray: Bitboard, blockerRay: Bitboard, clipped: Bitboard)
    requires forall t: Square :: ray.IsSet(t) <==> OnRay(d, from, t)
    requires forall t: Square :: blockerRay.IsSet(t) <==> OnRay(d, b, t)
    requires clipped == ray.Xor(blockerRay)
    requires forall u: Square :: blockers.IsSet(u) <==> (OnRay(d, from, u) && occupied.IsSet(u)) || u == SentinelSquare(d)
    requires blockers.IsSet(b)
    requires forall u: Square :: Before(d, u, b) ==> !blockers.IsSet(u)
    ensures forall t: Square :: clipped.IsSet(t) <==> Visible(d, occupied, from, t)
  {
    forall t: Square ensures clipped.IsSet(t) <==> Visible(d, occupied, from, t) {
      NearestIsBlocker(d, occupied, from, b, t);
    }
  }

  /** For any b that is the first square, in scan order, of the ray's occupied
      squares plus the sentinel square: t is on exactly one of the ray from
      `from` and the ray from b iff it is visible from `from`. */
  lemma NearestIsBlocker(d: Direction, occupied: Bitboard, from: Square, b: Square, t: Square)
    requires (OnRay(d, from, b) && occupied.IsSet(b)) || b == SentinelSquare(d)
    requires forall u: Square :: Before(d, u, b) ==> !((OnRay(d, from, u) && occupied.IsSet(u)) || u == SentinelSquare(d))
    ensures OnRay(d, from, t) != OnRay(d, b, t) <==> Visible(d, occupied, from, t)
  {
    if OnRay(d, from, b) {
      RayNest(d, from, b, t);
      if OnRay(d, from, t) {
        if Steps(d, from, t) <= Steps(d, from, b) {
          UpToBlockerVisible(d, occupied, from, b, t);
        } else {
          RayOrder(d, from, b, t);
        }
      }
    } else {
      SentinelRayEmpty(d, t);
      assert forall u: Square :: OnRay(d, from, u) ==> !occupied.IsSet(u);
    }
  }

  /** Squares of the ray up to the blocker b are visible. */
  lemma UpToBlockerVisible(d: Direction, occupied: Bitboard, from: Square, b: Square, t: Square)
    requires OnRay(d, from, b) && OnRay(d, from, t) && Steps(d, from, t) <= Steps(d, from, b)
    requires forall u: Square :: Before(d, u, b) ==> !(OnRay(d, from, u) && occupied.IsSet(u))
    ensures Visible(d, occupied, from, t)
  {
    forall u: Square | OnRay(d, from, u) && Steps(d, from, u) < Steps(d, from, t)
      ensures !occupied.IsSet(u)
    {
      RayOrder(d, from, u, b);
    }
  }

  /** Which directions a `ray_attack_table` instance generates. */
  predicate Generates(diagonal: bool, horizontal: bool, d: Direction) {
    if d.Diagonal() then diagonal else horizontal
  }

  /** t is visible from `from` along some generated direction. */
  predicate Attacked(diagonal: bool, horizontal: bool, occupied: Bitboard, from: Square, t: Square) {
    exists d: Direction :: Generates(diagonal, horizontal, d) && Visible(d, occupied, from, t)
  }

  /** What `ray_attack_table::<GENERATE_DIAGONAL, GENERATE_HORIZONTAL>` computes:
      the squares visible from `from` along a generated direction. */
  function SliderAttacks(diagonal: bool, horizontal: bool, occupied: Bitboard, from: Square): (r: Bitboard)
    ensures forall t: Square :: r.IsSet(t) <==> Attacked(diagonal, horizontal, occupied, from, t)
  {
    FromPredicate((t: Square) => Attacked(diagonal, horizontal, occupied, from, t))
  }

  /** The generated directions, spelled out. */
  predicate VisibleAlongAny(diagonal: bool, horizontal: bool, occupied: Bitboard, from: Square, t: Square) {
    (diagonal && (Visible(NorthEast, occupied, from, t) || Visible(NorthWest, occupied, from, t) ||
                  Visible(SouthEast, occupied, from, t) || Visible(SouthWest, occupied, from, t))) ||
    (horizontal && (Visible(North, occupied, from, t) || Visible(East, occupied, from, t) ||
                    Visible(South, occupied, from, t) || Visible(West, occupied, from, t)))
  }

  lemma VisibleAlongAnyMeans(diagonal: bool, horizontal: bool, occupied: Bitboard, from: Square, t: Square)
    ensures VisibleAlongAny(diagonal, horizontal, occupied, from, t) <==> Attacked(diagonal, horizontal, occupied, from, t)
  {
    if exists d: Direction :: Generates(diagonal, horizontal, d) && Visible(d, occupied, from, t) {
      var d: Direction :| Generates(diagonal, horizontal, d) && Visible(d, occupied, from, t);
      match d
      case NorthEast => case NorthWest => case SouthEast => case SouthWest =>
      case North => case East => case South => case West =>
    }
  }

  /** A board whose members are the visible squares of the generated directions
      is the resolver's specification value. */
  lemma SliderAttacksExact(diagonal: bool, horizontal: bool, occupied: Bitboard, from: Square, b: Bitboard)
    requires forall t: Square :: b.IsSet(t) <==> VisibleAlongAny(diagonal, horizontal, occupied, from, t)
    ensures b == SliderAttacks(diagonal, horizontal, occupied, from)
  {
    forall t: Square ensures b.IsSet(t) == SliderAttacks(diagonal, horizontal, occupied, from).IsSet(t) {
      VisibleAlongAnyMeans(diagonal, horizontal, occupied, from, t);
    }
    Extensional(b, SliderAttacks(diagonal, horizontal, occupied, from));
  }

  /** `ray_attack_table`: the union of the clipped rays, the four diagonals
      first, then N, E, S, W. */
  method RayAttackTable(diagonal: bool, horizontal: bool, occupied: Bitboard, from: Square)
    returns (attacked: Bitboard)
    ensures attacked == SliderAttacks(diagonal, horizontal, occupied, from)
  {
    attacked := Bitboard.New();
    if diagonal {
      var northeastAttacked := ClipRay(NorthEast, occupied, from);
      var northwestAttacked := ClipRay(NorthWest, occupied, from);
      var southeastAttacked := ClipRay(SouthEast, occupied, from);
      var southwestAttacked := ClipRay(SouthWest, occupied, from);
      attacked := attacked.Or(northeastAttacked).Or(northwestAttacked).Or(southeastAttacked).Or(southwestAttacked);
    }
    if horizontal {
      var northAttacked := ClipRay(North, occupied, from);
      var eastAttacked := ClipRay(East, occupied, from);
      var southAttacked := ClipRay(South, occupied, from);
      var westAttacked := ClipRay(West, occupied, from);
      attacked := attacked.Or(northAttacked).Or(eastAttacked).Or(southAttacked).Or(westAttacked);
    }
    SliderAttacksExact(diagonal, horizontal, occupied, from, attacked);
  }

  // The public lookups.

  /** `attack_table_knight`: the knight table entry; `occupied` plays no part. */
  function AttackTableKnight(occupied: Bitboard, from: Square): (r: Bitboard)
    ensures forall t: Square :: r.IsSet(t) <==> KnightStep(from, t)
  {
    KnightTable(from)
  }

  /** `attack_table_king`: the king table entry; `occupied` plays no part. */
  function AttackTableKing(occupied: Bitboard, from: Square): (r: Bitboard)
    ensures forall t: Square :: r.IsSet(t) <==> KingStep(from, t)
  {
    KingTable(from)
  }

  /** `attack_table_bishop`: the four diagonals, each clipped at its nearest blocker. */
  method AttackTableBishop(occupied: Bitboard, from: Square) returns (attacked: Bitboard)
    ensures attacked == SliderAttacks(true, false, occupied, from)
  {
    attacked := RayAttackTable(true, false, occupied, from);
  }

  /** `attack_table_rook`: the four orthogonals, each clipped at its nearest blocker. */
  method AttackTableRook(occupied: Bitboard, from: Square) returns (attacked: Bitboard)
    ensures attacked == SliderAttacks(false, true, occupied, from)
  {
    attacked := RayAttackTable(false, true, occupied, from);
  }

  /** `attack_table_queen`: all eight directions, each clipped at its nearest blocker. */
  method AttackTableQueen(occupied: Bitboard, from: Square) returns (attacked: Bitboard)
    ensures attacked == SliderAttacks(true, true, occupied, from)
  {
    attacked := RayAttackTable(true, true, occupied, from);
  }

  // Properties of the tables and of the resolver.

  /** A pawn has at most one single-push square, and has one exactly when the
      rank ahead is on the board. */
  lemma PushTargetUnique(side: Side, s: Square, t: Square, u: Square)
    ensures PushTarget(side, s, t) && PushTarget(side, s, u) ==> t == u
    ensures OnBoard(File(s), Rank(s) + Forward(side)) ==> PushTarget(side, s, At(File(s), Rank(s) + Forward(side)))
    ensures !OnBoard(File(s), Rank(s) + Forward(side)) ==> !PushTarget(side, s, t)
  {
    if PushTarget(side, s, t) && PushTarget(side, s, u) {
      SquareFromCoordinates(t, u);
    }
  }

  /** A double push exists only from the start rank, and there it is the one
      square two ranks forward on the same file. */
  lemma DoublePushTargetExact(side: Side, s: Square, t: Square)
    ensures DoublePushTarget(side, s, t) <==>
              Rank(s) == DoublePushRank(side) && t == At(File(s), Rank(s) + 2 * Forward(side))
  {
    if DoublePushTarget(side, s, t) {
      SquareFromCoordinates(t, At(File(s), Rank(s) + 2 * Forward(side)));
    }
  }

  /** A capture square is one of at most two squares, one file to either side of
      the pawn's file and one rank forward; never on the pawn's own file. */
  lemma CaptureTargetExact(side: Side, s: Square, t: Square)
    ensures CaptureTarget(side, s, t) ==> File(t) != File(s)
    ensures CaptureTarget(side, s, t) <==>
              (OnBoard(File(s) - 1, Rank(s) + Forward(side)) && t == At(File(s) - 1, Rank(s) + Forward(side))) ||
              (OnBoard(File(s) + 1, Rank(s) + Forward(side)) && t == At(File(s) + 1, Rank(s) + Forward(side)))
  {
    SquareDecomposes(t);
  }

  /** Along a ray the index strictly increases (N, E, NE, NW) or strictly
      decreases (S, W, SE, SW), the origin is not on its own ray, and the ray
      from the sentinel square is empty. */
  lemma RayShape(d: Direction, s: Square, t: Square)
    ensures OnRay(d, s, t) ==> (if d.Ascending() then s < t else s > t)
    ensures !OnRay(d, s, s)
    ensures !OnRay(d, SentinelSquare(d), t)
  {
    if OnRay(d, s, t) {
      RayOrder(d, s, t, t);
    }
    SentinelRayEmpty(d, t);
  }

  /** Ray nesting: the ray from a square t of ray_d(s) lies inside ray_d(s), and
      XOR-ing the two leaves exactly the squares from s (exclusive) to t
      (inclusive). */
  lemma RayXorSegment(d: Direction, s: Square, t: Square, rayS: Bitboard, rayT: Bitboard)
    requires OnRay(d, s, t)
    requires forall u: Square :: rayS.IsSet(u) <==> OnRay(d, s, u)
    requires forall u: Square :: rayT.IsSet(u) <==> OnRay(d, t, u)
    ensures forall u: Square :: rayT.IsSet(u) ==> rayS.IsSet(u)
    ensures forall u: Square :: rayS.Xor(rayT).IsSet(u) <==> OnRay(d, s, u) && Steps(d, s, u) <= Steps(d, s, t)
  {
    forall u: Square
      ensures rayT.IsSet(u) ==> rayS.IsSet(u)
      ensures rayS.Xor(rayT).IsSet(u) <==> OnRay(d, s, u) && Steps(d, s, u) <= Steps(d, s, t)
    {
      RayNest(d, s, t, u);
    }
  }

  /** The queen's attacks are the union of the bishop's and the rook's. */
  lemma QueenIsBishopOrRook(occupied: Bitboard, from: Square)
    ensures SliderAttacks(true, true, occupied, from) ==
              SliderAttacks(true, false, occupied, from).Or(SliderAttacks(false, true, occupied, from))
  {
    UnionOfGroups(occupied, from, SliderAttacks(true, true, occupied, from),
                  SliderAttacks(true, false, occupied, from), SliderAttacks(false, true, occupied, from));
  }

  lemma UnionOfGroups(occupied: Bitboard, from: Square, queen: Bitboard, bishop: Bitboard, rook: Bitboard)
    requires forall t: Square :: queen.IsSet(t) <==> Attacked(true, true, occupied, from, t)
    requires forall t: Square :: bishop.IsSet(t) <==> Attacked(true, false, occupied, from, t)
    requires forall t: Square :: rook.IsSet(t) <==> Attacked(false, true, occupied, from, t)
    ensures queen == bishop.Or(rook)
  {
    forall t: Square ensures queen.IsSet(t) == bishop.Or(rook).IsSet(t) {
      GroupsSplit(occupied, from, t);
    }
    Extensional(queen, bishop.Or(rook));
  }

  /** A direction is generated by both groups iff it is diagonal or orthogonal. */
  lemma GroupsSplit(occupied: Bitboard, from: Square, t: Square)
    ensures Attacked(true, true, occupied, from, t) <==>
              Attacked(true, false, occupied, from, t) || Attacked(false, true, occupied, from, t)
  {
    if Attacked(true, true, occupied, from, t) {
      var d: Direction :| Generates(true, true, d) && Visible(d, occupied, from, t);
      assert Generates(true, false, d) || Generates(false, true, d);
    }
  }

  /** On an empty board every generated ray is attacked in full. */
  lemma EmptyBoardFullRays(diagonal: bool, horizontal: bool, from: Square, t: Square)
    ensures Attacked(diagonal, horizontal, Bitboard.New(), from, t) <==>
              exists d: Direction :: Generates(diagonal, horizontal, d) && OnRay(d, from, t)
  {
    forall d: Direction ensures Visible(d, Bitboard.New(), from, t) == OnRay(d, from, t) {
    }
  }

  /** Occupancy off the generated rays has no effect on the attacks. */
  lemma OffRayOccupancyIrrelevant(diagonal: bool, horizontal: bool, occupied: Bitboard, other: Bitboard, from: Square)
    requires forall d: Direction, u: Square :: Generates(diagonal, horizontal, d) && OnRay(d, from, u) ==>
               (occupied.IsSet(u) <==> other.IsSet(u))
    ensures SliderAttacks(diagonal, horizontal, occupied, from) == SliderAttacks(diagonal, horizontal, other, from)
  {
    SameVisibility(diagonal, horizontal, occupied, other, from,
                   SliderAttacks(diagonal, horizontal, occupied, from), SliderAttacks(diagonal, horizontal, other, from));
  }

  lemma SameVisibility(diagonal: bool, horizontal: bool, occupied: Bitboard, other: Bitboard, from: Square,
                       a: Bitboard, b: Bitboard)
    requires forall d: Direction, u: Square :: Generates(diagonal, horizontal, d) && OnRay(d, from, u) ==>
               (occupied.IsSet(u) <==> other.IsSet(u))
    requires forall t: Square :: a.IsSet(t) <==> Attacked(diagonal, horizontal, occupied, from, t)
    requires forall t: Square :: b.IsSet(t) <==> Attacked(diagonal, horizontal, other, from, t)
    ensures a == b
  {
    forall t: Square ensures a.IsSet(t) == b.IsSet(t) {
      forall d: Direction | Generates(diagonal, horizontal, d)
        ensures Visible(d, occupied, from, t) == Visible(d, other, from, t)
      {
      }
    }
    Extensional(a, b);
  }
}
