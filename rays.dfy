/** Ray geometry of the eight sliding directions used by `compute_ray_table`
    (src/chess/move_tables.rs): the ray from s in direction d holds the squares
    reached by one or more steps of (file step, rank step) before leaving the board. */
module Rays {
  import opened Squares

  /** The eight `<FILE_DIRECTION, RANK_DIRECTION>` instances of `compute_ray_table`. */
  datatype Direction = North | South | East | West | NorthEast | NorthWest | SouthEast | SouthWest {

    function FileStep(): (u: int)
      ensures -1 <= u <= 1
    {
      match this
      case East | NorthEast | SouthEast => 1
      case West | NorthWest | SouthWest => -1
      case North | South => 0
    }

    function RankStep(): (u: int)
      ensures -1 <= u <= 1
      ensures u == 0 ==> FileStep() != 0
    {
      match this
      case North | NorthEast | NorthWest => 1
      case South | SouthEast | SouthWest => -1
      case East | West => 0
    }

    /** True for the directions along which the square index grows (N, E, NE, NW);
        the resolver looks for their blockers with `find_first`. */
    predicate Ascending() {
      RankStep() > 0 || (RankStep() == 0 && FileStep() > 0)
    }

    /** True for the bishop directions. */
    predicate Diagonal() {
      FileStep() != 0 && RankStep() != 0
    }
  }

  /** k steps along a coordinate whose step is u, for u in -1..1. */
  function Along(u: int, k: int): int {
    if u > 0 then k else if u < 0 then -k else 0
  }

  /** The number of steps from s to t in direction d, read off the moving coordinate. */
  function Steps(d: Direction, s: Square, t: Square): int {
    if d.FileStep() != 0 then Along(d.FileStep(), File(t) - File(s))
    else Along(d.RankStep(), Rank(t) - Rank(s))
  }

  /** t lies on the ray from s in direction d (never s itself). */
  predicate OnRay(d: Direction, s: Square, t: Square) {
    var k := Steps(d, s, t);
    k >= 1 && File(t) - File(s) == Along(d.FileStep(), k) && Rank(t) - Rank(s) == Along(d.RankStep(), k)
  }

  /** x comes strictly before y in the order the resolver's finder scans direction d:
      lower index first for ascending directions, higher index first otherwise. */
  predicate Before(d: Direction, x: Square, y: Square) {
    if d.Ascending() then x < y else x > y
  }

  /** The square the resolver's sentinel bit stands for: 63 for ascending
      directions, 0 for the others. */
  function SentinelSquare(d: Direction): (q: Square)
    ensures forall x: Square :: !Before(d, q, x)
  {
    if d.Ascending() then 63 else 0
  }

  /** OnRay is the usual "t = s + k * (file step, rank step) for some k >= 1". */
  lemma OnRayMeans(d: Direction, s: Square, t: Square)
    ensures OnRay(d, s, t) <==>
              exists k :: k >= 1 && File(t) == File(s) + Along(d.FileStep(), k)
                                 && Rank(t) == Rank(s) + Along(d.RankStep(), k)
  {
    if exists k :: k >= 1 && File(t) == File(s) + Along(d.FileStep(), k)
                         && Rank(t) == Rank(s) + Along(d.RankStep(), k) {
      var k :| k >= 1 && File(t) == File(s) + Along(d.FileStep(), k)
                      && Rank(t) == Rank(s) + Along(d.RankStep(), k);
      assert Steps(d, s, t) == k;
    }
  }

  /** Squares further along the ray come later in the finder's order; in
      particular the origin comes before every square of its ray. */
  lemma RayOrder(d: Direction, s: Square, t: Square, u: Square)
    requires OnRay(d, s, t) && OnRay(d, s, u)
    ensures Steps(d, s, t) < Steps(d, s, u) ==> Before(d, t, u)
    ensures Steps(d, s, t) == Steps(d, s, u) ==> t == u
    ensures Before(d, s, t)
  {
    SquareDecomposes(s);
    SquareDecomposes(t);
    SquareDecomposes(u);
  }

  /** Nesting: for t on the ray from s, the ray from t is the part of the ray
      from s strictly beyond t. */
  lemma RayNest(d: Direction, s: Square, t: Square, u: Square)
    requires OnRay(d, s, t)
    ensures OnRay(d, t, u) <==> OnRay(d, s, u) && Steps(d, s, u) > Steps(d, s, t)
  {
  }

  /** The ray of the sentinel square is empty: nothing lies beyond square 63
      going N, E, NE or NW, nor beyond square 0 going S, W, SE or SW. */
  lemma SentinelRayEmpty(d: Direction, t: Square)
    ensures !OnRay(d, SentinelSquare(d), t)
  {
  }

  /** The square k steps from s, when on the board, is the only square of the
      ray at step k. */
  lemma StepSquare(d: Direction, s: Square, k: int, t: Square)
    requires k >= 1 && OnBoard(File(s) + Along(d.FileStep(), k), Rank(s) + Along(d.RankStep(), k))
    ensures OnRay(d, s, t) && Steps(d, s, t) == k <==>
              t == At(File(s) + Along(d.FileStep(), k), Rank(s) + Along(d.RankStep(), k))
  {
    if OnRay(d, s, t) && Steps(d, s, t) == k {
      SquareFromCoordinates(t, At(File(s) + Along(d.FileStep(), k), Rank(s) + Along(d.RankStep(), k)));
    }
  }

  /** Once step k leaves the board, every square of the ray lies fewer than k steps out. */
  lemma RayEnds(d: Direction, s: Square, k: int, t: Square)
    requires k >= 1 && !OnBoard(File(s) + Along(d.FileStep(), k), Rank(s) + Along(d.RankStep(), k))
    ensures OnRay(d, s, t) ==> Steps(d, s, t) < k
  {
  }
}
