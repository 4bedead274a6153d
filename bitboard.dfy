/** `Bitboard` (src/utils/bitboard.rs): a `u64` whose bit i stands for square i.
    The set algebra, the two blocker finders and the ascending iteration that the
    core uses (but that are not part of this model's source) are given here with
    their minimal stated semantics. */
module Bitboards {
  import opened Squares

  /** The shift amount for square index i. Every `bv6` value is a legal shift
      of a `u64`, which is exactly the source's `index < 64` demand. */
  function Shift(i: nat): bv6
    requires i < 64
  {
    i as bv6
  }

  /** The shift amount read back as a number is the index itself (checked
      index by index, which keeps the bit-vector conversion out of the solver's way). */
  lemma ShiftValue(i: nat)
    requires i < 64
    ensures Shift(i) as int == i
  {
    match i
      case 0 => assert Shift(0) == 0; case 1 => assert Shift(1) == 1; case 2 => assert Shift(2) == 2; case 3 => assert Shift(3) == 3; case 4 => assert Shift(4) == 4; case 5 => assert Shift(5) == 5; case 6 => assert Shift(6) == 6; case 7 => assert Shift(7) == 7;
      case 8 => assert Shift(8) == 8; case 9 => assert Shift(9) == 9; case 10 => assert Shift(10) == 10; case 11 => assert Shift(11) == 11; case 12 => assert Shift(12) == 12; case 13 => assert Shift(13) == 13; case 14 => assert Shift(14) == 14; case 15 => assert Shift(15) == 15;
      case 16 => assert Shift(16) == 16; case 17 => assert Shift(17) == 17; case 18 => assert Shift(18) == 18; case 19 => assert Shift(19) == 19; case 20 => assert Shift(20) == 20; case 21 => assert Shift(21) == 21; case 22 => assert Shift(22) == 22; case 23 => assert Shift(23) == 23;
      case 24 => assert Shift(24) == 24; case 25 => assert Shift(25) == 25; case 26 => assert Shift(26) == 26; case 27 => assert Shift(27) == 27; case 28 => assert Shift(28) == 28; case 29 => assert Shift(29) == 29; case 30 => assert Shift(30) == 30; case 31 => assert Shift(31) == 31;
      case 32 => assert Shift(32) == 32; case 33 => assert Shift(33) == 33; case 34 => assert Shift(34) == 34; case 35 => assert Shift(35) == 35; case 36 => assert Shift(36) == 36; case 37 => assert Shift(37) == 37; case 38 => assert Shift(38) == 38; case 39 => assert Shift(39) == 39;
      case 40 => assert Shift(40) == 40; case 41 => assert Shift(41) == 41; case 42 => assert Shift(42) == 42; case 43 => assert Shift(43) == 43; case 44 => assert Shift(44) == 44; case 45 => assert Shift(45) == 45; case 46 => assert Shift(46) == 46; case 47 => assert Shift(47) == 47;
      case 48 => assert Shift(48) == 48; case 49 => assert Shift(49) == 49; case 50 => assert Shift(50) == 50; case 51 => assert Shift(51) == 51; case 52 => assert Shift(52) == 52; case 53 => assert Shift(53) == 53; case 54 => assert Shift(54) == 54; case 55 => assert Shift(55) == 55;
      case 56 => assert Shift(56) == 56; case 57 => assert Shift(57) == 57; case 58 => assert Shift(58) == 58; case 59 => assert Shift(59) == 59; case 60 => assert Shift(60) == 60; case 61 => assert Shift(61) == 61; case 62 => assert Shift(62) == 62; case 63 => assert Shift(63) == 63;
  }

  lemma ShiftInjective(i: nat, j: nat)
    requires i < 64 && j < 64 && i != j
    ensures Shift(i) != Shift(j)
  {
    ShiftValue(i);
    ShiftValue(j);
  }

  lemma ShiftOnto(k: bv6)
    ensures k as int < 64 && Shift(k as int) == k
  {
    ShiftValue(k as int);
  }

  /** The word with only bit k set, `1 << k`. */
  function Mask(k: bv6): bv64 {
    1 << k
  }

  /** Bit k of d, read the way `is_set` reads it. */
  predicate BitAt(d: bv64, k: bv6) {
    (d >> k) & 1 == 1
  }

  lemma BitAtMask(d: bv64, k: bv6)
    ensures BitAt(d, k) <==> d & Mask(k) != 0
  {
  }

  lemma BitAtTop(k: bv6)
    ensures BitAt(0x8000_0000_0000_0000, k) <==> k == 63
  {
  }

  lemma BitAtBottom(k: bv6)
    ensures BitAt(1, k) <==> k == 0
  {
  }

  lemma BitAtZero(k: bv6)
    ensures !BitAt(0, k)
  {
  }

  lemma BitAtSet(d: bv64, k: bv6, m: bv6)
    ensures BitAt(d | Mask(k), m) <==> BitAt(d, m) || m == k
  {
  }

  lemma BitAtSetSame(d: bv64, k: bv6, m: bv6, same: bool)
    requires same <==> k == m
    ensures BitAt(d | Mask(k), m) <==> BitAt(d, m) || same
  {
    BitAtSet(d, k, m);
  }

  lemma BitAtAnd(a: bv64, b: bv64, k: bv6)
    ensures BitAt(a & b, k) <==> BitAt(a, k) && BitAt(b, k)
  {
  }

  lemma BitAtOr(a: bv64, b: bv64, k: bv6)
    ensures BitAt(a | b, k) <==> BitAt(a, k) || BitAt(b, k)
  {
  }

  lemma BitAtXor(a: bv64, b: bv64, k: bv6)
    ensures BitAt(a ^ b, k) <==> BitAt(a, k) != BitAt(b, k)
  {
  }

  lemma BitAtNot(a: bv64, k: bv6)
    ensures BitAt(!a, k) <==> !BitAt(a, k)
  {
  }

  /** The same bit in every position makes the same word. */
  lemma BitsExtensional(a: bv64, b: bv64)
    requires forall k: bv6 :: BitAt(a, k) == BitAt(b, k)
    ensures a == b
  {
    var n: bv64 := 0;
    while n < 64
      invariant n <= 64
      invariant (a ^ b) & ((1 << n) - 1) == 0
    {
      assert BitAt(a, n as bv6) == BitAt(b, n as bv6);
      n := n + 1;
    }
  }

  // The set algebra, square by square.

  lemma SetAt(a: Bitboard, i: nat, j: nat)
    requires i < 64 && j < 64
    ensures Bitboard(a.data | Mask(Shift(i))).IsSet(j) <==> a.IsSet(j) || i == j
  {
    if i != j {
      ShiftInjective(i, j);
    }
    BitAtSetSame(a.data, Shift(i), Shift(j), i == j);
  }

  lemma AndAt(a: Bitboard, b: Bitboard, i: nat)
    requires i < 64
    ensures Bitboard(a.data & b.data).IsSet(i) <==> a.IsSet(i) && b.IsSet(i)
  {
    BitAtAnd(a.data, b.data, Shift(i));
  }

  lemma OrAt(a: Bitboard, b: Bitboard, i: nat)
    requires i < 64
    ensures Bitboard(a.data | b.data).IsSet(i) <==> a.IsSet(i) || b.IsSet(i)
  {
    BitAtOr(a.data, b.data, Shift(i));
  }

  lemma XorAt(a: Bitboard, b: Bitboard, i: nat)
    requires i < 64
    ensures Bitboard(a.data ^ b.data).IsSet(i) <==> a.IsSet(i) != b.IsSet(i)
  {
    BitAtXor(a.data, b.data, Shift(i));
  }

  lemma NotAt(a: Bitboard, i: nat)
    requires i < 64
    ensures Bitboard(!a.data).IsSet(i) <==> !a.IsSet(i)
  {
    BitAtNot(a.data, Shift(i));
  }

  lemma SetMembers(a: Bitboard, i: nat)
    requires i < 64
    ensures forall j :: 0 <= j < 64 ==> (Bitboard(a.data | Mask(Shift(i))).IsSet(j) <==> a.IsSet(j) || i == j)
  {
    forall j | 0 <= j < 64 {
      SetAt(a, i, j);
    }
  }

  lemma AndMembers(a: Bitboard, b: Bitboard)
    ensures forall i :: 0 <= i < 64 ==> (Bitboard(a.data & b.data).IsSet(i) <==> a.IsSet(i) && b.IsSet(i))
  {
    forall i | 0 <= i < 64 {
      AndAt(a, b, i);
    }
  }

  lemma OrMembers(a: Bitboard, b: Bitboard)
    ensures forall i :: 0 <= i < 64 ==> (Bitboard(a.data | b.data).IsSet(i) <==> a.IsSet(i) || b.IsSet(i))
  {
    forall i | 0 <= i < 64 {
      OrAt(a, b, i);
    }
  }

  lemma XorMembers(a: Bitboard, b: Bitboard)
    ensures forall i :: 0 <= i < 64 ==> (Bitboard(a.data ^ b.data).IsSet(i) <==> a.IsSet(i) != b.IsSet(i))
  {
    forall i | 0 <= i < 64 {
      XorAt(a, b, i);
    }
  }

  lemma NotMembers(a: Bitboard)
    ensures forall i :: 0 <= i < 64 ==> (Bitboard(!a.data).IsSet(i) <==> !a.IsSet(i))
  {
    forall i | 0 <= i < 64 {
      NotAt(a, i);
    }
  }

  datatype Bitboard = Bitboard(data: bv64) {

    /** `Bitboard::new`: the empty set. */
    static function New(): (b: Bitboard)
      ensures forall i :: 0 <= i < 64 ==> !b.IsSet(i)
    {
      FromData(0)
    }

    /** `Bitboard::from_data`: the word itself, so square i is a member exactly
        when bit i of the word is 1. */
    static function FromData(d: bv64): (b: Bitboard)
      ensures b.Data() == d
      ensures forall i :: 0 <= i < 64 ==> (b.IsSet(i) <==> d & Mask(Shift(i)) != 0)
    {
      assert forall i :: 0 <= i < 64 ==> (Bitboard(d).IsSet(i) <==> d & Mask(Shift(i)) != 0) by {
        forall i | 0 <= i < 64 {
          BitAtMask(d, Shift(i));
        }
      }
      Bitboard(d)
    }

    /** `is_set`: the index must be below 64, since a `u64` shift by 64 or more overflows. */
    predicate IsSet(i: nat)
      requires i < 64
    {
      BitAt(data, Shift(i))
    }

    /** `set`, which the source applies in place (`self.data |= 1 << index`) to a
        `Copy` value; here it returns the updated value and callers reassign it. */
    function Set(i: nat): (r: Bitboard)
      requires i < 64
      ensures r.IsSet(i)
      ensures forall j :: 0 <= j < 64 && j != i ==> r.IsSet(j) == IsSet(j)
    {
      SetMembers(this, i);
      Bitboard(data | Mask(Shift(i)))
    }

    /** `data()`. */
    function Data(): bv64 { data }

    /** `&` */
    function And(other: Bitboard): (r: Bitboard)
      ensures forall i :: 0 <= i < 64 ==> (r.IsSet(i) <==> IsSet(i) && other.IsSet(i))
    {
      AndMembers(this, other);
      Bitboard(data & other.data)
    }

    /** `|` */
    function Or(other: Bitboard): (r: Bitboard)
      ensures forall i :: 0 <= i < 64 ==> (r.IsSet(i) <==> IsSet(i) || other.IsSet(i))
    {
      OrMembers(this, other);
      Bitboard(data | other.data)
    }

    /** `^` */
    function Xor(other: Bitboard): (r: Bitboard)
      ensures forall i :: 0 <= i < 64 ==> (r.IsSet(i) <==> IsSet(i) != other.IsSet(i))
    {
      XorMembers(this, other);
      Bitboard(data ^ other.data)
    }

    /** `!` */
    function Not(): (r: Bitboard)
      ensures forall i :: 0 <= i < 64 ==> (r.IsSet(i) <==> !IsSet(i))
    {
      NotMembers(this);
      Bitboard(!data)
    }

    /** The lowest set index at or above k, or 64 when there is none. */
    function FirstFrom(k: nat): (r: nat)
      requires k <= 64
      ensures k <= r <= 64
      ensures r < 64 ==> IsSet(r)
      ensures forall j :: k <= j < r ==> !IsSet(j)
      decreases 64 - k
    {
      if k == 64 then 64 else if IsSet(k) then k else FirstFrom(k + 1)
    }

    /** The highest set index below k, or -1 when there is none. */
    function LastBelow(k: nat): (r: int)
      requires k <= 64
      ensures -1 <= r < k
      ensures r >= 0 ==> IsSet(r)
      ensures forall j :: r < j < k ==> !IsSet(j)
    {
      if k == 0 then -1 else if IsSet(k - 1) then k - 1 else LastBelow(k - 1)
    }

    /** `find_first`: the lowest set index; undefined on the empty set. */
    function FindFirst(): (r: Square)
      requires data != 0
      ensures IsSet(r)
      ensures forall j :: 0 <= j < r ==> !IsSet(j)
    {
      NonEmptyHasFirst();
      FirstFrom(0)
    }

    /** `find_last`: the highest set index; undefined on the empty set. */
    function FindLast(): (r: Square)
      requires data != 0
      ensures IsSet(r)
      ensures forall j :: r < j < 64 ==> !IsSet(j)
    {
      NonEmptyHasLast();
      LastBelow(64)
    }

    /** The squares at or above k, in ascending order. */
    function SquaresFrom(k: nat): (r: seq<Square>)
      requires k <= 64
      ensures forall x :: x in r <==> k <= x < 64 && IsSet(x)
      ensures forall a, b :: 0 <= a < b < |r| ==> r[a] < r[b]
      decreases 64 - k
    {
      if k == 64 then []
      else
        var rest := SquaresFrom(k + 1);
        assert forall b :: 0 <= b < |rest| ==> rest[b] in rest;
        if IsSet(k) then [k as Square] + rest else rest
    }

    /** Iteration over a bitboard (`for s in board`): every set square once, in
        ascending index order. */
    function Squares(): (r: seq<Square>)
      ensures forall x: Square :: x in r <==> IsSet(x)
      ensures forall a, b :: 0 <= a < b < |r| ==> r[a] < r[b]
    {
      SquaresFrom(0)
    }

    lemma NonEmptyHasFirst()
      requires data != 0
      ensures FirstFrom(0) < 64
    {
      if FirstFrom(0) == 64 {
        ZeroWhenEmpty();
      }
    }

    lemma NonEmptyHasLast()
      requires data != 0
      ensures LastBelow(64) >= 0
    {
      if LastBelow(64) < 0 {
        ZeroWhenEmpty();
      }
    }

    /** A set with no members has data 0. */
    lemma ZeroWhenEmpty()
      requires forall i :: 0 <= i < 64 ==> !IsSet(i)
      ensures data == 0
    {
      Extensional(this, New());
    }

    /** `to_string`: eight lines of eight '0'/'1' characters joined by '\n',
        rank 0 first, character f of line r telling whether square r*8+f is set. */
    method ToString() returns (text: string)
      ensures |text| == 71
      ensures forall p :: 0 <= p < 71 ==>
                text[p] == if p % 9 == 8 then '\n' else if IsSet(p / 9 * 8 + p % 9) then '1' else '0'
    {
      var rows: seq<string> := [];
      for rank := 0 to 8
        invariant |rows| == rank
        invariant forall r :: 0 <= r < rank ==> |rows[r]| == 8
        invariant forall r, f :: 0 <= r < rank && 0 <= f < 8 ==>
                    rows[r][f] == (if IsSet(r * 8 + f) then '1' else '0')
      {
        var row := "";
        for file := 0 to 8
          invariant |row| == file
          invariant forall f :: 0 <= f < file ==> row[f] == (if IsSet(rank * 8 + f) then '1' else '0')
        {
          var bit := rank * 8 + file;
          row := row + (if IsSet(bit) then "1" else "0");
        }
        rows := rows + [row];
      }
      JoinLinesLayout(rows);
      text := JoinLines(rows);
    }
  }

  /** Two bitboards with the same members are the same value. */
  lemma Extensional(a: Bitboard, b: Bitboard)
    requires forall i :: 0 <= i < 64 ==> a.IsSet(i) == b.IsSet(i)
    ensures a == b
  {
    forall k: bv6 ensures BitAt(a.data, k) == BitAt(b.data, k) {
      ShiftOnto(k);
      assert a.IsSet(k as int) == b.IsSet(k as int);
    }
    BitsExtensional(a.data, b.data);
  }

  /** `set` never removes a member, and setting a member already present
      leaves the value unchanged. */
  lemma SetMonotoneIdempotent(b: Bitboard, i: nat)
    requires i < 64
    ensures forall j :: 0 <= j < 64 && b.IsSet(j) ==> b.Set(i).IsSet(j)
    ensures b.IsSet(i) ==> b.Set(i) == b
  {
    if b.IsSet(i) {
      Extensional(b.Set(i), b);
    }
  }

  /** A set with a member has nonzero data. */
  lemma MemberNonZero(b: Bitboard, i: nat)
    requires i < 64 && b.IsSet(i)
    ensures b.data != 0
  {
    BitAtZero(Shift(i));
  }

  /** `data() != 0` exactly when the set has a member. */
  lemma EmptyIffZero(b: Bitboard)
    ensures b.data == 0 <==> forall i :: 0 <= i < 64 ==> !b.IsSet(i)
  {
    if forall i :: 0 <= i < 64 ==> !b.IsSet(i) {
      b.ZeroWhenEmpty();
    } else {
      var i :| 0 <= i < 64 && b.IsSet(i);
      BitAtZero(Shift(i));
    }
  }

  lemma TopAt(i: nat)
    requires i < 64
    ensures Bitboard.FromData(0x8000_0000_0000_0000).IsSet(i) <==> i == 63
  {
    BitAtTop(Shift(i));
    if i != 63 {
      ShiftInjective(i, 63);
    }
  }

  lemma BottomAt(i: nat)
    requires i < 64
    ensures Bitboard.FromData(1).IsSet(i) <==> i == 0
  {
    BitAtBottom(Shift(i));
    if i != 0 {
      ShiftInjective(i, 0);
    }
  }

  /** The resolver's sentinel words: 0x8000000000000000 is exactly square 63,
      and 1 is exactly square 0. */
  lemma Sentinels()
    ensures forall i :: 0 <= i < 64 ==> (Bitboard.FromData(0x8000_0000_0000_0000).IsSet(i) <==> i == 63)
    ensures forall i :: 0 <= i < 64 ==> (Bitboard.FromData(1).IsSet(i) <==> i == 0)
  {
    forall i | 0 <= i < 64 {
      TopAt(i);
    }
    forall i | 0 <= i < 64 {
      BottomAt(i);
    }
  }

  /** `Vec<String>::join("\n")`. */
  function JoinLines(rows: seq<string>): string {
    if |rows| == 0 then ""
    else if |rows| == 1 then rows[0]
    else JoinLines(rows[..|rows| - 1]) + "\n" + rows[|rows| - 1]
  }

  /** Joining n lines of 8 characters puts line r at offset 9r, each followed by '\n'. */
  lemma {:induction false} JoinLinesLayout(rows: seq<string>)
    requires |rows| > 0
    requires forall r :: 0 <= r < |rows| ==> |rows[r]| == 8
    ensures |JoinLines(rows)| == 9 * |rows| - 1
    ensures forall p :: 0 <= p < 9 * |rows| - 1 ==>
              JoinLines(rows)[p] == if p % 9 == 8 then '\n' else rows[p / 9][p % 9]
  {
    if |rows| > 1 {
      var n := |rows| - 1;
      var init := rows[..n];
      JoinLinesLayout(init);
      var j := JoinLines(rows);
      assert j == JoinLines(init) + "\n" + rows[n];
      forall p | 0 <= p < 9 * |rows| - 1
        ensures j[p] == if p % 9 == 8 then '\n' else rows[p / 9][p % 9]
      {
        if p < 9 * n - 1 {
          assert rows[p / 9] == init[p / 9];
        } else if p >= 9 * n {
          assert p / 9 == n && p % 9 == p - 9 * n;
        }
      }
    }
  }

  /** Builds the bitboard whose members are the squares satisfying p; the model's
      way of writing down a precomputed table entry. */
  function FromPredicate(p: Square -> bool): (b: Bitboard)
    ensures forall i :: 0 <= i < 64 ==> b.IsSet(i) == p(i)
  {
    BuildBelow(p, 64)
  }

  function BuildBelow(p: Square -> bool, n: nat): (b: Bitboard)
    requires n <= 64
    ensures forall i :: 0 <= i < 64 ==> b.IsSet(i) == (i < n && p(i))
  {
    if n == 0 then Bitboard.New()
    else
      var b := BuildBelow(p, n - 1);
      if p(n - 1) then b.Set(n - 1) else b
  }
}
