/** Board squares. `Square` is used by the core but its definition is not
    part of this model; it is given the minimal semantics the core relies on:
    index = rank * 8 + file, with file and rank in 0..7, and a (file, rank)
    constructor that keeps only the low three bits of each component. */
module Squares {

  /** A square, by its index 0..63. */
  type Square = i: nat | i < 64

  /** Rust `u8`. */
  type U8 = i: nat | i < 256

  function File(s: nat): nat { s % 8 }

  function Rank(s: nat): nat { s / 8 }

  /** True when (file, rank) lies on the 8x8 board. */
  predicate OnBoard(file: int, rank: int) { 0 <= file < 8 && 0 <= rank < 8 }

  /** The square at an on-board (file, rank). */
  function At(file: int, rank: int): (s: Square)
    requires OnBoard(file, rank)
    ensures File(s) == file && Rank(s) == rank
  {
    rank * 8 + file
  }

  /** `Square::new_file_rank`: both components are masked to three bits. */
  function NewFileRank(file: U8, rank: U8): (s: Square)
    ensures File(s) == file % 8 && Rank(s) == rank % 8
  {
    (rank % 8) * 8 + file % 8
  }

  /** `(x as i8) as u8`: two's-complement reinterpretation of a small signed value. */
  function AsU8(x: int): U8 { x % 256 }

  lemma {:induction false} SquareDecomposes(s: Square)
    ensures s == Rank(s) * 8 + File(s) && File(s) < 8 && Rank(s) < 8
  {
  }

  /** A square is determined by its file and rank. */
  lemma SquareFromCoordinates(s: Square, t: Square)
    requires File(s) == File(t) && Rank(s) == Rank(t)
    ensures s == t
  {
    SquareDecomposes(s);
    SquareDecomposes(t);
  }

  /** On the board, `new_file_rank((file as i8) as u8, (rank as i8) as u8)` is the
      square at (file, rank). */
  lemma NewFileRankOnBoard(file: int, rank: int)
    requires OnBoard(file, rank)
    ensures AsU8(file) == file && AsU8(rank) == rank
    ensures NewFileRank(AsU8(file), AsU8(rank)) == At(file, rank)
  {
    assert file % 256 == file && rank % 256 == rank;
    assert file % 8 == file && rank % 8 == rank;
  }
}
