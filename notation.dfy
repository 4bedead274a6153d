/** Facts linking `u8` bit operations to integer arithmetic. */
module ByteArith {
  lemma ByteRoundTrip(x: int)
    requires 0 <= x < 256
    ensures (x as bv8) as int == x
  {
  }

  lemma MasksAsRemainders(b: bv8)
    ensures (b & 0x38) / 8 == (b % 64) / 8
    ensures b & 0x07 == b % 8
  {
  }

  lemma ByteRemainders(b: bv8)
    ensures (b % 64) as int == b as int % 64
    ensures (b % 8) as int == b as int % 8
  {
  }

  lemma ByteEighth(b: bv8)
    ensures (b / 8) as int == b as int / 8
  {
  }
}

/** Square names in algebraic notation (src/utils/notation.rs): a file letter
    'a'..'h' followed by a rank digit '1'..'8'. */
module Notation {
  import opened Wrappers
  import opened Squares
  import ByteArith

  /** The ways `algebraic_square_to_bit` panics: a missing character (`unwrap`
      of `None`), a file byte below 'a' or a rank digit 0 (`u8` underflow), and a
      rank character that is not a decimal digit (`to_digit(10)` is `None`). */
  datatype NotationError = MissingFile | MissingRank | FileUnderflow | NotADigit | RankUnderflow

  /** `c as u8`: the low byte of the character's code. */
  function LowByte(c: char): U8 { (c as int) % 256 }

  /** `c.to_digit(10)`: the value of an ASCII decimal digit. */
  function DecimalDigit(c: char): (r: Option<nat>)
    ensures r.Some? <==> '0' <= c <= '9'
    ensures r.Some? ==> r.value < 10 && r.value == c as int - '0' as int
  {
    if '0' <= c <= '9' then Some(c as int - '0' as int) else None
  }

  /** `algebraic_square_to_bit`: (rank digit - 1) * 8 + (file byte - 'a'). Only the
      first two characters are read. The largest value it can produce is
      8 * 8 + (255 - 97) = 222, so the final `u8` arithmetic never overflows. */
  function AlgebraicSquareToBit(square: string): (r: Result<U8, NotationError>)
    ensures r.Ok? <==> |square| >= 2 && LowByte(square[0]) >= 'a' as int && '1' <= square[1] <= '9'
    ensures r.Ok? ==> r.value == (square[1] as int - '1' as int) * 8 + (LowByte(square[0]) - 'a' as int)
  {
    if |square| < 1 then Err(MissingFile)
    else if |square| < 2 then Err(MissingRank)
    else
      var fileByte := LowByte(square[0]);
      if fileByte < 'a' as int then Err(FileUnderflow)
      else
        var file := fileByte - 'a' as int;
        match DecimalDigit(square[1])
        case None => Err(NotADigit)
        case Some(digit) =>
          if digit < 1 then Err(RankUnderflow)
          else
            var rank := digit - 1;
            Ok(rank * 8 + file)
  }

  /** `bit_to_algebraic_square`, on the byte as the source computes it:
      rank = ((index & 0b00111000) / 8) + 1, file = index & 0b00000111. */
  function BitToAlgebraicSquare(index: U8): (s: string)
    ensures |s| == 2
    ensures 'a' <= s[0] <= 'h' && '1' <= s[1] <= '8'
    ensures s[0] as int - 'a' as int == File(index % 64)
    ensures s[1] as int - '1' as int == Rank(index % 64)
  {
    var b := index as bv8;
    var rank := ((b & 0x38) / 8) + 1;
    var file := b & 0x07;
    MaskedParts(index);
    [('a' as int + file as int) as char, ('0' as int + rank as int) as char]
  }

  /** The two masks pick out the rank and the file of the low six bits. */
  lemma MaskedParts(index: U8)
    ensures ((index as bv8 & 0x38) / 8) as int == Rank(index % 64)
    ensures (index as bv8 & 0x07) as int == File(index % 64)
  {
    var b := index as bv8;
    ByteArith.ByteRoundTrip(index);
    ByteArith.MasksAsRemainders(b);
    ByteArith.ByteRemainders(b);
    ByteArith.ByteEighth(b % 64);
  }

  /** The name depends only on the low six bits of the index: 64 is "a1" again. */
  lemma NameIgnoresHighBits(index: U8)
    ensures BitToAlgebraicSquare(index) == BitToAlgebraicSquare(index % 64)
  {
    var s, t := BitToAlgebraicSquare(index), BitToAlgebraicSquare(index % 64);
    assert s[0] == t[0] && s[1] == t[1];
  }

  /** Naming a square and reading the name back gives the square. */
  lemma IndexRoundTrip(index: Square)
    ensures AlgebraicSquareToBit(BitToAlgebraicSquare(index)) == Ok(index)
  {
    var name := BitToAlgebraicSquare(index);
    SquareDecomposes(index);
    assert LowByte(name[0]) == name[0] as int;
  }

  /** Every well-formed two-character name reads as a square below 64, and
      naming that square gives the name back. */
  lemma NameRoundTrip(name: string)
    requires |name| == 2 && 'a' <= name[0] <= 'h' && '1' <= name[1] <= '8'
    ensures AlgebraicSquareToBit(name).Ok?
    ensures AlgebraicSquareToBit(name).value < 64
    ensures BitToAlgebraicSquare(AlgebraicSquareToBit(name).value) == name
  {
    var index := AlgebraicSquareToBit(name).value;
    assert LowByte(name[0]) == name[0] as int;
    assert index == (name[1] as int - '1' as int) * 8 + (name[0] as int - 'a' as int);
    var back := BitToAlgebraicSquare(index);
    assert back[0] == name[0] && back[1] == name[1];
  }

  /** Characters after the second are never read. */
  lemma TrailingIgnored(square: string)
    requires |square| >= 2
    ensures AlgebraicSquareToBit(square) == AlgebraicSquareToBit(square[..2])
  {
  }
}
