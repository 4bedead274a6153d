/** The two pieces of the Rust standard library the FEN parsers lean on:
    `str::split` with a one-character pattern, and `str::parse` into an
    unsigned integer type. Both are modelled on ASCII text. */
module Text {
  import opened Wrappers

  /** Number of occurrences of c in s. */
  function Occurrences(s: string, c: char): nat {
    if |s| == 0 then 0 else (if s[0] == c then 1 else 0) + Occurrences(s[1..], c)
  }

  /** `s.split(sep)` collected into a vector: the maximal runs between
      separators, empty runs included, so n separators give n + 1 pieces. */
  function Split(s: string, sep: char): (parts: seq<string>)
    ensures |parts| == Occurrences(s, sep) + 1
    ensures forall i :: 0 <= i < |parts| ==> sep !in parts[i]
  {
    if |s| == 0 then [""]
    else
      var rest := Split(s[1..], sep);
      if s[0] == sep then [""] + rest
      else [[s[0]] + rest[0]] + rest[1..]
  }

  /** `parts.join(sep)`. */
  function Join(parts: seq<string>, sep: char): string
    requires |parts| >= 1
  {
    if |parts| == 1 then parts[0] else parts[0] + [sep] + Join(parts[1..], sep)
  }

  /** A character in none of the pieces and other than the separator is not in the joined text. */
  lemma {:induction false} JoinAvoids(parts: seq<string>, sep: char, c: char)
    requires |parts| >= 1 && c != sep
    requires forall i :: 0 <= i < |parts| ==> c !in parts[i]
    ensures c !in Join(parts, sep)
  {
    if |parts| > 1 {
      JoinAvoids(parts[1..], sep, c);
    }
  }

  /** Splitting and joining again gives back the text. */
  lemma {:induction false} JoinSplit(s: string, sep: char)
    ensures Join(Split(s, sep), sep) == s
  {
    if |s| > 0 {
      JoinSplit(s[1..], sep);
      var rest := Split(s[1..], sep);
      if s[0] != sep {
        if |rest| == 1 {
          assert Split(s, sep) == [[s[0]] + rest[0]];
        } else {
          var parts := Split(s, sep);
          assert parts[1..] == rest[1..];
          assert Join(rest, sep) == rest[0] + [sep] + Join(rest[1..], sep);
        }
      } else {
        assert Split(s, sep)[1..] == rest;
      }
    }
  }

  /** Joining pieces free of the separator and splitting again gives back the pieces. */
  lemma {:induction false} SplitJoin(parts: seq<string>, sep: char)
    requires |parts| >= 1
    requires forall i :: 0 <= i < |parts| ==> sep !in parts[i]
    ensures Split(Join(parts, sep), sep) == parts
  {
    if |parts| == 1 {
      SplitNoSeparator(parts[0], sep);
    } else {
      SplitJoin(parts[1..], sep);
      SplitPrefix(parts[0], Join(parts[1..], sep), sep);
      assert Join(parts, sep) == parts[0] + ([sep] + Join(parts[1..], sep));
    }
  }

  /** Text without the separator is one piece. */
  lemma {:induction false} SplitNoSeparator(s: string, sep: char)
    requires sep !in s
    ensures Split(s, sep) == [s]
  {
    if |s| > 0 {
      SplitNoSeparator(s[1..], sep);
      assert [s[0]] + s[1..] == s;
    }
  }

  /** A separator-free prefix followed by the separator starts a new piece. */
  lemma {:induction false} SplitPrefix(head: string, tail: string, sep: char)
    requires sep !in head
    ensures Split(head + ([sep] + tail), sep) == [head] + Split(tail, sep)
  {
    if |head| == 0 {
      assert head + ([sep] + tail) == [sep] + tail;
      assert ([sep] + tail)[1..] == tail;
    } else {
      var s := head + ([sep] + tail);
      assert s[1..] == head[1..] + ([sep] + tail);
      SplitPrefix(head[1..], tail, sep);
      assert [head[0]] + head[1..] == head;
    }
  }

  /** An ASCII decimal digit. */
  predicate IsDigit(c: char) { '0' <= c <= '9' }

  function DigitValue(c: char): nat
    requires IsDigit(c)
  {
    c as int - '0' as int
  }

  /** The value of a string of decimal digits, most significant first. */
  function DecimalValue(digits: string): nat
    requires AllDigits(digits)
  {
    if |digits| == 0 then 0
    else 10 * DecimalValue(digits[..|digits| - 1]) + DigitValue(digits[|digits| - 1])
  }

  /** Every character is an ASCII decimal digit. */
  predicate AllDigits(s: string) {
    forall i :: 0 <= i < |s| ==> IsDigit(s[i])
  }

  /** Why `str::parse::<uN>()` fails. */
  datatype ParseError = Empty | InvalidDigit | Overflow

  /** The text `str::parse` reads as digits: a leading '+' is dropped. */
  function Unsigned(s: string): string {
    if |s| > 0 && s[0] == '+' then s[1..] else s
  }

  /** The digit loop of `str::parse`, from position j on, with acc the value
      of the digits before j: it reads left to right and stops at the first
      character that is not a digit (an invalid digit) or at the first digit
      that takes the value above max (an overflow), whichever comes first. */
  function ScanDigits(digits: string, j: nat, acc: nat, max: nat): (r: Result<nat, ParseError>)
    requires j <= |digits| && AllDigits(digits[..j]) && acc == DecimalValue(digits[..j]) <= max
    ensures r != Err(Empty)
    ensures r.Ok? <==> AllDigits(digits) && DecimalValue(digits) <= max
    ensures r.Ok? ==> r.value == DecimalValue(digits)
    ensures r == Err(Overflow) <==>
              exists k :: j < k <= |digits| && AllDigits(digits[..k]) && DecimalValue(digits[..k]) > max
    decreases |digits| - j
  {
    if j == |digits| then
      assert digits[..j] == digits;
      Ok(acc)
    else if !IsDigit(digits[j]) then
      assert forall k :: j < k <= |digits| ==> digits[..k][j] == digits[j];
      Err(InvalidDigit)
    else
      assert digits[..j + 1][..j] == digits[..j];
      var next := 10 * acc + DigitValue(digits[j]);
      if next > max then
        PrefixValueBounded(digits, j + 1);
        Err(Overflow)
      else
        ScanDigits(digits, j + 1, next, max)
  }

  /** The value of an all-digit text is at least the value of each of its
      prefixes. */
  lemma {:induction false} PrefixValueBounded(digits: string, k: nat)
    requires k <= |digits|
    ensures AllDigits(digits) ==> AllDigits(digits[..k]) && DecimalValue(digits[..k]) <= DecimalValue(digits)
    decreases |digits| - k
  {
    if k < |digits| && AllDigits(digits) {
      var p := digits[..|digits| - 1];
      assert digits[..k] == p[..k];
      PrefixValueBounded(p, k);
    } else if k == |digits| {
      assert digits[..k] == digits;
    }
  }

  /** `str::parse` into an unsigned type whose largest value is max. The empty
      text is `Empty`; a lone '+' or '-' is an invalid digit; otherwise a
      leading '+' is dropped and the digit loop decides. So the result is an
      overflow exactly when some all-digit prefix of the digits exceeds max,
      an invalid digit when a non-digit comes first, and otherwise the value. */
  function ParseUnsigned(s: string, max: nat): (r: Result<nat, ParseError>)
    ensures r == Err(Empty) <==> |s| == 0
    ensures r.Ok? <==> |Unsigned(s)| > 0 && AllDigits(Unsigned(s)) && DecimalValue(Unsigned(s)) <= max
    ensures r.Ok? ==> r.value == DecimalValue(Unsigned(s)) <= max
    ensures r == Err(Overflow) <==>
              exists k :: 0 < k <= |Unsigned(s)| && AllDigits(Unsigned(s)[..k]) && DecimalValue(Unsigned(s)[..k]) > max
  {
    if |s| == 0 then Err(Empty)
    else if (s[0] == '+' || s[0] == '-') && |s| == 1 then
      assert Unsigned(s) == [] || Unsigned(s) == "-";
      Err(InvalidDigit)
    else
      assert Unsigned(s)[..0] == [];
      ScanDigits(Unsigned(s), 0, 0, max)
  }

  /** The decimal rendering of n, without leading zeros. */
  function Decimal(n: nat): (s: string)
    ensures |s| > 0 && forall i :: 0 <= i < |s| ==> IsDigit(s[i])
    ensures s[0] != '+' && s[0] != '-'
    decreases n
  {
    if n < 10 then [('0' as int + n) as char]
    else Decimal(n / 10) + [('0' as int + n % 10) as char]
  }

  lemma {:induction false} DecimalValueOfDecimal(n: nat)
    ensures DecimalValue(Decimal(n)) == n
    decreases n
  {
    if n >= 10 {
      DecimalValueOfDecimal(n / 10);
      var s := Decimal(n);
      assert s[..|s| - 1] == Decimal(n / 10);
    }
  }

  /** Every value in range parses back from its decimal rendering, and with
      a leading '+'. */
  lemma ParseDecimal(n: nat, max: nat)
    requires n <= max
    ensures ParseUnsigned(Decimal(n), max) == Ok(n)
    ensures ParseUnsigned("+" + Decimal(n), max) == Ok(n)
  {
    DecimalValueOfDecimal(n);
    assert ("+" + Decimal(n))[1..] == Decimal(n);
  }

  /** One past the largest value overflows. */
  lemma ParseOverflow(max: nat)
    ensures ParseUnsigned(Decimal(max + 1), max) == Err(Overflow)
  {
    var d := Decimal(max + 1);
    DecimalValueOfDecimal(max + 1);
    assert Unsigned(d) == d && d[..|d|] == d;
  }

  /** The digit loop stops at whichever failure it meets first: in "999x" the
      third digit overflows a u8 before the 'x' is read, while in "12x" and
      "x999" the non-digit comes first. */
  lemma FirstFailureWins()
    ensures ParseUnsigned("999x", 255) == Err(Overflow)
    ensures ParseUnsigned("99999x", 65535) == Err(Overflow)
    ensures ParseUnsigned("12x", 255) == Err(InvalidDigit)
    ensures ParseUnsigned("x999", 255) == Err(InvalidDigit)
  {
    assert "999x"[..3] == "999";
    assert "99999x"[..5] == "99999";
  }
}
