/**
 * The coordinate text codec of the Board class: "A1" .. "J10" (letter for
 * the column, 1-based number for the row) to board indices and back, with
 * Pos(-1, -1) and None as the failure results. Characters are treated as
 * ASCII.
 */
module Coordinates {
  import opened Grids

  const LetterHeaders: string := "ABCDEFGHIJ"

  /** ASCII upper-casing: 'a' .. 'z' become 'A' .. 'Z', every other character is unchanged. */
  function UpperAscii(c: char): (u: char)
    ensures 'a' <= c <= 'z' ==> 'A' <= u <= 'Z' && u as int - 'A' as int == c as int - 'a' as int
    ensures !('a' <= c <= 'z') ==> u == c
  {
    if 'a' <= c <= 'z' then (c as int - 'a' as int + 'A' as int) as char else c
  }

  function UpperString(s: string): (u: string)
    ensures |u| == |s| && forall k :: 0 <= k < |s| ==> u[k] == UpperAscii(s[k])
  {
    seq(|s|, k requires 0 <= k < |s| => UpperAscii(s[k]))
  }

  lemma LetterHeadersConsecutive()
    ensures |LetterHeaders| == 10
    ensures forall k :: 0 <= k < 10 ==> LetterHeaders[k] as int == 'A' as int + k
  {
  }

  /** The column a letter names, case-insensitively, or -1. */
  function ColumnOf(c: char): (r: int)
    ensures -1 <= r <= 9
    ensures r != -1 ==> LetterHeaders[r] == UpperAscii(c)
    ensures r == -1 <==> UpperAscii(c) !in LetterHeaders
  {
    LetterHeadersConsecutive();
    var u := UpperAscii(c);
    if 'A' <= u <= 'J' then u as int - 'A' as int else -1
  }

  /** Linear search of the letter headers for the upper-cased character. */
  method LetterIndexOf(c: char) returns (r: int)
    ensures r == ColumnOf(c)
    ensures r != -1 ==> 0 <= r < 10 && LetterHeaders[r] == UpperAscii(c)
    ensures r == -1 <==> forall k :: 0 <= k < 10 ==> LetterHeaders[k] != UpperAscii(c)
  {
    LetterHeadersConsecutive();
    var i := 0;
    while i < |LetterHeaders|
      invariant 0 <= i <= 10
      invariant forall k :: 0 <= k < i ==> LetterHeaders[k] != UpperAscii(c)
    {
      if LetterHeaders[i] == UpperAscii(c) {
        return i;
      }
      i := i + 1;
    }
    return -1;
  }

  /**
   * The accepted position strings: a letter A-J in either case followed by
   * a digit 1-9, or such a letter followed by "10". Everything else is
   * Pos(-1, -1).
   */
  function ParsePosition(s: string): (p: Pos)
    ensures p == Pos(-1, -1) || InBoundsPos(p)
    ensures p != Pos(-1, -1) ==> 2 <= |s| <= 3 && LetterHeaders[p.j] == UpperAscii(s[0])
  {
    if |s| == 2 && ColumnOf(s[0]) != -1 && '1' <= s[1] <= '9' then
      Pos(s[1] as int - '1' as int, ColumnOf(s[0]))
    else if |s| == 3 && ColumnOf(s[0]) != -1 && s[1] == '1' && s[2] == '0' then
      Pos(9, ColumnOf(s[0]))
    else
      Pos(-1, -1)
  }

  predicate IsAsciiDigit(c: char) { '0' <= c <= '9' }

  function NumericValue(c: char): int
    requires IsAsciiDigit(c)
  {
    c as int - '0' as int
  }

  /** Parses a position string into (row, column), or Pos(-1, -1) when it is not one of the accepted forms. */
  method PositionStringToIndices(position: string) returns (p: Pos)
    ensures p == ParsePosition(position)
  {
    if |position| == 2 {
      var indexJ := LetterIndexOf(position[0]);
      if indexJ != -1 {
        if IsAsciiDigit(position[1]) {
          var indexI := NumericValue(position[1]) - 1;
          if 0 <= indexI && indexI <= 9 {
            return Pos(indexI, indexJ);
          }
        }
      }
    } else if |position| == 3 {
      var indexJ := LetterIndexOf(position[0]);
      if indexJ != -1 {
        if position[1] == '1' && position[2] == '0' {
          return Pos(9, indexJ);
        }
      }
    }
    return Pos(-1, -1);
  }

  /** Decimal rendering of a natural number, as Java's string concatenation of an int. */
  function Decimal(n: nat): (s: string)
    ensures 1 <= |s|
    ensures forall k :: 0 <= k < |s| ==> IsAsciiDigit(s[k])
  {
    if n < 10 then [('0' as int + n) as char] else Decimal(n / 10) + [('0' as int + n % 10) as char]
  }

  /** The position string of in-range indices, or None when either index is outside 0 .. 9. */
  function IndicesToPositionString(p: Pos): (r: Option<string>)
    ensures r.None? <==> !InBoundsPos(p)
    ensures r.Some? ==> 2 <= |r.value| <= 3 && r.value[0] == LetterHeaders[p.j]
  {
    if 0 <= p.i <= 9 && 0 <= p.j <= 9 then
      assert 1 <= p.i + 1 <= 10;
      assert p.i + 1 == 10 ==> Decimal(p.i + 1) == "10";
      Some([LetterHeaders[p.j]] + Decimal(p.i + 1))
    else
      None
  }

  /** Printing in-range indices and parsing the result gives the indices back. */
  lemma PrintThenParse(p: Pos)
    requires InBoundsPos(p)
    ensures IndicesToPositionString(p).Some?
    ensures ParsePosition(IndicesToPositionString(p).value) == p
  {
    LetterHeadersConsecutive();
    var s := IndicesToPositionString(p).value;
    assert ColumnOf(s[0]) == p.j;
    if p.i == 9 {
      assert Decimal(10) == "10";
      assert s == [LetterHeaders[p.j]] + "10";
    } else {
      assert s == [LetterHeaders[p.j], ('0' as int + p.i + 1) as char];
    }
  }

  /** Every accepted string prints back as itself, upper-cased. */
  lemma ParseThenPrint(s: string)
    requires ParsePosition(s) != Pos(-1, -1)
    ensures IndicesToPositionString(ParsePosition(s)) == Some(UpperString(s))
  {
    var p := ParsePosition(s);
    var t := IndicesToPositionString(p).value;
    if |s| == 2 {
      assert t == [LetterHeaders[p.j], ('0' as int + p.i + 1) as char];
      assert t == UpperString(s);
    } else {
      assert Decimal(10) == "10";
      assert t == [LetterHeaders[p.j]] + "10";
      assert t == UpperString(s);
    }
  }

  /** Parsing ignores letter case: "b7" and "B7" name the same position. */
  lemma ParseIgnoresCase(s: string)
    ensures ParsePosition(s) == ParsePosition(UpperString(s))
  {
    if 1 <= |s| {
      assert UpperString(s)[0] == UpperAscii(s[0]);
      assert UpperAscii(UpperAscii(s[0])) == UpperAscii(s[0]);
    }
  }

  /** A string is accepted exactly when its upper-casing is the printed form of a position on the board. */
  lemma AcceptedIffPrinted(s: string)
    ensures ParsePosition(s) != Pos(-1, -1) <==> exists p :: InBoundsPos(p) && IndicesToPositionString(p) == Some(UpperString(s))
  {
    if ParsePosition(s) != Pos(-1, -1) {
      ParseThenPrint(s);
      assert InBoundsPos(ParsePosition(s));
    }
    if p :| InBoundsPos(p) && IndicesToPositionString(p) == Some(UpperString(s)) {
      PrintThenParse(p);
      ParseIgnoresCase(s);
    }
  }
}
