/**
  Algebraic cell names: a column letter a..i followed by a row number 1..10, so "e9" names
  row 8, column 4.
 */
module Coordinates {
  import opened Wrappers
  import opened Board

  /** The row named by a number 1..10 written in decimal; anything else names no row. */
  function RowIndex(t: string): (r: Option<int>)
    ensures r.Some? ==> 0 <= r.value < Rows
  {
    if t == "10" then Some(9)
    else if |t| == 1 && '1' <= t[0] <= '9' then Some(t[0] as int - '1' as int)
    else None
  }

  /** The column named by a letter a..i; anything else names no column. */
  function ColIndex(c: char): (r: Option<int>)
    ensures r.Some? ==> 0 <= r.value < Cols
  {
    if 'a' <= c <= 'i' then Some(c as int - 'a' as int) else None
  }

  /**
    Parses a cell name: the first character picks the column, the rest the row. The empty
    name, an unknown letter or an unknown number is a failure.
   */
  function ConvertLocation(s: string): (r: Option<Pos>)
    ensures r.Some? ==> InBoard(r.value)
    ensures |s| == 0 ==> r.None?
  {
    if |s| == 0 then None
    else
      match (ColIndex(s[0]), RowIndex(s[1..]))
      case (Some(c), Some(row)) => Some(Pos(row, c))
      case _ => None
  }

  /** The name of a board cell. */
  function Notation(p: Pos): string
    requires InBoard(p)
  {
    var letter := ('a' as int + p.col) as char;
    var number := if p.row == 9 then "10" else [('1' as int + p.row) as char];
    [letter] + number
  }

  /** Every board cell's name parses back to that cell. */
  lemma ConvertNotation(p: Pos)
    requires InBoard(p)
    ensures ConvertLocation(Notation(p)) == Some(p)
  {
    var s := Notation(p);
    assert s[1..] == if p.row == 9 then "10" else [('1' as int + p.row) as char];
  }

  /** Every name that parses is the name of the cell it parses to: the parser accepts nothing else. */
  lemma NotationConvert(s: string)
    requires ConvertLocation(s).Some?
    ensures Notation(ConvertLocation(s).value) == s
  {
    var p := ConvertLocation(s).value;
    assert s == [s[0]] + s[1..];
    if s[1..] == "10" {
      assert p.row == 9;
    } else {
      assert |s[1..]| == 1;
    }
  }

  /** A name parses exactly when it is a letter a..i followed by one of the numbers 1..10. */
  lemma ConvertLocationRule(s: string)
    ensures ConvertLocation(s).Some? <==>
      && |s| >= 2 && 'a' <= s[0] <= 'i'
      && (s[1..] == "10" || (|s| == 2 && '1' <= s[1] <= '9'))
  {
  }
}
