/** The translator from "Dawnglare" board strings to orb rows
    (misc/util.py): one letter per orb, read six to a row. */
module Dawnglare {
  import opened Optional
  import opened PadTypes

  /** `BOARD_COLS`: orbs per emitted row. */
  const BoardCols: nat := 6

  /** `mapping.get(char)`: the orb a letter names, `None` for any other character. */
  function Letter(c: char): (r: Option<Orb>)
    ensures r.Some? <==> c in "LBGRDH"
    ensures r != Some(Cleared)
  {
    match c
    case 'L' => Some(Light)
    case 'B' => Some(Blue)
    case 'G' => Some(Green)
    case 'R' => Some(Red)
    case 'D' => Some(Dark)
    case 'H' => Some(Heart)
    case _ => None
  }

  /** The letter that names an orb; the erased sentinel has none. */
  function Name(o: Orb): (r: Option<char>)
    ensures r.None? <==> o == Cleared
  {
    match o
    case Light => Some('L')
    case Blue => Some('B')
    case Green => Some('G')
    case Red => Some('R')
    case Dark => Some('D')
    case Heart => Some('H')
    case Cleared => None
  }

  /** Letters and names are inverse to each other: each of the six colours
      has exactly one letter and each letter exactly one colour. */
  lemma LetterName(c: char, o: Orb)
    ensures Letter(c) == Some(o) <==> Name(o) == Some(c)
  {
  }

  /** The rows `str_to_enum` emits for a string, as a recursive definition:
      the next six characters form a row while at least six remain. */
  function Rows(s: string): (rows: seq<seq<Option<Orb>>>)
    ensures |rows| == |s| / BoardCols
    ensures forall k :: 0 <= k < |rows| ==> |rows[k]| == BoardCols
    ensures forall k, j :: 0 <= k < |rows| && 0 <= j < BoardCols ==>
              rows[k][j] == Letter(s[BoardCols * k + j])
    decreases |s|
  {
    if |s| < BoardCols then []
    else [Row(s[..BoardCols])] + Rows(s[BoardCols..])
  }

  function Row(s: string): (r: seq<Option<Orb>>)
    ensures |r| == |s|
    ensures forall j :: 0 <= j < |s| ==> r[j] == Letter(s[j])
  {
    seq(|s|, j requires 0 <= j < |s| => Letter(s[j]))
  }

  /** `str_to_enum` without the prompt and the printing: the loop collects a
      row until it holds six entries, emits it and starts an empty one; a
      trailing partial row is never emitted. */
  method StrToEnum(s: string) returns (rows: seq<seq<Option<Orb>>>)
    ensures |rows| == |s| / BoardCols
    ensures forall k :: 0 <= k < |rows| ==> |rows[k]| == BoardCols
    ensures forall k, j :: 0 <= k < |rows| && 0 <= j < BoardCols ==>
              rows[k][j] == Letter(s[BoardCols * k + j])
  {
    rows := [];
    var row: seq<Option<Orb>> := [];
    var i := 0;
    while i < |s|
      invariant 0 <= i <= |s|
      invariant i == BoardCols * |rows| + |row| && |row| < BoardCols
      invariant forall k :: 0 <= k < |rows| ==> |rows[k]| == BoardCols
      invariant forall k, j :: 0 <= k < |rows| && 0 <= j < BoardCols ==>
                  rows[k][j] == Letter(s[BoardCols * k + j])
      invariant forall j :: 0 <= j < |row| ==> row[j] == Letter(s[BoardCols * |rows| + j])
    {
      row := row + [Letter(s[i])];
      if |row| == BoardCols {
        rows := rows + [row];
        row := [];
      }
      i := i + 1;
    }
  }

  /** The Dawnglare string of a board of the six colours. */
  function Encode(board: seq<seq<Orb>>): (s: string)
    requires forall k, j :: 0 <= k < |board| && 0 <= j < |board[k]| ==> board[k][j] != Cleared
  {
    if board == [] then []
    else EncodeRow(board[0]) + Encode(board[1..])
  }

  function EncodeRow(row: seq<Orb>): (s: string)
    requires forall j :: 0 <= j < |row| ==> row[j] != Cleared
    ensures |s| == |row|
    ensures forall j :: 0 <= j < |row| ==> Letter(s[j]) == Some(row[j])
  {
    if row == [] then []
    else [Name(row[0]).value] + EncodeRow(row[1..])
  }

  /** Every orb of a row as an entry of the translator's output. */
  function LiftRow(row: seq<Orb>): (r: seq<Option<Orb>>)
    ensures |r| == |row|
    ensures forall j :: 0 <= j < |row| ==> r[j] == Some(row[j])
  {
    seq(|row|, j requires 0 <= j < |row| => Some(row[j]))
  }

  /** Every orb of a board as an entry of the translator's output. */
  function Lift(board: seq<seq<Orb>>): (r: seq<seq<Option<Orb>>>)
    ensures |r| == |board|
    ensures forall k :: 0 <= k < |board| ==> r[k] == LiftRow(board[k])
  {
    seq(|board|, k requires 0 <= k < |board| => LiftRow(board[k]))
  }

  lemma LiftCons(board: seq<seq<Orb>>)
    requires board != []
    ensures Lift(board) == [LiftRow(board[0])] + Lift(board[1..])
  {
  }

  /** Translating the letters of one row gives the row back. */
  lemma RowRoundTrip(row: seq<Orb>)
    requires forall j :: 0 <= j < |row| ==> row[j] != Cleared
    ensures Row(EncodeRow(row)) == LiftRow(row)
  {
  }

  /** The string of a board starts with the letters of its first row. */
  lemma EncodeSplit(board: seq<seq<Orb>>)
    requires board != [] && |board[0]| == BoardCols
    requires forall k, j :: 0 <= k < |board| && 0 <= j < |board[k]| ==> board[k][j] != Cleared
    ensures |Encode(board)| >= BoardCols
    ensures Encode(board)[..BoardCols] == EncodeRow(board[0])
    ensures Encode(board)[BoardCols..] == Encode(board[1..])
  {
    assert Encode(board) == EncodeRow(board[0]) + Encode(board[1..]);
  }

  /** Translating the string of a six-column board gives the board back. */
  lemma {:induction false} EncodeRoundTrip(board: seq<seq<Orb>>)
    requires forall k :: 0 <= k < |board| ==> |board[k]| == BoardCols
    requires forall k, j :: 0 <= k < |board| && 0 <= j < |board[k]| ==> board[k][j] != Cleared
    ensures Rows(Encode(board)) == Lift(board)
  {
    if board != [] {
      var s := Encode(board);
      EncodeSplit(board);
      EncodeRoundTrip(board[1..]);
      RowRoundTrip(board[0]);
      LiftCons(board);
      assert Rows(s) == [Row(s[..BoardCols])] + Rows(s[BoardCols..]);
    }
  }
}
