/**
 * apps/local-agent/ledger.ts: one line per row, appended. A write may be cut
 * anywhere, by an error or the process's death, and what follows on the same
 * line is then read as one with it.
 */
module Ledger {
  import opened Lists
  import opened Maps

  /** What one row charges; rows with one id count once, the last of them. */
  datatype Row = Row(id: Option<string>, input: nat, output: nat)

  datatype Line = Blank | Counted(row: Row) | Unreadable

  /** The file's whole lines, and what stands after the last newline (`Blank` when nothing does). */
  datatype File = File(lines: seq<Line>, tail: Line) {
    function All(): seq<Line> {
      lines + [tail]
    }
  }

  const EMPTY := File([], Blank)

  function Tokens(row: Row): nat {
    row.input + row.output
  }

  predicate Readable(lines: seq<Line>) {
    Unreadable !in lines
  }

  /** The charge of rows with no id. */
  function Untagged(lines: seq<Line>): nat {
    if lines == [] then 0
    else
      var last := lines[|lines| - 1];
      Untagged(lines[..|lines| - 1]) + if last.Counted? && last.row.id.None? then Tokens(last.row) else 0
  }

  /** Each id's charge: the last row's with that id. */
  function Calls(lines: seq<Line>): map<string, nat> {
    if lines == [] then map[]
    else
      var last, calls := lines[|lines| - 1], Calls(lines[..|lines| - 1]);
      if last.Counted? && last.row.id.Some? then calls[last.row.id.value := Tokens(last.row)] else calls
  }

  /** Every call's tokens so far; one line that does not read makes it the cap. */
  ghost function Total(lines: seq<Line>, cap: nat): nat {
    if Readable(lines) then Untagged(lines) + SumValues(Calls(lines)) else cap
  }

  /** With no file nothing is used yet; one that cannot be read is the cap. */
  method LedgerTotal(file: Option<File>, exists_: bool, cap: nat) returns (total: nat)
    ensures total == if file.Some? then Total(file.value.All(), cap) else if exists_ then cap else 0
  {
    if file.None? {
      return if exists_ then cap else 0;
    }
    var lines := file.value.All();
    var calls: map<string, nat> := map[];
    total := 0;
    for i := 0 to |lines|
      invariant Readable(lines[..i])
      invariant total == Untagged(lines[..i]) && calls == Calls(lines[..i])
    {
      assert lines[..i + 1][..i] == lines[..i] && lines[..i + 1] == lines[..i] + [lines[i]];
      match lines[i] {
        case Blank =>
        case Unreadable => return cap;
        case Counted(row) =>
          if row.id.Some? {
            calls := calls[row.id.value := Tokens(row)];
          } else {
            total := total + Tokens(row);
          }
      }
    }
    assert lines[..|lines|] == lines;
    var tagged := SumOf(calls);
    total := total + tagged;
  }

  // ------------------------------------------------------------------ appending

  /** How far a write of one row and its newline got. */
  datatype Written = Nothing | Partly | AllButNewline | Whole

  function Append(file: File, row: Row, written: Written): File {
    match written
    case Nothing => file
    case Partly => file.(tail := Unreadable)
    case AllButNewline => file.(tail := if file.tail == Blank then Counted(row) else Unreadable)
    case Whole => File(file.lines + [if file.tail == Blank then Counted(row) else Unreadable], Blank)
  }

  // ------------------------------------------------------------------ the file's text

  /** A text as it was written: rows whole, parts of rows, and newlines. */
  datatype Piece = RowText(row: Row) | Part | Newline

  /** What a write of one row and its newline put into the file, however far it got. */
  function PiecesOf(row: Row, written: Written): seq<Piece> {
    match written
    case Nothing => []
    case Partly => [Part]
    case AllButNewline => [RowText(row)]
    case Whole => [RowText(row), Newline]
  }

  /** The text cut at its newlines. */
  function LinesOf(text: seq<Piece>): (lines: seq<seq<Piece>>)
    ensures lines != []
  {
    if text == [] then [[]]
    else
      var before, last := LinesOf(text[..|text| - 1]), text[|text| - 1];
      if last.Newline? then before + [[]] else before[..|before| - 1] + [before[|before| - 1] + [last]]
  }

  /** A line reads when it is one whole row; with nothing in it, it is passed over. */
  function ReadLine(line: seq<Piece>): Line {
    if line == [] then Blank
    else if |line| == 1 && line[0].RowText? then Counted(line[0].row)
    else Unreadable
  }

  function FileOf(text: seq<Piece>): File {
    var lines := LinesOf(text);
    File(Map(ReadLine, lines[..|lines| - 1]), ReadLine(lines[|lines| - 1]))
  }

  lemma {:induction false} OnePieceMore(text: seq<Piece>, piece: Piece)
    ensures var file, more := FileOf(text), FileOf(text + [piece]);
            if piece.Newline? then more == File(file.lines + [file.tail], Blank)
            else more == file.(tail := if file.tail == Blank && piece.RowText? then Counted(piece.row) else Unreadable)
  {
    var lines := LinesOf(text);
    assert (text + [piece])[..|text|] == text;
    if piece.Newline? {
      assert LinesOf(text + [piece]) == lines + [[]];
      assert (lines + [[]])[..|lines|] == lines[..|lines| - 1] + [lines[|lines| - 1]];
    } else {
      var more := lines[..|lines| - 1] + [lines[|lines| - 1] + [piece]];
      assert more[..|more| - 1] == lines[..|lines| - 1];
    }
  }

  /** What a file holds after a write is what its text then says, line by line. */
  lemma {:induction false} AppendIsWritten(text: seq<Piece>, row: Row, written: Written)
    ensures FileOf(text + PiecesOf(row, written)) == Append(FileOf(text), row, written)
  {
    match written {
      case Nothing => assert text + [] == text;
      case Partly => OnePieceMore(text, Part);
      case AllButNewline => OnePieceMore(text, RowText(row));
      case Whole =>
        OnePieceMore(text, RowText(row));
        OnePieceMore(text + [RowText(row)], Newline);
        assert text + [RowText(row)] + [Newline] == text + [RowText(row), Newline];
    }
  }

  /** All its lines are those of its text. */
  lemma {:induction false} AllAreItsLines(text: seq<Piece>)
    ensures FileOf(text).All() == Map(ReadLine, LinesOf(text))
  {
    var lines := LinesOf(text);
    assert lines == lines[..|lines| - 1] + [lines[|lines| - 1]];
  }

  /** A ledger of no rows counts nothing, and one that does not read counts as its cap. */
  lemma {:induction false} EmptyCountsNothing(lines: seq<Line>, cap: nat)
    ensures (forall i :: 0 <= i < |lines| ==> lines[i] == Blank) ==> Total(lines, cap) == 0
    ensures Unreadable in lines ==> Total(lines, cap) == cap
  {
    if forall i :: 0 <= i < |lines| ==> lines[i] == Blank {
      BlankCounts(lines);
    }
  }

  lemma {:induction false} BlankCounts(lines: seq<Line>)
    requires forall i :: 0 <= i < |lines| ==> lines[i] == Blank
    ensures Untagged(lines) == 0 && Calls(lines) == map[]
  {
    if lines != [] {
      BlankCounts(lines[..|lines| - 1]);
    }
  }

  lemma {:induction false} CallsAppend(lines: seq<Line>, line: Line)
    ensures Calls(lines + [line])
         == if line.Counted? && line.row.id.Some? then Calls(lines)[line.row.id.value := Tokens(line.row)] else Calls(lines)
    ensures Untagged(lines + [line])
         == Untagged(lines) + if line.Counted? && line.row.id.None? then Tokens(line.row) else 0
    ensures Readable(lines + [line]) <==> Readable(lines) && line != Unreadable
  {
    assert (lines + [line])[..|lines|] == lines;
  }

  /**
   * A row with an id appended, however far its write got: what was unreadable
   * stays so, and a file still readable charges that id by this row or as before,
   * and every other id as before.
   */
  lemma {:induction false} AppendCharges(file: File, row: Row, written: Written)
    requires row.id.Some?
    ensures var id, before, after := row.id.value, file.All(), Append(file, row, written).All();
            && (!Readable(before) ==> !Readable(after))
            && (Readable(after) ==>
                  && Untagged(after) == Untagged(before)
                  && (Calls(after) == Calls(before) || Calls(after) == Calls(before)[id := Tokens(row)])
                  && (written == Whole ==> Calls(after) == Calls(before)[id := Tokens(row)])
                  && (written == Nothing ==> Calls(after) == Calls(before)))
  {
    CallsAppend(file.lines, file.tail);
    match written {
      case Nothing =>
      case Partly => CallsAppend(file.lines, Unreadable);
      case AllButNewline => CallsAppend(file.lines, if file.tail == Blank then Counted(row) else Unreadable);
      case Whole =>
        CallsAppend(file.lines, if file.tail == Blank then Counted(row) else Unreadable);
        CallsAppend(file.lines + [if file.tail == Blank then Counted(row) else Unreadable], Blank);
    }
  }

  /** An id's charge is its last row's, and an id no row has is not charged. */
  lemma {:induction false} CallsAreLastRows(lines: seq<Line>, id: string) returns (at: int)
    ensures id in Calls(lines) ==> 0 <= at < |lines| && lines[at].Counted? && lines[at].row.id == Some(id)
                                   && Calls(lines)[id] == Tokens(lines[at].row)
    ensures id !in Calls(lines) ==> at == -1
    ensures forall i :: at < i < |lines| && lines[i].Counted? ==> lines[i].row.id != Some(id)
  {
    at := -1;
    if lines != [] {
      var n := |lines| - 1;
      if lines[n].Counted? && lines[n].row.id == Some(id) {
        at := n;
      } else {
        at := CallsAreLastRows(lines[..n], id);
        assert forall i :: 0 <= i < n ==> lines[..n][i] == lines[i];
      }
    }
  }
}
