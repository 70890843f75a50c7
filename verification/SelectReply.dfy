/** server/main.go's splitSelectRows: a SELECT reply taken apart into rows of cells. */
module SelectReply {
  import opened Text
  import opened Optional
  import opened Wire
  import Lease

  function Cells(lines: seq<string>): seq<seq<string>> {
    if lines == [] then []
    else
      var last := lines[|lines| - 1];
      Cells(lines[..|lines| - 1]) + (if last == "" then [] else [Split(last, ',')])
  }

  /** Everything after the header, blank lines dropped. */
  function SelectRows(reply: string): seq<seq<string>> {
    var sections := SplitFrom(reply, 0);
    if sections == [] then [] else Cells(sections[1..])
  }

  method SplitSelectRows(reply: string) returns (rows: seq<seq<string>>)
    ensures rows == SelectRows(reply)
  {
    var sections := SplitEscapedLines(reply);
    rows := [];
    if sections == [] { return; }
    var lines := sections[1..];
    for i := 0 to |lines|
      invariant rows == Cells(lines[..i])
    {
      assert lines[..i + 1][..i] == lines[..i];
      if lines[i] == "" { continue; }
      rows := rows + [Split(lines[i], ',')];
    }
    assert lines[..|lines|] == lines;
  }

  /** A row the wire can carry: cells without a comma or a backslash, and not a lone empty
      cell, whose line would read as blank. */
  predicate Carried(row: seq<string>) {
    row != [] && row != [""] && forall c :: c in row ==> ',' !in c && '\\' !in c
  }

  function LineOf(row: seq<string>): string {
    if row == [] then "" else Join(row, ",")
  }

  function Rendered(rows: seq<seq<string>>): seq<string> {
    seq(|rows|, i requires 0 <= i < |rows| => LineOf(rows[i]))
  }

  lemma RenderedSnoc(rows: seq<seq<string>>, row: seq<string>)
    ensures Rendered(rows + [row]) == Rendered(rows) + [LineOf(row)]
  {}

  lemma CellsSnoc(lines: seq<string>, line: string)
    requires line != ""
    ensures Cells(lines + [line]) == Cells(lines) + [Split(line, ',')]
  {
    assert (lines + [line])[..|lines|] == lines;
  }

  lemma {:induction false} JoinPlain(cells: seq<string>)
    requires cells != [] && forall c :: c in cells ==> '\\' !in c
    ensures '\\' !in Join(cells, ",")
    decreases |cells|
  {
    assert cells[0] in cells;
    if |cells| > 1 {
      assert forall c :: c in cells[1..] ==> c in cells;
      JoinPlain(cells[1..]);
    }
  }

  lemma LineOfRow(row: seq<string>)
    requires Carried(row)
    ensures LineOf(row) != "" && '\\' !in LineOf(row) && Split(LineOf(row), ',') == row
  {
    JoinPlain(row);
    SplitJoin(row, ',');
    if |row| == 1 { assert row == [row[0]]; }
  }

  lemma {:induction false} CellsBack(rows: seq<seq<string>>)
    requires forall r :: r in rows ==> Carried(r)
    ensures Cells(Rendered(rows)) == rows
    decreases |rows|
  {
    if rows != [] {
      var front, last := rows[..|rows| - 1], rows[|rows| - 1];
      assert last in rows && forall r :: r in front ==> r in rows;
      CellsBack(front);
      LineOfRow(last);
      assert rows == front + [last];
      RenderedSnoc(front, last);
      CellsSnoc(Rendered(front), LineOf(last));
    }
  }

  lemma RowsPlain(rows: seq<seq<string>>)
    requires forall r :: r in rows ==> Carried(r)
    ensures forall l :: l in Rendered(rows) ==> '\\' !in l
  {
    forall l | l in Rendered(rows) ensures '\\' !in l {
      var i :| 0 <= i < |rows| && l == Rendered(rows)[i];
      assert rows[i] in rows;
      LineOfRow(rows[i]);
    }
  }

  /** Every reply of carried rows comes apart into those rows. */
  lemma SelectRowsBack(header: string, rows: seq<seq<string>>)
    requires '\\' !in header && forall r :: r in rows ==> Carried(r)
    ensures SelectRows(Join([header] + Rendered(rows), BREAK)) == rows
  {
    var lines := [header] + Rendered(rows);
    RowsPlain(rows);
    assert forall l :: l in lines ==> l == header || l in Rendered(rows);
    SplitJoined("", lines);
    assert "" + Join(lines, BREAK) == Join(lines, BREAK);
    assert lines[1..] == Rendered(rows);
    CellsBack(rows);
  }

  /** The owner a claim reads is the owner stored, unless the owner is named "NULL". */
  lemma OwnerReadsBack(owner: Option<string>)
    ensures Lease.ReadCell(Lease.Cell(owner)) == owner <==> owner != Some("NULL")
  {}
}
