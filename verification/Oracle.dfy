/** sim/oracle.hpp and sim/oracle.cpp: the reference model a run is judged by.
    `State` is the oracle's value and carries the meaning of every operation;
    class `Oracle` is the object the harness mutates, proved to follow it. */
module OracleModel {
  import opened Text
  import opened Ordering
  import opened Ops

  // ---- Rendered rows ------------------------------------------------------

  /** "<id>,<v>,<name>", as the wire renders `SELECT *`. */
  function Render(id: U64, row: Row): string {
    ToDecimal(id) + "," + ToSigned(row.v) + "," + row.name
  }

  /** The id prefix of a rendered row. */
  function IdOf(rendered: string): U64 {
    FromChars(rendered)
  }

  lemma IdOfRender(id: U64, row: Row)
    ensures IdOf(Render(id, row)) == id
  {
    var rest := "," + ToSigned(row.v) + "," + row.name;
    assert Render(id, row) == ToDecimal(id) + rest;
    FromCharsOfDecimal(id, rest);
  }

  /** Two rendered rows are equal only when they are the same row: a comparison
      of lines is a comparison of rows. */
  lemma RenderInjective(id: U64, row: Row, id': U64, row': Row)
    requires Render(id, row) == Render(id', row')
    ensures id == id' && row == row'
  {
    IdOfRender(id, row);
    IdOfRender(id', row');
    RenderTail(id, row);
    RenderTail(id', row');
    ValuesInjective(row, row');
  }

  /** What follows the id. */
  function Values(row: Row): string {
    ToSigned(row.v) + [','] + row.name
  }

  lemma RenderTail(id: U64, row: Row)
    ensures |Render(id, row)| > |ToDecimal(id)|
    ensures Render(id, row)[|ToDecimal(id)| + 1..] == Values(row)
  {
    assert Render(id, row) == ToDecimal(id) + [','] + Values(row);
    Parts(ToDecimal(id), Values(row), ',');
  }

  lemma ValuesInjective(row: Row, row': Row)
    requires Values(row) == Values(row')
    ensures row == row'
  {
    SignedAlphabet(row.v, ',');
    SignedAlphabet(row'.v, ',');
    SplitUnique(ToSigned(row.v), row.name, ToSigned(row'.v), row'.name, ',');
    SignedInjective(row.v, row'.v);
  }

  function RenderIds(ids: seq<U64>, rows: Rows): (lines: seq<string>)
    requires forall id :: id in ids ==> id in rows
    ensures |lines| == |ids|
    ensures forall i :: 0 <= i < |ids| ==> lines[i] == Render(ids[i], rows[ids[i]])
  {
    seq(|ids|, i requires 0 <= i < |ids| => Render(ids[i], rows[ids[i]]))
  }

  lemma RenderAppend(ids: seq<U64>, id: U64, rows: Rows)
    requires forall x :: x in ids + [id] ==> x in rows
    ensures forall x :: x in ids ==> x in rows
    ensures RenderIds(ids + [id], rows) == RenderIds(ids, rows) + [Render(id, rows[id])]
  {
    assert forall x :: x in ids ==> x in ids + [id];
    assert id in ids + [id];
  }

  // ---- Queries ------------------------------------------------------------

  datatype Query = ByPk(key: U64) | InRange(lo: U64, hi: U64) | ByValue(v: int) | Everything

  predicate Selects(q: Query, id: U64, row: Row) {
    match q
    case ByPk(key) => id == key
    case InRange(lo, hi) => lo <= id <= hi
    case ByValue(v) => row.v == v
    case Everything => true
  }

  function SelectedIds(rows: Rows, q: Query): set<U64> {
    set id | id in rows && Selects(q, id, rows[id])
  }

  // ---- The oracle's value and its transitions ------------------------------

  datatype State = State(
    tables: Tables, synced: Tables,
    inTxn: bool, working: Tables, touched: IdSets,
    issued: IdSets, indeterminate: map<string, nat>, unchecked: IdSets)
  {
    /** The view writes land in and reads are answered from. */
    function Live(): Tables {
      if inTxn then working else tables
    }

    function WithLive(live: Tables): State {
      if inTxn then this.(working := live) else this.(tables := live)
    }

    function Touch(table: string, ids: set<U64>): State {
      if inTxn then this.(touched := AddIds(touched, table, ids)) else this
    }

    predicate HasTable(table: string) {
      table in tables
    }

    function CreateTable(table: string): State {
      this.(tables := tables[table := RowsIn(tables, table)],
            working := if inTxn then working[table := RowsIn(working, table)] else working)
    }

    function Begin(): State {
      this.(working := tables, touched := map[], inTxn := true)
    }

    function Commit(): State {
      this.(tables := working, working := map[], touched := map[], inTxn := false)
    }

    function Rollback(): State {
      this.(working := map[], touched := map[], inTxn := false)
    }

    function Abandon(): State {
      this.(unchecked := MergeIds(unchecked, touched)).Rollback()
    }

    function ApplyInsert(table: string, id: U64, row: Row): State {
      WithLive(Live()[table := RowsIn(Live(), table)[id := row]])
        .(issued := AddId(issued, table, id))
        .Touch(table, {id})
    }

    function ApplyUpdate(table: string, where: Where, set_: Assignment): State {
      if table !in Live() then this
      else
        WithLive(Live()[table := UpdatedRows(Live()[table], where, set_)])
          .Touch(table, MatchingIds(Live()[table], where))
    }

    function ApplyDelete(table: string, where: Where): State {
      if table !in Live() then this
      else
        WithLive(Live()[table := DeletedRows(Live()[table], where)])
          .Touch(table, MatchingIds(Live()[table], where))
    }

    /** The rows a mutation of the live view would touch. */
    function Matching(table: string, where: Where): set<U64> {
      MatchingIds(RowsIn(Live(), table), where)
    }

    function NoteIndeterminate(table: string): State {
      this.(indeterminate := indeterminate[table := (if table in indeterminate then indeterminate[table] else 0) + 1])
    }

    function NoteUnchecked(table: string, ids: set<U64>): State {
      this.(unchecked := AddIds(unchecked, table, ids))
    }

    function MarkSynced(): State {
      this.(synced := tables)
    }

    predicate IsUnchecked(table: string, id: U64) {
      id in IdsIn(unchecked, table)
    }

    predicate HasUnknowns() {
      indeterminate != map[] || unchecked != map[]
    }

    predicate HasUnknownsIn(table: string) {
      table in indeterminate || table in unchecked
    }

    /** An id nobody may assert on: unchecked, or never issued by a relation an
        INSERT errored in. */
    predicate IgnorableId(table: string, id: U64) {
      IsUnchecked(table, id) || (table in indeterminate && id !in IdsIn(issued, table))
    }

    predicate Ignorable(table: string, rendered: string) {
      IgnorableId(table, IdOf(rendered))
    }

    predicate CountCheckable(table: string, where: Where) {
      if !HasUnknownsIn(table) then true
      else if !where.byPk then false
      else if IsUnchecked(table, where.key) then false
      else table !in indeterminate || where.key in IdsIn(issued, table)
    }

    /** The rows a query over `view` must return, ascending id, unchecked ids dropped. */
    function ExpectIn(view: Tables, table: string, q: Query): seq<string> {
      var rows := RowsIn(view, table);
      RenderIds(Ids(SelectedIds(rows, q) - IdsIn(unchecked, table)), rows)
    }

    function Expect(table: string, q: Query): seq<string> {
      ExpectIn(Live(), table, q)
    }
  }

  const EMPTY: State := State(map[], map[], false, map[], map[], map[], map[], map[])

  /** Every id of `more` added to `ids`, relation by relation. */
  function MergeIds(ids: IdSets, more: IdSets): IdSets {
    map t | t in ids.Keys + (set t | t in more && more[t] != {}) :: IdsIn(ids, t) + IdsIn(more, t)
  }

  lemma {:induction false} AscendingUnique(a: seq<U64>, b: seq<U64>)
    requires Ascending(a) && Ascending(b)
    requires forall x :: x in a <==> x in b
    ensures a == b
    decreases |a|
  {
    assert |b| > 0 ==> b[0] in a;
    if a != [] {
      assert a[0] in b;
      assert b[0] in a;
      assert a[0] == b[0];
      var a', b' := a[1..], b[1..];
      forall x ensures x in a' <==> x in b' {
        assert x in a' <==> x in a && x != a[0];
        assert x in b' <==> x in b && x != b[0];
      }
      AscendingUnique(a', b');
      assert a == [a[0]] + a' && b == [b[0]] + b';
    }
  }

  function Elements(list: seq<U64>): set<U64> {
    set id | id in list
  }

  lemma IdsBack(s: set<U64>)
    ensures Elements(Ids(s)) == s
  {}

  /** The ids of an ascending list that are wanted, in order. */
  function FilterIds(all: seq<U64>, wanted: set<U64>): (kept: seq<U64>)
    ensures forall x :: x in kept ==> x in wanted
  {
    if all == [] then []
    else
      var last := all[|all| - 1];
      FilterIds(all[..|all| - 1], wanted) + (if last in wanted then [last] else [])
  }

  lemma {:induction false} FilterKeeps(all: seq<U64>, wanted: set<U64>)
    requires Ascending(all)
    ensures Ascending(FilterIds(all, wanted))
    ensures forall x :: x in FilterIds(all, wanted) <==> x in all && x in wanted
  {
    if all != [] {
      var front, last := all[..|all| - 1], all[|all| - 1];
      FilterKeeps(front, wanted);
      assert all == front + [last];
      assert forall x :: x in front ==> x < last;
      var kept := FilterIds(front, wanted);
      assert forall k :: 0 <= k < |kept| ==> kept[k] in front;
    }
  }

  lemma FilterAll(s: set<U64>, wanted: set<U64>)
    requires wanted <= s
    ensures FilterIds(Ids(s), wanted) == Ids(wanted)
  {
    FilterKeeps(Ids(s), wanted);
    AscendingUnique(FilterIds(Ids(s), wanted), Ids(wanted));
  }

  lemma FilterStep(all: seq<U64>, i: nat, wanted: set<U64>)
    requires i < |all|
    ensures FilterIds(all[..i + 1], wanted) ==
            FilterIds(all[..i], wanted) + (if all[i] in wanted then [all[i]] else [])
  {
    assert all[..i + 1][..i] == all[..i];
  }

  // ---- The walks, on values -------------------------------------------------

  /** UPDATE's walk: the count is of the rows the predicate matched before any
      was assigned, although the walk assigns as it goes. */
  method AssignMatching(rows: Rows, where: Where, set_: Assignment)
    returns (out: Rows, hit: set<U64>, count: nat)
    ensures out == UpdatedRows(rows, where, set_)
    ensures hit == MatchingIds(rows, where) && count == |hit|
    ensures hit == set id | id in rows && (if where.byPk then id == where.key else rows[id].v == where.v)
    ensures forall id :: id in hit ==> out[id] == if set_.setName then Row(rows[id].v, set_.name) else Row(set_.v, rows[id].name)
    ensures out.Keys == rows.Keys && forall id :: id in rows && id !in hit ==> out[id] == rows[id]
  {
    var todo := if where.byPk then rows.Keys * {where.key} else rows.Keys;
    out, hit, count := rows, {}, 0;
    while todo != {}
      invariant todo <= rows.Keys && hit !! todo
      invariant out.Keys == rows.Keys
      invariant forall id :: id in rows ==> (id in hit <==> id !in todo && Matches(where, id, rows[id]))
      invariant hit <= rows.Keys
      invariant forall id :: id in rows ==> out[id] == if id in hit then Assigned(rows[id], set_) else rows[id]
      invariant count == |hit|
      decreases todo
    {
      var id :| id in todo;
      todo := todo - {id};
      if Matches(where, id, out[id]) {
        out := out[id := Assigned(out[id], set_)];
        hit := hit + {id};
        count := count + 1;
      }
    }
    assert hit == MatchingIds(rows, where);
    AssignedRows(rows, where, set_);
  }

  lemma AssignedRows(rows: Rows, where: Where, set_: Assignment)
    ensures MatchingIds(rows, where) == set id | id in rows && (if where.byPk then id == where.key else rows[id].v == where.v)
    ensures forall id :: id in MatchingIds(rows, where) ==>
              UpdatedRows(rows, where, set_)[id] == if set_.setName then Row(rows[id].v, set_.name) else Row(set_.v, rows[id].name)
  {}

  /** DELETE's walk, erasing while it iterates. */
  method EraseMatching(rows: Rows, where: Where) returns (out: Rows, hit: set<U64>, count: nat)
    ensures out == DeletedRows(rows, where)
    ensures hit == MatchingIds(rows, where) && count == |hit|
  {
    var todo := if where.byPk then rows.Keys * {where.key} else rows.Keys;
    out, hit, count := rows, {}, 0;
    while todo != {}
      invariant todo <= rows.Keys && hit !! todo
      invariant forall id :: id in rows ==> (id in hit <==> id !in todo && Matches(where, id, rows[id]))
      invariant hit <= rows.Keys
      invariant out == rows - hit
      invariant count == |hit|
      decreases todo
    {
      var id :| id in todo;
      todo := todo - {id};
      if Matches(where, id, out[id]) {
        out := out - {id};
        hit := hit + {id};
        count := count + 1;
      }
    }
    assert hit == MatchingIds(rows, where);
    assert out == DeletedRows(rows, where);
  }

  /** The ascending walk that lists what a predicate matches. */
  method ListMatching(rows: Rows, where: Where) returns (ids: seq<U64>)
    ensures ids == Ids(MatchingIds(rows, where))
  {
    ghost var wanted := MatchingIds(rows, where);
    ids := [];
    if where.byPk {
      if where.key in rows { ids := [where.key]; }
      AscendingUnique(ids, Ids(wanted));
      return;
    }
    var all := Ids(rows.Keys);
    for i := 0 to |all|
      invariant ids == FilterIds(all[..i], wanted)
    {
      FilterStep(all, i, wanted);
      assert all[i] in all;
      if Matches(where, all[i], rows[all[i]]) { ids := ids + [all[i]]; }
    }
    assert all[..|all|] == all;
    FilterAll(rows.Keys, wanted);
  }

  /** The ascending walk that renders what a query selects, skipping `hidden` ids. */
  method ListSelected(rows: Rows, q: Query, hidden: set<U64>) returns (out: seq<string>)
    ensures out == RenderIds(Ids(SelectedIds(rows, q) - hidden), rows)
  {
    var all := Ids(rows.Keys);
    ghost var wanted := SelectedIds(rows, q) - hidden;
    out := [];
    for i := 0 to |all|
      invariant out == RenderIds(FilterIds(all[..i], wanted), rows)
    {
      FilterStep(all, i, wanted);
      assert all[i] in all;
      if Selects(q, all[i], rows[all[i]]) && all[i] !in hidden {
        RenderAppend(FilterIds(all[..i], wanted), all[i], rows);
        out := out + [Render(all[i], rows[all[i]])];
      }
    }
    assert all[..|all|] == all;
    FilterAll(rows.Keys, wanted);
  }

  // ---- The object the harness mutates -------------------------------------

  class Oracle {
    var tables: Tables
    var synced: Tables
    var inTxn: bool
    var working: Tables
    var touched: IdSets
    var issued: IdSets
    var indeterminate: map<string, nat>
    var unchecked: IdSets

    function Value(): State
      reads this
    {
      State(tables, synced, inTxn, working, touched, issued, indeterminate, unchecked)
    }

    constructor ()
      ensures Value() == EMPTY
    {
      tables, synced, inTxn, working := map[], map[], false, map[];
      touched, issued, indeterminate, unchecked := map[], map[], map[], map[];
    }

    method CreateTable(table: string)
      modifies this
      ensures Value() == old(Value()).CreateTable(table)
    {
      tables := tables[table := RowsIn(tables, table)];
      if inTxn { working := working[table := RowsIn(working, table)]; }
    }

    method Begin()
      modifies this
      ensures Value() == old(Value()).Begin()
    {
      working, touched, inTxn := tables, map[], true;
    }

    method Commit()
      modifies this
      ensures Value() == old(Value()).Commit()
    {
      tables := working;
      working, touched, inTxn := map[], map[], false;
    }

    method Rollback()
      modifies this
      ensures Value() == old(Value()).Rollback()
    {
      working, touched, inTxn := map[], map[], false;
    }

    /** Every touched id becomes unchecked, relation by relation and id by id. */
    method Abandon()
      modifies this
      ensures Value() == old(Value()).Abandon()
    {
      var todo := touched.Keys;
      ghost var before := unchecked;
      while todo != {}
        modifies `unchecked
        invariant todo <= touched.Keys
        invariant forall t :: t in unchecked <==>
            t in before || (t in touched && t !in todo && touched[t] != {})
        invariant forall t :: t in unchecked ==>
            unchecked[t] == IdsIn(before, t) + (if t in todo then {} else IdsIn(touched, t))
        decreases todo
      {
        var table :| table in todo;
        NoteAll(table, touched[table]);
        todo := todo - {table};
      }
      assert unchecked == MergeIds(before, touched);
      Rollback();
    }

    /** NoteUnchecked for each id of a list. */
    method NoteAll(table: string, ids: set<U64>)
      modifies `unchecked
      ensures Value() == old(Value()).NoteUnchecked(table, ids)
    {
      var todo := ids;
      while todo != {}
        modifies `unchecked
        invariant todo <= ids
        invariant unchecked == AddIds(old(unchecked), table, ids - todo)
        decreases todo
      {
        var id :| id in todo;
        todo := todo - {id};
        unchecked := AddId(unchecked, table, id);
        assert unchecked[table] == IdsIn(old(unchecked), table) + (ids - todo);
      }
      assert ids - {} == ids;
    }

    method SetLive(live: Tables)
      modifies `tables, `working
      ensures Value() == old(Value()).WithLive(live)
    {
      if inTxn { working := live; } else { tables := live; }
    }

    method Touch(table: string, ids: set<U64>)
      modifies `touched
      ensures Value() == old(Value()).Touch(table, ids)
    {
      if inTxn { touched := AddIds(touched, table, ids); }
    }

    method ApplyInsert(table: string, id: U64, row: Row)
      modifies this
      ensures Value() == old(Value()).ApplyInsert(table, id, row)
    {
      var live := Value().Live();
      SetLive(live[table := RowsIn(live, table)[id := row]]);
      issued := AddId(issued, table, id);
      Touch(table, {id});
    }

    method ApplyUpdate(table: string, where: Where, set_: Assignment) returns (updated: nat)
      modifies this
      ensures Value() == old(Value()).ApplyUpdate(table, where, set_)
      ensures updated == |old(Value()).Matching(table, where)|
    {
      var live := Value().Live();
      if table !in live { return 0; }
      var rows, hit, count := AssignMatching(live[table], where, set_);
      SetLive(live[table := rows]);
      Touch(table, hit);
      updated := count;
    }

    method ApplyDelete(table: string, where: Where) returns (deleted: nat)
      modifies this
      ensures Value() == old(Value()).ApplyDelete(table, where)
      ensures deleted == |old(Value()).Matching(table, where)|
    {
      var live := Value().Live();
      if table !in live { return 0; }
      var rows, hit, count := EraseMatching(live[table], where);
      SetLive(live[table := rows]);
      Touch(table, hit);
      deleted := count;
    }

    method Matching(table: string, where: Where) returns (ids: seq<U64>)
      ensures ids == Ids(Value().Matching(table, where))
    {
      ids := ListMatching(RowsIn(Value().Live(), table), where);
    }

    method NoteIndeterminate(table: string)
      modifies `indeterminate
      ensures Value() == old(Value()).NoteIndeterminate(table)
    {
      indeterminate := indeterminate[table := (if table in indeterminate then indeterminate[table] else 0) + 1];
    }

    method MarkSynced()
      modifies `synced
      ensures Value() == old(Value()).MarkSynced()
    {
      synced := tables;
    }

    /** ExpectPk, ExpectRange, ExpectFilter and ExpectAll: what the query selects
        in a relation, less the ids nobody may assert on. */
    method Expect(view: Tables, table: string, q: Query) returns (out: seq<string>)
      ensures out == Value().ExpectIn(view, table, q)
    {
      out := ListSelected(RowsIn(view, table), q, IdsIn(unchecked, table));
    }
  }
}
