/** The laws of the oracle's transactions: the pending copy is a copy, COMMIT publishes it
    whole, and ROLLBACK and Abandon leave no trace of it in the committed state. */
module OracleLaws {
  import opened Text
  import opened Ordering
  import opened Ops
  import opened OracleModel
  import opened NoFalseAlarms

  // ---- What a write leaves, row by row ---------------------------------------------------------

  /** A write moves the rows of one relation of the live view, and nothing committed while a
      transaction is open. */
  ghost predicate OnlyRows(o: State, o': State, t: string) {
    && o'.inTxn == o.inTxn && o'.synced == o.synced && (o.inTxn ==> o'.tables == o.tables)
    && (forall t' :: t' != t ==> RowsIn(o'.Live(), t') == RowsIn(o.Live(), t'))
  }

  /** An INSERT puts one row under its id. */
  lemma InsertLands(o: State, t: string, id: U64, row: Row)
    ensures var rows, rows', o' := RowsIn(o.Live(), t), RowsIn(o.ApplyInsert(t, id, row).Live(), t), o.ApplyInsert(t, id, row);
            && OnlyRows(o, o', t) && rows'.Keys == rows.Keys + {id} && rows'[id] == row
            && (forall x :: x in rows && x != id ==> rows'[x] == rows[x])
            && id in IdsIn(o'.issued, t)
  {}

  /** An UPDATE writes its one column in the rows with its key, or with its old value, and
      leaves their other column and every other row. */
  lemma UpdateLands(o: State, t: string, where: Where, assign: Assignment, hit: set<U64>)
    requires var rows := RowsIn(o.Live(), t);
             hit == set id | id in rows && (if where.byPk then id == where.key else rows[id].v == where.v)
    ensures o.Matching(t, where) == hit
    ensures var rows, rows' := RowsIn(o.Live(), t), RowsIn(o.ApplyUpdate(t, where, assign).Live(), t);
            && OnlyRows(o, o.ApplyUpdate(t, where, assign), t) && rows'.Keys == rows.Keys
            && (forall id :: id in rows && id !in hit ==> rows'[id] == rows[id])
            && (forall id :: id in hit && assign.setName ==> rows'[id] == Row(rows[id].v, assign.name))
            && (forall id :: id in hit && !assign.setName ==> rows'[id] == Row(assign.v, rows[id].name))
  {
    UpdateRewrites(o, t, where, assign);
  }

  /** A DELETE takes those rows out. */
  lemma DeleteLands(o: State, t: string, where: Where, hit: set<U64>)
    requires var rows := RowsIn(o.Live(), t);
             hit == set id | id in rows && (if where.byPk then id == where.key else rows[id].v == where.v)
    ensures o.Matching(t, where) == hit
    ensures OnlyRows(o, o.ApplyDelete(t, where), t)
    ensures RowsIn(o.ApplyDelete(t, where).Live(), t) == RowsIn(o.Live(), t) - hit
  {
    DeleteRewrites(o, t, where);
  }

  predicate Asks(q: Query, id: U64, row: Row) {
    && (q.ByPk? ==> id == q.key) && (q.InRange? ==> q.lo <= id && id <= q.hi) && (q.ByValue? ==> row.v == q.v)
  }

  /** An expectation lists, by ascending id, the rows the query asks for that are checked. */
  lemma ExpectLists(o: State, view: Tables, t: string, q: Query) returns (ids: seq<U64>)
    ensures forall i, j :: 0 <= i < j < |ids| ==> ids[i] < ids[j]
    ensures forall id :: id in ids <==> id in RowsIn(view, t) && !o.IsUnchecked(t, id) && Asks(q, id, RowsIn(view, t)[id])
    ensures |o.ExpectIn(view, t, q)| == |ids|
    ensures forall i :: 0 <= i < |ids| ==> o.ExpectIn(view, t, q)[i] == Render(ids[i], RowsIn(view, t)[ids[i]])
  {
    ids := Ids(SelectedIds(RowsIn(view, t), q) - IdsIn(o.unchecked, t));
  }

  // ---- Transactions -------------------------------------------------------------------------------

  datatype Write =
    | InsertRow(table: string, id: U64, row: Row)
    | UpdateRows(table: string, where: Where, assign: Assignment)
    | DeleteRows(table: string, where: Where)

  function Apply(o: State, w: Write): State {
    match w
    case InsertRow(t, id, row) => o.ApplyInsert(t, id, row)
    case UpdateRows(t, where, assign) => o.ApplyUpdate(t, where, assign)
    case DeleteRows(t, where) => o.ApplyDelete(t, where)
  }

  function ApplyAll(o: State, ws: seq<Write>): State
    decreases |ws|
  {
    if ws == [] then o else ApplyAll(Apply(o, ws[0]), ws[1..])
  }

  /** A write inside a transaction does to the pending copy what it does to the committed
      state outside one, and to nothing else. */
  lemma ApplyPending(o: State, p: State, w: Write)
    requires !o.inTxn && p.inTxn && p.working == o.tables
    ensures var p', o' := Apply(p, w), Apply(o, w);
            && p'.inTxn && p'.working == o'.tables && p'.tables == p.tables && p'.unchecked == p.unchecked
            && !o'.inTxn
  {
    match w
    case InsertRow(t, id, row) => InsertPending(o, p, t, id, row);
    case UpdateRows(t, where, assign) => UpdatePending(o, p, t, where, assign);
    case DeleteRows(t, where) => DeletePending(o, p, t, where);
  }

  /** What a write outside a transaction and the same write inside one have in common. */
  ghost predicate Mirrors(p: State, o': State, p': State) {
    p'.inTxn && p'.working == o'.tables && p'.tables == p.tables && p'.unchecked == p.unchecked && !o'.inTxn
  }

  lemma PutMirrors(o: State, p: State, t: string, rows: Rows, ids: set<U64>)
    requires !o.inTxn && p.inTxn
    ensures Mirrors(p, o.WithLive(p.working[t := rows]).Touch(t, ids), p.WithLive(p.working[t := rows]).Touch(t, ids))
  {}

  lemma InsertPending(o: State, p: State, t: string, id: U64, row: Row)
    requires !o.inTxn && p.inTxn && p.working == o.tables
    ensures Mirrors(p, o.ApplyInsert(t, id, row), p.ApplyInsert(t, id, row))
  {
    assert o.Live() == p.working == p.Live();
  }

  lemma UpdatePending(o: State, p: State, t: string, where: Where, assign: Assignment)
    requires !o.inTxn && p.inTxn && p.working == o.tables
    ensures Mirrors(p, o.ApplyUpdate(t, where, assign), p.ApplyUpdate(t, where, assign))
  {
    assert o.Live() == p.working == p.Live();
    if t in p.working {
      PutMirrors(o, p, t, UpdatedRows(p.working[t], where, assign), MatchingIds(p.working[t], where));
    }
  }

  lemma DeletePending(o: State, p: State, t: string, where: Where)
    requires !o.inTxn && p.inTxn && p.working == o.tables
    ensures Mirrors(p, o.ApplyDelete(t, where), p.ApplyDelete(t, where))
  {
    assert o.Live() == p.working == p.Live();
    if t in p.working {
      PutMirrors(o, p, t, DeletedRows(p.working[t], where), MatchingIds(p.working[t], where));
    }
  }

  lemma {:induction false} ApplyAllPending(o: State, p: State, ws: seq<Write>)
    requires !o.inTxn && p.inTxn && p.working == o.tables
    ensures var p', o' := ApplyAll(p, ws), ApplyAll(o, ws);
            p'.inTxn && p'.working == o'.tables && p'.tables == p.tables && p'.unchecked == p.unchecked
    decreases |ws|
  {
    if ws != [] {
      ApplyPending(o, p, ws[0]);
      ApplyAllPending(Apply(o, ws[0]), Apply(p, ws[0]), ws[1..]);
    }
  }

  /** BEGIN; writes; COMMIT leaves the committed state the writes leave by themselves. */
  lemma CommitIsDirect(o: State, ws: seq<Write>)
    requires !o.inTxn
    ensures ApplyAll(o.Begin(), ws).Commit().tables == ApplyAll(o, ws).tables
  {
    ApplyAllPending(o, o.Begin(), ws);
  }

  /** BEGIN; writes; ROLLBACK leaves the committed state and every doubt as they were. */
  lemma RollbackIsNothing(o: State, ws: seq<Write>)
    requires !o.inTxn
    ensures var o' := ApplyAll(o.Begin(), ws).Rollback();
            o'.tables == o.tables && o'.unchecked == o.unchecked && !o'.inTxn
  {
    ApplyAllPending(o, o.Begin(), ws);
  }

  lemma ApplyTouches(o: State, w: Write)
    requires o.inTxn && Untouched(o)
    ensures Apply(o, w).inTxn && Untouched(Apply(o, w))
  {
    match w {
      case InsertRow(t, id, row) => InsertRewrites(o, t, id, row); RewroteUntouched(o, Apply(o, w), t);
      case UpdateRows(t, where, assign) => UpdateRewrites(o, t, where, assign); RewroteUntouched(o, Apply(o, w), t);
      case DeleteRows(t, where) => DeleteRewrites(o, t, where); RewroteUntouched(o, Apply(o, w), t);
    }
  }

  lemma RewroteUntouched(o: State, o': State, t: string)
    requires o.inTxn && Untouched(o) && Rewrote(o, o', t, RowsIn(o'.Live(), t))
    ensures Untouched(o')
  {
    forall t', id | id !in IdsIn(o'.touched, t')
      ensures Same(RowsIn(o'.working, t'), RowsIn(o'.tables, t'), id)
    {
      assert id !in IdsIn(o.touched, t');
      assert Same(RowsIn(o.working, t'), RowsIn(o.tables, t'), id);
    }
  }

  lemma {:induction false} ApplyAllTouches(o: State, ws: seq<Write>)
    requires o.inTxn && Untouched(o)
    ensures Untouched(ApplyAll(o, ws))
    decreases |ws|
  {
    if ws != [] {
      ApplyTouches(o, ws[0]);
      ApplyAllTouches(Apply(o, ws[0]), ws[1..]);
    }
  }

  lemma BegunUntouched(o: State)
    ensures Untouched(o.Begin())
  {}

  /** What an abandoned transaction leaves checked, it had not changed. */
  lemma AbandonedSame(p: State, t: string, id: U64)
    requires Untouched(p) && !p.Abandon().IsUnchecked(t, id)
    ensures !p.IsUnchecked(t, id) && Same(RowsIn(p.working, t), RowsIn(p.tables, t), id)
  {
    MergedIds(p.unchecked, p.touched, t);
    assert p.Abandon().unchecked == MergeIds(p.unchecked, p.touched);
    assert id !in IdsIn(p.touched, t);
  }

  /** BEGIN; writes; Abandon leaves the committed state, and makes unchecked every id at
      which committing the writes would have changed it. */
  lemma AbandonDoubtsEverything(o: State, ws: seq<Write>)
    requires !o.inTxn
    ensures var o' := ApplyAll(o.Begin(), ws).Abandon(); o'.tables == o.tables && !o'.inTxn
    ensures forall t, id :: !ApplyAll(o.Begin(), ws).Abandon().IsUnchecked(t, id) ==>
              !o.IsUnchecked(t, id) && Same(RowsIn(ApplyAll(o, ws).tables, t), RowsIn(o.tables, t), id)
  {
    var p := ApplyAll(o.Begin(), ws);
    BegunUntouched(o);
    ApplyAllPending(o, o.Begin(), ws);
    ApplyAllTouches(o.Begin(), ws);
    forall t, id | !p.Abandon().IsUnchecked(t, id)
      ensures !o.IsUnchecked(t, id) && Same(RowsIn(ApplyAll(o, ws).tables, t), RowsIn(o.tables, t), id)
    {
      AbandonedSame(p, t, id);
    }
  }
}
