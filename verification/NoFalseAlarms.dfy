/** No false alarms: a run against any engine that keeps its promises, under any
    pattern of injected errors, never fails a check. The proof is a simulation
    relation between the engine and the oracle that every operation keeps. */
module NoFalseAlarms {
  import opened Text
  import opened Ordering
  import opened Ops
  import opened OracleModel
  import opened Wire
  import opened ReadCheck
  import opened Loop
  import opened EngineModel

  // ---- The simulation relation ----------------------------------------------

  /** Two relations hold the same at one id. */
  predicate Same(a: Rows, b: Rows, id: U64) {
    (id in a <==> id in b) && (id in a ==> a[id] == b[id])
  }

  /** One relation: the engine's rows and the oracle's coincide on every id that may
      be asserted on, and ids are only ever the ones that were issued. */
  ghost predicate TableOk(o: State, used: IdSets, t: string, eRows: Rows, oRows: Rows) {
    && eRows.Keys <= IdsIn(used, t)
    && oRows.Keys <= IdsIn(o.issued, t)
    && forall id :: !o.IgnorableId(t, id) ==> Same(eRows, oRows, id)
  }

  ghost predicate ViewOk(o: State, used: IdSets, eView: Tables, oView: Tables) {
    forall t :: TableOk(o, used, t, RowsIn(eView, t), RowsIn(oView, t))
  }

  /** The pending copy reads the same as the committed one at every id the transaction did
      not touch. */
  ghost predicate Untouched(o: State) {
    forall t, id :: id !in IdsIn(o.touched, t) ==> Same(RowsIn(o.working, t), RowsIn(o.tables, t), id)
  }

  ghost predicate IssuedUsed(o: State, used: IdSets) {
    forall t :: IdsIn(o.issued, t) <= IdsIn(used, t)
  }

  ghost predicate Sim(e: Engine, o: State, open: bool) {
    && !e.poisoned
    && o.inTxn == open == e.txn.Open?
    && IssuedUsed(o, e.used)
    && ViewOk(o, e.used, e.committed, o.tables)
    && (open ==> ViewOk(o, e.used, e.txn.working, o.working) && Untouched(o))
  }

  /** Every relation the oracle holds the engine holds too. */
  ghost predicate Covers(e: Engine, o: State) {
    && o.tables.Keys <= e.committed.Keys
    && (o.inTxn ==> e.txn.Open? && o.tables.Keys + o.working.Keys <= e.txn.working.Keys)
  }

  lemma SimStart()
    ensures Sim(FRESH, EMPTY, false)
  {}

  // ---- What the relation says about replies -----------------------------------

  /** Whether a line is the rendering of one of these ids: Renders, by the id it opens with. */
  predicate Occurs(ids: set<U64>, rows: Rows, line: string) {
    var id := IdOf(line);
    id in ids && id in rows && line == Render(id, rows[id])
  }

  /** How often a line occurs among the rendered rows of an ascending id list. */
  lemma {:induction false} RenderedCount(ids: seq<U64>, rows: Rows, line: string)
    requires Ascending(ids) && forall id :: id in ids ==> id in rows
    ensures multiset(RenderIds(ids, rows))[line] == if Occurs(Elements(ids), rows, line) then 1 else 0
  {
    if ids == [] {
      assert RenderIds(ids, rows) == [];
    } else {
      var front, last := ids[..|ids| - 1], ids[|ids| - 1];
      assert ids == front + [last];
      assert last !in front;
      assert forall id :: id in front ==> id in ids;
      RenderedCount(front, rows, line);
      RenderAppend(front, last, rows);
      IdOfRender(last, rows[last]);
    }
  }

  lemma ListingCount(ids: set<U64>, rows: Rows, line: string)
    requires ids <= rows.Keys
    ensures multiset(RenderIds(Ids(ids), rows))[line] == if Occurs(ids, rows, line) then 1 else 0
  {
    RenderedCount(Ids(ids), rows, line);
    IdsBack(ids);
  }

  lemma OccursRenders(ids: set<U64>, rows: Rows, line: string)
    ensures Occurs(ids, rows, line) <==> Renders(line, rows, ids)
  {
    if Renders(line, rows, ids) {
      var id :| id in ids && id in rows && line == Render(id, rows[id]);
      IdOfRender(id, rows[id]);
    }
  }

  lemma LinePasses(o: State, used: IdSets, t: string, eRows: Rows, oRows: Rows, q: Query, line: string)
    requires TableOk(o, used, t, eRows, oRows)
    ensures Occurs(SelectedIds(oRows, q) - IdsIn(o.unchecked, t), oRows, line) ==>
              Occurs(SelectedIds(eRows, q), eRows, line)
    ensures Occurs(SelectedIds(eRows, q), eRows, line) ==>
              Occurs(SelectedIds(oRows, q) - IdsIn(o.unchecked, t), oRows, line) || o.Ignorable(t, line)
  {
    var id := IdOf(line);
    if !o.IgnorableId(t, id) {
      assert Same(eRows, oRows, id);
    }
  }

  /** A listing of the engine's relation passes the oracle's comparison. */
  lemma ListingPasses(o: State, used: IdSets, t: string, eRows: Rows, oRows: Rows, q: Query, lines: seq<string>)
    requires TableOk(o, used, t, eRows, oRows)
    requires IsListing(lines, eRows, SelectedIds(eRows, q))
    ensures Accepts(o, t, RenderIds(Ids(SelectedIds(oRows, q) - IdsIn(o.unchecked, t)), oRows), lines)
  {
    var wanted, listed := SelectedIds(oRows, q) - IdsIn(o.unchecked, t), SelectedIds(eRows, q);
    var expected := multiset(RenderIds(Ids(wanted), oRows));
    forall line
      ensures expected[line] <= multiset(lines)[line]
      ensures line in multiset(lines) - expected ==> o.Ignorable(t, line)
    {
      ListingCount(wanted, oRows, line);
      OccursRenders(listed, eRows, line);
      LinePasses(o, used, t, eRows, oRows, q, line);
    }
  }

  /** A checkable count is the engine's count. */
  lemma CountsAgree(o: State, used: IdSets, t: string, eRows: Rows, oRows: Rows, where: Where)
    requires TableOk(o, used, t, eRows, oRows)
    requires o.CountCheckable(t, where)
    ensures MatchingIds(eRows, where) == MatchingIds(oRows, where)
  {
    forall id
      ensures id in MatchingIds(eRows, where) <==> id in MatchingIds(oRows, where)
    {
      if !o.IgnorableId(t, id) {
        assert Same(eRows, oRows, id);
      }
    }
  }

  // ---- Views under a growing doubt ----------------------------------------------

  /** `o'` doubts at least what `o` doubts, except ids issued since, which no row held. */
  ghost predicate Later(o: State, o': State, used: IdSets) {
    && (forall t :: IdsIn(o.issued, t) <= IdsIn(o'.issued, t))
    && (forall t, id :: id in IdsIn(o'.issued, t) && id !in IdsIn(o.issued, t) ==> id !in IdsIn(used, t))
    && (forall t, id :: o.IgnorableId(t, id) && !o'.IgnorableId(t, id) ==>
          id in IdsIn(o'.issued, t) && id !in IdsIn(o.issued, t))
  }

  lemma Weaken(o: State, o': State, used: IdSets, used': IdSets, eView: Tables, oView: Tables)
    requires ViewOk(o, used, eView, oView) && IssuedUsed(o, used) && Later(o, o', used)
    requires forall t :: IdsIn(used, t) <= IdsIn(used', t)
    ensures ViewOk(o', used', eView, oView)
  {
    forall t ensures TableOk(o', used', t, RowsIn(eView, t), RowsIn(oView, t)) {
      var eRows, oRows := RowsIn(eView, t), RowsIn(oView, t);
      assert TableOk(o, used, t, eRows, oRows);
      forall id | !o'.IgnorableId(t, id) ensures Same(eRows, oRows, id) {
        if o.IgnorableId(t, id) {
          assert id !in IdsIn(used, t) && id !in IdsIn(o.issued, t);
        }
      }
    }
  }

  /** `after` is `before` but for the rows of one relation. */
  ghost predicate OnlyAt(before: Tables, after: Tables, t: string) {
    before.Keys <= after.Keys <= before.Keys + {t}
    && forall t' :: t' != t ==> RowsIn(after, t') == RowsIn(before, t')
  }

  lemma WriteView(o: State, used: IdSets, eView: Tables, oView: Tables, eView': Tables, oView': Tables, t: string)
    requires ViewOk(o, used, eView, oView)
    requires OnlyAt(eView, eView', t) && OnlyAt(oView, oView', t)
    requires t in eView'
    requires TableOk(o, used, t, RowsIn(eView', t), RowsIn(oView', t))
    ensures ViewOk(o, used, eView', oView')
  {
    forall t' ensures TableOk(o, used, t', RowsIn(eView', t'), RowsIn(oView', t')) {
      if t' != t {
        assert TableOk(o, used, t', RowsIn(eView, t'), RowsIn(oView, t'));
      }
    }
  }

  /** What a write does to the two sides of the relation. */
  ghost predicate WriteStep(e: Engine, o: State, e': Engine, o': State, t: string) {
    && o'.inTxn == o.inTxn && !e'.poisoned && t in e'.View()
    && UsedGrows(e, e') && Later(o, o', e.used) && IssuedUsed(o', e'.used)
    && TableOk(o', e'.used, t, RowsIn(e'.View(), t), RowsIn(o'.Live(), t))
    && OnlyAt(e.View(), e'.View(), t) && OnlyAt(o.Live(), o'.Live(), t)
    && if e.txn.Open? then
         && e'.txn.Open? && e'.committed == e.committed && o'.tables == o.tables
         && (forall t' :: IdsIn(o.touched, t') <= IdsIn(o'.touched, t'))
         && forall id :: id !in IdsIn(o'.touched, t) ==> Same(RowsIn(o'.working, t), RowsIn(o.working, t), id)
       else e'.txn.NoTxn?
  }

  lemma SimAfterWrite(e: Engine, o: State, open: bool, e': Engine, o': State, t: string)
    requires Sim(e, o, open) && WriteStep(e, o, e', o', t)
    ensures Sim(e', o', open)
  {
    Weaken(o, o', e.used, e'.used, e.View(), o.Live());
    WriteView(o', e'.used, e.View(), o.Live(), e'.View(), o'.Live(), t);
    if open {
      Weaken(o, o', e.used, e'.used, e.committed, o.tables);
      forall t', id | id !in IdsIn(o'.touched, t')
        ensures Same(RowsIn(o'.working, t'), RowsIn(o'.tables, t'), id)
      {
        assert id !in IdsIn(o.touched, t');
        assert Same(RowsIn(o.working, t'), RowsIn(o.tables, t'), id);
      }
    }
  }

  // ---- What the engine's statements do, in the oracle's terms ------------------------------

  lemma NamedMatches(op: Op, rows: Rows)
    requires op.kind.Update? || op.kind.Delete?
    ensures NamedIds(op, rows) == MatchingIds(rows, PredicateOf(op))
    ensures forall id :: id in rows ==> (Named(op, id, rows[id]) <==> Matches(PredicateOf(op), id, rows[id]))
  {}

  lemma UpdatedIs(op: Op, rows: Rows, rows': Rows)
    requires op.kind.Update? && UpdatedTo(op, rows, rows')
    ensures rows' == UpdatedRows(rows, PredicateOf(op), AssignmentOf(op))
  {
    NamedMatches(op, rows);
  }

  lemma DeletedIs(op: Op, rows: Rows, rows': Rows)
    requires op.kind.Delete? && DeletedTo(op, rows, rows')
    ensures rows' == DeletedRows(rows, PredicateOf(op))
  {
    NamedMatches(op, rows);
  }

  predicate Reads(op: Op, q: Query) {
    match op.kind
    case SelectPk => q == ByPk(op.key)
    case SelectRange => q == InRange(op.lo, op.hi)
    case FilterScan => q == ByValue(op.v)
    case _ => false
  }

  lemma NamedSelected(op: Op, rows: Rows, q: Query)
    requires Reads(op, q)
    ensures NamedIds(op, rows) == SelectedIds(rows, q)
  {}

  // ---- Statements that were answered -----------------------------------------------

  /** The oracle's side of a write: one relation of the live view gets new rows, and
      the transaction has touched every id at which they differ. */
  ghost predicate Rewrote(o: State, o': State, t: string, rows: Rows) {
    && o'.inTxn == o.inTxn && o'.unchecked == o.unchecked && o'.indeterminate == o.indeterminate
    && OnlyAt(o.Live(), o'.Live(), t) && RowsIn(o'.Live(), t) == rows
    && (o.inTxn ==>
          && o'.tables == o.tables
          && (forall t' :: IdsIn(o.touched, t') <= IdsIn(o'.touched, t'))
          && forall id :: id !in IdsIn(o'.touched, t) ==> Same(rows, RowsIn(o.working, t), id))
  }

  lemma PutRewrites(o: State, o': State, t: string, rows: Rows, ids: set<U64>, issued: IdSets)
    requires o' == o.WithLive(o.Live()[t := rows]).(issued := issued).Touch(t, ids)
    requires forall id :: id !in ids ==> Same(rows, RowsIn(o.Live(), t), id)
    ensures Rewrote(o, o', t, rows) && o'.issued == issued
  {
    assert OnlyAt(o.Live(), o'.Live(), t);
    if o.inTxn {
      assert forall t' :: IdsIn(o'.touched, t') == IdsIn(o.touched, t') + if t' == t then ids else {};
    }
  }

  lemma InsertRewrites(o: State, t: string, id: U64, row: Row)
    ensures Rewrote(o, o.ApplyInsert(t, id, row), t, RowsIn(o.Live(), t)[id := row])
  {
    PutRewrites(o, o.ApplyInsert(t, id, row), t, RowsIn(o.Live(), t)[id := row], {id}, AddId(o.issued, t, id));
  }

  lemma UnchangedRewrites(o: State, t: string)
    ensures Rewrote(o, o, t, RowsIn(o.Live(), t))
  {}

  lemma UpdateRewrites(o: State, t: string, where: Where, set_: Assignment)
    ensures Rewrote(o, o.ApplyUpdate(t, where, set_), t, UpdatedRows(RowsIn(o.Live(), t), where, set_))
    ensures o.ApplyUpdate(t, where, set_).issued == o.issued
  {
    var rows := RowsIn(o.Live(), t);
    if t in o.Live() {
      PutRewrites(o, o.ApplyUpdate(t, where, set_), t, UpdatedRows(rows, where, set_), MatchingIds(rows, where), o.issued);
    } else {
      assert UpdatedRows(rows, where, set_) == rows;
      UnchangedRewrites(o, t);
    }
  }

  lemma DeleteRewrites(o: State, t: string, where: Where)
    ensures Rewrote(o, o.ApplyDelete(t, where), t, DeletedRows(RowsIn(o.Live(), t), where))
    ensures o.ApplyDelete(t, where).issued == o.issued
  {
    var rows := RowsIn(o.Live(), t);
    if t in o.Live() {
      PutRewrites(o, o.ApplyDelete(t, where), t, DeletedRows(rows, where), MatchingIds(rows, where), o.issued);
    } else {
      assert DeletedRows(rows, where) == rows;
      UnchangedRewrites(o, t);
    }
  }

  lemma WroteShape(e: Engine, t: string, rows: Rows, e': Engine)
    requires t in e.View() && Wrote(e, t, rows, e')
    ensures !e'.poisoned && e'.View() == e.View()[t := rows]
    ensures OnlyAt(e.View(), e'.View(), t) && RowsIn(e'.View(), t) == rows && t in e'.View()
    ensures if e.txn.Open? then e'.txn.Open? && e'.committed == e.committed else e'.txn.NoTxn?
  {
    assert e'.View() == e.View()[t := rows];
  }

  /** Both sides rewrote one relation, and the new rows still match. */
  lemma RewriteKeeps(e: Engine, o: State, open: bool, e': Engine, o': State, t: string, eRows: Rows, oRows: Rows)
    requires Sim(e, o, open) && UsedGrows(e, e')
    requires t in e.View() && Wrote(e, t, eRows, e')
    requires Rewrote(o, o', t, oRows)
    requires Later(o, o', e.used) && IssuedUsed(o', e'.used)
    requires TableOk(o', e'.used, t, eRows, oRows)
    ensures Sim(e', o', open)
  {
    WroteShape(e, t, eRows, e');
    SimAfterWrite(e, o, open, e', o', t);
  }

  lemma SameDoubt(o: State, o': State, used: IdSets, used': IdSets)
    requires o'.issued == o.issued && o'.unchecked == o.unchecked && o'.indeterminate == o.indeterminate
    requires IssuedUsed(o, used) && forall t :: IdsIn(used, t) <= IdsIn(used', t)
    ensures Later(o, o', used) && IssuedUsed(o', used')
  {}

  lemma InsertedRows(o: State, o': State, used: IdSets, used': IdSets, t: string, eRows: Rows, oRows: Rows, id: U64, row: Row)
    requires TableOk(o, used, t, eRows, oRows)
    requires o'.unchecked == o.unchecked && o'.indeterminate == o.indeterminate && o'.issued == AddId(o.issued, t, id)
    requires IdsIn(used, t) <= IdsIn(used', t) && id in IdsIn(used', t)
    ensures TableOk(o', used', t, eRows[id := row], oRows[id := row])
  {
    forall x | !o'.IgnorableId(t, x) ensures Same(eRows[id := row], oRows[id := row], x) {
      if x != id {
        assert !o.IgnorableId(t, x);
        assert Same(eRows, oRows, x);
      }
    }
  }

  lemma InsertKeeps(e: Engine, o: State, open: bool, op: Op, reply: Reply, e': Engine)
    requires Sim(e, o, open) && op.kind.Insert? && !reply.Err?
    requires EngineStep(e, Call(Send(op), reply), e')
    ensures reply.Inserted? && Sim(e', o.ApplyInsert(op.table, reply.id, Row(op.v, op.name)), open)
  {
    var t, id, row := op.table, reply.id, Row(op.v, op.name);
    var o' := o.ApplyInsert(t, id, row);
    var eRows, oRows := e.View()[t], RowsIn(o.Live(), t);
    InsertRewrites(o, t, id, row);
    assert TableOk(o, e.used, t, RowsIn(e.View(), t), oRows);
    InsertedRows(o, o', e.used, e'.used, t, eRows, oRows, id, row);
    InsertedLater(o, o', e.used, e'.used, t, id);
    RewriteKeeps(e, o, open, e', o', t, eRows[id := row], oRows[id := row]);
  }

  lemma InsertedLater(o: State, o': State, used: IdSets, used': IdSets, t: string, id: U64)
    requires o'.issued == AddId(o.issued, t, id) && o'.unchecked == o.unchecked && o'.indeterminate == o.indeterminate
    requires IssuedUsed(o, used) && forall t' :: IdsIn(used, t') <= IdsIn(used', t')
    requires id !in IdsIn(used, t) && id in IdsIn(used', t)
    ensures Later(o, o', used) && IssuedUsed(o', used')
  {
    forall t' ensures IdsIn(o'.issued, t') <= IdsIn(used', t') {
      assert IdsIn(o.issued, t') <= IdsIn(used, t');
    }
  }

  lemma UpdateMatches(o: State, o': State, used: IdSets, used': IdSets, t: string, eRows: Rows, oRows: Rows, where: Where, set_: Assignment)
    requires TableOk(o, used, t, eRows, oRows)
    requires o'.issued == o.issued && o'.unchecked == o.unchecked && o'.indeterminate == o.indeterminate
    requires IdsIn(used, t) <= IdsIn(used', t)
    ensures TableOk(o', used', t, UpdatedRows(eRows, where, set_), UpdatedRows(oRows, where, set_))
  {
    forall x | !o'.IgnorableId(t, x)
      ensures Same(UpdatedRows(eRows, where, set_), UpdatedRows(oRows, where, set_), x)
    {
      assert Same(eRows, oRows, x);
    }
  }

  lemma DeleteMatches(o: State, o': State, used: IdSets, used': IdSets, t: string, eRows: Rows, oRows: Rows, where: Where)
    requires TableOk(o, used, t, eRows, oRows)
    requires o'.issued == o.issued && o'.unchecked == o.unchecked && o'.indeterminate == o.indeterminate
    requires IdsIn(used, t) <= IdsIn(used', t)
    ensures TableOk(o', used', t, DeletedRows(eRows, where), DeletedRows(oRows, where))
  {
    forall x | !o'.IgnorableId(t, x)
      ensures Same(DeletedRows(eRows, where), DeletedRows(oRows, where), x)
    {
      assert Same(eRows, oRows, x);
    }
  }

  lemma UpdateKeeps(e: Engine, l: Loop, op: Op, reply: Reply, e': Engine)
    requires Sim(e, l.oracle, l.txnOpen) && op.kind.Update? && !reply.Err?
    requires EngineStep(e, Call(Send(op), reply), e')
    ensures var l' := l.JudgeUpdate(op, reply);
            Sim(e', l'.oracle, l'.txnOpen) && l'.verdict.ok == l.verdict.ok
  {
    var o, t, where, set_ := l.oracle, op.table, PredicateOf(op), AssignmentOf(op);
    var o' := o.ApplyUpdate(t, where, set_);
    var eRows, oRows := e.View()[t], RowsIn(o.Live(), t);
    UpdateRewrites(o, t, where, set_);
    assert TableOk(o, e.used, t, RowsIn(e.View(), t), oRows);
    UpdateMatches(o, o', e.used, e'.used, t, eRows, oRows, where, set_);
    SameDoubt(o, o', e.used, e'.used);
    NamedMatches(op, eRows);
    UpdatedIs(op, eRows, e'.View()[t]);
    RewriteKeeps(e, o, l.txnOpen, e', o', t, UpdatedRows(eRows, where, set_), UpdatedRows(oRows, where, set_));
    CountPasses(l, o', op, e.used, eRows, reply.count);
  }

  lemma DeleteKeeps(e: Engine, l: Loop, op: Op, reply: Reply, e': Engine)
    requires Sim(e, l.oracle, l.txnOpen) && op.kind.Delete? && !reply.Err?
    requires EngineStep(e, Call(Send(op), reply), e')
    ensures var l' := l.JudgeDelete(op, reply);
            Sim(e', l'.oracle, l'.txnOpen) && l'.verdict.ok == l.verdict.ok
  {
    var o, t, where := l.oracle, op.table, PredicateOf(op);
    var o' := o.ApplyDelete(t, where);
    var eRows, oRows := e.View()[t], RowsIn(o.Live(), t);
    DeleteRewrites(o, t, where);
    assert TableOk(o, e.used, t, RowsIn(e.View(), t), oRows);
    DeleteMatches(o, o', e.used, e'.used, t, eRows, oRows, where);
    SameDoubt(o, o', e.used, e'.used);
    NamedMatches(op, eRows);
    DeletedIs(op, eRows, e'.View()[t]);
    RewriteKeeps(e, o, l.txnOpen, e', o', t, DeletedRows(eRows, where), DeletedRows(oRows, where));
    CountPasses(l, o', op, e.used, eRows, reply.count);
  }

  /** The engine's own count passes CheckCount after the oracle has applied the write. */
  lemma CountPasses(l: Loop, o': State, op: Op, used: IdSets, eRows: Rows, reported: nat)
    requires TableOk(l.oracle, used, op.table, eRows, RowsIn(l.oracle.Live(), op.table))
    requires o'.issued == l.oracle.issued && o'.unchecked == l.oracle.unchecked
    requires o'.indeterminate == l.oracle.indeterminate
    requires reported == |MatchingIds(eRows, PredicateOf(op))|
    ensures var l' := l.(oracle := o').CheckCount(op, reported, |l.oracle.Matching(op.table, PredicateOf(op))|);
            l'.oracle == o' && l'.txnOpen == l.txnOpen && l'.verdict.ok == l.verdict.ok
  {
    assert o'.CountCheckable(op.table, PredicateOf(op)) == l.oracle.CountCheckable(op.table, PredicateOf(op));
    if l.oracle.CountCheckable(op.table, PredicateOf(op)) {
      CountsAgree(l.oracle, used, op.table, eRows, RowsIn(l.oracle.Live(), op.table), PredicateOf(op));
    }
  }

  lemma BeginKeeps(e: Engine, o: State, e': Engine)
    requires Sim(e, o, false) && UsedGrows(e, e') && Holds(e', e.committed, Open(e.committed))
    ensures Sim(e', o.Begin(), true)
  {
    SameDoubt(o, o.Begin(), e.used, e'.used);
    Weaken(o, o.Begin(), e.used, e'.used, e.committed, o.tables);
  }

  lemma CommitKeeps(e: Engine, o: State, e': Engine)
    requires Sim(e, o, true) && UsedGrows(e, e') && Holds(e', e.txn.working, NoTxn)
    ensures Sim(e', o.Commit(), false)
  {
    SameDoubt(o, o.Commit(), e.used, e'.used);
    Weaken(o, o.Commit(), e.used, e'.used, e.txn.working, o.working);
  }

  /** BEGIN, COMMIT and ROLLBACK. */
  lemma TxnKeeps(e: Engine, l: Loop, op: Op, reply: Reply, e': Engine)
    requires Sim(e, l.oracle, l.txnOpen) && !reply.Err?
    requires op.kind.Begin? || op.kind.Commit? || op.kind.Rollback?
    requires EngineStep(e, Call(Send(op), reply), e')
    ensures var l' := l.JudgeTxn(op, reply);
            Sim(e', l'.oracle, l'.txnOpen) && l'.verdict.ok == l.verdict.ok
  {
    match op.kind
    case Begin => BeginKeeps(e, l.oracle, e');
    case Commit => CommitKeeps(e, l.oracle, e');
    case Rollback => RolledBackKeeps(e, l.oracle, l.oracle.Rollback(), e');
  }

  /** CREATE TABLE, the advisory declarations, and SYNC. */
  lemma OtherKeeps(e: Engine, l: Loop, op: Op, reply: Reply, e': Engine)
    requires Sim(e, l.oracle, l.txnOpen) && !reply.Err?
    requires op.kind.CreateTable? || op.kind.CreateCabin? || op.kind.CreatePattern? || op.kind.Sync?
    requires op.kind.CreateTable? ==> reply.Created?
    requires EngineStep(e, Call(Send(op), reply), e')
    ensures var l' := l.JudgeOther(op, reply);
            Sim(e', l'.oracle, l'.txnOpen) && l'.verdict.ok == l.verdict.ok
  {
    var o := l.oracle;
    if op.kind.CreateTable? {
      CreateKeeps(e, o, l.txnOpen, op.table, e');
    } else {
      UnmovedKeeps(e, o, l.txnOpen, e');
      SameDoubt(o, l.JudgeOther(op, reply).oracle, e'.used, e'.used);
    }
  }

  /** An engine that created the relation or did not, and an oracle that did or did not. */
  lemma CreateKeeps(e: Engine, o: State, open: bool, t: string, e': Engine)
    requires Sim(e, o, open) && UsedGrows(e, e') && !e'.poisoned && e'.txn.Open? == open
    requires MaybeCreated(e.committed, e'.committed, t)
    requires open ==> MaybeCreated(e.txn.working, e'.txn.working, t)
    ensures Sim(e', o, open) && Sim(e', o.CreateTable(t), open)
  {
    var o' := o.CreateTable(t);
    SameDoubt(o, o', e'.used, e'.used);
    Weaken(o, o, e.used, e'.used, e.committed, o.tables);
    CreatedKeeps(o, e'.used, e.committed, o.tables, e'.committed, t);
    SameViews(o, o', e'.used, e'.committed, o'.tables);
    if open {
      Weaken(o, o, e.used, e'.used, e.txn.working, o.working);
      CreatedKeeps(o, e'.used, e.txn.working, o.working, e'.txn.working, t);
      SameViews(o, o', e'.used, e'.txn.working, o'.working);
      CreatedUntouched(o, t);
    }
  }

  lemma SameViews(o: State, o': State, used: IdSets, eView: Tables, oView: Tables)
    requires ViewOk(o, used, eView, oView) && o'.issued == o.issued
    requires o'.unchecked == o.unchecked && o'.indeterminate == o.indeterminate
    ensures ViewOk(o', used, eView, oView)
  {
    forall t ensures TableOk(o', used, t, RowsIn(eView, t), RowsIn(oView, t)) {
      assert TableOk(o, used, t, RowsIn(eView, t), RowsIn(oView, t));
      forall id | !o'.IgnorableId(t, id) ensures Same(RowsIn(eView, t), RowsIn(oView, t), id) {
        assert !o.IgnorableId(t, id);
      }
    }
  }

  lemma CreatedUntouched(o: State, t: string)
    requires Untouched(o) && o.inTxn
    ensures Untouched(o.CreateTable(t))
  {
    var o' := o.CreateTable(t);
    forall t', id | id !in IdsIn(o'.touched, t') ensures Same(RowsIn(o'.working, t'), RowsIn(o'.tables, t'), id) {
      assert Same(RowsIn(o.working, t'), RowsIn(o.tables, t'), id);
    }
  }

  lemma CreatedKeeps(o: State, used: IdSets, eView: Tables, oView: Tables, eView': Tables, t: string)
    requires ViewOk(o, used, eView, oView)
    requires MaybeCreated(eView, eView', t)
    ensures ViewOk(o, used, eView', oView) && ViewOk(o, used, eView', oView[t := RowsIn(oView, t)])
  {
    forall t'
      ensures TableOk(o, used, t', RowsIn(eView', t'), RowsIn(oView, t'))
      ensures TableOk(o, used, t', RowsIn(eView', t'), RowsIn(oView[t := RowsIn(oView, t)], t')) {
      assert TableOk(o, used, t', RowsIn(eView, t'), RowsIn(oView, t'));
    }
  }

  /** A read that was answered passes. */
  lemma ReadKeeps(e: Engine, l: Loop, op: Op, reply: Reply, q: Query, e': Engine)
    requires Sim(e, l.oracle, l.txnOpen) && UsedGrows(e, e')
    requires Listed(e, op, reply, e') && Reads(op, q)
    ensures var l' := l.CheckRead(op, reply, q);
            Sim(e', l'.oracle, l'.txnOpen) && l'.verdict.ok == l.verdict.ok
  {
    var o, t := l.oracle, op.table;
    assert TableOk(o, e.used, t, RowsIn(e.View(), t), RowsIn(o.Live(), t));
    NamedSelected(op, e.View()[t], q);
    ListingPasses(o, e.used, t, e.View()[t], RowsIn(o.Live(), t), q, reply.rows);
    UnmovedKeeps(e, o, l.txnOpen, e');
  }

  /** An engine that only marked ids as used. */
  lemma UnmovedKeeps(e: Engine, o: State, open: bool, e': Engine)
    requires Sim(e, o, open) && UsedGrows(e, e') && Holds(e', e.committed, e.txn)
    ensures Sim(e', o, open)
  {
    Weaken(o, o, e.used, e'.used, e.committed, o.tables);
    if open {
      Weaken(o, o, e.used, e'.used, e.txn.working, o.working);
    }
  }

  // ---- Statements that answered an error --------------------------------------------

  lemma MergedIds(ids: IdSets, more: IdSets, t: string)
    ensures IdsIn(MergeIds(ids, more), t) == IdsIn(ids, t) + IdsIn(more, t)
  {}

  /** The committed state changed at most in one relation, and the doubt covers it. */
  lemma LostWriteKeeps(e: Engine, o: State, o': State, e': Engine, t: string)
    requires Sim(e, o, false) && UsedGrows(e, e') && Holds(e', e'.committed, NoTxn)
    requires Later(o, o', e.used) && IssuedUsed(o', e.used) && o'.tables == o.tables && !o'.inTxn
    requires e'.committed != e.committed ==>
               && t in e.committed && t in e'.committed && e'.committed == e.committed[t := e'.committed[t]]
               && TableOk(o', e'.used, t, e'.committed[t], RowsIn(o.tables, t))
    ensures Sim(e', o', false)
  {
    Weaken(o, o', e.used, e'.used, e.committed, o.tables);
    if e'.committed != e.committed {
      WriteView(o', e'.used, e.committed, o.tables, e'.committed, o.tables, t);
    }
    forall t' ensures IdsIn(o'.issued, t') <= IdsIn(e'.used, t') {
      assert IdsIn(o'.issued, t') <= IdsIn(e.used, t') <= IdsIn(e'.used, t');
    }
  }

  lemma LostInsertRows(o: State, o': State, used: IdSets, used': IdSets, t: string, eRows: Rows, eRows': Rows, oRows: Rows)
    requires TableOk(o, used, t, eRows, oRows) && IssuedUsed(o, used) && o' == o.NoteIndeterminate(t)
    requires LostInsert(eRows, eRows', IdsIn(used, t), IdsIn(used', t)) && IdsIn(used, t) <= IdsIn(used', t)
    ensures TableOk(o', used', t, eRows', oRows)
  {
    forall x | !o'.IgnorableId(t, x) ensures Same(eRows', oRows, x) {
      assert x in IdsIn(o.issued, t) && x in IdsIn(used, t);
      assert Same(eRows, oRows, x);
    }
  }

  /** Outside a transaction an errored INSERT leaves at most a row nobody named. */
  lemma LostInsertKeeps(e: Engine, o: State, op: Op, e': Engine)
    requires Sim(e, o, false) && op.kind.Insert?
    requires UsedGrows(e, e') && ErredAlone(e, op, e')
    ensures Sim(e', Doubted(o, op), false)
  {
    var t, o' := op.table, Doubted(o, op);
    assert Later(o, o', e.used);
    if e'.committed != e.committed {
      assert TableOk(o, e.used, t, RowsIn(e.committed, t), RowsIn(o.tables, t));
      LostInsertRows(o, o', e.used, e'.used, t, e.committed[t], e'.committed[t], RowsIn(o.tables, t));
    }
    LostWriteKeeps(e, o, o', e', t);
  }

  /** The rows an errored UPDATE or DELETE leaves differ only where its predicate matched. */
  predicate PartlyHit(rows: Rows, rows': Rows, where: Where) {
    && rows'.Keys <= rows.Keys
    && forall id :: id in rows && !Matches(where, id, rows[id]) ==> Same(rows, rows', id)
  }

  lemma LostMutationRows(o: State, o': State, used: IdSets, used': IdSets, t: string,
                         eRows: Rows, eRows': Rows, oRows: Rows, where: Where)
    requires TableOk(o, used, t, eRows, oRows) && IdsIn(used, t) <= IdsIn(used', t)
    requires o' == o.NoteUnchecked(t, MatchingIds(oRows, where))
    requires PartlyHit(eRows, eRows', where)
    ensures TableOk(o', used', t, eRows', oRows)
  {
    forall x | !o'.IgnorableId(t, x) ensures Same(eRows', oRows, x) {
      assert x !in MatchingIds(oRows, where) && !o.IgnorableId(t, x);
      assert Same(eRows, oRows, x);
    }
  }

  lemma NoteLater(o: State, t: string, ids: set<U64>, used: IdSets)
    ensures Later(o, o.NoteUnchecked(t, ids), used)
  {
    assert forall t' :: IdsIn(o.unchecked, t') <= IdsIn(o.NoteUnchecked(t, ids).unchecked, t');
  }

  /** ... and an errored UPDATE or DELETE hits at most rows the oracle matches. */
  lemma LostMutationKeeps(e: Engine, o: State, op: Op, e': Engine)
    requires Sim(e, o, false) && (op.kind.Update? || op.kind.Delete?)
    requires UsedGrows(e, e') && ErredAlone(e, op, e')
    ensures Sim(e', Doubted(o, op), false)
  {
    var t, where := op.table, PredicateOf(op);
    var o' := o.NoteUnchecked(t, o.Matching(t, where));
    NoteLater(o, t, o.Matching(t, where), e.used);
    if e'.committed != e.committed {
      NamedMatches(op, e.committed[t]);
      assert PartlyHit(e.committed[t], e'.committed[t], where);
      assert TableOk(o, e.used, t, RowsIn(e.committed, t), RowsIn(o.tables, t));
      LostMutationRows(o, o', e.used, e'.used, t, e.committed[t], e'.committed[t], RowsIn(o.tables, t), where);
    }
    LostWriteKeeps(e, o, o', e', t);
  }

  /** Any other errored statement leaves every row, or creates an empty relation. */
  lemma LostOtherKeeps(e: Engine, o: State, op: Op, e': Engine)
    requires Sim(e, o, false) && !op.kind.Insert? && !op.kind.Update? && !op.kind.Delete?
    requires UsedGrows(e, e') && ErredAlone(e, op, e')
    ensures Sim(e', o, false)
  {
    var t := op.table;
    Weaken(o, o, e.used, e'.used, e.committed, o.tables);
    forall t' ensures TableOk(o, e'.used, t', RowsIn(e'.committed, t'), RowsIn(o.tables, t')) {
      assert TableOk(o, e'.used, t', RowsIn(e.committed, t'), RowsIn(o.tables, t'));
      assert RowsIn(e'.committed, t') == RowsIn(e.committed, t');
    }
  }

  lemma ErredAloneKeeps(e: Engine, o: State, op: Op, e': Engine)
    requires Sim(e, o, false)
    requires UsedGrows(e, e') && ErredAlone(e, op, e')
    ensures Sim(e', Doubted(o, op), false)
  {
    match op.kind
    case Insert => LostInsertKeeps(e, o, op, e');
    case Update => LostMutationKeeps(e, o, op, e');
    case Delete => LostMutationKeeps(e, o, op, e');
    case _ => LostOtherKeeps(e, o, op, e');
  }

  /** Rolling back leaves the committed state, whatever the ROLLBACK answered. */
  lemma RolledBackKeeps(e: Engine, o: State, o': State, e': Engine)
    requires Sim(e, o, true) && UsedGrows(e, e')
    requires Holds(e', e.committed, NoTxn)
    requires o' == o.Abandon() || o' == o.Rollback()
    ensures Sim(e', o', false)
  {
    AbandonLater(o, e.used);
    assert Later(o, o', e.used);
    Weaken(o, o', e.used, e'.used, e.committed, o.tables);
  }

  lemma AbandonLater(o: State, used: IdSets)
    ensures Later(o, o.Abandon(), used)
  {
    forall t ensures IdsIn(o.Abandon().unchecked, t) == IdsIn(o.unchecked, t) + IdsIn(o.touched, t) {
      MergedIds(o.unchecked, o.touched, t);
    }
  }

  /** A COMMIT that answered an error may have committed: abandoning every touched id
      makes both outcomes the oracle's. */
  lemma LostCommitKeeps(e: Engine, o: State, e': Engine)
    requires Sim(e, o, true) && UsedGrows(e, e')
    requires Holds(e', e.txn.working, NoTxn)
    ensures Sim(e', o.Abandon(), false)
  {
    var o' := o.Abandon();
    AbandonLater(o, e.used);
    Weaken(o, o', e.used, e'.used, e.txn.working, o.working);
    Weaken(o, o', e.used, e'.used, e.committed, o.tables);
    forall t ensures TableOk(o', e'.used, t, RowsIn(e'.committed, t), RowsIn(o'.tables, t)) {
      MergedIds(o.unchecked, o.touched, t);
      assert TableOk(o', e'.used, t, RowsIn(e.txn.working, t), RowsIn(o.working, t));
      assert TableOk(o', e'.used, t, RowsIn(e.committed, t), RowsIn(o.tables, t));
      forall x | !o'.IgnorableId(t, x) ensures Same(RowsIn(e'.committed, t), RowsIn(o'.tables, t), x) {
        assert Same(RowsIn(e.txn.working, t), RowsIn(o.working, t), x);
        assert Same(RowsIn(o.working, t), RowsIn(o.tables, t), x);
      }
    }
  }

  /** An error inside a transaction, and the ROLLBACK that follows it. */
  lemma ErredInTxnKeeps(e: Engine, l: Loop, op: Op, mid: Engine, rollback: Reply, e': Engine)
    requires Sim(e, l.oracle, l.txnOpen) && l.txnOpen
    requires EngineStep(e, Call(Send(op), Err), mid)
    requires EngineStep(mid, Call(HarnessRollback, rollback), e')
    ensures var l' := l.Absorb(op, rollback);
            Sim(e', l'.oracle, l'.txnOpen) && l'.verdict.ok == l.verdict.ok
  {
    var o' := l.Absorb(op, rollback).oracle;
    assert o' == l.oracle.Abandon() || o' == l.oracle.Rollback();
    assert UsedGrows(e, e');
    if mid.committed == e.committed {
      RolledBackKeeps(e, l.oracle, o', e');
    } else {
      LostCommitKeeps(e, l.oracle, e');
    }
  }

  // ---- One operation ----------------------------------------------------------------

  /** Any operation whose reply was not an error. */
  lemma JudgedKeeps(e: Engine, l: Loop, op: Op, reply: Reply, e': Engine)
    requires Sim(e, l.oracle, l.txnOpen) && !reply.Err?
    requires op.kind.CreateTable? ==> reply.Created?
    requires EngineStep(e, Call(Send(op), reply), e')
    ensures var l' := l.Judge(op, reply);
            Sim(e', l'.oracle, l'.txnOpen) && l'.verdict.ok == l.verdict.ok
  {
    match op.kind
    case Insert => InsertKeeps(e, l.oracle, l.txnOpen, op, reply, e');
    case Update => UpdateKeeps(e, l, op, reply, e');
    case Delete => DeleteKeeps(e, l, op, reply, e');
    case Begin | Commit | Rollback => TxnKeeps(e, l, op, reply, e');
    case SelectPk => ReadKeeps(e, l, op, reply, ByPk(op.key), e');
    case SelectRange => ReadKeeps(e, l, op, reply, InRange(op.lo, op.hi), e');
    case FilterScan => ReadKeeps(e, l, op, reply, ByValue(op.v), e');
    case CreateTable | CreateCabin | CreatePattern | Sync => OtherKeeps(e, l, op, reply, e');
  }

  lemma OneCall(e: Engine, c: Call, e': Engine)
    requires EngineCalls(e, [c], e')
    ensures EngineStep(e, c, e')
  {
    var mid :| EngineStep(e, c, mid) && EngineCalls(mid, [c][1..], e');
  }

  lemma TwoCalls(e: Engine, c: Call, d: Call, e': Engine) returns (mid: Engine)
    requires EngineCalls(e, [c, d], e')
    ensures EngineStep(e, c, mid) && EngineStep(mid, d, e')
  {
    mid :| EngineStep(e, c, mid) && EngineCalls(mid, [c, d][1..], e');
    assert [c, d][1..] == [d];
    OneCall(mid, d, e');
  }

  /** An error absorbed outside a transaction. */
  lemma AbsorbedAloneKeeps(e: Engine, l: Loop, op: Op, rollback: Reply, e': Engine)
    requires Sim(e, l.oracle, l.txnOpen) && !l.txnOpen
    requires UsedGrows(e, e') && ErredAlone(e, op, e')
    ensures var l' := l.Absorb(op, rollback);
            Sim(e', l'.oracle, l'.txnOpen) && l'.verdict.ok == l.verdict.ok
  {
    ErredAloneKeeps(e, l.oracle, op, e');
    assert l.Absorb(op, rollback).oracle == Doubted(l.oracle, op);
  }

  /** A CREATE TABLE that errored outside a transaction, its retry, and what that answered. */
  lemma RetryKeeps(e: Engine, l: Loop, op: Op, ans: Answers, e': Engine)
    requires Sim(e, l.oracle, l.txnOpen) && !l.txnOpen
    requires l.Retries(op, ans) && EngineCalls(e, Calls(l, op, ans), e')
    ensures var l' := l.Step(op, ans);
            Sim(e', l'.oracle, l'.txnOpen) && l'.verdict.ok == l.verdict.ok
  {
    var first, retry := Call(Send(op), ans.first), Call(Send(op), ans.retry);
    assert Calls(l, op, ans) == [first, retry];
    var mid := TwoCalls(e, first, retry, e');
    LostOtherKeeps(e, l.oracle, op, mid);
    var l1 := l.(verdict := l.verdict.(erroredOps := l.verdict.erroredOps + 1));
    if ans.retry.Err? {
      AbsorbedAloneKeeps(mid, l1, op, ans.rollback, e');
    } else if ans.retry.Exists? {
      CreateKeeps(mid, l.oracle, false, op.table, e');
    } else {
      JudgedKeeps(mid, l1, op, ans.retry, e');
    }
  }

  /** Inside a transaction: the retry errs too, and the client rolls back; or the session
      was not poisoned, and the relation is there or not. */
  lemma OpenRetryKeeps(e: Engine, l: Loop, op: Op, ans: Answers, e': Engine)
    requires Sim(e, l.oracle, l.txnOpen) && l.txnOpen
    requires l.Retries(op, ans) && EngineCalls(e, Calls(l, op, ans), e')
    ensures var l' := l.Step(op, ans);
            Sim(e', l'.oracle, l'.txnOpen) && l'.verdict.ok == l.verdict.ok
  {
    var first, retry := Call(Send(op), ans.first), Call(Send(op), ans.retry);
    var l1 := l.(verdict := l.verdict.(erroredOps := l.verdict.erroredOps + 1));
    if ans.retry.Err? {
      var mid, mid' := RetriedThenRolledBack(e, l, op, ans, e');
      RolledBackKeeps(e, l.oracle, l.Step(op, ans).oracle, e');
    } else {
      assert Calls(l, op, ans) == [first, retry];
      var mid := TwoCalls(e, first, retry, e');
      CreateKeeps(e, l.oracle, true, op.table, mid);
      if ans.retry.Exists? {
        CreateKeeps(mid, l.oracle, true, op.table, e');
      } else {
        JudgedKeeps(mid, l1, op, ans.retry, e');
      }
    }
  }

  lemma RetriedThenRolledBack(e: Engine, l: Loop, op: Op, ans: Answers, e': Engine) returns (mid: Engine, mid': Engine)
    requires e.txn.Open? && l.txnOpen && l.Retries(op, ans) && ans.retry.Err? && EngineCalls(e, Calls(l, op, ans), e')
    ensures mid.committed == mid'.committed == e.committed && UsedGrows(e, e') && Holds(e', e.committed, NoTxn)
  {
    var calls := Calls(l, op, ans);
    assert calls[0] == Call(Send(op), Err) && calls[1..] == [Call(Send(op), Err), Call(HarnessRollback, ans.rollback)];
    mid :| EngineStep(e, calls[0], mid) && EngineCalls(mid, calls[1..], e');
    mid' := TwoCalls(mid, Call(Send(op), Err), Call(HarnessRollback, ans.rollback), e');
  }

  lemma AbsorbedKeeps(e: Engine, l: Loop, op: Op, ans: Answers, e': Engine)
    requires Sim(e, l.oracle, l.txnOpen) && ans.first.Err? && !l.Retries(op, ans) && l.faultsOn
    requires EngineCalls(e, Calls(l, op, ans), e')
    ensures var l' := l.Absorb(op, ans.rollback);
            Sim(e', l'.oracle, l'.txnOpen) && l'.verdict.ok == l.verdict.ok
  {
    var first, second := Call(Send(op), ans.first), Call(HarnessRollback, ans.rollback);
    if l.txnOpen {
      assert Calls(l, op, ans) == [first, second];
      var mid := TwoCalls(e, first, second, e');
      ErredInTxnKeeps(e, l, op, mid, ans.rollback, e');
    } else {
      assert Calls(l, op, ans) == [first];
      OneCall(e, first, e');
      AbsorbedAloneKeeps(e, l, op, ans.rollback, e');
    }
  }

  /** What a check holds against an operation: a CREATE TABLE that met its relation, and
      an error with no fault to blame. */
  predicate Alarms(faultsOn: bool, op: Op, first: Reply) {
    (op.kind.CreateTable? && first.Exists?) || (!faultsOn && first.Err?)
  }

  lemma AlarmFails(l: Loop, op: Op, ans: Answers)
    requires Alarms(l.faultsOn, op, ans.first)
    ensures !l.Step(op, ans).verdict.ok
  {
    if !l.faultsOn && ans.first.Err? { ErrorFails(l, op); }
  }

  lemma ErrorFails(l: Loop, op: Op)
    requires !l.faultsOn
    ensures !l.Judge(op, Err).verdict.ok
  {}

  /** **Every operation keeps the relation, and fails exactly on those two**: whatever the
      engine answered, in or outside a transaction, with or without faults. */
  lemma StepKeeps(e: Engine, l: Loop, op: Op, ans: Answers, e': Engine)
    requires Sim(e, l.oracle, l.txnOpen) && EngineCalls(e, Calls(l, op, ans), e')
    ensures var l' := l.Step(op, ans);
            if Alarms(l.faultsOn, op, ans.first) then !l'.verdict.ok
            else Sim(e', l'.oracle, l'.txnOpen) && l'.verdict.ok == l.verdict.ok
  {
    if Alarms(l.faultsOn, op, ans.first) {
      AlarmFails(l, op, ans);
    } else if l.Retries(op, ans) {
      if l.txnOpen { OpenRetryKeeps(e, l, op, ans, e'); } else { RetryKeeps(e, l, op, ans, e'); }
    } else if ans.first.Err? {
      AbsorbedKeeps(e, l, op, ans, e');
    } else {
      assert Calls(l, op, ans) == [Call(Send(op), ans.first)];
      OneCall(e, Call(Send(op), ans.first), e');
      JudgedKeeps(e, l, op, ans.first, e');
    }
  }
}
