/** What a verdict says about an engine that promised nothing: over every run, whatever was
    answered, an operation passes exactly when its answer is right, up to what the errors met
    leave in doubt. What is right is said here of rows, ids and fields alone. */
module Detection {
  import opened Text
  import opened Ordering
  import opened Ops
  import opened OracleModel
  import opened Wire
  import opened ReadCheck
  import opened Loop
  import opened EngineModel
  import opened NoFalseAlarms
  import opened WholeRuns

  // ---- The oracle holds issued rows alone -------------------------------------------------
  /** The oracle holds rows only under ids the engine named. */
  ghost predicate RowsIssued(o: State) {
    forall t :: RowsIn(o.tables, t).Keys <= IdsIn(o.issued, t) && RowsIn(o.working, t).Keys <= IdsIn(o.issued, t)
  }

  lemma RewrittenRowsIssued(o: State, o': State, t: string, rows: Rows)
    requires RowsIssued(o) && Rewrote(o, o', t, rows) && (!o.inTxn ==> o'.working == o.working)
    requires forall t' :: IdsIn(o.issued, t') <= IdsIn(o'.issued, t')
    requires rows.Keys <= IdsIn(o'.issued, t)
    ensures RowsIssued(o')
  {
    forall t'
      ensures RowsIn(o'.tables, t').Keys <= IdsIn(o'.issued, t')
      ensures RowsIn(o'.working, t').Keys <= IdsIn(o'.issued, t')
    {
      assert RowsIn(o.tables, t').Keys <= IdsIn(o.issued, t');
      assert RowsIn(o.working, t').Keys <= IdsIn(o.issued, t');
      assert t' != t ==> RowsIn(o'.Live(), t') == RowsIn(o.Live(), t');
    }
  }

  lemma InsertRowsIssued(o: State, t: string, id: U64, row: Row)
    requires RowsIssued(o)
    ensures RowsIssued(o.ApplyInsert(t, id, row))
  {
    InsertRewrites(o, t, id, row);
    assert RowsIn(o.Live(), t).Keys <= IdsIn(o.issued, t);
    RewrittenRowsIssued(o, o.ApplyInsert(t, id, row), t, RowsIn(o.Live(), t)[id := row]);
  }

  lemma UpdateRowsIssued(o: State, t: string, where: Where, set_: Assignment)
    requires RowsIssued(o)
    ensures RowsIssued(o.ApplyUpdate(t, where, set_))
  {
    UpdateRewrites(o, t, where, set_);
    assert RowsIn(o.Live(), t).Keys <= IdsIn(o.issued, t);
    RewrittenRowsIssued(o, o.ApplyUpdate(t, where, set_), t, UpdatedRows(RowsIn(o.Live(), t), where, set_));
  }

  lemma DeleteRowsIssued(o: State, t: string, where: Where)
    requires RowsIssued(o)
    ensures RowsIssued(o.ApplyDelete(t, where))
  {
    DeleteRewrites(o, t, where);
    assert RowsIn(o.Live(), t).Keys <= IdsIn(o.issued, t);
    RewrittenRowsIssued(o, o.ApplyDelete(t, where), t, DeletedRows(RowsIn(o.Live(), t), where));
  }

  lemma CreateRowsIssued(o: State, t: string)
    requires RowsIssued(o)
    ensures RowsIssued(o.CreateTable(t))
  {
    forall t'
      ensures RowsIn(o.CreateTable(t).tables, t') == RowsIn(o.tables, t')
      ensures RowsIn(o.CreateTable(t).working, t') == RowsIn(o.working, t')
    {}
  }

  /** Operations that move whole views, or nothing. */
  lemma MovedRowsIssued(o: State, o': State)
    requires RowsIssued(o) && o'.issued == o.issued
    requires o'.tables == o.tables || o'.tables == o.working
    requires o'.working == o.working || o'.working == o.tables || o'.working == map[]
    ensures RowsIssued(o')
  {
    forall t
      ensures RowsIn(o'.tables, t).Keys <= IdsIn(o'.issued, t)
      ensures RowsIn(o'.working, t).Keys <= IdsIn(o'.issued, t)
    {
      assert RowsIn(o.tables, t).Keys <= IdsIn(o.issued, t) && RowsIn(o.working, t).Keys <= IdsIn(o.issued, t);
    }
  }

  lemma JudgeTxnRowsIssued(l: Loop, op: Op, reply: Reply)
    requires RowsIssued(l.oracle)
    ensures RowsIssued(l.JudgeTxn(op, reply).oracle)
  {
    MovedRowsIssued(l.oracle, l.JudgeTxn(op, reply).oracle);
  }

  lemma JudgeOtherRowsIssued(l: Loop, op: Op, reply: Reply)
    requires RowsIssued(l.oracle)
    ensures RowsIssued(l.JudgeOther(op, reply).oracle)
  {
    CreateRowsIssued(l.oracle, op.table);
    if !op.kind.CreateTable? {
      MovedRowsIssued(l.oracle, l.JudgeOther(op, reply).oracle);
    }
  }

  lemma {:induction false} JudgeMutationRowsIssued(l: Loop, op: Op, reply: Reply)
    requires RowsIssued(l.oracle)
    ensures RowsIssued(l.JudgeInsert(op, reply).oracle)
    ensures RowsIssued(l.JudgeUpdate(op, reply).oracle)
    ensures RowsIssued(l.JudgeDelete(op, reply).oracle)
  {
    var o, t, where := l.oracle, op.table, PredicateOf(op);
    if reply.Inserted? { InsertRowsIssued(o, t, reply.id, Row(op.v, op.name)); }
    UpdateRowsIssued(o, t, where, AssignmentOf(op));
    DeleteRowsIssued(o, t, where);
    assert l.JudgeUpdate(op, reply).oracle == o.ApplyUpdate(t, where, AssignmentOf(op));
    assert l.JudgeDelete(op, reply).oracle == o.ApplyDelete(t, where);
  }

  lemma JudgeRowsIssued(l: Loop, op: Op, reply: Reply)
    requires RowsIssued(l.oracle)
    ensures RowsIssued(l.Judge(op, reply).oracle)
  {
    match op.kind
    case Insert | Update | Delete => JudgeMutationRowsIssued(l, op, reply);
    case Begin | Commit | Rollback => JudgeTxnRowsIssued(l, op, reply);
    case SelectPk => ReadKeepsOracle(l, op, reply, ByPk(op.key));
    case SelectRange => ReadKeepsOracle(l, op, reply, InRange(op.lo, op.hi));
    case FilterScan => ReadKeepsOracle(l, op, reply, ByValue(op.v));
    case CreateTable | CreateCabin | CreatePattern | Sync => JudgeOtherRowsIssued(l, op, reply);
  }

  lemma AbsorbRowsIssued(l: Loop, op: Op, rollback: Reply)
    requires RowsIssued(l.oracle)
    ensures RowsIssued(l.Absorb(op, rollback).oracle)
  {
    DoubtMovesNothing(l.oracle, op);
    var o := l.oracle;
    var o' := l.Absorb(op, rollback).oracle;
    assert o' == o || o' == o.Abandon() || o' == o.Rollback() || o' == Doubted(o, op);
    MovedRowsIssued(o, o');
  }

  lemma SettleRowsIssued(l: Loop, op: Op, reply: Reply, rollback: Reply)
    requires RowsIssued(l.oracle)
    ensures RowsIssued(l.Settle(op, reply, rollback).oracle)
  {
    if reply.Err? && l.faultsOn {
      AbsorbRowsIssued(l, op, rollback);
    } else {
      JudgeRowsIssued(l, op, reply);
    }
  }

  lemma StepRowsIssued(l: Loop, op: Op, ans: Answers)
    requires RowsIssued(l.oracle)
    ensures RowsIssued(l.Step(op, ans).oracle)
  {
    var l1 := l.(verdict := l.verdict.(erroredOps := l.verdict.erroredOps + 1));
    CreateRowsIssued(l.oracle, op.table);
    SettleRowsIssued(l1, op, ans.retry, ans.rollback);
    SettleRowsIssued(l, op, ans.first, ans.rollback);
  }

  /** Over every run, against any engine at all. */
  lemma {:induction false} RunRowsIssued(l: Loop, ops: seq<Op>, answers: seq<Answers>)
    requires |ops| == |answers| && RowsIssued(l.oracle)
    ensures RowsIssued(RunOps(l, ops, answers).oracle)
    decreases |ops|
  {
    if ops != [] && l.verdict.ok {
      StepRowsIssued(l, ops[0], answers[0]);
      RunRowsIssued(l.Step(ops[0], answers[0]), ops[1..], answers[1..]);
    }
  }

  // ---- Rows and lines ---------------------------------------------------------------------

  /** A statement erred that may have hit this id: it was noted by name, or an INSERT into
      its relation erred and no INSERT named it. */
  predicate Doubtful(o: State, t: string, id: U64) {
    id in IdsIn(o.unchecked, t) || (t in o.indeterminate && id !in IdsIn(o.issued, t))
  }

  /** These lines are these rows of a relation: up to what is in doubt, each is there once
      and nothing else is. */
  ghost predicate RightLines(o: State, t: string, rows: Rows, ids: set<U64>, lines: seq<string>) {
    && (forall line :: line in lines && !Doubtful(o, t, IdOf(line)) ==> Renders(line, rows, ids))
    && (forall id :: id in ids && id in rows && !Doubtful(o, t, id) ==> multiset(lines)[Render(id, rows[id])] == 1)
  }

  /** How often each row is expected: the ids nobody may assert on are left out. */
  ghost predicate Expects(o: State, t: string, rows: Rows, ids: set<U64>, expected: multiset<string>) {
    forall line :: expected[line] == if Occurs(ids - IdsIn(o.unchecked, t), rows, line) then 1 else 0
  }

  lemma AcceptedRight(o: State, t: string, rows: Rows, ids: set<U64>, expected: multiset<string>, lines: seq<string>)
    requires rows.Keys <= IdsIn(o.issued, t) && ids <= rows.Keys && Expects(o, t, rows, ids, expected)
    requires AcceptsBag(o, t, expected, multiset(lines))
    ensures RightLines(o, t, rows, ids, lines)
  {
    forall line | !o.Ignorable(t, line) ensures multiset(lines)[line] == expected[line] {
      assert line !in multiset(lines) - expected;
    }
    forall line | line in lines && !Doubtful(o, t, IdOf(line)) ensures Renders(line, rows, ids) {
      assert line in multiset(lines) && !o.Ignorable(t, line);
      OccursRenders(ids, rows, line);
    }
    forall id | id in ids && !Doubtful(o, t, id) ensures multiset(lines)[Render(id, rows[id])] == 1 {
      IdOfRender(id, rows[id]);
      assert !o.Ignorable(t, Render(id, rows[id]));
    }
  }

  lemma RightAccepted(o: State, t: string, rows: Rows, ids: set<U64>, expected: multiset<string>, lines: seq<string>)
    requires rows.Keys <= IdsIn(o.issued, t) && ids <= rows.Keys && Expects(o, t, rows, ids, expected)
    requires RightLines(o, t, rows, ids, lines)
    ensures AcceptsBag(o, t, expected, multiset(lines))
  {
    forall line
      ensures expected[line] <= multiset(lines)[line]
      ensures line in multiset(lines) - expected ==> o.Ignorable(t, line)
    {
      OccursRenders(ids, rows, line);
      if !o.Ignorable(t, line) {
        assert !Doubtful(o, t, IdOf(line));
        assert line in multiset(lines) ==> line in lines;
      }
    }
  }

  /** The comparison lets through exactly the right lines. */
  lemma ComparedExactly(o: State, t: string, rows: Rows, q: Query, lines: seq<string>)
    requires rows.Keys <= IdsIn(o.issued, t)
    ensures Accepts(o, t, RenderIds(Ids(SelectedIds(rows, q) - IdsIn(o.unchecked, t)), rows), lines) <==>
            RightLines(o, t, rows, SelectedIds(rows, q), lines)
  {
    var ids := SelectedIds(rows, q);
    var expected := multiset(RenderIds(Ids(ids - IdsIn(o.unchecked, t)), rows));
    forall line ensures expected[line] == if Occurs(ids - IdsIn(o.unchecked, t), rows, line) then 1 else 0 {
      ListingCount(ids - IdsIn(o.unchecked, t), rows, line);
    }
    if RightLines(o, t, rows, ids, lines) {
      RightAccepted(o, t, rows, ids, expected, lines);
    } else if Accepts(o, t, RenderIds(Ids(ids - IdsIn(o.unchecked, t)), rows), lines) {
      AcceptedRight(o, t, rows, ids, expected, lines);
    }
  }

  /** **Nothing checked goes wrong unnoticed**: whatever the engine did, the scans the probe
      lets through are exactly those with the committed rows in them. */
  lemma ProbeDetects(l: Loop, ops: seq<Op>, answers: seq<Answers>, t: string, lines: seq<string>)
    requires |ops| == |answers| && l.oracle == EMPTY
    ensures var o := RunOps(l, ops, answers).oracle;
            var rows := RowsIn(o.tables, t);
            Accepts(o, t, o.ExpectIn(o.tables, t, Everything), lines) <==> RightLines(o, t, rows, rows.Keys, lines)
  {
    RunRowsIssued(l, ops, answers);
    var o := RunOps(l, ops, answers).oracle;
    var rows := RowsIn(o.tables, t);
    assert SelectedIds(rows, Everything) == rows.Keys;
    ComparedExactly(o, t, rows, Everything, lines);
  }

  // ---- One operation ------------------------------------------------------------------------

  /** The rows a statement's session sees. */
  function Seen(o: State, t: string): Rows {
    RowsIn(if o.inTxn then o.working else o.tables, t)
  }

  /** Nothing in doubt bears on how many rows the statement hits. */
  predicate Countable(o: State, op: Op) {
    if op.byPk then !Doubtful(o, op.table, op.key) else op.table !in o.unchecked && op.table !in o.indeterminate
  }

  predicate IsRead(k: Kind) {
    k.SelectPk? || k.SelectRange? || k.FilterScan?
  }

  /** What has to be answered. */
  ghost predicate Right(o: State, op: Op, reply: Reply) {
    var rows := Seen(o, op.table);
    match op.kind
    case SelectPk | SelectRange | FilterScan =>
      !reply.Err? && RightLines(o, op.table, rows, NamedIds(op, rows), RowsOf(reply))
    case Insert => reply.Inserted?
    case Update => reply.Updated? && (Countable(o, op) ==> reply.count == |NamedIds(op, rows)|)
    case Delete => reply.Deleted? && (Countable(o, op) ==> reply.count == |NamedIds(op, rows)|)
    case Begin => reply.Begun?
    case Commit => reply.Committed?
    case Rollback => reply.RolledBack?
    case Sync => reply.Synced?
    case CreateTable => reply.Created?
    case CreateCabin | CreatePattern => reply.Created? || reply.Adopted?
  }

  /** A relation the harness knows it never got is not read. */
  predicate Skipped(l: Loop, op: Op) {
    IsRead(op.kind) && l.faultsOn && op.table !in l.oracle.tables
  }

  /** An error may be answered where faults are on; else, and after a retry, what is right. */
  ghost predicate Stands(l: Loop, op: Op, ans: Answers) {
    if !l.faultsOn || !ans.first.Err? then Skipped(l, op) || Right(l.oracle, op, ans.first)
    else op.kind.CreateTable? ==> ans.retry.Err? || ans.retry.Exists? || ans.retry.Created?
  }

  lemma CountJudged(l: Loop, o': State, op: Op, reported: nat)
    requires op.kind.Update? || op.kind.Delete?
    requires o'.issued == l.oracle.issued && o'.unchecked == l.oracle.unchecked && o'.indeterminate == l.oracle.indeterminate
    ensures l.(oracle := o').CheckCount(op, reported, |l.oracle.Matching(op.table, PredicateOf(op))|).verdict.ok <==>
            l.verdict.ok && (Countable(l.oracle, op) ==> reported == |NamedIds(op, Seen(l.oracle, op.table))|)
  {
    NamedMatches(op, Seen(l.oracle, op.table));
  }

  lemma UpdateJudged(l: Loop, op: Op, reply: Reply)
    requires op.kind.Update?
    ensures l.Judge(op, reply).verdict.ok <==> l.verdict.ok && Right(l.oracle, op, reply)
  {
    UpdateRewrites(l.oracle, op.table, PredicateOf(op), AssignmentOf(op));
    if reply.Updated? {
      CountJudged(l, l.oracle.ApplyUpdate(op.table, PredicateOf(op), AssignmentOf(op)), op, reply.count);
    }
  }

  lemma DeleteJudged(l: Loop, op: Op, reply: Reply)
    requires op.kind.Delete?
    ensures l.Judge(op, reply).verdict.ok <==> l.verdict.ok && Right(l.oracle, op, reply)
  {
    DeleteRewrites(l.oracle, op.table, PredicateOf(op));
    if reply.Deleted? { CountJudged(l, l.oracle.ApplyDelete(op.table, PredicateOf(op)), op, reply.count); }
  }

  lemma RightRead(o: State, op: Op, reply: Reply, q: Query)
    requires RowsIssued(o) && Reads(op, q)
    ensures Right(o, op, reply) <==> Passes(reply, o.Expect(op.table, q), o, op.table)
  {
    SeenIssued(o, op.table);
    NamedSelected(op, Seen(o, op.table), q);
    ComparedExactly(o, op.table, Seen(o, op.table), q, RowsOf(reply));
  }

  lemma ReadJudged(l: Loop, op: Op, reply: Reply, q: Query)
    requires RowsIssued(l.oracle) && Reads(op, q)
    ensures l.CheckRead(op, reply, q).verdict.ok <==> l.verdict.ok && (Skipped(l, op) || Right(l.oracle, op, reply))
  {
    RightRead(l.oracle, op, reply, q);
    var passes := Passes(reply, l.oracle.Expect(op.table, q), l.oracle, op.table);
    assert l.AfterRead(passes).verdict.ok <==> l.verdict.ok && passes;
  }

  lemma SeenIssued(o: State, t: string)
    requires RowsIssued(o)
    ensures Seen(o, t).Keys <= IdsIn(o.issued, t) && Seen(o, t) == RowsIn(o.Live(), t)
  {
    assert RowsIn(o.tables, t).Keys <= IdsIn(o.issued, t) && RowsIn(o.working, t).Keys <= IdsIn(o.issued, t);
  }

  lemma OtherJudged(l: Loop, op: Op, reply: Reply)
    requires !IsRead(op.kind) && !op.kind.Update? && !op.kind.Delete?
    ensures l.Judge(op, reply).verdict.ok <==> l.verdict.ok && Right(l.oracle, op, reply)
  {}

  lemma JudgedExactly(l: Loop, op: Op, reply: Reply)
    requires RowsIssued(l.oracle)
    ensures l.Judge(op, reply).verdict.ok <==> l.verdict.ok && (Skipped(l, op) || Right(l.oracle, op, reply))
  {
    match op.kind
    case SelectPk => ReadJudged(l, op, reply, ByPk(op.key));
    case SelectRange => ReadJudged(l, op, reply, InRange(op.lo, op.hi));
    case FilterScan => ReadJudged(l, op, reply, ByValue(op.v));
    case Update => UpdateJudged(l, op, reply);
    case Delete => DeleteJudged(l, op, reply);
    case _ => OtherJudged(l, op, reply);
  }

  lemma AbsorbJudged(l: Loop, op: Op, rollback: Reply)
    ensures l.Absorb(op, rollback).verdict.ok == l.verdict.ok
  {}

  /** An operation passes exactly when its answer stands. */
  lemma StepJudged(l: Loop, op: Op, ans: Answers)
    requires RowsIssued(l.oracle)
    ensures l.Step(op, ans).verdict.ok <==> l.verdict.ok && Stands(l, op, ans)
  {
    var l1 := l.(verdict := l.verdict.(erroredOps := l.verdict.erroredOps + 1));
    AbsorbJudged(l, op, ans.rollback);
    AbsorbJudged(l1, op, ans.rollback);
    JudgedExactly(l, op, ans.first);
    if op.kind.CreateTable? { OtherJudged(l1, op, ans.retry); }
  }

  /** Every answer of a run stands. */
  ghost predicate AllStand(l: Loop, ops: seq<Op>, answers: seq<Answers>)
    requires |ops| == |answers|
    decreases |ops|
  {
    ops == [] || (Stands(l, ops[0], answers[0]) && AllStand(l.Step(ops[0], answers[0]), ops[1..], answers[1..]))
  }

  lemma {:induction false} RunJudgedFrom(l: Loop, ops: seq<Op>, answers: seq<Answers>)
    requires |ops| == |answers| && RowsIssued(l.oracle) && l.verdict.ok
    ensures RunOps(l, ops, answers).verdict.ok <==> AllStand(l, ops, answers)
    decreases |ops|
  {
    if ops != [] {
      StepJudged(l, ops[0], answers[0]);
      StepRowsIssued(l, ops[0], answers[0]);
      if Stands(l, ops[0], answers[0]) { RunJudgedFrom(l.Step(ops[0], answers[0]), ops[1..], answers[1..]); }
    }
  }

  /** **A run fails exactly on a wrong answer**, whatever the engine is: a read that does not
      hold the rows asked for, a count that is not of the rows hit, a reply of another kind. */
  lemma RunJudged(faultsOn: bool, ops: seq<Op>, answers: seq<Answers>)
    requires |ops| == |answers|
    ensures RunOps(Start(faultsOn), ops, answers).verdict.ok <==> AllStand(Start(faultsOn), ops, answers)
  {
    RunJudgedFrom(Start(faultsOn), ops, answers);
  }

  /** The next operation after any run. */
  lemma NextJudged(faultsOn: bool, ops: seq<Op>, answers: seq<Answers>, op: Op, ans: Answers)
    requires |ops| == |answers|
    ensures var l := RunOps(Start(faultsOn), ops, answers);
            l.Step(op, ans).verdict.ok <==> l.verdict.ok && Stands(l, op, ans)
  {
    RunRowsIssued(Start(faultsOn), ops, answers);
    StepJudged(RunOps(Start(faultsOn), ops, answers), op, ans);
  }
}
