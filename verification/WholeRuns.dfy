/** Whole runs of the harness: what the relation of NoFalseAlarms gives for a run of any
    length and for the quiescence probe after it. */
module WholeRuns {
  import opened Text
  import opened Optional
  import opened Ops
  import opened OracleModel
  import opened Wire
  import opened Loop
  import opened EngineModel
  import opened NoFalseAlarms

  // ---- Streams under faults -----------------------------------------------------------

  /** A statement that leaves its transaction open where these relations are seen. */
  predicate Continues(op: Op, names: set<string>) {
    !op.kind.Begin? && !IsEnd(op.kind) && (IsData(op.kind) || IsDecl(op.kind) ==> op.table in names)
  }

  /** No CREATE TABLE is reached before the transaction is ended or broken off. */
  predicate NoCreate(ops: seq<Op>, names: set<string>)
    decreases |ops|
  {
    ops == [] || (!ops[0].kind.CreateTable? && (Continues(ops[0], names) ==> NoCreate(ops[1..], names)))
  }

  function CreatedBy(op: Op, created: set<string>): set<string> {
    if op.kind.CreateTable? then created + {op.table} else created
  }

  /** Every CREATE TABLE names a new relation, and none can fall inside a transaction. */
  predicate StreamOk(ops: seq<Op>, created: set<string>)
    decreases |ops|
  {
    ops == [] ||
    (&& (ops[0].kind.CreateTable? ==> ops[0].table !in created)
     && (ops[0].kind.Begin? ==> NoCreate(ops[1..], created))
     && StreamOk(ops[1..], CreatedBy(ops[0], created)))
  }

  /** Every relation the engine holds was created by the run. */
  ghost predicate Domain(e: Engine, created: set<string>) {
    e.committed.Keys <= created && (e.txn.Open? ==> e.txn.working.Keys <= created)
  }

  lemma {:induction false} CallDomain(e: Engine, call: Call, e': Engine, created: set<string>)
    requires EngineStep(e, call, e') && Domain(e, created)
    requires call.stmt.Send? && call.stmt.op.kind.CreateTable? ==> call.stmt.op.table in created
    ensures e'.committed.Keys <= created
    ensures !(e.txn.Open? && call.stmt.Send? && call.reply.Err?) ==> Domain(e', created)
  {}

  lemma StepDomain(e: Engine, l: Loop, op: Op, ans: Answers, e': Engine, created: set<string>)
    requires Sim(e, l.oracle, l.txnOpen) && !Alarms(l.faultsOn, op, ans.first)
    requires op.kind.CreateTable? ==> !l.txnOpen && op.table in created
    requires EngineCalls(e, Calls(l, op, ans), e') && Domain(e, created)
    ensures Domain(e', created)
  {
    var first := Call(Send(op), ans.first);
    if l.Retries(op, ans) {
      var retry := Call(Send(op), ans.retry);
      assert Calls(l, op, ans) == [first, retry];
      var mid := TwoCalls(e, first, retry, e');
      CallDomain(e, first, mid, created);
      CallDomain(mid, retry, e', created);
    } else if ans.first.Err? && l.txnOpen {
      var second := Call(HarnessRollback, ans.rollback);
      assert Calls(l, op, ans) == [first, second];
      var mid := TwoCalls(e, first, second, e');
      CallDomain(e, first, mid, created);
    } else {
      assert Calls(l, op, ans) == [first];
      OneCall(e, first, e');
      CallDomain(e, first, e', created);
    }
  }

  // ---- What the oracle holds the engine holds ----------------------------------------------

  lemma {:induction false} JudgedCovers(e: Engine, l: Loop, op: Op, reply: Reply, e': Engine)
    requires Sim(e, l.oracle, l.txnOpen) && Covers(e, l.oracle) && !reply.Err?
    requires op.kind.CreateTable? ==> !l.txnOpen && reply.Created?
    requires EngineStep(e, Call(Send(op), reply), e')
    ensures Covers(e', l.Judge(op, reply).oracle)
  {
    var o := l.oracle;
    match op.kind
    case Insert =>
    case Update => UpdateKeys(l, op, reply);
    case Delete => DeleteKeys(l, op, reply);
    case Begin | Commit | Rollback =>
    case SelectPk => ReadKeepsOracle(l, op, reply, ByPk(op.key));
    case SelectRange => ReadKeepsOracle(l, op, reply, InRange(op.lo, op.hi));
    case FilterScan => ReadKeepsOracle(l, op, reply, ByValue(op.v));
    case CreateTable | CreateCabin | CreatePattern | Sync =>
  }

  /** The oracle holds the same relations, in the same transaction. */
  predicate SameKeys(o: State, o': State) {
    o'.inTxn == o.inTxn && o'.tables.Keys == o.tables.Keys && o'.working.Keys == o.working.Keys
  }

  lemma UpdateKeys(l: Loop, op: Op, reply: Reply)
    ensures SameKeys(l.oracle, l.JudgeUpdate(op, reply).oracle)
  {
    var o' := l.oracle.ApplyUpdate(op.table, PredicateOf(op), AssignmentOf(op));
    assert SameKeys(l.oracle, o');
    var count := if reply.Updated? then reply.count else 0;
    CountKeepsOracle(l, o', op, count, |l.oracle.Matching(op.table, PredicateOf(op))|);
  }

  lemma DeleteKeys(l: Loop, op: Op, reply: Reply)
    ensures SameKeys(l.oracle, l.JudgeDelete(op, reply).oracle)
  {
    var o' := l.oracle.ApplyDelete(op.table, PredicateOf(op));
    assert SameKeys(l.oracle, o');
    var count := if reply.Deleted? then reply.count else 0;
    CountKeepsOracle(l, o', op, count, |l.oracle.Matching(op.table, PredicateOf(op))|);
  }

  lemma CountKeepsOracle(l: Loop, o: State, op: Op, reported: nat, expected: nat)
    ensures l.(oracle := o).CheckCount(op, reported, expected).oracle == o && l.(oracle := o).Failed().oracle == o
  {}

  lemma ReadKeepsOracle(l: Loop, op: Op, reply: Reply, q: Query)
    ensures l.CheckRead(op, reply, q).oracle == l.oracle
  {}

  /** An absorbed error moves no committed relation of the oracle, and closes. */
  lemma {:induction false} AbsorbKeepsKeys(l: Loop, op: Op, rollback: Reply)
    requires l.oracle.inTxn == l.txnOpen
    ensures var o' := l.Absorb(op, rollback).oracle; o'.tables == l.oracle.tables && !o'.inTxn
  {
    DoubtMovesNothing(l.oracle, op);
  }

  lemma DoubtMovesNothing(o: State, op: Op)
    ensures var d := Doubted(o, op);
            d.tables == o.tables && d.working == o.working && d.issued == o.issued && d.inTxn == o.inTxn
  {
    NotesMoveNothing(o, op.table, o.Matching(op.table, PredicateOf(op)));
  }

  lemma NotesMoveNothing(o: State, t: string, ids: set<U64>)
    ensures var n := o.NoteIndeterminate(t);
            n.tables == o.tables && n.working == o.working && n.issued == o.issued && n.inTxn == o.inTxn
    ensures var n := o.NoteUnchecked(t, ids);
            n.tables == o.tables && n.working == o.working && n.issued == o.issued && n.inTxn == o.inTxn
  {}

  /** No statement that errs outside a transaction drops a relation. */
  lemma ErredAloneCovers(e: Engine, op: Op, e': Engine)
    requires e.txn.NoTxn? && EngineStep(e, Call(Send(op), Err), e')
    ensures e.committed.Keys <= e'.committed.Keys && e'.txn.NoTxn?
  {}

  lemma {:induction false} RetryCovers(e: Engine, l: Loop, op: Op, ans: Answers, e': Engine)
    requires Sim(e, l.oracle, l.txnOpen) && Covers(e, l.oracle) && !l.txnOpen && l.Retries(op, ans)
    requires EngineCalls(e, Calls(l, op, ans), e')
    ensures Covers(e', l.Step(op, ans).oracle)
  {
    var first, retry := Call(Send(op), ans.first), Call(Send(op), ans.retry);
    assert Calls(l, op, ans) == [first, retry];
    var mid := TwoCalls(e, first, retry, e');
    ErredAloneCovers(e, op, mid);
    LostOtherKeeps(e, l.oracle, op, mid);
    var l1 := l.(verdict := l.verdict.(erroredOps := l.verdict.erroredOps + 1));
    if ans.retry.Err? {
      ErredAloneCovers(mid, op, e');
      AbsorbKeepsKeys(l1, op, ans.rollback);
    } else if !ans.retry.Exists? {
      JudgedCovers(mid, l1, op, ans.retry, e');
    }
  }

  lemma AbsorbedCovers(e: Engine, l: Loop, op: Op, ans: Answers, e': Engine)
    requires Sim(e, l.oracle, l.txnOpen) && Covers(e, l.oracle)
    requires ans.first.Err? && l.faultsOn && !l.Retries(op, ans) && EngineCalls(e, Calls(l, op, ans), e')
    ensures Covers(e', l.Absorb(op, ans.rollback).oracle)
  {
    var first, second := Call(Send(op), ans.first), Call(HarnessRollback, ans.rollback);
    AbsorbKeepsKeys(l, op, ans.rollback);
    if l.txnOpen {
      assert Calls(l, op, ans) == [first, second];
      var mid := TwoCalls(e, first, second, e');
    } else {
      assert Calls(l, op, ans) == [first];
      OneCall(e, first, e');
      ErredAloneCovers(e, op, e');
    }
  }

  lemma StepCovers(e: Engine, l: Loop, op: Op, ans: Answers, e': Engine)
    requires Sim(e, l.oracle, l.txnOpen) && Covers(e, l.oracle) && !Alarms(l.faultsOn, op, ans.first)
    requires op.kind.CreateTable? ==> !l.txnOpen
    requires EngineCalls(e, Calls(l, op, ans), e')
    ensures Covers(e', l.Step(op, ans).oracle)
  {
    if l.Retries(op, ans) {
      RetryCovers(e, l, op, ans, e');
    } else if ans.first.Err? {
      AbsorbedCovers(e, l, op, ans, e');
    } else {
      assert Calls(l, op, ans) == [Call(Send(op), ans.first)];
      OneCall(e, Call(Send(op), ans.first), e');
      JudgedCovers(e, l, op, ans.first, e');
    }
  }

  // ---- Whether a transaction is open ---------------------------------------------------------

  predicate SameTxn(l: Loop, l': Loop) {
    l'.txnOpen == l.txnOpen && l'.faultsOn == l.faultsOn
  }

  lemma CountKeepsOpen(l: Loop, o: State, op: Op, reported: nat, expected: nat)
    ensures SameTxn(l, l.(oracle := o).CheckCount(op, reported, expected)) && SameTxn(l, l.(oracle := o).Failed())
  {}

  lemma ReadKeepsOpen(l: Loop, op: Op, reply: Reply, q: Query)
    ensures SameTxn(l, l.CheckRead(op, reply, q))
  {}

  lemma InsertKeepsOpen(l: Loop, op: Op, reply: Reply)
    ensures SameTxn(l, l.JudgeInsert(op, reply)) && SameTxn(l, l.JudgeOther(op, reply))
  {}

  lemma UpdateKeepsOpen(l: Loop, op: Op, reply: Reply)
    ensures SameTxn(l, l.JudgeUpdate(op, reply))
  {
    var where := PredicateOf(op);
    var count := if reply.Updated? then reply.count else 0;
    CountKeepsOpen(l, l.oracle.ApplyUpdate(op.table, where, AssignmentOf(op)), op, count, |l.oracle.Matching(op.table, where)|);
  }

  lemma DeleteKeepsOpen(l: Loop, op: Op, reply: Reply)
    ensures SameTxn(l, l.JudgeDelete(op, reply))
  {
    var where := PredicateOf(op);
    var count := if reply.Deleted? then reply.count else 0;
    CountKeepsOpen(l, l.oracle.ApplyDelete(op.table, where), op, count, |l.oracle.Matching(op.table, where)|);
  }

  /** Only BEGIN, COMMIT and ROLLBACK move the flag. */
  lemma JudgeKeepsOpen(l: Loop, op: Op, reply: Reply)
    requires !op.kind.Begin? && !IsEnd(op.kind)
    ensures SameTxn(l, l.Judge(op, reply))
  {
    match op.kind
    case Insert => InsertKeepsOpen(l, op, reply);
    case Update => UpdateKeepsOpen(l, op, reply);
    case Delete => DeleteKeepsOpen(l, op, reply);
    case SelectPk => ReadKeepsOpen(l, op, reply, ByPk(op.key));
    case SelectRange => ReadKeepsOpen(l, op, reply, InRange(op.lo, op.hi));
    case FilterScan => ReadKeepsOpen(l, op, reply, ByValue(op.v));
    case CreateTable | CreateCabin | CreatePattern | Sync => InsertKeepsOpen(l, op, reply);
  }

  lemma AbsorbCloses(l: Loop, op: Op, rollback: Reply)
    ensures !l.Absorb(op, rollback).txnOpen && l.Absorb(op, rollback).faultsOn == l.faultsOn
  {}

  lemma StepFaults(l: Loop, op: Op, ans: Answers)
    ensures l.Step(op, ans).faultsOn == l.faultsOn
  {
    var l1 := l.(verdict := l.verdict.(erroredOps := l.verdict.erroredOps + 1));
    AbsorbCloses(l, op, ans.rollback);
    AbsorbCloses(l1, op, ans.rollback);
    if !op.kind.Begin? && !IsEnd(op.kind) {
      JudgeKeepsOpen(l, op, ans.first);
      JudgeKeepsOpen(l1, op, ans.retry);
    }
  }

  /** A transaction is open after an operation only if it was BEGIN, or one was open and
      the operation was answered and is no end. */
  lemma StepOpens(l: Loop, op: Op, ans: Answers)
    requires !Alarms(l.faultsOn, op, ans.first) && (op.kind.CreateTable? ==> !l.txnOpen)
    requires l.Step(op, ans).verdict.ok && l.Step(op, ans).txnOpen
    ensures op.kind.Begin? || (l.txnOpen && !IsEnd(op.kind) && !ans.first.Err?)
  {
    var l1 := l.(verdict := l.verdict.(erroredOps := l.verdict.erroredOps + 1));
    AbsorbCloses(l, op, ans.rollback);
    AbsorbCloses(l1, op, ans.rollback);
    if !op.kind.Begin? && !IsEnd(op.kind) {
      JudgeKeepsOpen(l, op, ans.first);
      JudgeKeepsOpen(l1, op, ans.retry);
    }
  }

  /** An answered statement inside a transaction is one that continues it. */
  lemma AnsweredContinues(e: Engine, op: Op, reply: Reply, e': Engine, created: set<string>)
    requires EngineStep(e, Call(Send(op), reply), e') && !reply.Err? && e.txn.Open? && Domain(e, created)
    requires !IsEnd(op.kind)
    ensures Continues(op, created)
  {}

  lemma {:induction false} StepNoCreate(e: Engine, l: Loop, op: Op, ans: Answers, e': Engine, ops: seq<Op>, created: set<string>)
    requires Sim(e, l.oracle, l.txnOpen) && EngineCalls(e, Calls(l, op, ans), e') && Domain(e, created)
    requires !Alarms(l.faultsOn, op, ans.first) && l.Step(op, ans).verdict.ok
    requires ops != [] && op == ops[0] && StreamOk(ops, created) && (l.txnOpen ==> NoCreate(ops, created))
    ensures l.Step(op, ans).txnOpen ==> NoCreate(ops[1..], CreatedBy(op, created))
  {
    if l.Step(op, ans).txnOpen {
      StepOpens(l, op, ans);
      if !op.kind.Begin? {
        assert Calls(l, op, ans) == [Call(Send(op), ans.first)];
        OneCall(e, Call(Send(op), ans.first), e');
        AnsweredContinues(e, op, ans.first, e', created);
      }
    }
  }

  /** A first CREATE TABLE is never answered EXISTS. */
  lemma NewCreateQuiet(e: Engine, l: Loop, op: Op, ans: Answers, e': Engine, created: set<string>)
    requires Sim(e, l.oracle, l.txnOpen) && EngineCalls(e, Calls(l, op, ans), e') && Domain(e, created)
    requires op.kind.CreateTable? ==> op.table !in created
    ensures !(op.kind.CreateTable? && ans.first.Exists?)
  {
    var calls := Calls(l, op, ans);
    assert calls[0] == Call(Send(op), ans.first);
    var mid :| EngineStep(e, calls[0], mid) && EngineCalls(mid, calls[1..], e');
  }

  // ---- What the SYNCs have seen ------------------------------------------------------------

  /** The oracle's transaction copy holds every committed relation, and its snapshot is of
      relations it holds. */
  predicate SyncedWithin(o: State) {
    o.synced.Keys <= o.tables.Keys && (o.inTxn ==> o.tables.Keys <= o.working.Keys)
  }

  /** Issued and doubted ids only grow, relations are only added, the snapshot stays. */
  ghost predicate Advances(o: State, o': State) {
    && o'.synced == o.synced && o.tables.Keys <= o'.tables.Keys
    && (forall t :: IdsIn(o.issued, t) <= IdsIn(o'.issued, t) && IdsIn(o.unchecked, t) <= IdsIn(o'.unchecked, t))
  }

  lemma UpdateAdvances(o: State, t: string, where: Where, set_: Assignment)
    requires SyncedWithin(o)
    ensures Advances(o, o.ApplyUpdate(t, where, set_)) && SyncedWithin(o.ApplyUpdate(t, where, set_))
  {}

  lemma DeleteAdvances(o: State, t: string, where: Where)
    requires SyncedWithin(o)
    ensures Advances(o, o.ApplyDelete(t, where)) && SyncedWithin(o.ApplyDelete(t, where))
  {}

  lemma InsertAdvances(o: State, t: string, id: U64, row: Row)
    requires SyncedWithin(o)
    ensures Advances(o, o.ApplyInsert(t, id, row)) && SyncedWithin(o.ApplyInsert(t, id, row))
  {}

  lemma MutationAdvances(l: Loop, op: Op, reply: Reply)
    requires SyncedWithin(l.oracle) && (op.kind.Insert? || op.kind.Update? || op.kind.Delete?)
    ensures Advances(l.oracle, l.Judge(op, reply).oracle) && SyncedWithin(l.Judge(op, reply).oracle)
  {
    var o, t, where := l.oracle, op.table, PredicateOf(op);
    match op.kind
    case Insert => if reply.Inserted? { InsertAdvances(o, t, reply.id, Row(op.v, op.name)); }
    case Update =>
      UpdateAdvances(o, t, where, AssignmentOf(op));
      assert l.JudgeUpdate(op, reply).oracle == o.ApplyUpdate(t, where, AssignmentOf(op));
    case Delete =>
      DeleteAdvances(o, t, where);
      assert l.JudgeDelete(op, reply).oracle == o.ApplyDelete(t, where);
  }

  lemma TxnAdvances(l: Loop, op: Op, reply: Reply)
    requires SyncedWithin(l.oracle) && (op.kind.Commit? ==> l.oracle.inTxn)
    ensures Advances(l.oracle, l.JudgeTxn(op, reply).oracle) && SyncedWithin(l.JudgeTxn(op, reply).oracle)
  {}

  lemma OtherAdvances(l: Loop, op: Op, reply: Reply)
    requires SyncedWithin(l.oracle) && !op.kind.Sync?
    ensures Advances(l.oracle, l.JudgeOther(op, reply).oracle) && SyncedWithin(l.JudgeOther(op, reply).oracle)
  {}

  lemma JudgeAdvances(l: Loop, op: Op, reply: Reply)
    requires SyncedWithin(l.oracle) && !op.kind.Sync? && (op.kind.Commit? ==> l.oracle.inTxn)
    ensures Advances(l.oracle, l.Judge(op, reply).oracle) && SyncedWithin(l.Judge(op, reply).oracle)
  {
    match op.kind
    case Insert | Update | Delete => MutationAdvances(l, op, reply);
    case Begin | Commit | Rollback => TxnAdvances(l, op, reply);
    case SelectPk => ReadKeepsOracle(l, op, reply, ByPk(op.key));
    case SelectRange => ReadKeepsOracle(l, op, reply, InRange(op.lo, op.hi));
    case FilterScan => ReadKeepsOracle(l, op, reply, ByValue(op.v));
    case CreateTable | CreateCabin | CreatePattern | Sync => OtherAdvances(l, op, reply);
  }

  lemma AbandonAdvances(o: State)
    requires SyncedWithin(o)
    ensures Advances(o, o.Abandon()) && SyncedWithin(o.Abandon())
  {
    forall t ensures IdsIn(o.unchecked, t) <= IdsIn(o.Abandon().unchecked, t) {
      MergedIds(o.unchecked, o.touched, t);
    }
  }

  lemma NotesAdvance(o: State, t: string, ids: set<U64>)
    requires SyncedWithin(o)
    ensures Advances(o, o.NoteUnchecked(t, ids)) && SyncedWithin(o.NoteUnchecked(t, ids))
    ensures Advances(o, o.NoteIndeterminate(t)) && SyncedWithin(o.NoteIndeterminate(t))
  {}

  lemma AbsorbAdvances(l: Loop, op: Op, rollback: Reply)
    requires SyncedWithin(l.oracle)
    ensures var o' := l.Absorb(op, rollback).oracle; Advances(l.oracle, o') && SyncedWithin(o')
  {
    var o := l.oracle;
    var o' := l.Absorb(op, rollback).oracle;
    AbandonAdvances(o);
    NotesAdvance(o, op.table, o.Matching(op.table, PredicateOf(op)));
    assert o' == o || o' == o.Abandon() || o' == o.Rollback() || o' == Doubted(o, op);
  }

  lemma SettleAdvances(l: Loop, op: Op, reply: Reply, rollback: Reply)
    requires SyncedWithin(l.oracle) && !(op.kind.Sync? && !reply.Err?)
    requires op.kind.Commit? && !reply.Err? ==> l.oracle.inTxn
    requires reply.Err? ==> l.faultsOn
    ensures var o' := l.Settle(op, reply, rollback).oracle; Advances(l.oracle, o') && SyncedWithin(o')
  {
    if reply.Err? { AbsorbAdvances(l, op, rollback); } else { JudgeAdvances(l, op, reply); }
  }

  /** An operation that is no answered SYNC and raises no alarm. */
  lemma StepAdvances(l: Loop, op: Op, ans: Answers)
    requires SyncedWithin(l.oracle) && !(op.kind.Sync? && !ans.first.Err?)
    requires op.kind.Commit? && !ans.first.Err? ==> l.oracle.inTxn
    requires !Alarms(l.faultsOn, op, ans.first)
    ensures var o' := l.Step(op, ans).oracle; Advances(l.oracle, o') && SyncedWithin(o')
  {
    if l.Retries(op, ans) {
      var l1 := l.(verdict := l.verdict.(erroredOps := l.verdict.erroredOps + 1));
      SettleAdvances(l1, op, ans.retry, ans.rollback);
    } else {
      SettleAdvances(l, op, ans.first, ans.rollback);
    }
  }

  /** The rows of the snapshot nobody doubts are those on the device. */
  ghost predicate RowsImaged(o: State, image: Image) {
    && (forall t :: RowsIn(o.synced, t).Keys <= IdsIn(o.issued, t))
    && (forall t, id :: id in RowsIn(o.synced, t) && !o.IgnorableId(t, id) ==>
          Same(RowsIn(image.rows, t), RowsIn(o.synced, t), id))
  }

  lemma RowsStayImaged(o: State, o': State, image: Image, image': Image)
    requires RowsImaged(o, image) && Advances(o, o') && image'.rows == image.rows
    ensures RowsImaged(o', image')
  {
    forall t ensures RowsIn(o'.synced, t).Keys <= IdsIn(o'.issued, t) {
      assert RowsIn(o.synced, t).Keys <= IdsIn(o.issued, t) <= IdsIn(o'.issued, t);
    }
    forall t, id | id in RowsIn(o'.synced, t) && !o'.IgnorableId(t, id)
      ensures Same(RowsIn(image'.rows, t), RowsIn(o'.synced, t), id)
    {
      assert RowsIn(o.synced, t).Keys <= IdsIn(o.issued, t) && IdsIn(o.unchecked, t) <= IdsIn(o'.unchecked, t);
      assert !o.IgnorableId(t, id);
    }
  }

  /** A SYNC's snapshot is of rows in step. */
  lemma SyncImages(e: Engine, o: State, open: bool, image: Image)
    requires Sim(e, o, open) && image.rows == e.committed
    ensures RowsImaged(o.MarkSynced(), image)
  {
    forall t
      ensures RowsIn(o.tables, t).Keys <= IdsIn(o.issued, t)
      ensures forall id :: id in RowsIn(o.tables, t) && !o.IgnorableId(t, id) ==>
                Same(RowsIn(image.rows, t), RowsIn(o.tables, t), id)
    {
      assert TableOk(o, e.used, t, RowsIn(e.committed, t), RowsIn(o.tables, t));
    }
  }

  /** What the run tells of the device: rows, and relations of the snapshot. */
  ghost predicate Imaged(o: State, image: Image) {
    RowsImaged(o, image) && SyncedWithin(o)
  }

  lemma AnsweredCommitOpen(e: Engine, l: Loop, op: Op, ans: Answers, e': Engine)
    requires Sim(e, l.oracle, l.txnOpen) && EngineCalls(e, Calls(l, op, ans), e')
    requires op.kind.Commit? && !ans.first.Err?
    ensures l.oracle.inTxn
  {
    assert Calls(l, op, ans) == [Call(Send(op), ans.first)];
    OneCall(e, Call(Send(op), ans.first), e');
  }

  lemma AnsweredSync(e: Engine, l: Loop, op: Op, ans: Answers, e': Engine)
    requires Sim(e, l.oracle, l.txnOpen) && EngineCalls(e, Calls(l, op, ans), e')
    requires op.kind.Sync? && !ans.first.Err?
    ensures l.Step(op, ans).oracle == l.oracle.MarkSynced()
    ensures e'.committed == e.committed && e'.txn == e.txn
  {
    assert Calls(l, op, ans) == [Call(Send(op), ans.first)];
    OneCall(e, Call(Send(op), ans.first), e');
  }

  lemma StepImaged(e: Engine, l: Loop, op: Op, ans: Answers, e': Engine, image: Image)
    requires Sim(e, l.oracle, l.txnOpen) && EngineCalls(e, Calls(l, op, ans), e')
    requires !Alarms(l.faultsOn, op, ans.first) && Imaged(l.oracle, image)
    ensures Imaged(l.Step(op, ans).oracle, ImageAfter(image, op, ans.first, e'))
    ensures !(op.kind.Sync? && !ans.first.Err?) ==> Advances(l.oracle, l.Step(op, ans).oracle)
  {
    var image' := ImageAfter(image, op, ans.first, e');
    if op.kind.Sync? && !ans.first.Err? {
      AnsweredSync(e, l, op, ans, e');
      SyncImages(e, l.oracle, l.txnOpen, image');
    } else {
      if op.kind.Commit? && !ans.first.Err? { AnsweredCommitOpen(e, l, op, ans, e'); }
      StepAdvances(l, op, ans);
      RowsStayImaged(l.oracle, l.Step(op, ans).oracle, image, image');
    }
  }

  /** Every relation of the snapshot is covered. */
  lemma StepCovered(e: Engine, l: Loop, op: Op, ans: Answers, e': Engine, image: Image)
    requires Sim(e, l.oracle, l.txnOpen) && EngineCalls(e, Calls(l, op, ans), e')
    requires !Alarms(l.faultsOn, op, ans.first) && Imaged(l.oracle, image)
    requires l.oracle.synced.Keys <= image.covered
    requires var l' := l.Step(op, ans); Sim(e', l'.oracle, l'.txnOpen) && Covers(e', l'.oracle)
    ensures l.Step(op, ans).oracle.synced.Keys <= ImageAfter(image, op, ans.first, e').covered
  {
    var o' := l.Step(op, ans).oracle;
    StepImaged(e, l, op, ans, e', image);
    assert o'.tables.Keys <= e'.View().Keys;
    if op.kind.Sync? && !ans.first.Err? { AnsweredSync(e, l, op, ans, e'); }
  }

  // ---- Whole runs under faults ----------------------------------------------------------------

  /** What a run that failed no check ends with: engine and oracle in step, no relation of
      the oracle missing from the engine, none in the engine the stream did not make, the
      last SYNC's snapshot on the device. */
  ghost predicate InStep(e: Engine, l: Loop, image: Image, created: set<string>) {
    && Sim(e, l.oracle, l.txnOpen) && Covers(e, l.oracle) && Domain(e, created)
    && Imaged(l.oracle, image) && l.oracle.synced.Keys <= image.covered
  }

  /** **No false alarms under faults.** Against any engine of EngineModel, under any
      pattern of injected errors, a run over an allowed stream fails no check, however
      long it is, and stays in step. */
  lemma {:induction false} RunKeeps(es: seq<Engine>, l: Loop, ops: seq<Op>, answers: seq<Answers>,
                                    created: set<string>, image: Image)
    requires |ops| == |answers| && EngineRun(es, l, ops, answers)
    requires l.faultsOn && l.verdict.ok && InStep(es[0], l, image, created)
    requires StreamOk(ops, created) && (l.txnOpen ==> NoCreate(ops, created))
    ensures var l' := RunOps(l, ops, answers);
            l'.verdict.ok && InStep(es[|ops|], l', ImageOf(image, es, ops, answers), Made(ops, created))
    decreases |ops|
  {
    if ops != [] {
      var op, ans := ops[0], answers[0];
      var l', created', image' := l.Step(op, ans), CreatedBy(op, created), ImageAfter(image, op, ans.first, es[1]);
      StepInStep(es[0], l, op, ans, es[1], ops, created, created', image, image');
      RunKeeps(es[1..], l', ops[1..], answers[1..], created', image');
    }
  }

  lemma StepInStep(e: Engine, l: Loop, op: Op, ans: Answers, e': Engine, ops: seq<Op>,
                   created: set<string>, created': set<string>, image: Image, image': Image)
    requires l.faultsOn && l.verdict.ok && InStep(e, l, image, created)
    requires ops != [] && op == ops[0] && StreamOk(ops, created) && (l.txnOpen ==> NoCreate(ops, created))
    requires EngineCalls(e, Calls(l, op, ans), e')
    requires created' == CreatedBy(op, created) && image' == ImageAfter(image, op, ans.first, e')
    ensures var l' := l.Step(op, ans);
            && l'.faultsOn && l'.verdict.ok && InStep(e', l', image', created')
            && (l'.txnOpen ==> NoCreate(ops[1..], created'))
  {
    StepFaults(l, op, ans);
    NewCreateQuiet(e, l, op, ans, e', created);
    StepKeeps(e, l, op, ans, e');
    assert Domain(e, created');
    StepCovers(e, l, op, ans, e');
    StepDomain(e, l, op, ans, e', created');
    StepNoCreate(e, l, op, ans, e', ops, created);
    StepImaged(e, l, op, ans, e', image);
    StepCovered(e, l, op, ans, e', image);
  }

  /** From a fresh engine. */
  lemma NoFalseAlarm(es: seq<Engine>, ops: seq<Op>, answers: seq<Answers>)
    requires |ops| == |answers| && EngineRun(es, Start(true), ops, answers) && es[0] == FRESH
    requires StreamOk(ops, {})
    ensures var l := RunOps(Start(true), ops, answers);
            l.verdict.ok && InStep(es[|ops|], l, ImageOf(BARE, es, ops, answers), Made(ops, {}))
  {
    SimStart();
    RunKeeps(es, Start(true), ops, answers, {}, BARE);
  }

  // ---- Streams without faults ------------------------------------------------------------------

  /** The relations a stream has made, in and out of its transaction, and what it declared. */
  datatype Catalog = Catalog(names: set<string>, open: Option<set<string>>, declared: set<Declaration>) {
    function View(): set<string> {
      if open.Some? then open.value else names
    }

    function WithView(view: set<string>): Catalog {
      if open.Some? then this.(open := Some(view)) else this.(names := view)
    }
  }

  const BLANK: Catalog := Catalog({}, None, {})

  /** Brackets match, every relation named is one the session sees, none is created twice
      and nothing is declared twice. */
  predicate Accepted(op: Op, c: Catalog) {
    match op.kind
    case CreateTable => op.table !in c.View()
    case Begin => c.open.None?
    case Commit | Rollback => c.open.Some?
    case Sync => true
    case CreateCabin | CreatePattern => op.table in c.View() && DeclOf(op) !in c.declared
    case _ => op.table in c.View()
  }

  function Recorded(op: Op, c: Catalog): Catalog {
    match op.kind
    case CreateTable => c.WithView(c.View() + {op.table})
    case Begin => c.(open := Some(c.names))
    case Commit => Catalog(c.View(), None, c.declared)
    case Rollback => c.(open := None)
    case CreateCabin | CreatePattern => c.(declared := c.declared + {DeclOf(op)})
    case _ => c
  }

  predicate CatalogOk(ops: seq<Op>, c: Catalog)
    decreases |ops|
  {
    ops == [] || (Accepted(ops[0], c) && CatalogOk(ops[1..], Recorded(ops[0], c)))
  }

  /** The engine's relations are the catalog's. */
  ghost predicate Catalogued(e: Engine, c: Catalog) {
    && e.committed.Keys == c.names && e.txn.Open? == c.open.Some?
    && (e.txn.Open? ==> e.txn.working.Keys == c.open.value)
    && e.declared == c.declared
  }

  lemma {:induction false} AnsweredCatalogued(e: Engine, op: Op, reply: Reply, e': Engine, c: Catalog)
    requires EngineStep(e, Call(Send(op), reply), e') && !reply.Err? && Catalogued(e, c)
    requires Accepted(op, c)
    ensures !(op.kind.CreateTable? && reply.Exists?) && Catalogued(e', Recorded(op, c))
  {
    if op.kind.CreateTable? || IsData(op.kind) {
      AnsweredWrites(e, op, reply, e');
      WrittenCatalogued(e, op.table, e', c);
      assert IsData(op.kind) ==> c.View() + {op.table} == c.View();
    }
  }

  /** Nothing but the relation `t` of the session's view was written, if it was. */
  ghost predicate WroteAt(e: Engine, t: string, e': Engine) {
    && e'.declared == e.declared && t in e'.View()
    && Wrote(e, t, e'.View()[t], e')
  }

  lemma {:induction false} AnsweredWrites(e: Engine, op: Op, reply: Reply, e': Engine)
    requires EngineStep(e, Call(Send(op), reply), e') && !reply.Err?
    requires IsData(op.kind) || (op.kind.CreateTable? && op.table !in e.View())
    ensures WroteAt(e, op.table, e')
  {
    var t, view := op.table, e.View();
    assert e'.declared == e.declared;
    match op.kind
    case CreateTable => WroteRows(e, t, map[], e');
    case Insert => WroteRows(e, t, view[t][reply.id := Row(op.v, op.name)], e');
    case Update | Delete => WroteRows(e, t, e'.View()[t], e');
    case SelectPk | SelectRange | FilterScan => ListedRows(e, t, e');
  }

  lemma WroteRows(e: Engine, t: string, rows: Rows, e': Engine)
    requires e'.declared == e.declared && Wrote(e, t, rows, e')
    ensures WroteAt(e, t, e')
  {}

  lemma ListedRows(e: Engine, t: string, e': Engine)
    requires e'.declared == e.declared && t in e.View() && Holds(e', e.committed, e.txn)
    ensures WroteAt(e, t, e')
  {
    assert e.View()[t := e.View()[t]] == e.View();
  }

  lemma WrittenCatalogued(e: Engine, t: string, e': Engine, c: Catalog)
    requires WroteAt(e, t, e') && Catalogued(e, c)
    ensures Catalogued(e', c.WithView(c.View() + {t}))
  {}

  lemma OffStep(e: Engine, l: Loop, op: Op, ans: Answers, e': Engine, c: Catalog)
    requires !l.faultsOn && Catalogued(e, c) && Accepted(op, c)
    requires RepliesAllowed(e, l, op, ans) && EngineCalls(e, Calls(l, op, ans), e')
    ensures !Alarms(false, op, ans.first) && Catalogued(e', Recorded(op, c))
  {
    assert !Refused(e, op);
    assert Calls(l, op, ans) == [Call(Send(op), ans.first)];
    OneCall(e, Call(Send(op), ans.first), e');
    AnsweredCatalogued(e, op, ans.first, e', c);
  }

  /** What a stream has left in the catalog. */
  function Final(ops: seq<Op>, c: Catalog): Catalog
    decreases |ops|
  {
    if ops == [] then c else Final(ops[1..], Recorded(ops[0], c))
  }

  /** The relations a stream creates, kept or not. */
  function Made(ops: seq<Op>, made: set<string>): set<string>
    decreases |ops|
  {
    if ops == [] then made else Made(ops[1..], CreatedBy(ops[0], made))
  }

  /** The relations a stream has made by its last SYNC, ... */
  function SyncedBy(ops: seq<Op>, made: set<string>, synced: set<string>): set<string>
    decreases |ops|
  {
    if ops == [] then synced
    else SyncedBy(ops[1..], CreatedBy(ops[0], made), if ops[0].kind.Sync? then made else synced)
  }

  /** ... and those of them that SYNC covered and no ROLLBACK has taken back since. */
  function CoveredBy(ops: seq<Op>, c: Catalog, covered: set<string>): set<string>
    decreases |ops|
  {
    if ops == [] then covered
    else
      var c' := Recorded(ops[0], c);
      CoveredBy(ops[1..], c', if ops[0].kind.Sync? then c'.View() else covered * c'.View())
  }

  /** The oracle holds every relation the run created, in both its copies. */
  predicate Holding(o: State, made: set<string>) {
    o.tables.Keys == made && (o.inTxn ==> o.working.Keys == made)
  }

  lemma JudgedHolding(l: Loop, op: Op, reply: Reply, made: set<string>)
    requires Holding(l.oracle, made)
    requires op.kind.CreateTable? ==> reply.Created?
    requires op.kind.Insert? ==> op.table in made
    requires op.kind.Commit? ==> l.oracle.inTxn
    ensures Holding(l.Judge(op, reply).oracle, CreatedBy(op, made))
  {
    match op.kind
    case Insert | Update | Delete => WriteHolding(l, op, reply, made);
    case SelectPk => ReadKeepsOracle(l, op, reply, ByPk(op.key));
    case SelectRange => ReadKeepsOracle(l, op, reply, InRange(op.lo, op.hi));
    case FilterScan => ReadKeepsOracle(l, op, reply, ByValue(op.v));
    case Begin | Commit | Rollback => TxnHolding(l, op, reply, made);
    case CreateTable | CreateCabin | CreatePattern | Sync => OtherHolding(l, op, reply, made);
  }

  lemma WriteHolding(l: Loop, op: Op, reply: Reply, made: set<string>)
    requires Holding(l.oracle, made) && (op.kind.Insert? || op.kind.Update? || op.kind.Delete?)
    requires op.kind.Insert? ==> op.table in made
    ensures Holding(l.Judge(op, reply).oracle, made)
  {
    match op.kind
    case Insert => InsertHolding(l.oracle, op.table, reply, Row(op.v, op.name), made);
    case Update => UpdateKeys(l, op, reply);
    case Delete => DeleteKeys(l, op, reply);
  }

  lemma TxnHolding(l: Loop, op: Op, reply: Reply, made: set<string>)
    requires Holding(l.oracle, made) && (op.kind.Commit? ==> l.oracle.inTxn)
    ensures Holding(l.JudgeTxn(op, reply).oracle, made)
  {}

  lemma OtherHolding(l: Loop, op: Op, reply: Reply, made: set<string>)
    requires Holding(l.oracle, made) && (op.kind.CreateTable? ==> reply.Created?)
    ensures Holding(l.JudgeOther(op, reply).oracle, CreatedBy(op, made))
  {}

  lemma InsertHolding(o: State, t: string, reply: Reply, row: Row, made: set<string>)
    requires Holding(o, made) && t in made
    ensures reply.Inserted? ==> Holding(o.ApplyInsert(t, reply.id, row), made)
  {}

  lemma OffHolding(e: Engine, l: Loop, op: Op, ans: Answers, e': Engine, c: Catalog, made: set<string>)
    requires Sim(e, l.oracle, l.txnOpen) && Catalogued(e, c) && Accepted(op, c) && !ans.first.Err?
    requires EngineStep(e, Call(Send(op), ans.first), e')
    requires Holding(l.oracle, made) && c.View() <= made && c.names <= made
    ensures Holding(l.Step(op, ans).oracle, CreatedBy(op, made))
    ensures var c' := Recorded(op, c); c'.View() <= CreatedBy(op, made) && c'.names <= CreatedBy(op, made)
  {
    AnsweredCatalogued(e, op, ans.first, e', c);
    JudgedHolding(l, op, ans.first, made);
  }

  /** What a run without faults has in step with the stream: catalogs, what was made, what
      the last SYNC saw and covered. */
  ghost predicate OffInStep(e: Engine, l: Loop, image: Image, c: Catalog, made: set<string>,
                            synced: set<string>, covered: set<string>) {
    && Sim(e, l.oracle, l.txnOpen) && Catalogued(e, c)
    && Holding(l.oracle, made) && c.names <= c.View() <= made
    && Imaged(l.oracle, image) && l.oracle.synced.Keys == synced && image.covered == covered
  }

  lemma OffStepInStep(e: Engine, l: Loop, op: Op, ans: Answers, e': Engine, image: Image, image': Image,
                      c: Catalog, c': Catalog, made: set<string>, synced: set<string>, covered: set<string>)
    requires !l.faultsOn && l.verdict.ok && OffInStep(e, l, image, c, made, synced, covered)
    requires Accepted(op, c) && RepliesAllowed(e, l, op, ans) && EngineCalls(e, Calls(l, op, ans), e')
    requires image' == ImageAfter(image, op, ans.first, e') && c' == Recorded(op, c)
    ensures var l' := l.Step(op, ans);
            && !l'.faultsOn && l'.verdict.ok
            && OffInStep(e', l', image', c', CreatedBy(op, made), if op.kind.Sync? then made else synced,
                         if op.kind.Sync? then c'.View() else covered * c'.View())
  {
    OffStep(e, l, op, ans, e', c);
    OneCall(e, Call(Send(op), ans.first), e');
    OffHolding(e, l, op, ans, e', c, made);
    StepKeeps(e, l, op, ans, e');
    StepFaults(l, op, ans);
    StepImaged(e, l, op, ans, e', image);
    assert e'.View().Keys == c'.View();
    if op.kind.Sync? { AnsweredSync(e, l, op, ans, e'); }
  }

  /** **No false alarms without faults**, on every stream that asks nothing the engine
      refuses; and the run ends in step with its stream. */
  lemma {:induction false} OffRunKeeps(es: seq<Engine>, l: Loop, ops: seq<Op>, answers: seq<Answers>, image: Image,
                                       c: Catalog, made: set<string>, synced: set<string>, covered: set<string>)
    requires |ops| == |answers| && EngineRun(es, l, ops, answers) && !l.faultsOn && l.verdict.ok
    requires CatalogOk(ops, c) && OffInStep(es[0], l, image, c, made, synced, covered)
    ensures var l' := RunOps(l, ops, answers);
            && l'.verdict.ok
            && OffInStep(es[|ops|], l', ImageOf(image, es, ops, answers), Final(ops, c), Made(ops, made),
                         SyncedBy(ops, made, synced), CoveredBy(ops, c, covered))
    decreases |ops|
  {
    if ops != [] {
      var op, ans := ops[0], answers[0];
      var c', image' := Recorded(op, c), ImageAfter(image, op, ans.first, es[1]);
      OffStep(es[0], l, op, ans, es[1], c);
      OffStepInStep(es[0], l, op, ans, es[1], image, image', c, c', made, synced, covered);
      OffRunKeeps(es[1..], l.Step(op, ans), ops[1..], answers[1..], image', c', CreatedBy(op, made),
                  if op.kind.Sync? then made else synced, if op.kind.Sync? then c'.View() else covered * c'.View());
    }
  }

  // ---- The quiescence probe ------------------------------------------------------------

  /** The engine answers a scan of every relation of the oracle: its rows, or an error
      where it holds no such relation. */
  ghost predicate Scanned(e: Engine, o: State, scans: map<string, Reply>) {
    forall t :: t in o.tables ==>
      && t in scans
      && if t in e.committed then scans[t].Lines? && IsListing(scans[t].rows, e.committed[t], e.committed[t].Keys)
         else scans[t].Err?
  }

  /** CloseOpenTransaction, at the engine. */
  ghost predicate Closed(e: Engine, l: Loop, rollback: Reply, e': Engine) {
    if l.txnOpen then EngineStep(e, Call(HarnessRollback, rollback), e') else e' == e
  }

  /** CloseOpenTransaction keeps the engine and the oracle in step. */
  lemma CloseKeeps(e: Engine, l: Loop, rollback: Reply, e': Engine)
    requires Sim(e, l.oracle, l.txnOpen) && Closed(e, l, rollback, e')
    ensures var o := l.Close(rollback).oracle;
            Sim(e', o, false) && e'.committed == e.committed && o.tables == l.oracle.tables
  {
    if l.txnOpen {
      RolledBackKeeps(e, l.oracle, l.Close(rollback).oracle, e');
    }
  }

  /** The probe never fires on an engine that answers. */
  lemma ProbePasses(e: Engine, o: State, scans: map<string, Reply>)
    requires Sim(e, o, false) && o.tables.Keys <= e.committed.Keys && Scanned(e, o, scans)
    ensures ProbeAgrees(o, scans)
  {
    forall t | t in o.tables
      ensures Passes(scans[t], o.ExpectIn(o.tables, t, Everything), o, t)
    {
      assert TableOk(o, e.used, t, RowsIn(e.committed, t), RowsIn(o.tables, t));
      assert SelectedIds(e.committed[t], Everything) == e.committed[t].Keys;
      ListingPasses(o, e.used, t, e.committed[t], RowsIn(o.tables, t), Everything, scans[t].rows);
    }
  }

  /** ... and fires on a relation the engine lost. */
  lemma ProbeFires(e: Engine, o: State, scans: map<string, Reply>, t: string)
    requires Scanned(e, o, scans) && t in o.tables && t !in e.committed
    ensures !ProbeAgrees(o, scans)
  {
    assert scans[t].Err?;
  }
}
