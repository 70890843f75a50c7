/** What a run writes down: which ids it comes to hold in doubt, which it has named and
    touched, the snapshot of the last SYNC, and the verdict's counters, each exactly. */
module Bookkeeping {
  import opened Text
  import opened Ops
  import opened OracleModel
  import opened Wire
  import opened Loop
  import opened EngineModel
  import opened NoFalseAlarms
  import opened WholeRuns
  import opened Detection

  // ---- What comes to be in doubt --------------------------------------------------------------

  /** The operation ended in an error the loop absorbed. */
  predicate Erred(l: Loop, op: Op, ans: Answers) {
    l.faultsOn && ans.first.Err? && (op.kind.CreateTable? ==> ans.retry.Err?)
  }

  /** What that error may have hit: inside a transaction what the transaction touched, unless
      a ROLLBACK was answered; outside one the rows the statement names. */
  predicate Endangered(l: Loop, op: Op, ans: Answers, t: string, id: U64) {
    && Erred(l, op, ans)
    && if l.txnOpen then (IsEnd(op.kind) || ans.rollback.Err?) && id in IdsIn(l.oracle.touched, t)
       else (op.kind.Update? || op.kind.Delete?) && t == op.table && id in NamedIds(op, Seen(l.oracle, t))
  }

  /** What an answered write touches. */
  predicate Hit(o: State, op: Op, reply: Reply, t: string, id: U64) {
    && t == op.table && !reply.Err?
    && match op.kind
       case Insert => reply == Inserted(id)
       case Update | Delete => id in NamedIds(op, Seen(o, t))
       case _ => false
  }

  /** The ids in doubt after an operation are those of before and the endangered. */
  ghost predicate DoubtsMore(l: Loop, op: Op, ans: Answers, o': State) {
    && (forall t, id :: id in IdsIn(o'.unchecked, t) <==> id in IdsIn(l.oracle.unchecked, t) || Endangered(l, op, ans, t, id))
    && o'.indeterminate ==
         if Erred(l, op, ans) && !l.txnOpen && op.kind.Insert? then OneMore(l.oracle.indeterminate, op.table)
         else l.oracle.indeterminate
  }

  function OneMore(counts: map<string, nat>, t: string): map<string, nat> {
    counts[t := if t in counts then counts[t] + 1 else 1]
  }

  /** The ids named, and the snapshot. */
  ghost predicate NamesMore(o: State, op: Op, reply: Reply, o': State) {
    && (forall t :: IdsIn(o'.issued, t) == IdsIn(o.issued, t) +
          if t == op.table && op.kind.Insert? && reply.Inserted? then {reply.id} else {})
    && o'.synced == (if op.kind.Sync? && reply.Synced? then o.tables else o.synced)
  }

  /** Inside a transaction, what it has touched. */
  ghost predicate TouchesMore(o: State, op: Op, reply: Reply, o': State) {
    if op.kind.Begin? then o'.touched == map[]
    else forall t, id :: id in IdsIn(o'.touched, t) <==> id in IdsIn(o.touched, t) || Hit(o, op, reply, t, id)
  }

  lemma AbandonDoubts(o: State)
    ensures forall t :: IdsIn(o.Abandon().unchecked, t) == IdsIn(o.unchecked, t) + IdsIn(o.touched, t)
    ensures var o' := o.Abandon(); o'.indeterminate == o.indeterminate && o'.issued == o.issued && o'.synced == o.synced
  {
    forall t ensures IdsIn(o.Abandon().unchecked, t) == IdsIn(o.unchecked, t) + IdsIn(o.touched, t) {
      MergedIds(o.unchecked, o.touched, t);
    }
  }

  lemma NotedDoubts(o: State, t: string, ids: set<U64>)
    ensures var o' := o.NoteUnchecked(t, ids);
            && (forall t' :: IdsIn(o'.unchecked, t') == IdsIn(o.unchecked, t') + if t' == t then ids else {})
            && o'.indeterminate == o.indeterminate && o'.issued == o.issued && o'.synced == o.synced
    ensures var o' := o.NoteIndeterminate(t);
            && o'.unchecked == o.unchecked && o'.indeterminate == OneMore(o.indeterminate, t)
            && o'.issued == o.issued && o'.synced == o.synced
  {}

  lemma AloneRecords(l: Loop, op: Op, ans: Answers)
    requires Erred(l, op, ans) && !l.txnOpen
    ensures var o' := Doubted(l.oracle, op); DoubtsMore(l, op, ans, o') && NamesMore(l.oracle, op, Err, o')
  {
    var o, t := l.oracle, op.table;
    NotedDoubts(o, t, o.Matching(t, PredicateOf(op)));
    if op.kind.Update? || op.kind.Delete? { NamedMatches(op, Seen(o, t)); }
  }

  lemma OpenRecords(l: Loop, op: Op, ans: Answers, o': State)
    requires Erred(l, op, ans) && l.txnOpen
    requires o' == if IsEnd(op.kind) || ans.rollback.Err? then l.oracle.Abandon() else l.oracle.Rollback()
    ensures DoubtsMore(l, op, ans, o') && NamesMore(l.oracle, op, Err, o')
  {
    AbandonDoubts(l.oracle);
  }

  lemma AbsorbRecords(l: Loop, op: Op, ans: Answers)
    requires Erred(l, op, ans)
    ensures var o' := l.Absorb(op, ans.rollback).oracle; DoubtsMore(l, op, ans, o') && NamesMore(l.oracle, op, Err, o')
  {
    if l.txnOpen {
      OpenRecords(l, op, ans, l.Absorb(op, ans.rollback).oracle);
    } else if IsEnd(op.kind) {
      assert l.Absorb(op, ans.rollback).oracle == l.oracle;
    } else {
      AloneRecords(l, op, ans);
    }
  }

  /** What an answered operation records. */
  ghost predicate Records(o: State, op: Op, reply: Reply, o': State) {
    && o'.unchecked == o.unchecked && o'.indeterminate == o.indeterminate && NamesMore(o, op, reply, o')
    && o'.inTxn == (op.kind.Begin? || (o.inTxn && !IsEnd(op.kind)))
    && (o.inTxn && o'.inTxn ==> TouchesMore(o, op, reply, o'))
  }

  /** A write that puts new rows in place of a relation's and touches these ids. */
  lemma PutRecords(o: State, op: Op, reply: Reply, o': State, ids: set<U64>)
    requires !op.kind.Begin? && !IsEnd(op.kind) && !op.kind.Sync? && o'.inTxn == o.inTxn
    requires o'.unchecked == o.unchecked && o'.indeterminate == o.indeterminate && o'.synced == o.synced
    requires o'.issued == if op.kind.Insert? && reply.Inserted? then AddId(o.issued, op.table, reply.id) else o.issued
    requires o.inTxn ==> o'.touched == AddIds(o.touched, op.table, ids)
    requires forall id :: id in ids <==> Hit(o, op, reply, op.table, id)
    ensures Records(o, op, reply, o')
  {}

  lemma InsertRecords(o: State, op: Op, id: U64)
    requires op.kind.Insert?
    ensures Records(o, op, Inserted(id), o.ApplyInsert(op.table, id, Row(op.v, op.name)))
  {
    PutRecords(o, op, Inserted(id), o.ApplyInsert(op.table, id, Row(op.v, op.name)), {id});
  }

  lemma UpdateRecords(o: State, op: Op, reply: Reply)
    requires op.kind.Update? && !reply.Err?
    ensures Records(o, op, reply, o.ApplyUpdate(op.table, PredicateOf(op), AssignmentOf(op)))
  {
    var ids := NamedIds(op, Seen(o, op.table));
    NamedMatches(op, Seen(o, op.table));
    assert op.table !in o.Live() ==> ids == {};
    PutRecords(o, op, reply, o.ApplyUpdate(op.table, PredicateOf(op), AssignmentOf(op)), ids);
  }

  lemma DeleteRecords(o: State, op: Op, reply: Reply)
    requires op.kind.Delete? && !reply.Err?
    ensures Records(o, op, reply, o.ApplyDelete(op.table, PredicateOf(op)))
  {
    var ids := NamedIds(op, Seen(o, op.table));
    NamedMatches(op, Seen(o, op.table));
    assert op.table !in o.Live() ==> ids == {};
    PutRecords(o, op, reply, o.ApplyDelete(op.table, PredicateOf(op)), ids);
  }

  /** What moves no row of the session's view. */
  lemma MovedRecords(o: State, op: Op, reply: Reply, o': State)
    requires !op.kind.Insert? && !op.kind.Update? && !op.kind.Delete?
    requires o'.unchecked == o.unchecked && o'.indeterminate == o.indeterminate && o'.issued == o.issued
    requires o'.synced == (if op.kind.Sync? && reply.Synced? then o.tables else o.synced)
    requires o'.inTxn == (op.kind.Begin? || (o.inTxn && !IsEnd(op.kind)))
    requires if op.kind.Begin? then o'.touched == map[] else o'.inTxn ==> o'.touched == o.touched
    ensures Records(o, op, reply, o')
  {}

  lemma TxnRecords(l: Loop, op: Op, reply: Reply)
    requires (op.kind.Begin? || IsEnd(op.kind)) && l.JudgeTxn(op, reply).verdict.ok
    ensures Records(l.oracle, op, reply, l.JudgeTxn(op, reply).oracle)
  {
    MovedRecords(l.oracle, op, reply, l.JudgeTxn(op, reply).oracle);
  }

  lemma OtherRecords(l: Loop, op: Op, reply: Reply)
    requires op.kind.CreateTable? || op.kind.Sync? || IsDecl(op.kind)
    requires l.JudgeOther(op, reply).verdict.ok
    ensures Records(l.oracle, op, reply, l.JudgeOther(op, reply).oracle)
  {
    MovedRecords(l.oracle, op, reply, l.JudgeOther(op, reply).oracle);
  }

  lemma ReadRecords(l: Loop, op: Op, reply: Reply, q: Query)
    requires Reads(op, q)
    ensures Records(l.oracle, op, reply, l.CheckRead(op, reply, q).oracle)
  {
    ReadKeepsOracle(l, op, reply, q);
    MovedRecords(l.oracle, op, reply, l.oracle);
  }

  lemma WriteRecords(l: Loop, op: Op, reply: Reply)
    requires op.kind.Insert? || op.kind.Update? || op.kind.Delete?
    requires !reply.Err? && l.Judge(op, reply).verdict.ok
    ensures Records(l.oracle, op, reply, l.Judge(op, reply).oracle)
  {
    match op.kind
    case Insert => InsertRecords(l.oracle, op, reply.id);
    case Update =>
      UpdateRecords(l.oracle, op, reply);
      CountKeepsOracle(l, l.oracle.ApplyUpdate(op.table, PredicateOf(op), AssignmentOf(op)), op, reply.count,
                       |l.oracle.Matching(op.table, PredicateOf(op))|);
    case Delete =>
      DeleteRecords(l.oracle, op, reply);
      CountKeepsOracle(l, l.oracle.ApplyDelete(op.table, PredicateOf(op)), op, reply.count,
                       |l.oracle.Matching(op.table, PredicateOf(op))|);
  }

  lemma JudgedRecords(l: Loop, op: Op, reply: Reply)
    requires l.Judge(op, reply).verdict.ok && !reply.Err?
    ensures Records(l.oracle, op, reply, l.Judge(op, reply).oracle)
  {
    match op.kind
    case Insert | Update | Delete => WriteRecords(l, op, reply);
    case SelectPk => ReadRecords(l, op, reply, ByPk(op.key));
    case SelectRange => ReadRecords(l, op, reply, InRange(op.lo, op.hi));
    case FilterScan => ReadRecords(l, op, reply, ByValue(op.v));
    case Begin | Commit | Rollback => TxnRecords(l, op, reply);
    case CreateTable | CreateCabin | CreatePattern | Sync => OtherRecords(l, op, reply);
  }

  /** What one operation comes to, by how it was answered. */
  lemma StepSettles(l: Loop, op: Op, ans: Answers)
    requires l.Step(op, ans).verdict.ok
    ensures var l' := l.Step(op, ans);
            if Erred(l, op, ans) then l'.oracle == l.Absorb(op, ans.rollback).oracle && !l'.txnOpen
            else if l.Retries(op, ans) then l'.oracle == l.oracle.CreateTable(op.table) && l'.txnOpen == l.txnOpen
            else !ans.first.Err? && l' == l.Judge(op, ans.first)
  {
    if !l.faultsOn { ErrorFails(l, op); }
  }

  /** **What an operation records is exact**: an id comes to be in doubt by an error that may
      have hit it and in no other way; ids, touches and the snapshot are those answered. */
  lemma StepRecords(l: Loop, op: Op, ans: Answers)
    requires l.oracle.inTxn == l.txnOpen && l.Step(op, ans).verdict.ok
    ensures var o, o' := l.oracle, l.Step(op, ans).oracle;
            && DoubtsMore(l, op, ans, o') && NamesMore(o, op, ans.first, o')
            && (o.inTxn && o'.inTxn ==> TouchesMore(o, op, ans.first, o'))
  {
    StepSettles(l, op, ans);
    if Erred(l, op, ans) {
      AbsorbRecords(l, op, ans);
      AbsorbKeepsKeys(l, op, ans.rollback);
    } else if l.Retries(op, ans) {
      MovedRecords(l.oracle, op, Err, l.oracle.CreateTable(op.table));
    } else {
      JudgedRecords(l, op, ans.first);
    }
  }

  /** The flag and the oracle agree on whether a transaction is open. */
  lemma StepInTxn(l: Loop, op: Op, ans: Answers)
    requires l.oracle.inTxn == l.txnOpen && l.Step(op, ans).verdict.ok
    ensures var l' := l.Step(op, ans); l'.oracle.inTxn == l'.txnOpen
  {
    StepSettles(l, op, ans);
    if Erred(l, op, ans) {
      AbsorbKeepsKeys(l, op, ans.rollback);
    } else if !l.Retries(op, ans) {
      JudgedRecords(l, op, ans.first);
      JudgedOpen(l, op, ans.first);
    }
  }

  lemma JudgedOpen(l: Loop, op: Op, reply: Reply)
    requires l.Judge(op, reply).verdict.ok
    ensures l.Judge(op, reply).txnOpen == (op.kind.Begin? || (l.txnOpen && !IsEnd(op.kind)))
  {
    if !op.kind.Begin? && !IsEnd(op.kind) { JudgeKeepsOpen(l, op, reply); }
  }

  /** Nothing was answered an error. */
  ghost predicate Calm(answers: seq<Answers>) {
    forall i :: 0 <= i < |answers| ==> !answers[i].first.Err?
  }

  ghost predicate NothingDoubtful(o: State) {
    o.unchecked == map[] && o.indeterminate == map[]
  }

  lemma {:induction false} CalmFrom(l: Loop, ops: seq<Op>, answers: seq<Answers>)
    requires |ops| == |answers| && Calm(answers) && RunOps(l, ops, answers).verdict.ok
    requires NothingDoubtful(l.oracle)
    ensures NothingDoubtful(RunOps(l, ops, answers).oracle)
    decreases |ops|
  {
    if ops != [] && l.verdict.ok {
      var op, ans := ops[0], answers[0];
      if l.Step(op, ans).verdict.ok {
        StepSettles(l, op, ans);
        JudgedRecords(l, op, ans.first);
        CalmFrom(l.Step(op, ans), ops[1..], answers[1..]);
      }
    }
  }

  /** **Where nothing erred nothing is excused**: after a passing run without an error every
      id is checked, so every read is compared whole and every count is compared. */
  lemma CalmRunChecksAll(faultsOn: bool, ops: seq<Op>, answers: seq<Answers>, t: string, id: U64, op: Op)
    requires |ops| == |answers| && Calm(answers) && RunOps(Start(faultsOn), ops, answers).verdict.ok
    ensures var o := RunOps(Start(faultsOn), ops, answers).oracle;
            !Doubtful(o, t, id) && Countable(o, op)
  {
    CalmFrom(Start(faultsOn), ops, answers);
  }

  lemma {:induction false} RunInTxn(l: Loop, ops: seq<Op>, answers: seq<Answers>)
    requires |ops| == |answers| && l.oracle.inTxn == l.txnOpen && RunOps(l, ops, answers).verdict.ok
    ensures var l' := RunOps(l, ops, answers); l'.oracle.inTxn == l'.txnOpen
    decreases |ops|
  {
    if ops != [] && l.verdict.ok {
      if l.Step(ops[0], answers[0]).verdict.ok {
        StepInTxn(l, ops[0], answers[0]);
        RunInTxn(l.Step(ops[0], answers[0]), ops[1..], answers[1..]);
      }
    }
  }

  // ---- The counters ---------------------------------------------------------------------------

  function One(b: bool): nat {
    if b then 1 else 0
  }

  /** What a passing operation adds to the verdict. */
  predicate Counts(l: Loop, op: Op, ans: Answers, v': Verdict) {
    var v, answered, writes := l.verdict, !ans.first.Err?, op.kind.Update? || op.kind.Delete?;
    && v'.ok && v'.opsRun == v.opsRun + 1
    && v'.readsChecked == v.readsChecked + One(IsRead(op.kind) && answered && !Skipped(l, op))
    && v'.readsSkipped == v.readsSkipped + One(answered && Skipped(l, op))
    && v'.writesChecked == v.writesChecked + One(writes && answered && Countable(l.oracle, op))
    && v'.countsSkipped == v.countsSkipped + One(writes && answered && !Countable(l.oracle, op))
    && v'.transactions == v.transactions + One(IsEnd(op.kind) && answered)
    && v'.erroredOps == v.erroredOps + One(!answered) + One(Erred(l, op, ans) && op.kind.CreateTable?)
    && v'.opsOnLost == v.opsOnLost + One(Erred(l, op, ans) && op.table != "" && op.table !in l.oracle.tables)
    && v'.gatedMissing == v.gatedMissing && v'.lostTables == v.lostTables
  }

  lemma AbsorbCounts(l: Loop, op: Op, rollback: Reply)
    ensures var v := l.verdict;
            l.Absorb(op, rollback).verdict == v.(erroredOps := v.erroredOps + 1,
              opsOnLost := v.opsOnLost + One(op.table != "" && op.table !in l.oracle.tables))
  {}

  lemma UpdateCounts(l: Loop, op: Op, reply: Reply)
    requires l.JudgeUpdate(op, reply).verdict.ok && op.kind.Update?
    ensures var v := l.verdict;
            l.JudgeUpdate(op, reply).verdict == v.(opsRun := v.opsRun + 1,
              writesChecked := v.writesChecked + One(Countable(l.oracle, op)),
              countsSkipped := v.countsSkipped + One(!Countable(l.oracle, op)))
  {
    UpdateRewrites(l.oracle, op.table, PredicateOf(op), AssignmentOf(op));
  }

  lemma DeleteCounts(l: Loop, op: Op, reply: Reply)
    requires l.JudgeDelete(op, reply).verdict.ok && op.kind.Delete?
    ensures var v := l.verdict;
            l.JudgeDelete(op, reply).verdict == v.(opsRun := v.opsRun + 1,
              writesChecked := v.writesChecked + One(Countable(l.oracle, op)),
              countsSkipped := v.countsSkipped + One(!Countable(l.oracle, op)))
  {
    DeleteRewrites(l.oracle, op.table, PredicateOf(op));
  }

  /** A read is skipped, or checked. */
  lemma ReadCounts(l: Loop, op: Op, reply: Reply, q: Query)
    requires l.CheckRead(op, reply, q).verdict.ok && Reads(op, q)
    ensures var v, skips := l.verdict, Skipped(l, op);
            l.CheckRead(op, reply, q).verdict ==
              if skips then v.(readsSkipped := v.readsSkipped + 1, opsRun := v.opsRun + 1)
              else v.(readsChecked := v.readsChecked + 1, opsRun := v.opsRun + 1)
  {
    if !Skipped(l, op) { CheckedCounts(l, Passes(reply, l.oracle.Expect(op.table, q), l.oracle, op.table)); }
  }

  lemma CheckedCounts(l: Loop, agrees: bool)
    ensures l.AfterRead(agrees).verdict.ok ==>
              var v := l.verdict; l.AfterRead(agrees).verdict == v.(readsChecked := v.readsChecked + 1, opsRun := v.opsRun + 1)
  {}

  lemma OtherCounts(l: Loop, op: Op, reply: Reply)
    requires l.Judge(op, reply).verdict.ok && !op.kind.Update? && !op.kind.Delete? && !IsRead(op.kind)
    ensures var v := l.verdict;
            l.Judge(op, reply).verdict == v.(opsRun := v.opsRun + 1, transactions := v.transactions + One(IsEnd(op.kind)))
  {}

  lemma CountsRead(l: Loop, op: Op, ans: Answers, v': Verdict)
    requires l.verdict.ok && !ans.first.Err? && IsRead(op.kind)
    requires v' == if Skipped(l, op) then l.verdict.(readsSkipped := l.verdict.readsSkipped + 1, opsRun := l.verdict.opsRun + 1)
                   else l.verdict.(readsChecked := l.verdict.readsChecked + 1, opsRun := l.verdict.opsRun + 1)
    ensures Counts(l, op, ans, v')
  {}

  lemma ReadCountsAs(l: Loop, op: Op, ans: Answers, q: Query)
    requires l.CheckRead(op, ans.first, q).verdict.ok && !ans.first.Err? && Reads(op, q)
    ensures Counts(l, op, ans, l.CheckRead(op, ans.first, q).verdict)
  {
    ReadCounts(l, op, ans.first, q);
    CountsRead(l, op, ans, l.CheckRead(op, ans.first, q).verdict);
  }

  lemma ReadJudgedCounts(l: Loop, op: Op, ans: Answers)
    requires l.Judge(op, ans.first).verdict.ok && !ans.first.Err? && IsRead(op.kind)
    ensures Counts(l, op, ans, l.Judge(op, ans.first).verdict)
  {
    match op.kind
    case SelectPk => ReadCountsAs(l, op, ans, ByPk(op.key));
    case SelectRange => ReadCountsAs(l, op, ans, InRange(op.lo, op.hi));
    case FilterScan => ReadCountsAs(l, op, ans, ByValue(op.v));
  }

  lemma JudgedCounts(l: Loop, op: Op, ans: Answers)
    requires l.Judge(op, ans.first).verdict.ok && !ans.first.Err?
    ensures Counts(l, op, ans, l.Judge(op, ans.first).verdict)
  {
    match op.kind
    case Update => UpdateCounts(l, op, ans.first);
    case Delete => DeleteCounts(l, op, ans.first);
    case SelectPk | SelectRange | FilterScan => ReadJudgedCounts(l, op, ans);
    case _ => OtherCounts(l, op, ans.first);
  }

  /** **The verdict's counters are exact**: what was checked, what was skipped and why. */
  lemma StepCounts(l: Loop, op: Op, ans: Answers)
    requires l.Step(op, ans).verdict.ok
    ensures Counts(l, op, ans, l.Step(op, ans).verdict)
  {
    var l1 := l.(verdict := l.verdict.(erroredOps := l.verdict.erroredOps + 1));
    StepSettles(l, op, ans);
    AbsorbCounts(l, op, ans.rollback);
    AbsorbCounts(l1, op, ans.rollback);
    if !ans.first.Err? {
      JudgedCounts(l, op, ans);
    } else if op.kind.CreateTable? && !ans.retry.Err? && !ans.retry.Exists? {
      OtherCounts(l1, op, ans.retry);
    }
  }

  /** Both, for the next operation after any run. */
  lemma NextBooked(faultsOn: bool, ops: seq<Op>, answers: seq<Answers>, op: Op, ans: Answers)
    requires |ops| == |answers| && RunOps(Start(faultsOn), ops, answers).verdict.ok
    ensures var l := RunOps(Start(faultsOn), ops, answers);
            var l' := l.Step(op, ans);
            l'.verdict.ok ==>
              && DoubtsMore(l, op, ans, l'.oracle) && NamesMore(l.oracle, op, ans.first, l'.oracle)
              && (l.oracle.inTxn && l'.oracle.inTxn ==> TouchesMore(l.oracle, op, ans.first, l'.oracle))
              && Counts(l, op, ans, l'.verdict)
  {
    var l := RunOps(Start(faultsOn), ops, answers);
    RunInTxn(Start(faultsOn), ops, answers);
    if l.Step(op, ans).verdict.ok {
      StepRecords(l, op, ans);
      StepCounts(l, op, ans);
    }
  }
}
