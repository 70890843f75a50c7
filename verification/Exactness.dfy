/** Where the harness cannot fail an engine that keeps its promises, and where it can: for
    every stream outside Iterations.Allowed this module builds an iteration of such an engine
    on which a check fails, for every mode and gate; and it says when a relation is created. */
module Exactness {
  import opened Text
  import opened Optional
  import opened Ordering
  import opened Ops
  import opened OracleModel
  import opened Wire
  import opened Loop
  import opened EngineModel
  import opened NoFalseAlarms
  import opened Reconciliation
  import opened WholeRuns
  import opened Finish
  import opened Iterations

  // ---- An engine that answers ----------------------------------------------------------

  /** What a session in good order can be answered. */
  predicate Answerable(e: Engine, op: Op) {
    && !e.poisoned
    && match op.kind
       case Begin => e.txn.NoTxn?
       case Commit | Rollback => e.txn.Open?
       case CreateTable => op.table !in e.View()
       case Sync => true
       case _ => op.table in e.View()
  }

  function Written(e: Engine, t: string, rows: Rows): Engine {
    if e.txn.Open? then e.(txn := Open(e.txn.working[t := rows])) else e.(committed := e.committed[t := rows])
  }

  function ListingOf(rows: Rows, ids: set<U64>): Reply
    requires ids <= rows.Keys
  {
    Lines(RenderIds(Ids(ids), rows))
  }

  lemma ListsAll(rows: Rows, ids: set<U64>)
    requires ids <= rows.Keys
    ensures IsListing(ListingOf(rows, ids).rows, rows, ids)
  {
    forall line ensures multiset(ListingOf(rows, ids).rows)[line] == if Renders(line, rows, ids) then 1 else 0 {
      ListingCount(ids, rows, line);
      OccursRenders(ids, rows, line);
    }
  }

  function ReplyTo(e: Engine, op: Op, id: U64): Reply {
    var rows := RowsIn(e.View(), op.table);
    match op.kind
    case CreateTable | CreateCabin | CreatePattern => Created
    case Insert => Inserted(id)
    case Update => Updated(|NamedIds(op, rows)|)
    case Delete => Deleted(|NamedIds(op, rows)|)
    case Begin => Begun
    case Commit => Committed
    case Rollback => RolledBack
    case Sync => Synced
    case SelectPk | SelectRange | FilterScan => ListingOf(rows, NamedIds(op, rows))
  }

  function Reached(e: Engine, op: Op, id: U64): Engine {
    var t, rows := op.table, RowsIn(e.View(), op.table);
    match op.kind
    case CreateTable => Written(e, t, map[])
    case Insert => Written(e, t, rows[id := Row(op.v, op.name)]).(used := AddId(e.used, t, id))
    case Update => Written(e, t, UpdatedRows(rows, PredicateOf(op), AssignmentOf(op)))
    case Delete => Written(e, t, DeletedRows(rows, PredicateOf(op)))
    case Begin => e.(txn := Open(e.committed))
    case Commit => e.(committed := e.View(), txn := NoTxn)
    case Rollback => e.(txn := NoTxn)
    case CreateCabin | CreatePattern => e.(declared := e.declared + {DeclOf(op)})
    case _ => e
  }

  lemma AnswerStep(e: Engine, op: Op, id: U64)
    requires Answerable(e, op) && id !in IdsIn(e.used, op.table)
    ensures EngineStep(e, Call(Send(op), ReplyTo(e, op, id)), Reached(e, op, id))
  {
    AnswerGrows(e, op, id);
    AnswerDoes(e, op, id);
  }

  lemma AnswerGrows(e: Engine, op: Op, id: U64)
    ensures UsedGrows(e, Reached(e, op, id)) && DeclaredGrows(e, Send(op), Reached(e, op, id))
  {}

  lemma AnswerDoes(e: Engine, op: Op, id: U64)
    requires Answerable(e, op) && id !in IdsIn(e.used, op.table)
    ensures Answered(e, op, ReplyTo(e, op, id), Reached(e, op, id))
  {
    var rows := RowsIn(e.View(), op.table);
    ListsAll(rows, NamedIds(op, rows));
    if op.kind.Update? || op.kind.Delete? { NamedMatches(op, rows); }
  }

  lemma UsedReached(e: Engine, op: Op, n: U64, m: nat)
    requires UsedBelow(e, n) && m == n + 1
    ensures UsedBelow(Reached(e, op, n), m)
  {}

  predicate UsedBelow(e: Engine, n: nat) {
    forall t :: t in e.used ==> forall id :: id in e.used[t] ==> id < n
  }

  lemma CallOnce(e: Engine, c: Call, e': Engine)
    requires EngineStep(e, c, e')
    ensures EngineCalls(e, [c], e')
  {
    assert [c][1..] == [];
    assert EngineCalls(e', [c][1..], e');
  }

  lemma CallFirst(e: Engine, c: Call, mid: Engine, calls: seq<Call>, e': Engine)
    requires EngineStep(e, c, mid) && EngineCalls(mid, calls, e')
    ensures EngineCalls(e, [c] + calls, e')
  {
    assert ([c] + calls)[1..] == calls;
  }

  /** An answered operation: the engine named the id `n` if it named any. */
  lemma AnswerCall(e: Engine, l: Loop, op: Op, n: nat, m: nat) returns (ans: Answers)
    requires Answerable(e, op) && UsedBelow(e, n) && n < U64_LIMIT && m == n + 1
    ensures ans.first == ReplyTo(e, op, n) && !ans.first.Err? && !ans.first.Exists?
    ensures EngineStep(e, Call(Send(op), ans.first), Reached(e, op, n))
    ensures EngineCalls(e, Calls(l, op, ans), Reached(e, op, n)) && UsedBelow(Reached(e, op, n), m)
  {
    ans := Answers(ReplyTo(e, op, n), Err, Err);
    AnswerStep(e, op, n);
    UsedReached(e, op, n, m);
    assert Calls(l, op, ans) == [Call(Send(op), ans.first)];
    CallOnce(e, Call(Send(op), ans.first), Reached(e, op, n));
  }

  // ---- Runs, one operation at a time -------------------------------------------------------

  /** A run is its first operation and a run of the rest. */
  lemma RunFirst(e: Engine, l: Loop, ops: seq<Op>, ans: Answers, es: seq<Engine>, answers: seq<Answers>)
    requires ops != [] && |answers| == |ops| - 1 && l.verdict.ok && |es| == |ops|
    requires RepliesAllowed(e, l, ops[0], ans) && EngineCalls(e, Calls(l, ops[0], ans), es[0])
    requires EngineRun(es, l.Step(ops[0], ans), ops[1..], answers)
    ensures EngineRun([e] + es, l, ops, [ans] + answers)
    ensures RunOps(l, ops, [ans] + answers) == RunOps(l.Step(ops[0], ans), ops[1..], answers)
  {
    assert ([e] + es)[1..] == es && ([ans] + answers)[1..] == answers;
  }

  /** Nothing follows a failed check. */
  lemma StoppedRun(e: Engine, l: Loop, ops: seq<Op>) returns (es: seq<Engine>, answers: seq<Answers>)
    requires !l.verdict.ok
    ensures |answers| == |ops| && EngineRun(es, l, ops, answers) && es[0] == e && RunOps(l, ops, answers) == l
  {
    es := seq(|ops| + 1, _ => e);
    answers := seq(|ops|, _ => Answers(Err, Err, Err));
  }

  /** An operation that fails a check makes a failing run, whatever was to follow. */
  lemma FailingRun(e: Engine, l: Loop, ops: seq<Op>, ans: Answers, e': Engine) returns (es: seq<Engine>, answers: seq<Answers>)
    requires ops != [] && l.verdict.ok && Alarms(l.faultsOn, ops[0], ans.first)
    requires RepliesAllowed(e, l, ops[0], ans) && EngineCalls(e, Calls(l, ops[0], ans), e')
    ensures |answers| == |ops| && EngineRun(es, l, ops, answers) && es[0] == e && !RunOps(l, ops, answers).verdict.ok
  {
    AlarmFails(l, ops[0], ans);
    var es', answers' := StoppedRun(e', l.Step(ops[0], ans), ops[1..]);
    RunFirst(e, l, ops, ans, es', answers');
    es, answers := [e] + es', [ans] + answers';
  }

  /** A CREATE TABLE of a relation in view is answered EXISTS. */
  lemma ExistsCall(e: Engine, l: Loop, op: Op) returns (ans: Answers)
    requires !e.poisoned && op.kind.CreateTable? && op.table in e.View()
    ensures ans.first.Exists? && EngineCalls(e, Calls(l, op, ans), e)
  {
    ans := Answers(Exists, Err, Err);
    assert Calls(l, op, ans) == [Call(Send(op), Exists)];
    CallOnce(e, Call(Send(op), Exists), e);
  }

  // ---- Without faults -----------------------------------------------------------------------

  lemma RefusedCall(e: Engine, l: Loop, op: Op) returns (ans: Answers, e': Engine)
    requires !e.poisoned && !l.faultsOn && Refused(e, op)
    ensures ans.first.Err? && RepliesAllowed(e, l, op, ans) && EngineCalls(e, Calls(l, op, ans), e')
  {
    ans, e' := Answers(Err, Err, Err), e.(poisoned := e.txn.Open?);
    assert Calls(l, op, ans) == [Call(Send(op), Err)];
    CallOnce(e, Call(Send(op), Err), e');
  }

  lemma AcceptedStep(e: Engine, l: Loop, op: Op, c: Catalog, n: nat, m: nat) returns (ans: Answers, e': Engine)
    requires !l.faultsOn && Sim(e, l.oracle, l.txnOpen) && Catalogued(e, c) && Accepted(op, c)
    requires UsedBelow(e, n) && n < U64_LIMIT && m == n + 1
    ensures EngineCalls(e, Calls(l, op, ans), e') && RepliesAllowed(e, l, op, ans) && UsedBelow(e', m)
    ensures Catalogued(e', Recorded(op, c))
    ensures var l' := l.Step(op, ans);
            Sim(e', l'.oracle, l'.txnOpen) && l'.verdict.ok == l.verdict.ok && !l'.faultsOn
  {
    ans := AnswerCall(e, l, op, n, m);
    e' := Reached(e, op, n);
    AnsweredCatalogued(e, op, ans.first, e', c);
    StepKeeps(e, l, op, ans, e');
    StepFaults(l, op, ans);
  }

  /** A stream the engine refuses something of fails a run: everything before it is
      answered. */
  lemma {:induction false} RefusedRun(e: Engine, l: Loop, ops: seq<Op>, c: Catalog, n: nat)
    returns (es: seq<Engine>, answers: seq<Answers>)
    requires !l.faultsOn && l.verdict.ok && Sim(e, l.oracle, l.txnOpen) && Catalogued(e, c)
    requires UsedBelow(e, n) && n + |ops| <= U64_LIMIT && !CatalogOk(ops, c)
    ensures |answers| == |ops| && EngineRun(es, l, ops, answers) && es[0] == e && !RunOps(l, ops, answers).verdict.ok
    decreases |ops|
  {
    var op := ops[0];
    if Accepted(op, c) {
      var ans, e' := AcceptedStep(e, l, op, c, n, n + 1);
      var es', answers' := RefusedRun(e', l.Step(op, ans), ops[1..], Recorded(op, c), n + 1);
      RunFirst(e, l, ops, ans, es', answers');
      es, answers := [e] + es', [ans] + answers';
    } else if op.kind.CreateTable? {
      var ans := ExistsCall(e, l, op);
      es, answers := FailingRun(e, l, ops, ans, e);
    } else {
      var ans, e' := RefusedCall(e, l, op);
      es, answers := FailingRun(e, l, ops, ans, e');
    }
  }

  /** A stream of which nothing is refused is answered whole. */
  lemma {:induction false} AnsweredRun(e: Engine, l: Loop, ops: seq<Op>, c: Catalog, n: nat)
    returns (es: seq<Engine>, answers: seq<Answers>)
    requires !l.faultsOn && l.verdict.ok && Sim(e, l.oracle, l.txnOpen) && Catalogued(e, c)
    requires UsedBelow(e, n) && n + |ops| <= U64_LIMIT && CatalogOk(ops, c)
    ensures |answers| == |ops| && EngineRun(es, l, ops, answers) && es[0] == e
    decreases |ops|
  {
    if ops == [] {
      es, answers := [e], [];
    } else {
      var ans, e' := AcceptedStep(e, l, ops[0], c, n, n + 1);
      var es', answers' := AnsweredRun(e', l.Step(ops[0], ans), ops[1..], Recorded(ops[0], c), n + 1);
      RunFirst(e, l, ops, ans, es', answers');
      es, answers := [e] + es', [ans] + answers';
    }
  }

  // ---- With faults ----------------------------------------------------------------------------

  /** The oracle holds a relation the engine does not. */
  predicate Lost(e: Engine, l: Loop, t: string) {
    t in l.oracle.tables && t !in e.committed
  }

  /** An engine that answers nothing but errors changes nothing, and closes. */
  lemma QuietCall(e: Engine, l: Loop, op: Op) returns (ans: Answers, e': Engine)
    requires l.faultsOn && Sim(e, l.oracle, l.txnOpen)
    ensures EngineCalls(e, Calls(l, op, ans), e') && ans == Answers(Err, Err, Err)
    ensures e' == e.(txn := NoTxn)
  {
    ans, e' := Answers(Err, Err, Err), e.(txn := NoTxn);
    var c, last, mid := Call(Send(op), Err), Call(HarnessRollback, Err), e.(poisoned := e.txn.Open?);
    assert EngineStep(e, c, mid);
    assert EngineStep(mid, c, mid);
    var rest := if l.txnOpen then [last] else [];
    if l.txnOpen { CallOnce(mid, last, e'); } else { assert mid == e'; }
    CallFirst(e, c, mid, rest, e');
    if l.Retries(op, ans) {
      CallFirst(mid, c, mid, rest, e');
      CallFirst(e, c, mid, [c] + rest, e');
      assert Calls(l, op, ans) == [c] + ([c] + rest);
    } else {
      assert Calls(l, op, ans) == [c] + rest;
    }
  }

  lemma QuietStep(l: Loop, op: Op, ans: Answers)
    requires l.faultsOn && l.oracle.inTxn == l.txnOpen && ans == Answers(Err, Err, Err)
    ensures var l' := l.Step(op, ans);
            l'.oracle.tables == l.oracle.tables && l'.oracle.synced == l.oracle.synced && !l'.txnOpen
  {
    var l1 := l.(verdict := l.verdict.(erroredOps := l.verdict.erroredOps + 1));
    AbsorbKeepsKeys(l, op, Err);
    AbsorbKeepsKeys(l1, op, Err);
    AbsorbCloses(l, op, Err);
    AbsorbCloses(l1, op, Err);
    AbsorbKeepsSynced(l, op, Err);
    AbsorbKeepsSynced(l1, op, Err);
  }

  lemma AbsorbKeepsSynced(l: Loop, op: Op, rollback: Reply)
    ensures l.Absorb(op, rollback).oracle.synced == l.oracle.synced
  {
    var o := l.oracle;
    NotesKeepSynced(o, op.table, o.Matching(op.table, PredicateOf(op)));
    assert Doubted(o, op).synced == o.synced;
    assert o.Abandon().synced == o.synced && o.Rollback().synced == o.synced;
  }

  lemma NotesKeepSynced(o: State, t: string, ids: set<U64>)
    ensures o.NoteUnchecked(t, ids).synced == o.synced && o.NoteIndeterminate(t).synced == o.synced
  {}

  /** What a quiet run leaves as it was. */
  ghost predicate Quiet(e: Engine, l: Loop, e': Engine, l': Loop) {
    && l'.verdict.ok && l'.faultsOn && Sim(e', l'.oracle, l'.txnOpen) && (!l.txnOpen ==> !l'.txnOpen)
    && e'.committed == e.committed && l'.oracle.tables == l.oracle.tables && l'.oracle.synced == l.oracle.synced
  }

  /** A run of nothing but errors. */
  lemma {:induction false} QuietRun(e: Engine, l: Loop, ops: seq<Op>) returns (es: seq<Engine>, answers: seq<Answers>)
    requires l.faultsOn && l.verdict.ok && Sim(e, l.oracle, l.txnOpen)
    ensures |answers| == |ops| && EngineRun(es, l, ops, answers) && es[0] == e
    ensures Quiet(e, l, es[|ops|], RunOps(l, ops, answers))
    decreases |ops|
  {
    if ops == [] {
      es, answers := [e], [];
    } else {
      var ans, e' := QuietCall(e, l, ops[0]);
      QuietStep(l, ops[0], ans);
      StepKeeps(e, l, ops[0], ans, e');
      StepFaults(l, ops[0], ans);
      var es', answers' := QuietRun(e', l.Step(ops[0], ans), ops[1..]);
      RunFirst(e, l, ops, ans, es', answers');
      es, answers := [e] + es', [ans] + answers';
    }
  }

  /** A run that fails a check, or leaves the oracle a relation the engine lost. */
  ghost predicate Caught(es: seq<Engine>, l: Loop, ops: seq<Op>, answers: seq<Answers>, t: string) {
    && |answers| == |ops| && EngineRun(es, l, ops, answers)
    && (RunOps(l, ops, answers).verdict.ok ==> Lost(es[|ops|], RunOps(l, ops, answers), t))
  }

  lemma CaughtFirst(e: Engine, l: Loop, ops: seq<Op>, ans: Answers, es: seq<Engine>, answers: seq<Answers>, t: string)
    requires ops != [] && l.verdict.ok && l.faultsOn
    requires |es| == |ops| && EngineCalls(e, Calls(l, ops[0], ans), es[0])
    requires Caught(es, l.Step(ops[0], ans), ops[1..], answers, t)
    ensures Caught([e] + es, l, ops, [ans] + answers, t)
  {
    RunFirst(e, l, ops, ans, es, answers);
  }

  /** An answered statement inside a transaction: a CREATE TABLE there is the oracle's at
      once, and not yet the engine's. */
  lemma TxnStep(e: Engine, l: Loop, op: Op, n: nat, m: nat) returns (ans: Answers, e': Engine)
    requires l.faultsOn && Sim(e, l.oracle, l.txnOpen) && l.txnOpen && e.txn.working.Keys == e.committed.Keys
    requires if op.kind.CreateTable? then op.table !in e.committed else Continues(op, e.committed.Keys)
    requires UsedBelow(e, n) && n < U64_LIMIT && m == n + 1
    ensures EngineCalls(e, Calls(l, op, ans), e') && UsedBelow(e', m) && !Alarms(true, op, ans.first)
    ensures e'.committed == e.committed && e'.txn.Open?
    ensures if op.kind.CreateTable? then Lost(e', l.Step(op, ans), op.table)
            else e'.txn.working.Keys == e.committed.Keys
  {
    ans := AnswerCall(e, l, op, n, m);
    e' := Reached(e, op, n);
    TxnReached(e, op, n);
    if op.kind.CreateTable? { CreateHolds(l, op, ans); }
  }

  lemma TxnReached(e: Engine, op: Op, n: U64)
    requires e.txn.Open? && e.txn.working.Keys == e.committed.Keys
    requires if op.kind.CreateTable? then op.table !in e.committed else Continues(op, e.committed.Keys)
    ensures var e' := Reached(e, op, n);
            && e'.committed == e.committed && e'.txn.Open?
            && (!op.kind.CreateTable? ==> e'.txn.working.Keys == e.committed.Keys)
  {}

  lemma CreateHolds(l: Loop, op: Op, ans: Answers)
    requires op.kind.CreateTable? && ans.first.Created?
    ensures op.table in l.Step(op, ans).oracle.tables
  {}

  /** Inside a transaction: everything is answered up to the CREATE TABLE, nothing after. */
  lemma {:induction false} TxnRun(e: Engine, l: Loop, ops: seq<Op>, created: set<string>, n: nat)
    returns (es: seq<Engine>, answers: seq<Answers>, t: string)
    requires l.faultsOn && l.verdict.ok && Sim(e, l.oracle, l.txnOpen) && l.txnOpen
    requires e.committed.Keys == created == e.txn.working.Keys
    requires UsedBelow(e, n) && n + |ops| <= U64_LIMIT && !NoCreate(ops, created)
    ensures Caught(es, l, ops, answers, t) && es[0] == e
    decreases |ops|
  {
    var op := ops[0];
    t := op.table;
    if op.kind.CreateTable? && t in created {
      var ans := ExistsCall(e, l, op);
      es, answers := FailingRun(e, l, ops, ans, e);
    } else {
      var ans, e' := TxnStep(e, l, op, n, n + 1);
      StepKeeps(e, l, op, ans, e');
      StepFaults(l, op, ans);
      var es', answers';
      if op.kind.CreateTable? {
        es', answers' := QuietRun(e', l.Step(op, ans), ops[1..]);
      } else {
        es', answers', t := TxnRun(e', l.Step(op, ans), ops[1..], created, n + 1);
      }
      CaughtFirst(e, l, ops, ans, es', answers', t);
      es, answers := [e] + es', [ans] + answers';
    }
  }

  /** An answered BEGIN. */
  lemma BeginStep(e: Engine, l: Loop, op: Op, n: nat, m: nat) returns (ans: Answers, e': Engine)
    requires l.faultsOn && Sim(e, l.oracle, l.txnOpen) && !l.txnOpen && op.kind.Begin?
    requires UsedBelow(e, n) && n < U64_LIMIT && m == n + 1
    ensures EngineCalls(e, Calls(l, op, ans), e') && UsedBelow(e', m)
    ensures e'.txn == Open(e.committed) && e'.committed == e.committed
    ensures l.Step(op, ans).txnOpen && !Alarms(true, op, ans.first)
  {
    ans := AnswerCall(e, l, op, n, m);
    e' := Reached(e, op, n);
  }

  /** A CREATE TABLE of a new relation that is answered, or anything else that errs. */
  lemma CreateOrErr(e: Engine, l: Loop, op: Op, n: nat, m: nat) returns (ans: Answers, e': Engine)
    requires l.faultsOn && Sim(e, l.oracle, l.txnOpen) && !l.txnOpen
    requires op.kind.CreateTable? ==> op.table !in e.committed
    requires UsedBelow(e, n) && n < U64_LIMIT && m == n + 1
    ensures EngineCalls(e, Calls(l, op, ans), e') && UsedBelow(e', m)
    ensures e'.committed.Keys == CreatedBy(op, e.committed.Keys)
    ensures !l.Step(op, ans).txnOpen && !Alarms(true, op, ans.first)
  {
    if op.kind.CreateTable? {
      ans := AnswerCall(e, l, op, n, m);
      e' := Reached(e, op, n);
    } else {
      ans, e' := QuietCall(e, l, op);
      QuietStep(l, op, ans);
    }
  }

  /** Outside one: CREATE TABLEs are answered, and the BEGIN a CREATE TABLE can follow;
      everything else errs. */
  lemma {:induction false} CreatesRun(e: Engine, l: Loop, ops: seq<Op>, created: set<string>, n: nat)
    returns (es: seq<Engine>, answers: seq<Answers>, t: string)
    requires l.faultsOn && l.verdict.ok && Sim(e, l.oracle, l.txnOpen) && !l.txnOpen
    requires e.committed.Keys == created
    requires UsedBelow(e, n) && n + |ops| <= U64_LIMIT && !StreamOk(ops, created)
    ensures Caught(es, l, ops, answers, t) && es[0] == e
    decreases |ops|
  {
    var op := ops[0];
    t := op.table;
    if op.kind.CreateTable? && t in created {
      var ans := ExistsCall(e, l, op);
      es, answers := FailingRun(e, l, ops, ans, e);
    } else {
      var begins := op.kind.Begin? && !NoCreate(ops[1..], created);
      var ans, e', es', answers';
      if begins { ans, e' := BeginStep(e, l, op, n, n + 1); } else { ans, e' := CreateOrErr(e, l, op, n, n + 1); }
      StepKeeps(e, l, op, ans, e');
      StepFaults(l, op, ans);
      if begins {
        es', answers', t := TxnRun(e', l.Step(op, ans), ops[1..], created, n + 1);
      } else {
        es', answers', t := CreatesRun(e', l.Step(op, ans), ops[1..], CreatedBy(op, created), n + 1);
      }
      CaughtFirst(e, l, ops, ans, es', answers', t);
      es, answers := [e] + es', [ans] + answers';
    }
  }

  // ---- Ends ----------------------------------------------------------------------------------------

  function ClosedEngine(r: Rules, e: Engine, l: Loop): Engine {
    if r.Closes() && l.txnOpen then Engine(e.committed, NoTxn, false, e.used, e.declared) else e
  }

  /** The scans of an engine that lost these relations. */
  function ScansOf(e: Engine, o: State, gone: set<string>): map<string, Reply> {
    map t | t in o.tables :: if t in e.committed && t !in gone then ListingOf(e.committed[t], e.committed[t].Keys) else Err
  }

  /** An end on which nothing errs that need not, but for the relations the restart lost. */
  function EndOf(r: Rules, e: Engine, l: Loop, gone: set<string>): End {
    var closed := ClosedEngine(r, e, l);
    End(RolledBack, ScansOf(closed, l.oracle, {}), Synced, [], ScansOf(closed, l.oracle, gone))
  }

  lemma ScansListed(e: Engine, o: State, gone: set<string>, t: string)
    requires t in o.tables && t in e.committed && t !in gone
    ensures var reply := ScansOf(e, o, gone)[t]; reply.Lines? && IsListing(reply.rows, e.committed[t], e.committed[t].Keys)
  {
    ListsAll(e.committed[t], e.committed[t].Keys);
  }

  lemma ScansDone(e: Engine, o: State)
    ensures Scanned(e, o, ScansOf(e, o, {}))
  {
    forall t | t in o.tables && t in e.committed
      ensures var reply := ScansOf(e, o, {})[t]; reply.Lines? && IsListing(reply.rows, e.committed[t], e.committed[t].Keys)
    {
      ScansListed(e, o, {}, t);
    }
  }

  lemma ScanRestarts(r: Rules, e: Engine, o: State, image: Image, gone: set<string>, t: string)
    requires gone == {} || r.mode.Crash?
    requires t in o.tables && (t in gone ==> t !in image.covered)
    ensures Restarts(r, e, image, t, ScansOf(e, o, gone)[t])
  {
    if t in e.committed && t !in gone {
      ScansListed(e, o, gone, t);
      assert Recovered(e.committed[t], RowsIn(image.rows, t), r.OwesAll(), e.committed[t]);
    }
  }

  lemma EndIsPlausible(r: Rules, e: Engine, image: Image, l: Loop, gone: set<string>)
    requires gone == {} || r.mode.Crash?
    requires forall t :: t in gone ==> t !in image.covered
    ensures Plausible(r, e, image, l, EndOf(r, e, l, gone), ClosedEngine(r, e, l))
  {
    var closed, end := ClosedEngine(r, e, l), EndOf(r, e, l, gone);
    CloseKeepsTables(l, RolledBack);
    assert l.oracle.tables == l.Close(RolledBack).oracle.tables;
    assert ScansOf(closed, l.Close(RolledBack).oracle, {}) == end.scans;
    ScansDone(closed, l.Close(RolledBack).oracle);
    forall t | t in l.oracle.tables
      ensures t in end.replies && Restarts(r, closed, Marked(r, closed, image, end), t, end.replies[t])
    {
      ScanRestarts(r, closed, l.oracle, Marked(r, closed, image, end), gone, t);
    }
  }

  // ---- Exactly the allowed streams -----------------------------------------------------------------

  /** No check fails, however the iteration ends: it passes, or nothing was created. */
  ghost predicate Unfailed(r: Rules, e: Engine, image: Image, l: Loop) {
    && l.verdict.ok
    && forall end, closed :: Plausible(r, e, image, l, end, closed) ==>
         Scans(r, l, end) && (LostSchema(r, l) || Agrees(r, l, end))
  }

  /** No engine that keeps its promises fails a check on these operations. */
  ghost predicate NeverAlarms(r: Rules, ops: seq<Op>) {
    forall es, answers :: RunFrom(r, es, ops, answers) ==>
      Unfailed(r, es[|ops|], ImageOf(BARE, es, ops, answers), RunOps(Start(r.faultsOn), ops, answers))
  }

  lemma AllowedPasses(r: Rules, ops: seq<Op>)
    requires Allowed(r, ops)
    ensures NeverAlarms(r, ops)
  {
    forall es, answers | RunFrom(r, es, ops, answers)
      ensures Unfailed(r, es[|ops|], ImageOf(BARE, es, ops, answers), RunOps(Start(r.faultsOn), ops, answers))
    {
      AllowedBears(r, es, ops, answers);
      BearingUnfailed(r, es[|ops|], ImageOf(BARE, es, ops, answers), RunOps(Start(r.faultsOn), ops, answers));
    }
  }

  lemma BearingUnfailed(r: Rules, e: Engine, image: Image, l: Loop)
    requires l.verdict.ok && Sim(e, l.oracle, l.txnOpen) && Bears(r, e, image, l.oracle)
    ensures Unfailed(r, e, image, l)
  {
    forall end, closed | Plausible(r, e, image, l, end, closed) ensures Scans(r, l, end) && Agrees(r, l, end) {
      EndAgrees(r, e, image, l, end, closed);
    }
  }

  /** A relation the engine lost is missed by the probe, ... */
  lemma LostProbed(r: Rules, e: Engine, image: Image, l: Loop, t: string, end: End, closed: Engine)
    requires r.faultsOn && Lost(e, l, t) && closed.committed == e.committed
    requires Plausible(r, e, image, l, end, closed) && Scans(r, l, end)
    ensures !LostSchema(r, l) && !Agrees(r, l, end)
  {
    CloseKeepsTables(l, end.rollback);
    ProbeFires(closed, l.Close(end.rollback).oracle, end.scans, t);
  }

  /** ... by a clean restart, and by one after a SYNC. */
  lemma LostRestarted(r: Rules, l: Loop, end: End, t: string)
    requires !r.faultsOn && !r.mode.Crash? && t in l.oracle.tables && Scans(r, l, end)
    requires end.sync.Synced? && end.replies[t].Err?
    ensures !Agrees(r, l, end)
  {
    CloseKeepsTables(l, end.rollback);
    assert !Restored(Stopped(r, l, end).oracle, r.mode, r.assertRecovery, t, end.replies[t]);
  }

  lemma LostFires(r: Rules, e: Engine, image: Image, l: Loop, t: string)
    requires Lost(e, l, t) && (r.faultsOn || !r.mode.Crash?)
    ensures !Unfailed(r, e, image, l)
  {
    var closed, end := ClosedEngine(r, e, l), EndOf(r, e, l, {});
    EndIsPlausible(r, e, image, l, {});
    if r.faultsOn {
      LostProbed(r, e, image, l, t, end, closed);
    } else {
      LostRestarted(r, l, end, t);
    }
  }

  /** One the last SYNC saw is missed after any crash. */
  lemma UnsyncedFires(r: Rules, e: Engine, image: Image, l: Loop, t: string)
    requires !r.faultsOn && r.mode.Crash? && t in l.oracle.synced && t in l.oracle.tables
    requires t !in e.committed || t !in image.covered
    ensures !Unfailed(r, e, image, l)
  {
    var gone := if t in image.covered then {} else {t};
    var end := EndOf(r, e, l, gone);
    EndIsPlausible(r, e, image, l, gone);
    assert !Restored(Stopped(r, l, end).oracle, r.mode, r.assertRecovery, t, end.replies[t]);
  }

  /** A stream that makes a relation and does not keep it. */
  lemma UnkeptRun(r: Rules, ops: seq<Op>)
    requires |ops| < U64_LIMIT && !r.faultsOn && CatalogOk(ops, BLANK) && !Keeps(r.mode, ops)
    ensures !NeverAlarms(r, ops)
  {
    SimStart();
    var es, answers := AnsweredRun(FRESH, Start(false), ops, BLANK, 0);
    OffRunKeeps(es, Start(false), ops, answers, BARE, BLANK, {}, {}, {});
    var e, image, l := es[|ops|], ImageOf(BARE, es, ops, answers), RunOps(Start(false), ops, answers);
    assert RunFrom(r, es, ops, answers);
    if r.mode.Crash? {
      var t :| t in SyncedBy(ops, {}, {}) && t !in CoveredBy(ops, BLANK, {}) * Final(ops, BLANK).names;
      UnsyncedFires(r, e, image, l, t);
    } else {
      var t :| t in Made(ops, {}) && t !in Final(ops, BLANK).names;
      LostFires(r, e, image, l, t);
    }
  }

  lemma FaultyRun(r: Rules, ops: seq<Op>)
    requires |ops| < U64_LIMIT && r.faultsOn && !StreamOk(ops, {})
    ensures !NeverAlarms(r, ops)
  {
    SimStart();
    var es, answers, t := CreatesRun(FRESH, Start(true), ops, {}, 0);
    assert RunFrom(r, es, ops, answers);
    var l := RunOps(Start(true), ops, answers);
    if l.verdict.ok { LostFires(r, es[|ops|], ImageOf(BARE, es, ops, answers), l, t); }
  }

  lemma UncataloguedRun(r: Rules, ops: seq<Op>)
    requires |ops| < U64_LIMIT && !r.faultsOn && !CatalogOk(ops, BLANK)
    ensures !NeverAlarms(r, ops)
  {
    SimStart();
    var es, answers := RefusedRun(FRESH, Start(false), ops, BLANK, 0);
    assert RunFrom(r, es, ops, answers);
  }

  /** **The condition is exact**, for every mode and gate: no engine that keeps its promises
      can be failed by a check on exactly the allowed streams. (A stream is a vector: its
      length is 64 bits wide.) */
  lemma NeverAlarmsExactly(r: Rules, ops: seq<Op>)
    requires |ops| < U64_LIMIT
    ensures NeverAlarms(r, ops) <==> Allowed(r, ops)
  {
    if Allowed(r, ops) { AllowedPasses(r, ops); }
    else if r.faultsOn { FaultyRun(r, ops); }
    else if CatalogOk(ops, BLANK) { UnkeptRun(r, ops); }
    else { UncataloguedRun(r, ops); }
  }

  // ---- Whether anything was created ------------------------------------------------------------------

  predicate Creates(ops: seq<Op>) {
    exists k :: 0 <= k < |ops| && ops[k].kind.CreateTable?
  }

  /** With faults on every stream may lose its every CREATE TABLE: all of it may err. */
  lemma SchemaMayBeLost(r: Rules, ops: seq<Op>) returns (es: seq<Engine>, answers: seq<Answers>)
    requires r.faultsOn
    ensures RunFrom(r, es, ops, answers)
    ensures var l := RunOps(Start(true), ops, answers); l.verdict.ok && LostSchema(r, l)
  {
    SimStart();
    es, answers := QuietRun(FRESH, Start(true), ops);
  }

  /** The iteration passes whatever the engine does. */
  ghost predicate NeverFails(r: Rules, ops: seq<Op>) {
    forall es, answers :: RunFrom(r, es, ops, answers) ==>
      AlwaysSucceeds(r, es[|ops|], ImageOf(BARE, es, ops, answers), RunOps(Start(r.faultsOn), ops, answers))
  }

  ghost predicate AlwaysSucceeds(r: Rules, e: Engine, image: Image, l: Loop) {
    && l.verdict.ok
    && forall end, closed :: Plausible(r, e, image, l, end, closed) ==> Scans(r, l, end) && Succeeds(r, l, end)
  }

  /** **The guard counted in**: an iteration passes on every engine that keeps its promises
      exactly without faults and over an allowed stream. */
  lemma NeverFailsExactly(r: Rules, ops: seq<Op>)
    requires |ops| < U64_LIMIT
    ensures NeverFails(r, ops) <==> !r.faultsOn && Allowed(r, ops)
  {
    NeverAlarmsExactly(r, ops);
    if NeverFails(r, ops) {
      forall es, answers | RunFrom(r, es, ops, answers)
        ensures Unfailed(r, es[|ops|], ImageOf(BARE, es, ops, answers), RunOps(Start(r.faultsOn), ops, answers))
      {
        assert AlwaysSucceeds(r, es[|ops|], ImageOf(BARE, es, ops, answers), RunOps(Start(r.faultsOn), ops, answers));
      }
      if r.faultsOn { LostIterationFails(r, ops); }
    }
    if !r.faultsOn && NeverAlarms(r, ops) {
      forall es, answers | RunFrom(r, es, ops, answers)
        ensures AlwaysSucceeds(r, es[|ops|], ImageOf(BARE, es, ops, answers), RunOps(Start(r.faultsOn), ops, answers))
      {
        assert Unfailed(r, es[|ops|], ImageOf(BARE, es, ops, answers), RunOps(Start(r.faultsOn), ops, answers));
      }
    }
  }

  lemma LostIterationFails(r: Rules, ops: seq<Op>)
    requires r.faultsOn
    ensures !NeverFails(r, ops)
  {
    var es, answers := SchemaMayBeLost(r, ops);
    var e, image, l := es[|ops|], ImageOf(BARE, es, ops, answers), RunOps(Start(true), ops, answers);
    EndIsPlausible(r, e, image, l, {});
    assert !Succeeds(r, l, EndOf(r, e, l, {}));
    assert !AlwaysSucceeds(r, e, image, l);
  }

  /** Some engine lets the iteration pass. */
  ghost predicate CanPass(r: Rules, ops: seq<Op>) {
    exists es, answers, end, closed ::
      && RunFrom(r, es, ops, answers)
      && Plausible(r, es[|ops|], ImageOf(BARE, es, ops, answers), RunOps(Start(r.faultsOn), ops, answers), end, closed)
      && Scans(r, RunOps(Start(r.faultsOn), ops, answers), end)
      && Succeeds(r, RunOps(Start(r.faultsOn), ops, answers), end)
  }

  lemma {:induction false} NothingCreated(ops: seq<Op>, created: set<string>)
    requires !Creates(ops)
    ensures StreamOk(ops, created) && NoCreate(ops, created) && Made(ops, created) == created
    decreases |ops|
  {
    if ops != [] {
      assert !ops[0].kind.CreateTable?;
      assert forall k :: 0 <= k < |ops[1..]| ==> ops[1..][k] == ops[k + 1];
      NothingCreated(ops[1..], created);
    }
  }

  /** With faults on a stream that creates nothing always fails, and by the guard alone. */
  lemma UncreatedFails(r: Rules, es: seq<Engine>, ops: seq<Op>, answers: seq<Answers>)
    requires r.faultsOn && !Creates(ops) && RunFrom(r, es, ops, answers)
    ensures var l := RunOps(Start(true), ops, answers); l.verdict.ok && LostSchema(r, l)
  {
    NothingCreated(ops, {});
    NoFalseAlarm(es, ops, answers);
  }

  /** A CREATE TABLE answered by an engine that holds nothing. */
  lemma FirstCreate(e: Engine, l: Loop, op: Op) returns (ans: Answers, e': Engine)
    requires l.faultsOn && Sim(e, l.oracle, l.txnOpen) && !l.txnOpen && op.kind.CreateTable?
    requires e.committed == map[] && l.oracle.tables == map[]
    ensures EngineCalls(e, Calls(l, op, ans), e') && !Alarms(true, op, ans.first)
    ensures var l' := l.Step(op, ans);
            && !l'.txnOpen && l'.oracle.tables.Keys == {op.table} == e'.committed.Keys
            && l'.oracle.synced == l.oracle.synced
  {
    ans, e' := Answers(Created, Err, Err), Written(e, op.table, map[]);
    assert Calls(l, op, ans) == [Call(Send(op), Created)];
    CallOnce(e, Call(Send(op), Created), e');
  }

  /** A run in which nothing but the first CREATE TABLE is answered. */
  lemma {:induction false} FirstCreateRun(e: Engine, l: Loop, ops: seq<Op>) returns (es: seq<Engine>, answers: seq<Answers>)
    requires l.faultsOn && l.verdict.ok && Sim(e, l.oracle, l.txnOpen) && !l.txnOpen && Creates(ops)
    requires e.committed == map[] && l.oracle.tables == map[]
    ensures |answers| == |ops| && EngineRun(es, l, ops, answers) && es[0] == e
    ensures var e', l' := es[|ops|], RunOps(l, ops, answers);
            && l'.verdict.ok && Sim(e', l'.oracle, l'.txnOpen) && !l'.txnOpen
            && l'.oracle.tables != map[] && l'.oracle.tables.Keys == e'.committed.Keys
            && l'.oracle.synced == l.oracle.synced
    decreases |ops|
  {
    var op, ans, e', es', answers' := ops[0], Answers(Err, Err, Err), e, [], [];
    if op.kind.CreateTable? {
      ans, e' := FirstCreate(e, l, op);
    } else {
      ans, e' := QuietCall(e, l, op);
      QuietStep(l, op, ans);
    }
    StepKeeps(e, l, op, ans, e');
    StepFaults(l, op, ans);
    if op.kind.CreateTable? {
      es', answers' := QuietRun(e', l.Step(op, ans), ops[1..]);
    } else {
      LaterCreates(ops);
      es', answers' := FirstCreateRun(e', l.Step(op, ans), ops[1..]);
    }
    RunFirst(e, l, ops, ans, es', answers');
    es, answers := [e] + es', [ans] + answers';
  }

  lemma LaterCreates(ops: seq<Op>)
    requires Creates(ops) && !ops[0].kind.CreateTable?
    ensures Creates(ops[1..])
  {
    var k :| 0 <= k < |ops| && ops[k].kind.CreateTable?;
    assert ops[1..][k - 1] == ops[k];
  }

  lemma CreatedPasses(r: Rules, ops: seq<Op>)
    requires r.faultsOn && Creates(ops)
    ensures CanPass(r, ops)
  {
    SimStart();
    var es, answers := FirstCreateRun(FRESH, Start(true), ops);
    var e, image, l := es[|ops|], ImageOf(BARE, es, ops, answers), RunOps(Start(true), ops, answers);
    assert RunFrom(r, es, ops, answers);
    CreatedSucceeds(r, e, image, l, EndOf(r, e, l, {}), ClosedEngine(r, e, l));
  }

  lemma CreatedSucceeds(r: Rules, e: Engine, image: Image, l: Loop, end: End, closed: Engine)
    requires r.faultsOn && l.verdict.ok && Sim(e, l.oracle, l.txnOpen) && !l.txnOpen
    requires l.oracle.tables != map[] && l.oracle.tables.Keys == e.committed.Keys && l.oracle.synced == map[]
    requires end == EndOf(r, e, l, {}) && closed == ClosedEngine(r, e, l)
    ensures Plausible(r, e, image, l, end, closed) && Scans(r, l, end) && Succeeds(r, l, end)
  {
    CreatedBears(r, e, image, l.oracle, l.txnOpen);
    EndIsPlausible(r, e, image, l, {});
    EndAgrees(r, e, image, l, end, closed);
  }

  lemma CreatedBears(r: Rules, e: Engine, image: Image, o: State, open: bool)
    requires r.faultsOn && Sim(e, o, open) && !open && o.tables.Keys == e.committed.Keys && o.synced == map[]
    ensures Bears(r, e, image, o)
  {}

  /** **With faults on an iteration can pass exactly when its stream creates a relation**;
      one that does may still lose it (SchemaMayBeLost), one that does not never passes. */
  lemma CanPassExactly(r: Rules, ops: seq<Op>)
    requires r.faultsOn
    ensures CanPass(r, ops) <==> Creates(ops)
  {
    if Creates(ops) {
      CreatedPasses(r, ops);
    } else if CanPass(r, ops) {
      var es, answers, end, closed :|
        && RunFrom(r, es, ops, answers)
        && Plausible(r, es[|ops|], ImageOf(BARE, es, ops, answers), RunOps(Start(r.faultsOn), ops, answers), end, closed)
        && Scans(r, RunOps(Start(r.faultsOn), ops, answers), end)
        && Succeeds(r, RunOps(Start(r.faultsOn), ops, answers), end);
      UncreatedFails(r, es, ops, answers);
    }
  }

  // ---- The smallest streams that alarm ---------------------------------------------------------------

  lemma FaultsTwo(a: Op, b: Op)
    ensures StreamOk([a, b], {}) <==>
              && (b.kind.CreateTable? ==> b.table !in CreatedBy(a, {}))
              && !(a.kind.Begin? && b.kind.CreateTable?)
  {
    assert [a, b][1..] == [b] && [b][1..] == [];
    assert NoCreate([b], {}) == !b.kind.CreateTable?;
    assert StreamOk([b], CreatedBy(a, {})) == (b.kind.CreateTable? ==> b.table !in CreatedBy(a, {}));
  }

  lemma CatalogTwo(a: Op, b: Op, c: Catalog)
    ensures CatalogOk([a, b], c) <==> Accepted(a, c) && Accepted(b, Recorded(a, c))
    ensures Final([a, b], c) == Recorded(b, Recorded(a, c))
  {
    assert [a, b][1..] == [b] && [b][1..] == [];
    assert CatalogOk([b], Recorded(a, c)) == Accepted(b, Recorded(a, c));
    assert Final([b], Recorded(a, c)) == Recorded(b, Recorded(a, c));
  }

  lemma MadeTwo(a: Op, b: Op, made: set<string>)
    ensures Made([a, b], made) == CreatedBy(b, CreatedBy(a, made))
  {
    assert [a, b][1..] == [b] && [b][1..] == [];
    assert Made([b], CreatedBy(a, made)) == CreatedBy(b, CreatedBy(a, made));
  }

  lemma SyncedTwo(a: Op, b: Op, made: set<string>)
    ensures SyncedBy([a, b], made, {}) ==
            if b.kind.Sync? then CreatedBy(a, made) else if a.kind.Sync? then made else {}
  {
    assert [a, b][1..] == [b] && [b][1..] == [];
    var synced := if a.kind.Sync? then made else {};
    assert SyncedBy([b], CreatedBy(a, made), synced) == if b.kind.Sync? then CreatedBy(a, made) else synced;
  }

  /** A relation created inside a transaction is the oracle's at once and the engine's only
      at COMMIT. One that is not committed alarms, but for a crash without faults that no
      SYNC went before; ... */
  lemma UncommittedCreateAlarms(r: Rules, begin: Op, create: Op)
    requires begin.kind.Begin? && create.kind.CreateTable?
    ensures NeverAlarms(r, [begin, create]) <==> !r.faultsOn && r.mode.Crash?
  {
    FaultsTwo(begin, create);
    MadeTwo(begin, create, {});
    SyncedTwo(begin, create, {});
    CatalogTwo(begin, create, BLANK);
    NeverAlarmsExactly(r, [begin, create]);
  }

  /** ... and one that is committed alarms exactly where something may fail. */
  lemma CreateInTransactionAlarms(r: Rules, begin: Op, create: Op, commit: Op)
    requires begin.kind.Begin? && create.kind.CreateTable? && commit.kind.Commit?
    ensures NeverAlarms(r, [begin, create, commit]) <==> !r.faultsOn
  {
    CommittedCreateAllowed(r, begin, create, commit, [begin, create, commit]);
    NeverAlarmsExactly(r, [begin, create, commit]);
  }

  lemma CommittedCreateAllowed(r: Rules, begin: Op, create: Op, commit: Op, ops: seq<Op>)
    requires begin.kind.Begin? && create.kind.CreateTable? && commit.kind.Commit? && ops == [begin, create, commit]
    ensures Allowed(r, ops) <==> !r.faultsOn
  {
    assert ops[1..] == [create, commit];
    CatalogTwo(create, commit, Recorded(begin, BLANK));
    MadeTwo(create, commit, {});
    SyncedTwo(create, commit, {});
    assert !NoCreate([create, commit], {});
  }

  /** Being kept is not enough for a plain crash: a relation rolled back, SYNCed in that state
      and made again is not covered, and the oracle takes it to be. */
  lemma RecreatedAlarms(r: Rules, begin: Op, create: Op, rollback: Op, sync: Op)
    requires begin.kind.Begin? && create.kind.CreateTable? && rollback.kind.Rollback? && sync.kind.Sync?
    ensures NeverAlarms(r, [begin, create, rollback, sync, create]) <==> !r.faultsOn && !r.mode.Crash?
  {
    var ops := [begin, create, rollback, sync, create];
    RecreatedAllowed(begin, create, rollback, sync, ops, create.table);
    NeverAlarmsExactly(r, ops);
  }

  lemma RecreatedAllowed(begin: Op, create: Op, rollback: Op, sync: Op, ops: seq<Op>, t: string)
    requires begin.kind.Begin? && create.kind.CreateTable? && rollback.kind.Rollback? && sync.kind.Sync?
    requires ops == [begin, create, rollback, sync, create] && t == create.table
    ensures !StreamOk(ops, {}) && CatalogOk(ops, BLANK)
    ensures Made(ops, {}) == Final(ops, BLANK).names == SyncedBy(ops, {}, {}) == {t} && CoveredBy(ops, BLANK, {}) == {}
  {
    var rest := [rollback, sync, create];
    assert ops[1..] == [create] + rest && ([create] + rest)[1..] == rest;
    var c1 := Recorded(begin, BLANK);
    var c2 := Recorded(create, c1);
    var none: set<string> := {};
    assert none + {t} == {t} && none * {t} == none;
    RecreatedRest(create, rollback, sync, rest, t, c2);
    assert !NoCreate([create] + rest, {});
    assert CatalogOk([create] + rest, c1) && Final([create] + rest, c1) == Final(rest, c2);
    assert Made([create] + rest, {}) == Made(rest, {t});
    assert SyncedBy([create] + rest, {}, {}) == SyncedBy(rest, {t}, {});
    assert CoveredBy([create] + rest, c1, {}) == CoveredBy(rest, c2, {});
  }

  lemma RecreatedRest(create: Op, rollback: Op, sync: Op, rest: seq<Op>, t: string, c: Catalog)
    requires create.kind.CreateTable? && rollback.kind.Rollback? && sync.kind.Sync? && t == create.table
    requires rest == [rollback, sync, create] && c == Catalog({}, Some({t}), {})
    ensures CatalogOk(rest, c) && Final(rest, c).names == {t} && Made(rest, {t}) == {t}
    ensures SyncedBy(rest, {t}, {}) == {t} && CoveredBy(rest, c, {}) == {}
  {
    assert rest[1..] == [sync, create];
    CatalogTwo(sync, create, BLANK);
    MadeTwo(sync, create, {t});
    SyncedTwo(sync, create, {t});
    CoveredTwo(sync, create, BLANK);
  }

  lemma CoveredTwo(sync: Op, b: Op, c: Catalog)
    requires sync.kind.Sync? && !b.kind.Sync?
    ensures CoveredBy([sync, b], c, {}) == c.View() * Recorded(b, c).View()
  {
    assert [sync, b][1..] == [b] && [b][1..] == [];
    assert CoveredBy([b], c, c.View()) == c.View() * Recorded(b, c).View();
  }

  /** A second CREATE TABLE of one relation alarms under all rules. */
  lemma SecondCreateAlarms(r: Rules, first: Op, second: Op)
    requires first.kind.CreateTable? && second.kind.CreateTable? && first.table == second.table
    ensures !NeverAlarms(r, [first, second])
  {
    FaultsTwo(first, second);
    CatalogTwo(first, second, BLANK);
    NeverAlarmsExactly(r, [first, second]);
  }

  /** Taking an operation away can make an alarm: a BEGIN and its end raise none; with faults
      on they fail as nothing was created, and never otherwise. */
  lemma BracketedEndPasses(r: Rules, begin: Op, end: Op)
    requires begin.kind.Begin? && IsEnd(end.kind)
    ensures NeverAlarms(r, [begin, end])
    ensures if r.faultsOn then !CanPass(r, [begin, end]) else NeverFails(r, [begin, end])
  {
    BracketAllowed(r, begin, end);
    NeverAlarmsExactly(r, [begin, end]);
    NeverFailsExactly(r, [begin, end]);
    if r.faultsOn { CanPassExactly(r, [begin, end]); }
  }

  lemma BracketAllowed(r: Rules, begin: Op, end: Op)
    requires begin.kind.Begin? && IsEnd(end.kind)
    ensures Allowed(r, [begin, end]) && !Creates([begin, end])
  {
    FaultsTwo(begin, end);
    CatalogTwo(begin, end, BLANK);
    MadeTwo(begin, end, {});
    SyncedTwo(begin, end, {});
  }

  /** The end alone raises one without faults; with them it fails as nothing was created,
      and by nothing else. */
  lemma StrayEndAlarms(r: Rules, end: Op)
    requires IsEnd(end.kind)
    ensures NeverAlarms(r, [end]) <==> r.faultsOn
    ensures r.faultsOn ==> !CanPass(r, [end])
  {
    assert [end][1..] == [] && !Accepted(end, BLANK);
    assert StreamOk([end], {});
    NeverAlarmsExactly(r, [end]);
    if r.faultsOn { CanPassExactly(r, [end]); }
  }
}
