/** sim/loop.cpp's verdict loop: what one operation and the engine's answers to it
    do to the oracle, the transaction flag and the verdict. The engine is not here:
    its answers come in as `Answers`, so every claim about the loop is a claim about
    every engine and every pattern of injected errors. */
module Loop {
  import opened Text
  import opened Ops
  import opened OracleModel
  import opened Wire
  import opened ReadCheck

  datatype Verdict = Verdict(
    ok: bool, opsRun: nat, readsChecked: nat, writesChecked: nat, transactions: nat,
    erroredOps: nat, readsSkipped: nat, countsSkipped: nat, opsOnLost: nat,
    gatedMissing: nat, lostTables: nat)

  const CLEAN: Verdict := Verdict(true, 0, 0, 0, 0, 0, 0, 0, 0, 0, 0)

  /** The replies to the statements one operation can make the loop send: the
      operation itself, its one retry, and a ROLLBACK. */
  datatype Answers = Answers(first: Reply, retry: Reply, rollback: Reply)

  /** What a comparison lets through, whatever order the rows came in. */
  ghost predicate Passes(reply: Reply, expected: seq<string>, o: State, table: string) {
    !reply.Err? && Accepts(o, table, expected, RowsOf(reply))
  }

  /** What an error outside a transaction makes unknown: an INSERT may have left a row
      nobody named, an UPDATE or DELETE may have hit any row it matches. */
  function Doubted(o: State, op: Op): State {
    if op.kind.Insert? then o.NoteIndeterminate(op.table)
    else if op.kind.Update? || op.kind.Delete? then
      o.NoteUnchecked(op.table, o.Matching(op.table, PredicateOf(op)))
    else o
  }

  function AssignmentOf(op: Op): Assignment {
    Assignment(op.setName, op.v, op.name)
  }

  datatype Loop = Loop(oracle: State, verdict: Verdict, txnOpen: bool, faultsOn: bool) {

    ghost function Failed(): Loop {
      this.(verdict := verdict.(ok := false))
    }

    ghost function Ran(): Loop {
      this.(verdict := verdict.(opsRun := verdict.opsRun + 1))
    }

    /** CloseOpenTransaction: the client that stops mid-transaction rolls back. */
    ghost function Close(rollback: Reply): Loop {
      if !txnOpen then this
      else this.(txnOpen := false, oracle := if rollback.Err? then oracle.Abandon() else oracle.Rollback())
    }

    ghost function CountErrored(op: Op): Loop {
      this.(verdict := verdict.(
        erroredOps := verdict.erroredOps + 1,
        opsOnLost := verdict.opsOnLost + (if op.table != "" && !oracle.HasTable(op.table) then 1 else 0)))
    }

    /** AbsorbError: nothing is applied, and what becomes unknown depends on where
        the error landed. */
    ghost function Absorb(op: Op, rollback: Reply): Loop {
      var l := CountErrored(op);
      if op.kind.Commit? || op.kind.Rollback? then
        if txnOpen then l.(oracle := oracle.Abandon(), txnOpen := false) else l
      else if txnOpen then l.Close(rollback)
      else l.(oracle := Doubted(oracle, op))
    }

    /** CheckCount, after the oracle has applied the mutation. */
    ghost function CheckCount(op: Op, reported: nat, expected: nat): Loop {
      if !oracle.CountCheckable(op.table, PredicateOf(op)) then
        this.(verdict := verdict.(countsSkipped := verdict.countsSkipped + 1)).Ran()
      else if reported != expected then Failed()
      else this.(verdict := verdict.(writesChecked := verdict.writesChecked + 1)).Ran()
    }

    ghost function CheckRead(op: Op, reply: Reply, q: Query): Loop {
      if faultsOn && !oracle.HasTable(op.table) then
        this.(verdict := verdict.(readsSkipped := verdict.readsSkipped + 1)).Ran()
      else AfterRead(Passes(reply, oracle.Expect(op.table, q), oracle, op.table))
    }

    ghost function AfterRead(agrees: bool): Loop {
      if agrees then this.(verdict := verdict.(readsChecked := verdict.readsChecked + 1)).Ran() else Failed()
    }

    ghost function JudgeInsert(op: Op, reply: Reply): Loop {
      if reply.Inserted?
      then this.(oracle := oracle.ApplyInsert(op.table, reply.id, Row(op.v, op.name))).Ran()
      else Failed()
    }

    ghost function JudgeUpdate(op: Op, reply: Reply): Loop {
      var l := this.(oracle := oracle.ApplyUpdate(op.table, PredicateOf(op), AssignmentOf(op)));
      if reply.Updated?
      then l.CheckCount(op, reply.count, |oracle.Matching(op.table, PredicateOf(op))|)
      else l.Failed()
    }

    ghost function JudgeDelete(op: Op, reply: Reply): Loop {
      var l := this.(oracle := oracle.ApplyDelete(op.table, PredicateOf(op)));
      if reply.Deleted?
      then l.CheckCount(op, reply.count, |oracle.Matching(op.table, PredicateOf(op))|)
      else l.Failed()
    }

    /** BEGIN, COMMIT and ROLLBACK. */
    ghost function JudgeTxn(op: Op, reply: Reply): Loop {
      if op.kind.Begin? && reply.Begun? then this.(oracle := oracle.Begin(), txnOpen := true).Ran()
      else if op.kind.Commit? && reply.Committed? then this.(oracle := oracle.Commit()).Ended()
      else if op.kind.Rollback? && reply.RolledBack? then this.(oracle := oracle.Rollback()).Ended()
      else Failed()
    }

    /** CREATE TABLE, the advisory declarations, and SYNC. */
    ghost function JudgeOther(op: Op, reply: Reply): Loop {
      if op.kind.CreateTable? && reply.Created? then this.(oracle := oracle.CreateTable(op.table)).Ran()
      else if op.kind.Sync? && reply.Synced? then this.(oracle := oracle.MarkSynced()).Ran()
      else if (op.kind.CreateCabin? || op.kind.CreatePattern?) && (reply.Created? || reply.Adopted?) then Ran()
      else Failed()
    }

    /** The reply to an operation that was not absorbed. */
    ghost function Judge(op: Op, reply: Reply): Loop {
      match op.kind
      case Insert => JudgeInsert(op, reply)
      case Update => JudgeUpdate(op, reply)
      case Delete => JudgeDelete(op, reply)
      case Begin | Commit | Rollback => JudgeTxn(op, reply)
      case SelectPk => CheckRead(op, reply, ByPk(op.key))
      case SelectRange => CheckRead(op, reply, InRange(op.lo, op.hi))
      case FilterScan => CheckRead(op, reply, ByValue(op.v))
      case CreateTable | CreateCabin | CreatePattern | Sync => JudgeOther(op, reply)
    }

    ghost function Ended(): Loop {
      this.(txnOpen := false, verdict := verdict.(transactions := verdict.transactions + 1)).Ran()
    }

    ghost function Settle(op: Op, reply: Reply, rollback: Reply): Loop {
      if reply.Err? && faultsOn then Absorb(op, rollback).Ran() else Judge(op, reply)
    }

    /** Whether the operation is sent a second time. */
    ghost predicate Retries(op: Op, ans: Answers) {
      ans.first.Err? && faultsOn && op.kind.CreateTable?
    }

    /** ExecuteOp. */
    ghost function Step(op: Op, ans: Answers): Loop {
      if Retries(op, ans) then
        var l := this.(verdict := verdict.(erroredOps := verdict.erroredOps + 1));
        if ans.retry.Exists? then l.(oracle := oracle.CreateTable(op.table)).Ran()
        else l.Settle(op, ans.retry, ans.rollback)
      else Settle(op, ans.first, ans.rollback)
    }
  }

  function Start(faultsOn: bool): Loop {
    Loop(EMPTY, CLEAN, false, faultsOn)
  }

  /** The operations of a plan, one after another, until one fails. */
  ghost function RunOps(l: Loop, ops: seq<Op>, answers: seq<Answers>): Loop
    requires |ops| == |answers|
    decreases |ops|
  {
    if ops == [] || !l.verdict.ok then l
    else RunOps(l.Step(ops[0], answers[0]), ops[1..], answers[1..])
  }

  /** The quiescence probe: every relation the oracle knows scans and agrees. */
  ghost predicate ProbeAgrees(o: State, scans: map<string, Reply>)
    requires o.tables.Keys <= scans.Keys
  {
    forall table :: table in o.tables ==>
      Passes(scans[table], o.ExpectIn(o.tables, table, Everything), o, table)
  }

  lemma PointExpectsOne(o: State, table: string, key: U64)
    ensures |o.Expect(table, ByPk(key))| <= 1
  {
    var rows := RowsIn(o.Live(), table);
    var picked := SelectedIds(rows, ByPk(key)) - IdsIn(o.unchecked, table);
    assert picked <= {key};
    assert picked == {} || picked == {key};
  }

  // ---- The object -------------------------------------------------------------

  class Iteration {
    const oracle: Oracle
    const faultsOn: bool
    var verdict: Verdict
    var txnOpen: bool

    function Value(): Loop
      reads this, oracle
    {
      Loop(oracle.Value(), verdict, txnOpen, faultsOn)
    }

    constructor (faultsOn: bool)
      ensures fresh(oracle) && Value() == Start(faultsOn)
    {
      oracle := new Oracle();
      this.faultsOn := faultsOn;
      verdict, txnOpen := CLEAN, false;
    }

    method CloseOpenTransaction(rollback: Reply)
      modifies this`txnOpen, oracle
      ensures Value() == old(Value()).Close(rollback)
    {
      if !txnOpen { return; }
      txnOpen := false;
      if rollback.Err? { oracle.Abandon(); } else { oracle.Rollback(); }
    }

    /** The switch at the end of AbsorbError. */
    method NoteDoubt(op: Op)
      modifies oracle
      ensures oracle.Value() == Doubted(old(oracle.Value()), op)
    {
      if op.kind.Insert? {
        oracle.NoteIndeterminate(op.table);
      } else if op.kind.Update? || op.kind.Delete? {
        var ids := oracle.Matching(op.table, PredicateOf(op));
        IdsBack(oracle.Value().Matching(op.table, PredicateOf(op)));
        oracle.NoteAll(op.table, Elements(ids));
      }
    }

    method CountErrored(op: Op)
      modifies this`verdict
      ensures Value() == old(Value()).CountErrored(op)
    {
      verdict := verdict.(erroredOps := verdict.erroredOps + 1);
      if op.table != "" && op.table !in oracle.tables {
        verdict := verdict.(opsOnLost := verdict.opsOnLost + 1);
      }
    }

    method AbsorbError(op: Op, rollback: Reply)
      modifies this, oracle
      ensures Value() == old(Value()).Absorb(op, rollback)
    {
      CountErrored(op);
      if op.kind.Commit? || op.kind.Rollback? {
        if txnOpen {
          oracle.Abandon();
          txnOpen := false;
        }
        return;
      }
      if txnOpen {
        CloseOpenTransaction(rollback);
        return;
      }
      NoteDoubt(op);
    }

    method CheckCount(op: Op, reported: nat, expected: nat) returns (ok: bool)
      modifies this`verdict
      ensures Value() == old(Value()).CheckCount(op, reported, expected)
      ensures ok ==> verdict.ok == old(verdict.ok)
      ensures !ok ==> !verdict.ok
    {
      if !oracle.Value().CountCheckable(op.table, PredicateOf(op)) {
        verdict := verdict.(countsSkipped := verdict.countsSkipped + 1, opsRun := verdict.opsRun + 1);
        return true;
      }
      if reported != expected {
        verdict := verdict.(ok := false);
        return false;
      }
      verdict := verdict.(writesChecked := verdict.writesChecked + 1, opsRun := verdict.opsRun + 1);
      return true;
    }

    /** The expectation and the comparison of one read. */
    method Compare(o: State, table: string, reply: Reply, q: Query, ordered: bool) returns (agrees: bool)
      requires o == oracle.Value() && (ordered ==> q.ByPk?)
      ensures agrees <==> Passes(reply, o.Expect(table, q), o, table)
    {
      var expected := oracle.Expect(o.Live(), table, q);
      if ordered { PointExpectsOne(o, table, q.key); }
      agrees := ReadAgrees(reply, expected, ordered, o, table);
    }

    method CheckRead(op: Op, reply: Reply, q: Query, ordered: bool) returns (ok: bool)
      requires ordered ==> q.ByPk?
      modifies this`verdict
      ensures Value() == old(Value()).CheckRead(op, reply, q)
      ensures ok ==> verdict.ok == old(verdict.ok)
      ensures !ok ==> !verdict.ok
    {
      if faultsOn && op.table !in oracle.tables {
        verdict := verdict.(readsSkipped := verdict.readsSkipped + 1, opsRun := verdict.opsRun + 1);
        return true;
      }
      var agrees := Compare(oracle.Value(), op.table, reply, q, ordered);
      ok := FinishRead(agrees);
    }

    method FinishRead(agrees: bool) returns (ok: bool)
      modifies this`verdict
      ensures Value() == old(Value()).AfterRead(agrees)
      ensures ok == agrees && (ok ==> verdict.ok == old(verdict.ok)) && (!ok ==> !verdict.ok)
    {
      verdict := if agrees then verdict.(readsChecked := verdict.readsChecked + 1, opsRun := verdict.opsRun + 1)
                 else verdict.(ok := false);
      return agrees;
    }

    method JudgeInsert(op: Op, reply: Reply) returns (ok: bool)
      modifies this, oracle
      ensures Value() == old(Value()).JudgeInsert(op, reply)
      ensures ok ==> verdict.ok == old(verdict.ok)
      ensures !ok ==> !verdict.ok
    {
      if reply.Inserted? {
        oracle.ApplyInsert(op.table, reply.id, Row(op.v, op.name));
        verdict := verdict.(opsRun := verdict.opsRun + 1);
        return true;
      }
      verdict := verdict.(ok := false);
      return false;
    }

    method JudgeUpdate(op: Op, reply: Reply) returns (ok: bool)
      modifies this, oracle
      ensures Value() == old(Value()).JudgeUpdate(op, reply)
      ensures ok ==> verdict.ok == old(verdict.ok)
      ensures !ok ==> !verdict.ok
    {
      var expected := oracle.ApplyUpdate(op.table, PredicateOf(op), AssignmentOf(op));
      if reply.Updated? {
        ok := CheckCount(op, reply.count, expected);
        return;
      }
      verdict := verdict.(ok := false);
      return false;
    }

    method JudgeDelete(op: Op, reply: Reply) returns (ok: bool)
      modifies this, oracle
      ensures Value() == old(Value()).JudgeDelete(op, reply)
      ensures ok ==> verdict.ok == old(verdict.ok)
      ensures !ok ==> !verdict.ok
    {
      var expected := oracle.ApplyDelete(op.table, PredicateOf(op));
      if reply.Deleted? {
        ok := CheckCount(op, reply.count, expected);
        return;
      }
      verdict := verdict.(ok := false);
      return false;
    }

    method JudgeMutation(op: Op, reply: Reply) returns (ok: bool)
      requires op.kind.Insert? || op.kind.Update? || op.kind.Delete?
      modifies this, oracle
      ensures Value() == old(Value()).Judge(op, reply)
      ensures ok ==> verdict.ok == old(verdict.ok)
      ensures !ok ==> !verdict.ok
    {
      match op.kind
      case Insert => ok := JudgeInsert(op, reply);
      case Update => ok := JudgeUpdate(op, reply);
      case Delete => ok := JudgeDelete(op, reply);
    }

    method JudgeTxn(op: Op, reply: Reply) returns (ok: bool)
      requires op.kind.Begin? || op.kind.Commit? || op.kind.Rollback?
      modifies this, oracle
      ensures Value() == old(Value()).Judge(op, reply)
      ensures ok ==> verdict.ok == old(verdict.ok)
      ensures !ok ==> !verdict.ok
    {
      if op.kind.Begin? && reply.Begun? {
        oracle.Begin();
        txnOpen := true;
        verdict := verdict.(opsRun := verdict.opsRun + 1);
        return true;
      }
      if op.kind.Commit? && reply.Committed? {
        oracle.Commit();
      } else if op.kind.Rollback? && reply.RolledBack? {
        oracle.Rollback();
      } else {
        verdict := verdict.(ok := false);
        return false;
      }
      txnOpen := false;
      verdict := verdict.(transactions := verdict.transactions + 1, opsRun := verdict.opsRun + 1);
      return true;
    }

    method JudgeOther(op: Op, reply: Reply) returns (ok: bool)
      requires op.kind.CreateTable? || op.kind.CreateCabin? || op.kind.CreatePattern? || op.kind.Sync?
      modifies this, oracle
      ensures Value() == old(Value()).Judge(op, reply)
      ensures ok ==> verdict.ok == old(verdict.ok)
      ensures !ok ==> !verdict.ok
    {
      if op.kind.CreateTable? && reply.Created? {
        oracle.CreateTable(op.table);
      } else if op.kind.Sync? && reply.Synced? {
        oracle.MarkSynced();
      } else if !((op.kind.CreateCabin? || op.kind.CreatePattern?) && (reply.Created? || reply.Adopted?)) {
        verdict := verdict.(ok := false);
        return false;
      }
      verdict := verdict.(opsRun := verdict.opsRun + 1);
      return true;
    }

    method JudgeRead(op: Op, reply: Reply) returns (ok: bool)
      requires op.kind.SelectPk? || op.kind.SelectRange? || op.kind.FilterScan?
      modifies this`verdict
      ensures Value() == old(Value()).Judge(op, reply)
      ensures ok ==> verdict.ok == old(verdict.ok)
      ensures !ok ==> !verdict.ok
    {
      match op.kind
      case SelectPk => ok := CheckRead(op, reply, ByPk(op.key), true);
      case SelectRange => ok := CheckRead(op, reply, InRange(op.lo, op.hi), false);
      case FilterScan => ok := CheckRead(op, reply, ByValue(op.v), false);
    }

    /** The switch of ExecuteOp. */
    method Judge(op: Op, reply: Reply) returns (ok: bool)
      modifies this, oracle
      ensures Value() == old(Value()).Judge(op, reply)
      ensures ok ==> verdict.ok == old(verdict.ok)
      ensures !ok ==> !verdict.ok
    {
      match op.kind
      case Insert | Update | Delete => ok := JudgeMutation(op, reply);
      case Begin | Commit | Rollback => ok := JudgeTxn(op, reply);
      case SelectPk | SelectRange | FilterScan => ok := JudgeRead(op, reply);
      case CreateTable | CreateCabin | CreatePattern | Sync => ok := JudgeOther(op, reply);
    }

    /** ExecuteOp from the reply that counts on. */
    method Settle(op: Op, reply: Reply, rollback: Reply) returns (ok: bool)
      modifies this, oracle
      ensures Value() == old(Value()).Settle(op, reply, rollback)
      ensures ok ==> verdict.ok == old(verdict.ok)
      ensures !ok ==> !verdict.ok
    {
      if reply.Err? && faultsOn {
        AbsorbError(op, rollback);
        verdict := verdict.(opsRun := verdict.opsRun + 1);
        return true;
      }
      ok := Judge(op, reply);
    }

    method ExecuteOp(op: Op, ans: Answers) returns (ok: bool)
      modifies this, oracle
      ensures Value() == old(Value()).Step(op, ans)
      ensures ok ==> verdict.ok == old(verdict.ok)
      ensures !ok ==> !verdict.ok
    {
      var reply := ans.first;
      if reply.Err? && faultsOn && op.kind.CreateTable? {
        verdict := verdict.(erroredOps := verdict.erroredOps + 1);
        reply := ans.retry;
        if reply.Exists? {
          oracle.CreateTable(op.table);
          verdict := verdict.(opsRun := verdict.opsRun + 1);
          return true;
        }
      }
      ok := Settle(op, reply, ans.rollback);
    }

    /** The operation loop of RunIteration. */
    method RunPlan(ops: seq<Op>, answers: seq<Answers>) returns (ok: bool)
      requires |ops| == |answers| && verdict.ok
      modifies this, oracle
      ensures Value() == RunOps(old(Value()), ops, answers)
      ensures ok == verdict.ok
    {
      ghost var start := Value();
      for i := 0 to |ops|
        invariant verdict.ok
        invariant RunOps(start, ops, answers) == RunOps(Value(), ops[i..], answers[i..])
      {
        assert ops[i..][1..] == ops[i + 1..] && answers[i..][1..] == answers[i + 1..];
        var op_ok := ExecuteOp(ops[i], answers[i]);
        if !op_ok { return false; }
      }
      return true;
    }
  }
}
