/** What it takes for a whole iteration to pass, whatever the engine and however it stops. */
module Verdicts {
  import opened Ops
  import opened OracleModel
  import opened Wire
  import opened Loop
  import opened EngineModel
  import opened NoFalseAlarms
  import opened Plans
  import opened Reconciliation
  import opened Finish
  import opened Iterations
  import opened Detection
  import opened Bookkeeping

  // ---- Whole iterations -------------------------------------------------------------------------

  /** What the restart has to give back of a relation. */
  ghost predicate Returned(o: State, clean: bool, owesAll: bool, t: string, reply: Reply) {
    var rows, synced, lines := RowsIn(o.tables, t), RowsIn(o.synced, t), RowsOf(reply);
    if reply.Err? then !clean && t !in o.synced
    else
      && (forall i, j :: 0 <= i < j < |lines| ==> lines[i] != lines[j])
      && (forall line :: line in lines && !Doubtful(o, t, IdOf(line)) ==> Renders(line, rows, rows.Keys))
      && (forall id :: id in rows && !Doubtful(o, t, id) && (owesAll || (id in synced && synced[id] == rows[id])) ==>
            Render(id, rows[id]) in lines)
  }

  lemma RestoredReturned(o: State, mode: Mode, assertRecovery: bool, t: string, reply: Reply)
    ensures Restored(o, mode, assertRecovery, t, reply) <==>
            Returned(o, mode.Clean?, mode.Clean? || assertRecovery, t, reply)
  {
    var rows, lines := RowsIn(o.tables, t), RowsOf(reply);
    forall line ensures Renders(line, rows, rows.Keys) <==> IdOf(line) in rows && line == Render(IdOf(line), rows[IdOf(line)]) {
      OccursRenders(rows.Keys, rows, line);
    }
  }

  /** The oracle the restart is held against: closed, and at a SYNC before the crash marked. */
  function AtStop(r: Rules, l: Loop, end: End): (stopped: State)
    ensures stopped.tables == l.oracle.tables
  {
    var o := if l.txnOpen && (r.faultsOn || r.mode.Clean?)
             then (if end.rollback.Err? then l.oracle.Abandon() else l.oracle.Rollback()) else l.oracle;
    if r.mode.SyncCrash? && end.sync.Synced? then o.(synced := o.tables) else o
  }

  /** What a scan before the stop has to list. */
  ghost predicate ScanRight(o: State, t: string, scan: Reply) {
    var rows := RowsIn(o.tables, t);
    !scan.Err? && RightLines(o, t, rows, rows.Keys, RowsOf(scan))
  }

  /** What has to be answered once the operations are over. */
  ghost predicate EndStands(r: Rules, o: State, end: End)
    requires (r.faultsOn ==> o.tables.Keys <= end.scans.Keys) && o.tables.Keys <= end.replies.Keys
  {
    && (r.faultsOn ==> o.tables != map[] && ScansRight(o, end.scans))
    && (r.mode.SyncCrash? ==> end.sync.Synced? || r.faultsOn)
    && (forall i :: 0 <= i < |end.chains| ==> end.chains[i].Sound())
    && AllReturned(o, r.mode.Clean?, r.mode.Clean? || r.assertRecovery, end.replies)
  }

  ghost predicate ScansRight(o: State, scans: map<string, Reply>)
    requires o.tables.Keys <= scans.Keys
  {
    forall t :: t in o.tables ==> ScanRight(o, t, scans[t])
  }

  ghost predicate AllReturned(o: State, clean: bool, owesAll: bool, replies: map<string, Reply>)
    requires o.tables.Keys <= replies.Keys
  {
    forall t :: t in o.tables ==> Returned(o, clean, owesAll, t, replies[t])
  }

  lemma ChainsJudged(chains: seq<Chain>)
    ensures AllClean(chains) <==> AllSound(chains)
  {
    if AllClean(chains) {
      forall i | 0 <= i < |chains| ensures chains[i].Sound() { CleanIsSound(chains, i); }
    } else if AllSound(chains) {
      SoundIsClean(chains);
    }
  }

  lemma ClosedRowsIssued(o: State)
    requires RowsIssued(o)
    ensures RowsIssued(o.Abandon()) && RowsIssued(o.Rollback())
  {
    MovedRowsIssued(o, o.Abandon());
    MovedRowsIssued(o, o.Rollback());
  }

  lemma ScanJudged(o: State, t: string, scan: Reply)
    requires RowsIssued(o) && t in o.tables
    ensures Passes(scan, o.ExpectIn(o.tables, t, Everything), o, t) <==> ScanRight(o, t, scan)
  {
    assert RowsIn(o.tables, t).Keys <= IdsIn(o.issued, t);
    assert SelectedIds(o.tables[t], Everything) == o.tables[t].Keys;
    ComparedExactly(o, t, o.tables[t], Everything, RowsOf(scan));
  }

  lemma ScansJudged(o: State, scans: map<string, Reply>)
    requires RowsIssued(o) && o.tables.Keys <= scans.Keys
    ensures ProbeAgrees(o, scans) <==> ScansRight(o, scans)
  {
    forall t | t in o.tables
      ensures Passes(scans[t], o.ExpectIn(o.tables, t, Everything), o, t) <==> ScanRight(o, t, scans[t])
    {
      ScanJudged(o, t, scans[t]);
    }
  }

  /** The snapshot plays no part in the probe. */
  lemma MarkedScans(o: State, o': State, scans: map<string, Reply>)
    requires o' == o.(synced := o'.synced) && o.tables.Keys <= scans.Keys
    ensures ScansRight(o, scans) <==> ScansRight(o', scans)
  {
    forall t | t in o.tables ensures ScanRight(o, t, scans[t]) <==> ScanRight(o', t, scans[t]) {
      assert forall id :: Doubtful(o, t, id) <==> Doubtful(o', t, id);
    }
  }

  lemma ProbeJudged(r: Rules, l: Loop, end: End, o: State)
    requires Scans(r, l, end) && r.faultsOn && RowsIssued(l.oracle) && l.txnOpen == l.oracle.inTxn && o == AtStop(r, l, end)
    ensures ProbePassed(r, l, end) <==> ScansRight(o, end.scans)
  {
    var closed := l.Close(end.rollback).oracle;
    CloseKeepsTables(l, end.rollback);
    ClosedRowsIssued(l.oracle);
    ScansJudged(closed, end.scans);
    MarkedScans(closed, o, end.scans);
  }

  lemma ReturnedAll(o: State, mode: Mode, assertRecovery: bool, replies: map<string, Reply>)
    requires o.tables.Keys <= replies.Keys
    ensures (forall t :: t in o.tables ==> Restored(o, mode, assertRecovery, t, replies[t])) <==>
            AllReturned(o, mode.Clean?, mode.Clean? || assertRecovery, replies)
  {
    forall t | t in o.tables
      ensures Restored(o, mode, assertRecovery, t, replies[t]) <==>
              Returned(o, mode.Clean?, mode.Clean? || assertRecovery, t, replies[t])
    {
      RestoredReturned(o, mode, assertRecovery, t, replies[t]);
    }
  }

  lemma StoppedAt(r: Rules, l: Loop, end: End)
    ensures Stopped(r, l, end).oracle == AtStop(r, l, end)
  {}

  lemma EndJudged(r: Rules, l: Loop, end: End, o: State)
    requires Scans(r, l, end) && RowsIssued(l.oracle) && l.txnOpen == l.oracle.inTxn && o == AtStop(r, l, end)
    ensures !LostSchema(r, l) && Finish.Agrees(r, l, end) <==> EndStands(r, o, end)
  {
    if r.faultsOn { ProbeJudged(r, l, end, o); }
    ChainsJudged(end.chains);
    StoppedAt(r, l, end);
    ReturnedAll(o, r.mode, r.assertRecovery, end.replies);
  }

  /** **An iteration passes exactly when everything it was answered is right**, whatever the
      engine and however it stops: every reply, the probe, the SYNC, the chains and what the
      restart gives back; and with faults on something was created. */
  lemma IterationJudged(r: Rules, ops: seq<Op>, answers: seq<Answers>, end: End)
    requires |ops| == |answers| && Scans(r, RunOps(Start(r.faultsOn), ops, answers), end)
    ensures var l := RunOps(Start(r.faultsOn), ops, answers);
            Succeeds(r, l, end) <==> AllStand(Start(r.faultsOn), ops, answers) && EndStands(r, AtStop(r, l, end), end)
  {
    var l := RunOps(Start(r.faultsOn), ops, answers);
    RunJudged(r.faultsOn, ops, answers);
    if l.verdict.ok {
      RunRowsIssued(Start(r.faultsOn), ops, answers);
      RunInTxn(Start(r.faultsOn), ops, answers);
      EndJudged(r, l, end, AtStop(r, l, end));
    }
  }
}
