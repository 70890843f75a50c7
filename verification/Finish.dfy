/** What follows the operations of one iteration (sim/loop.cpp's RunIteration): the guard
    against an empty schema, the quiescence probe, the stop, the integrity sweep and the
    reconciliation after the restart. What the instance answers comes in as `End`. */
module Finish {
  import opened OracleModel
  import opened Wire
  import opened ReadCheck
  import opened Loop
  import opened Plans
  import opened Reconciliation
  import Integrity

  /** Whether faults were armed, how the iteration stops, and the recovery gate. */
  datatype Rules = Rules(faultsOn: bool, mode: Mode, assertRecovery: bool) {
    /** The client that stops mid-transaction rolls back first. */
    predicate Closes() {
      faultsOn || mode.Clean?
    }

    /** Every acknowledged row is owed after the restart. */
    predicate OwesAll() {
      mode.Clean? || assertRecovery
    }
  }

  /** What the sweep is called with for one relation. */
  datatype Chain = Chain(calls: seq<Integrity.Call>, nextTrx: nat, walked: bool, root: nat) {
    /** The sweep finds nothing. */
    ghost predicate Clean() {
      Integrity.Swept(Integrity.Grouped(calls).Pages(), nextTrx, walked, root) == []
    }

    /** It ends, and its rows are sound and in order. */
    ghost predicate Sound() {
      var pages := Integrity.Grouped(calls).Pages();
      walked && Integrity.AllSound(pages, nextTrx) && Integrity.OrderedIds(pages)
    }
  }

  /** What the instance answers once the operations are over: the closing ROLLBACK, the
      scans of the probe, the SYNC before a crash, the chains the sweep walks and the scans
      after the restart. */
  datatype End = End(
    rollback: Reply, scans: map<string, Reply>, sync: Reply, chains: seq<Chain>, replies: map<string, Reply>)

  // ---- What the harness does --------------------------------------------------------------

  /** Nothing was created, so nothing was checked. */
  predicate LostSchema(r: Rules, l: Loop) {
    r.faultsOn && l.oracle.tables == map[]
  }

  /** The loop at the stop: closed, and marked by the SYNC before a crash. */
  ghost function Stopped(r: Rules, l: Loop, end: End): Loop {
    var closed := if r.Closes() then l.Close(end.rollback) else l;
    if r.mode.SyncCrash? && end.sync.Synced? then closed.(oracle := closed.oracle.MarkSynced()) else closed
  }

  /** Every relation the oracle holds is scanned, before the stop and after the restart. */
  predicate Scans(r: Rules, l: Loop, end: End) {
    (r.faultsOn ==> l.oracle.tables.Keys <= end.scans.Keys) && l.oracle.tables.Keys <= end.replies.Keys
  }

  ghost predicate ProbePassed(r: Rules, l: Loop, end: End)
    requires Scans(r, l, end)
  {
    CloseKeepsTables(l, end.rollback);
    r.faultsOn ==> ProbeAgrees(l.Close(end.rollback).oracle, end.scans)
  }

  lemma CloseKeepsTables(l: Loop, rollback: Reply)
    ensures l.Close(rollback).oracle.tables == l.oracle.tables && l.Close(rollback).verdict == l.verdict
  {}

  predicate SyncPassed(r: Rules, end: End) {
    r.mode.SyncCrash? && !end.sync.Synced? ==> r.faultsOn
  }

  ghost predicate AllClean(chains: seq<Chain>) {
    chains == [] || (AllClean(chains[..|chains| - 1]) && chains[|chains| - 1].Clean())
  }

  ghost predicate RestartPassed(r: Rules, l: Loop, end: End)
    requires Scans(r, l, end)
  {
    var o := Stopped(r, l, end).oracle;
    forall t :: t in l.oracle.tables ==> Restored(o, r.mode, r.assertRecovery, t, end.replies[t])
  }

  /** No check of the iteration's end fails. */
  ghost predicate Agrees(r: Rules, l: Loop, end: End)
    requires Scans(r, l, end)
  {
    ProbePassed(r, l, end) && SyncPassed(r, end) && AllClean(end.chains) && RestartPassed(r, l, end)
  }

  /** The iteration passes: no operation failed a check, something was created, and the end
      agrees. */
  ghost predicate Succeeds(r: Rules, l: Loop, end: End)
    requires Scans(r, l, end)
  {
    l.verdict.ok && !LostSchema(r, l) && Agrees(r, l, end)
  }

  /** The guard and the probe, given whether the scans agree: nothing without faults. */
  ghost function AfterProbe(r: Rules, l: Loop, rollback: Reply, agrees: bool): Loop {
    if !r.faultsOn then l
    else if LostSchema(r, l) then l.Failed()
    else Counted(l.Close(rollback), agrees)
  }

  ghost function Counted(l: Loop, agrees: bool): Loop {
    if agrees then l.(verdict := l.verdict.(readsChecked := l.verdict.readsChecked + |l.oracle.tables|))
    else l.Failed()
  }

  /** The stop, the sweep and the reconciliation. */
  ghost function AfterStop(r: Rules, l: Loop, end: End, names: seq<string>): Loop
    requires forall t :: t in names ==> t in end.replies
  {
    var stopped := Stopped(r, l, end);
    if !SyncPassed(r, end) || !AllClean(end.chains) then stopped.Failed()
    else
      var reports := Reports(stopped.oracle, r.mode, r.assertRecovery, names, end.replies);
      stopped.(verdict := Tally(stopped.verdict, reports))
  }

  /** RunIteration from the end of its operations on. */
  ghost function Finished(r: Rules, l: Loop, end: End, names: seq<string>): Loop
    requires Scans(r, l, end) && forall t :: t in names <==> t in l.oracle.tables
  {
    var probed := AfterProbe(r, l, end.rollback, ProbePassed(r, l, end));
    ProbedTables(r, l, end.rollback, ProbePassed(r, l, end));
    if probed.verdict.ok then AfterStop(r, probed, end, names) else probed
  }

  lemma ProbedTables(r: Rules, l: Loop, rollback: Reply, agrees: bool)
    ensures AfterProbe(r, l, rollback, agrees).oracle.tables == l.oracle.tables
  {
    CloseKeepsTables(l, rollback);
  }

  lemma ProbedOk(r: Rules, l: Loop, end: End, agrees: bool)
    requires l.verdict.ok && (!r.faultsOn ==> agrees)
    ensures var probed := AfterProbe(r, l, end.rollback, agrees);
            && (probed.verdict.ok <==> !LostSchema(r, l) && agrees)
            && (probed.verdict.ok ==> Stopped(r, probed, end).oracle == Stopped(r, l, end).oracle)
            && (probed.verdict.ok && r.faultsOn ==> !probed.txnOpen)
  {}

  lemma StoppedTables(r: Rules, l: Loop, end: End)
    ensures Stopped(r, l, end).oracle.tables == l.oracle.tables && Stopped(r, l, end).verdict == l.verdict
  {
    CloseKeepsTables(l, end.rollback);
    var closed := if r.Closes() then l.Close(end.rollback) else l;
    MarkKeepsTables(closed);
  }

  lemma MarkKeepsTables(l: Loop)
    ensures l.oracle.MarkSynced().tables == l.oracle.tables
  {}

  lemma StopOk(r: Rules, l: Loop, end: End, names: seq<string>, stopped: Loop)
    requires l.verdict.ok && l.oracle.tables.Keys <= end.replies.Keys
    requires (forall t :: t in names <==> t in l.oracle.tables) && stopped == Stopped(r, l, end)
    ensures AfterStop(r, l, end, names).verdict.ok <==>
              && SyncPassed(r, end) && AllClean(end.chains)
              && forall t :: t in l.oracle.tables ==> Restored(stopped.oracle, r.mode, r.assertRecovery, t, end.replies[t])
  {
    StoppedTables(r, l, end);
    ReconcileExact(stopped, r.mode, r.assertRecovery, names, end.replies);
  }

  /** The verdict it leaves is whether the iteration passes. */
  lemma FinishedOk(r: Rules, l: Loop, end: End, names: seq<string>)
    requires l.verdict.ok && Scans(r, l, end) && forall t :: t in names <==> t in l.oracle.tables
    ensures Finished(r, l, end, names).verdict.ok <==> Succeeds(r, l, end)
  {
    var agrees := ProbePassed(r, l, end);
    var probed := AfterProbe(r, l, end.rollback, agrees);
    ProbedOk(r, l, end, agrees);
    ProbedTables(r, l, end.rollback, agrees);
    if probed.verdict.ok { StopOk(r, probed, end, names, Stopped(r, probed, end)); }
  }

  lemma StopCounts(r: Rules, l: Loop, end: End, names: seq<string>, o: State, reports: seq<Report>)
    requires l.oracle.tables.Keys <= end.replies.Keys && forall t :: t in names <==> t in l.oracle.tables
    requires o == Stopped(r, l, end).oracle
    requires reports == Reports(o, r.mode, r.assertRecovery, names, end.replies)
    requires AfterStop(r, l, end, names).verdict.ok
    ensures AfterStop(r, l, end, names).verdict ==
            l.verdict.(gatedMissing := l.verdict.gatedMissing + TotalGated(reports),
                       lostTables := l.verdict.lostTables + TotalLost(reports))
  {
    StoppedTables(r, l, end);
    TallySums(Stopped(r, l, end).verdict, reports);
  }

  lemma ProbedCounts(r: Rules, l: Loop, end: End, agrees: bool)
    requires AfterProbe(r, l, end.rollback, agrees).verdict.ok && l.verdict.ok
    ensures AfterProbe(r, l, end.rollback, agrees).verdict ==
            l.verdict.(readsChecked := l.verdict.readsChecked + if r.faultsOn then |l.oracle.tables| else 0)
  {
    CloseKeepsTables(l, end.rollback);
  }

  lemma FinishedIs(r: Rules, l: Loop, end: End, names: seq<string>, probed: Loop)
    requires Scans(r, l, end) && (forall t :: t in names <==> t in l.oracle.tables)
    requires probed == AfterProbe(r, l, end.rollback, ProbePassed(r, l, end))
    requires l.verdict.ok && Finished(r, l, end, names).verdict.ok
    ensures probed.verdict.ok && probed.oracle.tables == l.oracle.tables
    ensures Finished(r, l, end, names) == AfterStop(r, probed, end, names)
  {
    ProbedTables(r, l, end.rollback, ProbePassed(r, l, end));
  }

  lemma AddedUp(v: Verdict, probed: Verdict, last: Verdict, scans: nat, reports: seq<Report>)
    requires probed == v.(readsChecked := v.readsChecked + scans)
    requires last == probed.(gatedMissing := probed.gatedMissing + TotalGated(reports),
                             lostTables := probed.lostTables + TotalLost(reports))
    ensures last == v.(readsChecked := v.readsChecked + scans, gatedMissing := v.gatedMissing + TotalGated(reports),
                       lostTables := v.lostTables + TotalLost(reports))
  {}

  lemma CountedUp(r: Rules, l: Loop, end: End, names: seq<string>, probed: Loop, agrees: bool, o: State, reports: seq<Report>)
    requires l.verdict.ok && (!r.faultsOn ==> agrees) && l.oracle.tables.Keys <= end.replies.Keys
    requires forall t :: t in names <==> t in l.oracle.tables
    requires probed == AfterProbe(r, l, end.rollback, agrees) && probed.verdict.ok && probed.oracle.tables == l.oracle.tables
    requires o == Stopped(r, l, end).oracle && reports == Reports(o, r.mode, r.assertRecovery, names, end.replies)
    requires AfterStop(r, probed, end, names).verdict.ok
    ensures AfterStop(r, probed, end, names).verdict ==
            l.verdict.(readsChecked := l.verdict.readsChecked + (if r.faultsOn then |l.oracle.tables| else 0),
                       gatedMissing := l.verdict.gatedMissing + TotalGated(reports),
                       lostTables := l.verdict.lostTables + TotalLost(reports))
  {
    ProbedOk(r, l, end, agrees);
    assert o == Stopped(r, probed, end).oracle;
    ProbedCounts(r, l, end, agrees);
    StopCounts(r, probed, end, names, o, reports);
    AddedUp(l.verdict, probed.verdict, AfterStop(r, probed, end, names).verdict,
            if r.faultsOn then |l.oracle.tables| else 0, reports);
  }

  /** What the end of a passing iteration adds to the verdict: a read checked for each
      relation probed, and what the restart was excused. */
  lemma FinishedCounts(r: Rules, l: Loop, end: End, names: seq<string>, o: State, reports: seq<Report>)
    requires Scans(r, l, end) && (forall t :: t in names <==> t in l.oracle.tables)
    requires o == Stopped(r, l, end).oracle && reports == Reports(o, r.mode, r.assertRecovery, names, end.replies)
    requires l.verdict.ok && Finished(r, l, end, names).verdict.ok
    ensures Finished(r, l, end, names).verdict ==
            l.verdict.(readsChecked := l.verdict.readsChecked + (if r.faultsOn then |l.oracle.tables| else 0),
                       gatedMissing := l.verdict.gatedMissing + TotalGated(reports),
                       lostTables := l.verdict.lostTables + TotalLost(reports))
  {
    var agrees := ProbePassed(r, l, end);
    var probed := AfterProbe(r, l, end.rollback, agrees);
    FinishedIs(r, l, end, names, probed);
    CountedUp(r, l, end, names, probed, agrees, o, reports);
  }

  // ---- The methods -------------------------------------------------------------------------

  /** The relations whose scans agree. */
  ghost function Passing(o: State, scans: map<string, Reply>): set<string>
    requires o.tables.Keys <= scans.Keys
  {
    set t | t in o.tables && Passes(scans[t], o.ExpectIn(o.tables, t, Everything), o, t)
  }

  lemma PassingAll(o: State, scans: map<string, Reply>, names: seq<string>)
    requires (forall t :: t in names <==> t in o.tables) && o.tables.Keys <= scans.Keys
    ensures (forall k :: 0 <= k < |names| ==> names[k] in Passing(o, scans)) <==> ProbeAgrees(o, scans)
  {
    var pass := Passing(o, scans);
    if forall k :: 0 <= k < |names| ==> names[k] in pass {
      forall t | t in o.tables ensures t in pass {
        var k :| 0 <= k < |names| && names[k] == t;
      }
    } else {
      var k :| 0 <= k < |names| && names[k] !in pass;
      assert names[k] in names;
    }
  }

  /** One relation's scan. */
  method ProbeScan(oracle: Oracle, ghost o: State, t: string, scans: map<string, Reply>, ghost pass: set<string>)
      returns (agrees: bool)
    requires o == oracle.Value() && t in o.tables && o.tables.Keys <= scans.Keys && pass == Passing(o, scans)
    ensures agrees <==> t in pass
  {
    var expected := oracle.Expect(oracle.tables, t, Everything);
    agrees := ReadAgrees(scans[t], expected, false, oracle.Value(), t);
  }

  /** ProbeQuiesced's scans, relation by relation. */
  method ProbeScans(oracle: Oracle, ghost o: State, names: seq<string>, scans: map<string, Reply>, ghost pass: set<string>)
      returns (agrees: bool)
    requires o == oracle.Value() && o.tables.Keys <= scans.Keys && pass == Passing(o, scans)
    requires forall k :: 0 <= k < |names| ==> names[k] in o.tables
    ensures agrees <==> forall k :: 0 <= k < |names| ==> names[k] in pass
  {
    for i := 0 to |names|
      invariant o == oracle.Value() && forall k :: 0 <= k < i ==> names[k] in pass
    {
      agrees := ProbeScan(oracle, o, names[i], scans, pass);
      if !agrees { return; }
    }
    return true;
  }

  /** The scans of all relations. */
  method Probe(oracle: Oracle, names: seq<string>, scans: map<string, Reply>) returns (agrees: bool)
    requires (forall t :: t in names <==> t in oracle.tables) && oracle.tables.Keys <= scans.Keys
    ensures agrees <==> ProbeAgrees(oracle.Value(), scans)
  {
    ghost var o := oracle.Value();
    PassingAll(o, scans, names);
    assert forall k :: 0 <= k < |names| ==> names[k] in names;
    agrees := ProbeScans(oracle, o, names, scans, Passing(o, scans));
  }

  method SweepChain(c: Chain) returns (clean: bool)
    ensures clean == c.Clean()
  {
    var found := Integrity.SweepTuples(c.calls, c.nextTrx, c.walked, c.root);
    return found == [];
  }

  /** CheckInstance's sweep of the relations' tuples. */
  method SweepChains(chains: seq<Chain>) returns (clean: bool)
    ensures clean == AllClean(chains)
  {
    clean := true;
    for i := 0 to |chains|
      invariant clean == AllClean(chains[..i])
    {
      var swept := SweepChain(chains[i]);
      assert chains[..i + 1][..i] == chains[..i];
      clean := clean && swept;
    }
    assert chains[..|chains|] == chains;
  }

  method Count(it: Iteration, agrees: bool)
    modifies it`verdict
    ensures it.Value() == Counted(old(it.Value()), agrees)
  {
    it.verdict := if agrees then it.verdict.(readsChecked := it.verdict.readsChecked + |it.oracle.tables|)
                  else it.verdict.(ok := false);
  }

  /** The guard and the probe. */
  method ProbeQuiesced(it: Iteration, r: Rules, end: End, names: seq<string>) returns (ghost agrees: bool)
    requires r.faultsOn && it.oracle.tables.Keys <= end.scans.Keys
    requires forall t :: t in names <==> t in it.oracle.tables
    modifies it, it.oracle
    ensures var l := old(it.Value());
            && it.Value() == AfterProbe(r, l, end.rollback, agrees)
            && l.Close(end.rollback).oracle.tables == l.oracle.tables
            && (l.oracle.tables != map[] ==> agrees == ProbeAgrees(l.Close(end.rollback).oracle, end.scans))
  {
    CloseKeepsTables(it.Value(), end.rollback);
    agrees := true;
    if it.oracle.tables == map[] {
      it.verdict := it.verdict.(ok := false);
      return;
    }
    it.CloseOpenTransaction(end.rollback);
    var same := Probe(it.oracle, names, end.scans);
    Count(it, same);
    agrees := same;
  }

  /** The mode switch: close before a clean stop, SYNC before a synced crash. */
  method Stop(it: Iteration, r: Rules, end: End) returns (ok: bool)
    requires r.faultsOn ==> !it.txnOpen
    modifies it, it.oracle
    ensures ok == SyncPassed(r, end) && it.verdict == old(it.verdict)
    ensures it.Value() == Stopped(r, old(it.Value()), end)
  {
    if r.mode.Clean? {
      it.CloseOpenTransaction(end.rollback);
    } else if r.mode.SyncCrash? && end.sync.Synced? {
      it.oracle.MarkSynced();
    }
    return !(r.mode.SyncCrash? && !end.sync.Synced? && !r.faultsOn);
  }

  /** The stop, the sweep and the reconciliation. */
  method StopAndRestart(it: Iteration, r: Rules, end: End, names: seq<string>)
    requires (r.faultsOn ==> !it.txnOpen) && it.oracle.tables.Keys <= end.replies.Keys
    requires forall t :: t in names <==> t in it.oracle.tables
    modifies it, it.oracle
    ensures it.Value() == AfterStop(r, old(it.Value()), end, names)
  {
    StoppedTables(r, it.Value(), end);
    var ok := Stop(it, r, end);
    if ok { ok := SweepChains(end.chains); }
    if !ok {
      it.verdict := it.verdict.(ok := false);
      return;
    }
    it.verdict := Reconcile(it.Value(), r.mode, r.assertRecovery, names, end.replies);
  }

  /** RunIteration once its operations are over; the shutdown and the reboot succeed. */
  method FinishIteration(it: Iteration, r: Rules, end: End, names: seq<string>) returns (ok: bool)
    requires it.verdict.ok && Scans(r, it.Value(), end)
    requires forall t :: t in names <==> t in it.oracle.tables
    modifies it, it.oracle
    ensures it.Value() == Finished(r, old(it.Value()), end, names)
    ensures ok <==> Succeeds(r, old(it.Value()), end)
  {
    ghost var l, agrees := it.Value(), true;
    FinishedOk(r, l, end, names);
    if r.faultsOn { agrees := ProbeQuiesced(it, r, end, names); }
    assert it.Value() == AfterProbe(r, l, end.rollback, ProbePassed(r, l, end));
    ProbedOk(r, l, end, ProbePassed(r, l, end));
    ProbedTables(r, l, end.rollback, ProbePassed(r, l, end));
    if it.verdict.ok { StopAndRestart(it, r, end, names); }
    return it.verdict.ok;
  }
}
