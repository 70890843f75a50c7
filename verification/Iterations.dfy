/** Whole iterations: what an engine that keeps its promises answers at the end of one, and
    that no check fails it there if the stream was one the harness may run. */
module Iterations {
  import opened Text
  import opened Ops
  import opened OracleModel
  import opened Wire
  import opened Loop
  import opened EngineModel
  import opened NoFalseAlarms
  import opened Plans
  import opened Reconciliation
  import opened WholeRuns
  import opened Finish
  import Integrity

  // ---- What the engine promises at the end ---------------------------------------------------

  /** The rows a restart brings back: all of them; or, where recovery is not asserted, at
      least those that stand as the last SYNC left them. */
  predicate Recovered(committed: Rows, synced: Rows, whole: bool, rows: Rows) {
    if whole then rows == committed
    else
      && rows.Keys <= committed.Keys && (forall id :: id in rows ==> rows[id] == committed[id])
      && (forall id :: id in committed && id in synced && synced[id] == committed[id] ==> id in rows)
  }

  /** A relation after the restart. Only a crash loses one, and only one no SYNC covers. */
  ghost predicate Restarts(r: Rules, e: Engine, image: Image, t: string, reply: Reply) {
    if reply.Err? then t !in e.committed || (r.mode != Clean && t !in image.covered)
    else
      && reply.Lines? && t in e.committed
      && exists rows ::
           Recovered(e.committed[t], RowsIn(image.rows, t), r.OwesAll(), rows) && IsListing(reply.rows, rows, rows.Keys)
  }

  ghost predicate AllSound(chains: seq<Chain>) {
    forall i :: 0 <= i < |chains| ==> chains[i].Sound()
  }

  /** The engine at the stop, after the client's ROLLBACK if it sends one. */
  ghost predicate ClosedAs(r: Rules, e: Engine, l: Loop, end: End, closed: Engine) {
    if r.Closes() then Closed(e, l, end.rollback, closed) else closed == e
  }

  /** The SYNC before a crash is answered, unless faults may still stand in its way. */
  predicate SyncAnswered(r: Rules, end: End) {
    r.mode.SyncCrash? ==> end.sync.Synced? || (r.faultsOn && end.sync.Err?)
  }

  function Marked(r: Rules, e: Engine, image: Image, end: End): Image {
    if r.mode.SyncCrash? && end.sync.Synced? then Image(e.View().Keys, e.committed) else image
  }

  /** An end an engine that keeps its promises may give the iteration. */
  ghost predicate Plausible(r: Rules, e: Engine, image: Image, l: Loop, end: End, closed: Engine) {
    && ClosedAs(r, e, l, end, closed)
    && (r.faultsOn ==> Scanned(closed, l.Close(end.rollback).oracle, end.scans))
    && SyncAnswered(r, end) && AllSound(end.chains)
    && (forall t :: t in l.oracle.tables ==>
          t in end.replies && Restarts(r, closed, Marked(r, closed, image, end), t, end.replies[t]))
  }

  // ---- A relation after the restart ------------------------------------------------------------

  lemma ListingNoRepeats(lines: seq<string>, rows: Rows)
    requires IsListing(lines, rows, rows.Keys)
    ensures NoRepeats(lines)
  {
    forall x ensures multiset(lines)[x] <= 1 {
      OccursRenders(rows.Keys, rows, x);
    }
    NoRepeatsCount(lines);
  }

  lemma ListedRow(rows: Rows, lines: seq<string>, line: string)
    requires IsListing(lines, rows, rows.Keys) && line in lines
    ensures IdOf(line) in rows && line == Render(IdOf(line), rows[IdOf(line)])
  {
    OccursRenders(rows.Keys, rows, line);
    assert multiset(lines)[line] > 0;
  }

  lemma RowListed(rows: Rows, lines: seq<string>, id: U64)
    requires IsListing(lines, rows, rows.Keys) && id in rows
    ensures Render(id, rows[id]) in lines
  {
    IdOfRender(id, rows[id]);
    assert Renders(Render(id, rows[id]), rows, rows.Keys);
    assert Render(id, rows[id]) in multiset(lines);
  }

  /** A listing of committed rows holds nothing the oracle does not. */
  lemma ListingHeld(o: State, used: IdSets, t: string, committed: Rows, rows: Rows, lines: seq<string>)
    requires TableOk(o, used, t, committed, RowsIn(o.tables, t)) && IsListing(lines, rows, rows.Keys)
    requires rows.Keys <= committed.Keys && forall id :: id in rows ==> rows[id] == committed[id]
    ensures LinesHeld(o, t, lines)
  {
    var oRows := RowsIn(o.tables, t);
    forall line | line in lines && !o.IgnorableId(t, IdOf(line))
      ensures IdOf(line) in oRows && line == Render(IdOf(line), oRows[IdOf(line)])
    {
      ListedRow(rows, lines, line);
      assert Same(committed, oRows, IdOf(line));
    }
  }

  /** ... and brings back what is owed. */
  lemma ListingBack(o: State, used: IdSets, t: string, committed: Rows, lines: seq<string>)
    requires TableOk(o, used, t, committed, RowsIn(o.tables, t)) && IsListing(lines, committed, committed.Keys)
    ensures RowsBack(o, t, lines)
  {
    var oRows := RowsIn(o.tables, t);
    forall id | id in oRows && !o.IgnorableId(t, id) ensures Render(id, oRows[id]) in lines {
      assert Same(committed, oRows, id);
      RowListed(committed, lines, id);
    }
  }

  lemma SyncedBack(o: State, used: IdSets, image: Image, t: string, committed: Rows, rows: Rows, lines: seq<string>)
    requires TableOk(o, used, t, committed, RowsIn(o.tables, t)) && RowsImaged(o, image)
    requires Recovered(committed, RowsIn(image.rows, t), false, rows) && IsListing(lines, rows, rows.Keys)
    ensures SyncedRowsBack(o, t, lines)
  {
    var oRows, synced := RowsIn(o.tables, t), RowsIn(o.synced, t);
    forall id | id in oRows && id in synced && synced[id] == oRows[id] && !o.IgnorableId(t, id)
      ensures Render(id, oRows[id]) in lines
    {
      assert Same(committed, oRows, id) && Same(RowsIn(image.rows, t), synced, id);
      RowListed(rows, lines, id);
    }
  }

  /** What the restart has to be held against: rows in step, and no relation owed that the
      engine may have lost. */
  ghost predicate Backed(r: Rules, e: Engine, image: Image, o: State) {
    && RowsImaged(o, image)
    && (if r.mode.Clean? then o.tables.Keys <= e.committed.Keys
        else o.synced.Keys <= image.covered && o.synced.Keys <= e.committed.Keys)
  }

  lemma RestartPasses(r: Rules, e: Engine, image: Image, o: State, open: bool, t: string, reply: Reply)
    requires Sim(e, o, open) && Backed(r, e, image, o) && t in o.tables && Restarts(r, e, image, t, reply)
    ensures Restored(o, r.mode, r.assertRecovery, t, reply)
  {
    if !reply.Err? {
      var rows :| Recovered(e.committed[t], RowsIn(image.rows, t), r.OwesAll(), rows) && IsListing(reply.rows, rows, rows.Keys);
      assert TableOk(o, e.used, t, RowsIn(e.committed, t), RowsIn(o.tables, t));
      ListingNoRepeats(reply.rows, rows);
      ListingHeld(o, e.used, t, e.committed[t], rows, reply.rows);
      if r.OwesAll() {
        ListingBack(o, e.used, t, e.committed[t], reply.rows);
      } else {
        SyncedBack(o, e.used, image, t, e.committed[t], rows, reply.rows);
      }
    }
  }

  // ---- The end of a run in step ------------------------------------------------------------------

  /** What a run leaves that its end will bear. */
  ghost predicate Bears(r: Rules, e: Engine, image: Image, o: State) {
    && RowsImaged(o, image) && SyncedWithin(o) && (!r.faultsOn ==> e.committed.Keys <= e.View().Keys)
    && (r.faultsOn || !r.mode.Crash? ==> o.tables.Keys <= e.committed.Keys)
    && (r.faultsOn ==> o.synced.Keys <= image.covered)
    && (!r.faultsOn && r.mode.Crash? ==> o.synced.Keys <= image.covered * e.committed.Keys)
  }

  lemma CloseAdvances(l: Loop, rollback: Reply)
    requires SyncedWithin(l.oracle)
    ensures Advances(l.oracle, l.Close(rollback).oracle) && SyncedWithin(l.Close(rollback).oracle)
  {
    AbandonAdvances(l.oracle);
  }

  /** Closing moves nothing the end is held against. */
  lemma ClosedBears(r: Rules, e: Engine, image: Image, l: Loop, end: End, closed: Engine)
    requires Sim(e, l.oracle, l.txnOpen) && Bears(r, e, image, l.oracle) && Closed(e, l, end.rollback, closed)
    ensures var o := l.Close(end.rollback).oracle;
            Sim(closed, o, false) && Bears(r, closed, image, o) && o.tables == l.oracle.tables
  {
    CloseKeeps(e, l, end.rollback, closed);
    CloseAdvances(l, end.rollback);
    RowsStayImaged(l.oracle, l.Close(end.rollback).oracle, image, image);
  }

  /** So does the SYNC before a crash. */
  lemma MarkedBacked(r: Rules, e: Engine, image: Image, l: Loop, end: End, open: bool)
    requires Sim(e, l.oracle, open) && Bears(r, e, image, l.oracle) && SyncAnswered(r, end)
    requires r.faultsOn ==> !open
    ensures var o := if r.mode.SyncCrash? && end.sync.Synced? then l.oracle.MarkSynced() else l.oracle;
            Sim(e, o, open) && Backed(r, e, Marked(r, e, image, end), o)
  {
    if r.mode.SyncCrash? && end.sync.Synced? {
      SyncImages(e, l.oracle, open, Marked(r, e, image, end));
      SyncedKeeps(e, l.oracle, open);
    }
  }

  lemma SyncedKeeps(e: Engine, o: State, open: bool)
    requires Sim(e, o, open)
    ensures Sim(e, o.MarkSynced(), open)
  {
    SameDoubt(o, o.MarkSynced(), e.used, e.used);
  }

  lemma ChainClean(c: Chain)
    ensures c.Clean() <==> c.Sound()
  {
    Integrity.CleanMeansSound(Integrity.Grouped(c.calls).Pages(), c.nextTrx, c.walked, c.root);
  }

  lemma {:induction false} SoundIsClean(chains: seq<Chain>)
    requires AllSound(chains)
    ensures AllClean(chains)
  {
    if chains != [] {
      assert chains[|chains| - 1].Sound();
      SoundIsClean(chains[..|chains| - 1]);
      ChainClean(chains[|chains| - 1]);
    }
  }

  lemma {:induction false} CleanIsSound(chains: seq<Chain>, i: nat)
    requires AllClean(chains) && i < |chains|
    ensures chains[i].Sound()
  {
    if i == |chains| - 1 {
      ChainClean(chains[i]);
    } else {
      CleanIsSound(chains[..|chains| - 1], i);
    }
  }

  /** Every end such a run may have agrees. */
  lemma EndAgrees(r: Rules, e: Engine, image: Image, l: Loop, end: End, closed: Engine)
    requires Sim(e, l.oracle, l.txnOpen) && Bears(r, e, image, l.oracle)
    requires Plausible(r, e, image, l, end, closed)
    ensures Scans(r, l, end) && Agrees(r, l, end)
  {
    var l' := if r.Closes() then l.Close(end.rollback) else l;
    var open := if r.Closes() then false else l.txnOpen;
    CloseKeepsTables(l, end.rollback);
    if r.Closes() { ClosedBears(r, e, image, l, end, closed); }
    if r.faultsOn { ProbePasses(closed, l'.oracle, end.scans); }
    MarkedBacked(r, closed, image, l', end, open);
    SoundIsClean(end.chains);
    var o := Stopped(r, l, end).oracle;
    forall t | t in l.oracle.tables ensures Restored(o, r.mode, r.assertRecovery, t, end.replies[t]) {
      RestartPasses(r, closed, Marked(r, closed, image, end), o, open, t, end.replies[t]);
    }
  }

  // ---- Whole iterations ----------------------------------------------------------------------------

  /** Without faults: every relation made is kept; before a crash no SYNC covers, those the
      last SYNC saw are. */
  predicate Keeps(mode: Mode, ops: seq<Op>) {
    var names := Final(ops, BLANK).names;
    if mode.Crash? then SyncedBy(ops, {}, {}) <= CoveredBy(ops, BLANK, {}) * names else Made(ops, {}) <= names
  }

  /** The streams a harness may run: with faults on, by where its CREATE TABLEs stand;
      without, by what the engine refuses, what a ROLLBACK takes back and how it stops. */
  predicate Allowed(r: Rules, ops: seq<Op>) {
    if r.faultsOn then StreamOk(ops, {}) else CatalogOk(ops, BLANK) && Keeps(r.mode, ops)
  }

  ghost predicate RunFrom(r: Rules, es: seq<Engine>, ops: seq<Op>, answers: seq<Answers>) {
    |answers| == |ops| && EngineRun(es, Start(r.faultsOn), ops, answers) && es[0] == FRESH
  }

  /** A run over an allowed stream fails no check and leaves what its end will bear. */
  lemma AllowedBears(r: Rules, es: seq<Engine>, ops: seq<Op>, answers: seq<Answers>)
    requires RunFrom(r, es, ops, answers) && Allowed(r, ops)
    ensures var l := RunOps(Start(r.faultsOn), ops, answers);
            && l.verdict.ok && Sim(es[|ops|], l.oracle, l.txnOpen)
            && Bears(r, es[|ops|], ImageOf(BARE, es, ops, answers), l.oracle)
  {
    SimStart();
    if r.faultsOn {
      NoFalseAlarm(es, ops, answers);
    } else {
      OffRunKeeps(es, Start(false), ops, answers, BARE, BLANK, {}, {}, {});
    }
  }

  /** **No false alarm in a whole iteration**: over an allowed stream no operation fails a
      check, and none of the probe, the sweep and the reconciliation does, however the
      iteration stops and with the recovery gate or without. It passes exactly when the
      oracle ends with a relation, or no faults were on. */
  lemma IterationPasses(r: Rules, es: seq<Engine>, ops: seq<Op>, answers: seq<Answers>, end: End, closed: Engine)
    requires RunFrom(r, es, ops, answers) && Allowed(r, ops)
    requires Plausible(r, es[|ops|], ImageOf(BARE, es, ops, answers), RunOps(Start(r.faultsOn), ops, answers), end, closed)
    ensures var l := RunOps(Start(r.faultsOn), ops, answers);
            && l.verdict.ok && Scans(r, l, end) && Agrees(r, l, end)
            && (Succeeds(r, l, end) <==> !LostSchema(r, l))
  {
    AllowedBears(r, es, ops, answers);
    EndAgrees(r, es[|ops|], ImageOf(BARE, es, ops, answers), RunOps(Start(r.faultsOn), ops, answers), end, closed);
  }
}
