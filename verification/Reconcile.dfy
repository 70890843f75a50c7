/** sim/loop.cpp's Reconcile: what a restarted instance returns, against what the
    oracle accepted, row by row and relation by relation. */
module Reconciliation {
  import opened Text
  import opened Ordering
  import opened Ops
  import opened OracleModel
  import opened Wire
  import opened Loop
  import opened Plans

  /** What one relation contributes to the verdict. */
  datatype Report = Report(failed: bool, gated: nat, lost: nat)

  // ---- The per-relation walk ----------------------------------------------------

  function RenderedRows(rows: Rows): set<string> {
    set id | id in rows :: Render(id, rows[id])
  }

  predicate NoRepeats(lines: seq<string>) {
    forall i, j :: 0 <= i < j < |lines| ==> lines[i] != lines[j]
  }

  /** Accepted rows nobody may do without that are not there. */
  ghost function Missing(o: State, t: string, accepted: set<string>, lines: seq<string>): set<string> {
    set row | row in accepted && row !in lines && !o.Ignorable(t, row)
  }

  /** Rows returned that were never accepted and nobody may excuse. */
  ghost predicate Fabricated(o: State, t: string, accepted: set<string>, lines: seq<string>) {
    exists row :: row in lines && row !in accepted && !o.Ignorable(t, row)
  }

  /** Rendered rows of the last SYNC that nothing superseded. */
  ghost function SyncedRows(o: State, t: string): set<string> {
    RenderedRows(RowsIn(o.synced, t)) * RenderedRows(RowsIn(o.tables, t))
  }

  /** What the walk over one relation reports. */
  ghost function TableReport(o: State, mode: Mode, assertRecovery: bool, t: string, reply: Reply): Report {
    if reply.Err? then
      if mode != Clean && t !in o.synced then Report(false, 0, 1) else Report(true, 0, 0)
    else LinesReport(o, mode.Clean? || assertRecovery, t, RowsOf(reply))
  }

  /** Adjacent equal rows after the sort. */
  method RepeatsInSorted(actual: seq<string>) returns (repeats: bool)
    requires IsSorted(actual)
    ensures repeats <==> !NoRepeats(actual)
  {
    repeats := false;
    var i := 1;
    while i < |actual|
      invariant 1 <= i
      invariant repeats ==> !NoRepeats(actual)
      invariant !repeats ==> forall k :: 0 < k < i && k < |actual| ==> actual[k] != actual[k - 1]
    {
      if actual[i] == actual[i - 1] { repeats := true; }
      i := i + 1;
    }
    if !repeats {
      forall i, j | 0 <= i < j < |actual| ensures actual[i] != actual[j] {
        SortedGap(actual, i, j);
      }
    }
  }

  lemma SortedGap(s: seq<string>, i: nat, j: nat)
    requires IsSorted(s) && i < j < |s|
    requires forall k :: 0 < k < |s| ==> s[k] != s[k - 1]
    ensures s[i] != s[j]
  {
    if s[i] == s[j] && i + 1 < j {
      assert Le(s[i], s[i + 1]) && Le(s[i + 1], s[j]);
      LeAntisymmetric(s[i], s[i + 1]);
    }
    assert s[i + 1] != s[(i + 1) - 1];
  }

  /** Having no repeats is a matter of the multiset alone. */
  lemma NoRepeatsCount(s: seq<string>)
    ensures NoRepeats(s) <==> forall x :: multiset(s)[x] <= 1
  {
    if NoRepeats(s) {
      forall x ensures multiset(s)[x] <= 1 { CountOnce(s, x); }
    } else {
      var i, j :| 0 <= i < j < |s| && s[i] == s[j];
      assert s == s[..j] + [s[j]] + s[j + 1..];
      assert s[..j][i] == s[i];
      assert s[i] in multiset(s[..j]);
      assert multiset(s)[s[i]] >= 2;
    }
  }

  lemma {:induction false} CountOnce(a: seq<string>, x: string)
    requires NoRepeats(a)
    ensures multiset(a)[x] <= 1
  {
    if a != [] {
      var front, last := a[..|a| - 1], a[|a| - 1];
      assert a == front + [last];
      CountOnce(front, x);
      assert forall k :: 0 <= k < |front| ==> front[k] == a[k] != last;
      assert last !in front;
    }
  }

  method AnyFabricated(o: State, t: string, accepted: set<string>, actual: seq<string>) returns (found: bool)
    ensures found <==> Fabricated(o, t, accepted, actual)
  {
    found := false;
    for i := 0 to |actual|
      invariant found <==> exists k :: 0 <= k < i && actual[k] !in accepted && !o.Ignorable(t, actual[k])
    {
      if actual[i] !in accepted && !o.Ignorable(t, actual[i]) { found := true; }
    }
  }

  /** The walk over the accepted rows: how many are gone that may not be. */
  method CountMissing(o: State, t: string, accepted: set<string>, actual: seq<string>, excused: set<string>)
    returns (missing: nat)
    ensures missing == |Missing(o, t, accepted, actual) - excused|
  {
    var todo := accepted;
    ghost var gone: set<string> := {};
    missing := 0;
    while todo != {}
      invariant todo <= accepted
      invariant gone == Missing(o, t, accepted - todo, actual) - excused
      invariant missing == |gone|
      decreases todo
    {
      var row :| row in todo;
      todo := todo - {row};
      assert row !in gone;
      if row !in actual && row !in excused && !o.Ignorable(t, row) {
        missing := missing + 1;
        gone := gone + {row};
      }
    }
    assert accepted - {} == accepted;
  }

  /** How the walk's findings add up: a lost synced row fails in every mode, any other
      missing row fails where it is owed and is counted where it is not. */
  ghost function ReportOf(demanded: bool, repeats: bool, fabricated: bool, missing: set<string>, synced: set<string>): Report {
    Report(repeats || fabricated || missing * synced != {} || (demanded && missing != {}),
           if demanded then 0 else |missing - synced|, 0)
  }

  /** What the walk over the lines of one relation reports. */
  ghost function LinesReport(o: State, demanded: bool, t: string, lines: seq<string>): Report {
    var accepted := RenderedRows(RowsIn(o.tables, t));
    ReportOf(demanded, !NoRepeats(lines), Fabricated(o, t, accepted, lines),
             Missing(o, t, accepted, lines), SyncedRows(o, t))
  }

  lemma SameLines(o: State, t: string, accepted: set<string>, lines: seq<string>, actual: seq<string>)
    requires multiset(lines) == multiset(actual)
    ensures NoRepeats(actual) <==> NoRepeats(lines)
    ensures Missing(o, t, accepted, actual) == Missing(o, t, accepted, lines)
    ensures Fabricated(o, t, accepted, actual) <==> Fabricated(o, t, accepted, lines)
  {
    NoRepeatsCount(lines);
    NoRepeatsCount(actual);
    assert forall row :: row in actual <==> row in multiset(lines);
    assert forall row :: row in lines <==> row in multiset(lines);
  }

  lemma MissingSplit(o: State, t: string, accepted: set<string>, synced: set<string>, lines: seq<string>)
    requires synced <= accepted
    ensures Missing(o, t, synced, lines) == Missing(o, t, accepted, lines) * synced
  {}

  lemma CountsReport(demanded: bool, repeats: bool, fabricated: bool, missing: set<string>, synced: set<string>)
    ensures ReportOf(demanded, repeats, fabricated, missing, synced) ==
            Report(repeats || fabricated || |missing * synced| != 0 || (demanded && |missing - synced| != 0),
                   if demanded then 0 else |missing - synced|, 0)
  {
    assert missing == (missing - synced) + missing * synced;
  }

  /** What the walk over the sorted lines counts. */
  ghost function WalkReport(o: State, demanded: bool, t: string, actual: seq<string>,
                            accepted: set<string>, synced: set<string>): Report {
    var lost, missing := |Missing(o, t, synced, actual) - {}|, |Missing(o, t, accepted, actual) - synced|;
    Report(!NoRepeats(actual) || Fabricated(o, t, accepted, actual) || lost != 0 || (demanded && missing != 0),
           if demanded then 0 else missing, 0)
  }

  /** It is the report on the lines as they came. */
  lemma WalkReports(o: State, demanded: bool, t: string, lines: seq<string>, actual: seq<string>,
                    accepted: set<string>, synced: set<string>)
    requires multiset(lines) == multiset(actual)
    requires accepted == RenderedRows(RowsIn(o.tables, t)) && synced == SyncedRows(o, t)
    ensures LinesReport(o, demanded, t, lines) == WalkReport(o, demanded, t, actual, accepted, synced)
  {
    SameLines(o, t, accepted, lines, actual);
    var gone := Missing(o, t, accepted, actual);
    MissingSplit(o, t, accepted, synced, actual);
    assert gone * synced - {} == gone * synced;
    CountsReport(demanded, !NoRepeats(actual), Fabricated(o, t, accepted, actual), gone, synced);
  }

  method WalkLines(o: State, demanded: bool, t: string, actual: seq<string>, accepted: set<string>, synced: set<string>)
    returns (r: Report)
    requires IsSorted(actual)
    ensures r == WalkReport(o, demanded, t, actual, accepted, synced)
  {
    var repeats := RepeatsInSorted(actual);
    var fabricated := AnyFabricated(o, t, accepted, actual);
    var lostSynced := CountMissing(o, t, synced, actual, {});
    var missing := CountMissing(o, t, accepted, actual, synced);
    return Report(repeats || fabricated || lostSynced != 0 || (demanded && missing != 0),
                  if demanded then 0 else missing, 0);
  }

  method ReconcileLines(o: State, demanded: bool, t: string, lines: seq<string>) returns (r: Report)
    ensures r == LinesReport(o, demanded, t, lines)
  {
    var actual := Sort(lines);
    SortSorts(lines);
    var accepted := RenderedRows(RowsIn(o.tables, t));
    var synced := RenderedRows(RowsIn(o.synced, t)) * accepted;
    r := WalkLines(o, demanded, t, actual, accepted, synced);
    WalkReports(o, demanded, t, lines, actual, accepted, synced);
  }

  /** One turn of Reconcile's loop. */
  method ReconcileTable(o: State, mode: Mode, assertRecovery: bool, t: string, reply: Reply)
    returns (r: Report)
    ensures r == TableReport(o, mode, assertRecovery, t, reply)
  {
    if reply.Err? {
      if mode != Clean && t !in o.synced { return Report(false, 0, 1); }
      return Report(true, 0, 0);
    }
    r := ReconcileLines(o, mode.Clean? || assertRecovery, t, RowsOf(reply));
  }

  // ---- The whole reconciliation ---------------------------------------------------

  /** One report added to the verdict. */
  function Tallied(v: Verdict, r: Report): Verdict {
    v.(ok := v.ok && !r.failed, gatedMissing := v.gatedMissing + r.gated, lostTables := v.lostTables + r.lost)
  }

  function Tally(v: Verdict, reports: seq<Report>): Verdict {
    if reports == [] then v else Tallied(Tally(v, reports[..|reports| - 1]), reports[|reports| - 1])
  }

  lemma TallyOneMore(v: Verdict, reports: seq<Report>, r: Report)
    ensures Tally(v, reports + [r]) == Tallied(Tally(v, reports), r)
  {
    assert (reports + [r])[..|reports|] == reports;
  }

  function TotalGated(reports: seq<Report>): nat {
    if reports == [] then 0 else TotalGated(reports[..|reports| - 1]) + reports[|reports| - 1].gated
  }

  function TotalLost(reports: seq<Report>): nat {
    if reports == [] then 0 else TotalLost(reports[..|reports| - 1]) + reports[|reports| - 1].lost
  }

  lemma {:induction false} TallySums(v: Verdict, reports: seq<Report>)
    ensures var v' := Tally(v, reports);
            && (v'.ok <==> v.ok && forall i :: 0 <= i < |reports| ==> !reports[i].failed)
            && v' == v.(ok := v'.ok, gatedMissing := v.gatedMissing + TotalGated(reports),
                        lostTables := v.lostTables + TotalLost(reports))
  {
    if reports != [] { TallySums(v, reports[..|reports| - 1]); }
  }

  ghost function Reports(o: State, mode: Mode, assertRecovery: bool, names: seq<string>, replies: map<string, Reply>): seq<Report>
    requires forall t :: t in names ==> t in replies
  {
    seq(|names|, i requires 0 <= i < |names| => TableReport(o, mode, assertRecovery, names[i], replies[names[i]]))
  }

  lemma ReportsOneMore(o: State, mode: Mode, assertRecovery: bool, names: seq<string>, replies: map<string, Reply>, i: nat)
    requires i < |names| && forall t :: t in names ==> t in replies
    ensures Reports(o, mode, assertRecovery, names, replies)[..i + 1]
         == Reports(o, mode, assertRecovery, names, replies)[..i]
            + [TableReport(o, mode, assertRecovery, names[i], replies[names[i]])]
  {}

  /** The loop over the relations, in a given order of their names. */
  method Reconcile(l: Loop, mode: Mode, assertRecovery: bool, names: seq<string>, replies: map<string, Reply>)
    returns (v: Verdict)
    requires forall t :: t in names <==> t in l.oracle.tables
    requires l.oracle.tables.Keys <= replies.Keys
    ensures v == Tally(l.verdict, Reports(l.oracle, mode, assertRecovery, names, replies))
  {
    v := l.verdict;
    ghost var reports := Reports(l.oracle, mode, assertRecovery, names, replies);
    for i := 0 to |names|
      invariant v == Tally(l.verdict, reports[..i])
    {
      assert names[i] in names;
      var r := ReconcileTable(l.oracle, mode, assertRecovery, names[i], replies[names[i]]);
      ReportsOneMore(l.oracle, mode, assertRecovery, names, replies, i);
      TallyOneMore(l.verdict, reports[..i], r);
      v := Tallied(v, r);
    }
    assert reports[..|names|] == reports;
  }

  // ---- What a pass means ------------------------------------------------------------

  /** Each line somebody may assert on is a committed row. */
  ghost predicate LinesHeld(o: State, t: string, lines: seq<string>) {
    var rows := RowsIn(o.tables, t);
    forall line :: line in lines && !o.IgnorableId(t, IdOf(line)) ==>
      IdOf(line) in rows && line == Render(IdOf(line), rows[IdOf(line)])
  }

  /** Each committed row somebody may assert on has its line. */
  ghost predicate RowsBack(o: State, t: string, lines: seq<string>) {
    var rows := RowsIn(o.tables, t);
    forall id :: id in rows && !o.IgnorableId(t, id) ==> Render(id, rows[id]) in lines
  }

  /** ... and each of those the last SYNC covered and nothing has changed since. */
  ghost predicate SyncedRowsBack(o: State, t: string, lines: seq<string>) {
    var rows, synced := RowsIn(o.tables, t), RowsIn(o.synced, t);
    forall id :: id in rows && id in synced && synced[id] == rows[id] && !o.IgnorableId(t, id) ==>
      Render(id, rows[id]) in lines
  }

  /** What a restart has to return of a relation: an error only where no SYNC covered it
      and the run did not stop clean; otherwise its rows, none invented, changed or
      repeated, and none missing that is owed. */
  ghost predicate Restored(o: State, mode: Mode, assertRecovery: bool, t: string, reply: Reply) {
    if reply.Err? then mode != Clean && t !in o.synced
    else
      && NoRepeats(RowsOf(reply)) && LinesHeld(o, t, RowsOf(reply))
      && (if mode.Clean? || assertRecovery then RowsBack(o, t, RowsOf(reply)) else SyncedRowsBack(o, t, RowsOf(reply)))
  }

  /** **Reconcile is exact**: the verdict survives it exactly when every relation is
      restored, whichever order they are walked in. Where every row is owed the last SYNC
      plays no part, so a superseded synced row is never held against the engine; where
      none is, only synced rows that still stand are. */
  lemma ReconcileExact(l: Loop, mode: Mode, assertRecovery: bool, names: seq<string>, replies: map<string, Reply>)
    requires forall t :: t in names <==> t in l.oracle.tables
    requires l.oracle.tables.Keys <= replies.Keys
    ensures var v := Tally(l.verdict, Reports(l.oracle, mode, assertRecovery, names, replies));
            v.ok <==> l.verdict.ok && forall t :: t in l.oracle.tables ==> Restored(l.oracle, mode, assertRecovery, t, replies[t])
  {
    var o, reports := l.oracle, Reports(l.oracle, mode, assertRecovery, names, replies);
    TallySums(l.verdict, reports);
    forall i | 0 <= i < |names|
      ensures !reports[i].failed <==> Restored(o, mode, assertRecovery, names[i], replies[names[i]])
    {
      TableExact(o, mode, assertRecovery, names[i], replies[names[i]]);
    }
    if forall i :: 0 <= i < |reports| ==> !reports[i].failed {
      forall t | t in o.tables ensures Restored(o, mode, assertRecovery, t, replies[t]) {
        var i :| 0 <= i < |names| && names[i] == t;
        assert !reports[i].failed;
      }
    }
  }

  /** The committed rows somebody may assert on that are not there and that no SYNC covered
      as they stand: what recovery lost where it may. */
  ghost function Gone(o: State, t: string, lines: seq<string>): set<U64> {
    var rows, synced := RowsIn(o.tables, t), RowsIn(o.synced, t);
    set id | id in rows && !o.IgnorableId(t, id) && Render(id, rows[id]) !in lines
             && !(id in synced && synced[id] == rows[id])
  }

  /** One relation's part in it: what fails, how many rows count as gated, and whether the
      relation itself counts as lost. */
  lemma TableExact(o: State, mode: Mode, assertRecovery: bool, t: string, reply: Reply)
    ensures var r := TableReport(o, mode, assertRecovery, t, reply);
            && (!r.failed <==> Restored(o, mode, assertRecovery, t, reply))
            && r.gated == (if reply.Err? || mode.Clean? || assertRecovery then 0 else |Gone(o, t, RowsOf(reply))|)
            && r.lost == (if reply.Err? && Restored(o, mode, assertRecovery, t, reply) then 1 else 0)
  {
    if !reply.Err? {
      FabricationById(o, t, RowsOf(reply));
      MissingById(o, t, RowsOf(reply));
      SyncedById(o, t, RowsOf(reply));
      GoneById(o, t, RowsOf(reply));
    }
  }

  function Rendered(ids: set<U64>, rows: Rows): set<string>
    requires ids <= rows.Keys
  {
    set id | id in ids :: Render(id, rows[id])
  }

  lemma RenderedMore(ids: set<U64>, id: U64, rows: Rows)
    requires ids <= rows.Keys && id in rows && id !in ids
    ensures Rendered(ids + {id}, rows) == Rendered(ids, rows) + {Render(id, rows[id])}
    ensures Render(id, rows[id]) !in Rendered(ids, rows)
  {
    forall id' | id' in ids ensures Render(id', rows[id']) != Render(id, rows[id]) {
      if Render(id', rows[id']) == Render(id, rows[id]) { RenderInjective(id, rows[id], id', rows[id']); }
    }
  }

  lemma OneMoreLine(lines: set<string>, line: string, more: set<string>)
    requires line !in lines && more == lines + {line}
    ensures |more| == |lines| + 1
  {}

  lemma {:induction false} RenderedSize(ids: set<U64>, rows: Rows)
    requires ids <= rows.Keys
    ensures |Rendered(ids, rows)| == |ids|
  {
    if ids == {} {
      assert Rendered(ids, rows) == {};
    } else {
      var id :| id in ids;
      var rest := ids - {id};
      assert rest + {id} == ids;
      RenderedSize(rest, rows);
      RenderedMore(rest, id, rows);
      OneMoreLine(Rendered(rest, rows), Render(id, rows[id]), Rendered(ids, rows));
    }
  }

  lemma GoneById(o: State, t: string, lines: seq<string>)
    ensures |Missing(o, t, RenderedRows(RowsIn(o.tables, t)), lines) - SyncedRows(o, t)| == |Gone(o, t, lines)|
  {
    var rows, synced, gone := RowsIn(o.tables, t), RowsIn(o.synced, t), Gone(o, t, lines);
    var missing := Missing(o, t, RenderedRows(rows), lines) - SyncedRows(o, t);
    forall id | id in rows ensures id in gone <==> Render(id, rows[id]) in missing {
      IdOfRender(id, rows[id]);
      SyncedSame(rows, synced, id);
    }
    assert missing == Rendered(gone, rows);
    RenderedSize(gone, rows);
  }

  lemma SyncedSame(rows: Rows, synced: Rows, id: U64)
    requires id in rows
    ensures Render(id, rows[id]) in RenderedRows(synced) <==> id in synced && synced[id] == rows[id]
  {
    if Render(id, rows[id]) in RenderedRows(synced) {
      var id' :| id' in synced && Render(id', synced[id']) == Render(id, rows[id]);
      RenderInjective(id, rows[id], id', synced[id']);
    }
  }

  /** A synced rendering still accepted is a row that has not changed. */
  lemma SyncedById(o: State, t: string, lines: seq<string>)
    ensures Missing(o, t, RenderedRows(RowsIn(o.tables, t)), lines) * SyncedRows(o, t) == {} <==>
            SyncedRowsBack(o, t, lines)
  {
    var rows, synced := RowsIn(o.tables, t), RowsIn(o.synced, t);
    var gone := Missing(o, t, RenderedRows(rows), lines) * SyncedRows(o, t);
    if gone == {} {
      forall id | id in rows && id in synced && synced[id] == rows[id] && !o.IgnorableId(t, id)
        ensures Render(id, rows[id]) in lines
      {
        IdOfRender(id, rows[id]);
        assert Render(id, rows[id]) !in gone;
      }
    } else {
      var line :| line in gone;
      var id :| id in rows && line == Render(id, rows[id]);
      var id' :| id' in synced && line == Render(id', synced[id']);
      IdOfRender(id, rows[id]);
      RenderInjective(id, rows[id], id', synced[id']);
    }
  }

  lemma MissingById(o: State, t: string, lines: seq<string>)
    ensures Missing(o, t, RenderedRows(RowsIn(o.tables, t)), lines) == {} <==>
            RowsBack(o, t, lines)
  {
    var rows := RowsIn(o.tables, t);
    var missing := Missing(o, t, RenderedRows(rows), lines);
    forall id | id in rows
      ensures Render(id, rows[id]) in missing <==> Render(id, rows[id]) !in lines && !o.IgnorableId(t, id)
    {
      IdOfRender(id, rows[id]);
    }
    if missing == {} {
      forall id | id in rows && !o.IgnorableId(t, id) ensures Render(id, rows[id]) in lines {
        assert Render(id, rows[id]) !in missing;
      }
    }
  }

  lemma FabricationById(o: State, t: string, lines: seq<string>)
    ensures !Fabricated(o, t, RenderedRows(RowsIn(o.tables, t)), lines) <==>
            LinesHeld(o, t, lines)
  {
    var rows := RowsIn(o.tables, t);
    forall line
      ensures line in RenderedRows(rows) <==> IdOf(line) in rows && line == Render(IdOf(line), rows[IdOf(line)])
    {
      if line in RenderedRows(rows) {
        var id :| id in rows && line == Render(id, rows[id]);
        IdOfRender(id, rows[id]);
      }
    }
  }
}
