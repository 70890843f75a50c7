/** What the generator's plans have in common with the rest of the harness: every one of
    them may be run without a false alarm, and survives its case file. */
module GeneratedPlans {
  import opened Text
  import opened Optional
  import opened Ops
  import opened Plans
  import opened WorkloadModel
  import opened Streams
  import opened PlanBuilder
  import opened CaseRoundTrip
  import CaseFile
  import Exactness
  import Finish
  import Minimize

  // ---- No false alarms --------------------------------------------------------------------

  function OpsOf(entries: seq<Entry>): seq<Op> {
    seq(|entries|, i requires 0 <= i < |entries| => entries[i].op)
  }

  lemma PlanOps(c: Settings, f: Forks)
    ensures var d := f("workload"); OpsOf(PlanOf(c, f).entries) == Stream(d, RowsOf(d, c.profile), StopAt(c, f))
  {}

  /** **No generated plan raises a false alarm**: whatever the seed and the settings, with
      faults and without, however it stops and with the recovery gate or without, no engine
      that keeps its promises fails a check of its iteration, and nothing is asked of it that
      it refuses. Without faults it passes; with faults it does exactly when a relation came
      to be, and one can. */
  lemma GeneratedPlanNeverAlarms(c: Settings, f: Forks, r: Finish.Rules)
    ensures Exactness.NeverAlarms(r, OpsOf(PlanOf(c, f).entries))
    ensures !r.faultsOn && |PlanOf(c, f).entries| < U64_LIMIT ==> Exactness.NeverFails(r, OpsOf(PlanOf(c, f).entries))
    ensures r.faultsOn && PlanOf(c, f).entries != [] ==> Exactness.CanPass(r, OpsOf(PlanOf(c, f).entries))
  {
    PlanOps(c, f);
    var d, n, ops := f("workload"), StopAt(c, f), OpsOf(PlanOf(c, f).entries);
    GeneratedStreamOk(d, c.profile, n, r);
    Exactness.AllowedPasses(r, ops);
    if !r.faultsOn && |ops| < U64_LIMIT { Exactness.NeverFailsExactly(r, ops); }
    if r.faultsOn && ops != [] {
      FirstCreates(d, c.profile, n);
      Exactness.CreatedPasses(r, ops);
    }
  }

  /** A stream starts with a CREATE TABLE. */
  lemma FirstCreates(d: Draws, profile: Profile, n: nat)
    requires n > 0
    ensures Exactness.Creates(Stream(d, RowsOf(d, profile), n))
  {
    var rows := RowsOf(d, profile);
    RowsYieldData(d, profile);
    GeneratedTrace(d, rows, n);
    CreatedOnce(States(d, rows, n), Stream(d, rows, n), Start(d).tables, 0);
  }

  /** With faults on the minimizer cannot make a false alarm of a generated plan: no engine
      that keeps its promises fails a check of any plan left of it. One left without a
      CREATE TABLE always fails, by the guard alone, and any other can pass. (Without faults
      a BEGIN taken away leaves an end that is refused: StrayEndAlarms of Exactness.) */
  lemma ShrunkPlanNeverAlarms(c: Settings, f: Forks, entries: seq<Entry>, r: Finish.Rules)
    requires Minimize.Subsequence(entries, PlanOf(c, f).entries) && r.faultsOn
    ensures Exactness.NeverAlarms(r, OpsOf(entries))
    ensures Exactness.CanPass(r, OpsOf(entries)) <==> Exactness.Creates(OpsOf(entries))
  {
    PlanOps(c, f);
    var whole, d := PlanOf(c, f).entries, f("workload");
    var at :| Minimize.Picks(entries, whole, at);
    PickedOpsOf(entries, whole, at);
    ShrunkStreamOk(d, c.profile, StopAt(c, f), OpsOf(entries), at);
    Exactness.AllowedPasses(r, OpsOf(entries));
    Exactness.CanPassExactly(r, OpsOf(entries));
  }

  lemma PickedOpsOf(part: seq<Entry>, whole: seq<Entry>, at: seq<nat>)
    requires Minimize.Picks(part, whole, at)
    ensures PickedOps(OpsOf(part), OpsOf(whole), at)
  {}

  // ---- The case file ------------------------------------------------------------------------

  predicate Storable(op: Op) {
    Writable(op) && Fits(op)
  }

  lemma NameUnbroken(d: Draws, at: nat)
    ensures Unbroken(NextName(d, at))
  {
    var name := NextName(d, at);
    forall i | 0 <= i < |name| ensures name[i] != '\t' && name[i] != '\n' {
      assert name[i] == Letter(Below(d, at + 2 + i, 26));
    }
  }

  lemma Joined3(a: string, b: string, c: string)
    requires Unbroken(a) && Unbroken(b) && Unbroken(c)
    ensures Unbroken(a + b + c)
  {}

  lemma Joined5(a: string, b: string, c: string, d: string, e: string)
    requires Unbroken(a) && Unbroken(b) && Unbroken(c) && Unbroken(d) && Unbroken(e)
    ensures Unbroken(a + b + c + d + e)
  {}

  lemma InsertTexts()
    ensures Unbroken("INSERT INTO ") && Unbroken(" VALUES (") && Unbroken(", '") && Unbroken("')")
  {}

  lemma WhereTexts()
    ensures Unbroken(" WHERE id = ") && Unbroken(" WHERE v = ")
  {}

  lemma MutationTexts()
    ensures Unbroken("UPDATE ") && Unbroken(" SET ") && Unbroken("name = '") && Unbroken("'") && Unbroken("v = ")
    ensures Unbroken("DELETE FROM ")
  {}

  lemma SelectTexts()
    ensures Unbroken("SELECT * FROM ") && Unbroken(" WHERE id BETWEEN ") && Unbroken(" AND ")
  {}

  lemma InsertStorable(d: Draws, profile: Profile, t: Table, at: nat)
    requires Unbroken(t.name)
    ensures Storable(DrawInsert(d, profile, t, at).op)
  {
    var v, name := NextValue(d, profile, at), NextName(d, at + 1);
    InsertTexts();
    SignedUnbroken(v);
    NameUnbroken(d, at + 1);
    Joined5("INSERT INTO ", t.name, " VALUES (", ToSigned(v), ", '");
    Joined3("INSERT INTO " + t.name + " VALUES (" + ToSigned(v) + ", '", name, "')");
  }

  lemma WhereStorable(d: Draws, profile: Profile, t: Table, at: nat, op: Op)
    requires Storable(op)
    ensures Storable(DrawWhere(d, profile, t, at, op).op)
  {
    WhereTexts();
    if op.byPk {
      DecimalUnbroken(GuessKey(d, at, t));
      Joined3(op.sql, " WHERE id = ", ToDecimal(GuessKey(d, at, t)));
    } else {
      SignedUnbroken(NextValue(d, profile, at));
      Joined3(op.sql, " WHERE v = ", ToSigned(NextValue(d, profile, at)));
    }
  }

  lemma UpdateStorable(d: Draws, profile: Profile, t: Table, at: nat)
    requires Unbroken(t.name)
    ensures Storable(DrawUpdate(d, profile, t, at).op)
  {
    MutationTexts();
    var op := Blank(Update, t.name, "UPDATE " + t.name + " SET ").(byPk := Chance(d, at, 70), setName := Chance(d, at + 1, 40));
    Joined3("UPDATE ", t.name, " SET ");
    if op.setName {
      var name := NextName(d, at + 2);
      NameUnbroken(d, at + 2);
      UnbrokenJoined(op.sql, "name = '");
      Joined3(op.sql + "name = '", name, "'");
      WhereStorable(d, profile, t, AfterName(d, at + 2), op.(name := name, sql := op.sql + "name = '" + name + "'"));
    } else {
      var v := NextValue(d, profile, at + 2);
      SignedUnbroken(v);
      Joined3(op.sql, "v = ", ToSigned(v));
      WhereStorable(d, profile, t, at + 3, op.(v := v, sql := op.sql + "v = " + ToSigned(v)));
    }
  }

  lemma DeleteStorable(d: Draws, profile: Profile, t: Table, at: nat)
    requires Unbroken(t.name)
    ensures Storable(DrawDelete(d, profile, t, at).op)
  {
    MutationTexts();
    UnbrokenJoined("DELETE FROM ", t.name);
    WhereStorable(d, profile, t, at + 1, Blank(Delete, t.name, "DELETE FROM " + t.name).(byPk := Chance(d, at, 70)));
  }

  lemma SelectsStorable(d: Draws, profile: Profile, t: Table, at: nat)
    requires Unbroken(t.name)
    ensures Storable(DrawSelectPk(d, t, at).op) && Storable(DrawFilterScan(d, profile, t, at).op)
  {
    SelectTexts();
    WhereTexts();
    DecimalUnbroken(GuessKey(d, at, t));
    SignedUnbroken(NextValue(d, profile, at));
    UnbrokenJoined("SELECT * FROM ", t.name);
    Joined3("SELECT * FROM " + t.name, " WHERE id = ", ToDecimal(GuessKey(d, at, t)));
    Joined3("SELECT * FROM " + t.name, " WHERE v = ", ToSigned(NextValue(d, profile, at)));
  }

  lemma RangeStorable(d: Draws, t: Table, at: nat)
    requires Unbroken(t.name)
    ensures Storable(DrawSelectRange(d, t, at).op)
  {
    var lo := GuessKey(d, at, t);
    var hi := Key(lo + Below(d, at + 1, 20));
    SelectTexts();
    DecimalUnbroken(lo);
    DecimalUnbroken(hi);
    Joined5("SELECT * FROM ", t.name, " WHERE id BETWEEN ", ToDecimal(lo), " AND ");
    UnbrokenJoined("SELECT * FROM " + t.name + " WHERE id BETWEEN " + ToDecimal(lo) + " AND ", ToDecimal(hi));
  }

  lemma RowStorable(d: Draws, profile: Profile, t: Table, roll: nat, at: nat)
    requires Unbroken(t.name)
    ensures Storable(DrawRow(d, profile, t, roll, at).op)
  {
    if roll < 42 { InsertStorable(d, profile, t, at); }
    else if roll < 57 { UpdateStorable(d, profile, t, at); }
    else if roll < 64 { DeleteStorable(d, profile, t, at); }
    else if roll < 79 { SelectsStorable(d, profile, t, at); }
    else if roll < 88 { RangeStorable(d, t, at); }
    else { SelectsStorable(d, profile, t, at); }
  }

  ghost predicate YieldsStorable(rows: RowGen) {
    forall t: Table, roll, at :: Unbroken(t.name) ==> Storable(rows(t, roll, at).op)
  }

  lemma RowsYieldStorable(d: Draws, profile: Profile)
    ensures YieldsStorable(RowsOf(d, profile))
  {
    var rows := RowsOf(d, profile);
    forall t: Table, roll: nat, at: nat | Unbroken(t.name) ensures Storable(rows(t, roll, at).op) {
      RowStorable(d, profile, t, roll, at);
    }
  }

  lemma CreateTexts()
    ensures Unbroken("CREATE TABLE ") && Unbroken(" (id int64, ") && Unbroken("v int64, name ")
  {}

  lemma CreateEndTexts()
    ensures Unbroken("varchar)") && Unbroken(" BTREE") && Unbroken(" HEAP")
  {}

  lemma CreateStorable(t: Table)
    requires Unbroken(t.name)
    ensures Storable(CreateOp(t))
  {
    CreateTexts();
    CreateEndTexts();
    Joined5("CREATE TABLE ", t.name, " (id int64, ", "v int64, name ", "varchar)");
    UnbrokenJoined("CREATE TABLE " + t.name + " (id int64, " + "v int64, name " + "varchar)",
                   if t.btree then " BTREE" else " HEAP");
  }

  lemma ShortTexts()
    ensures Unbroken("COMMIT") && Unbroken("ROLLBACK") && Unbroken("SYNC") && Unbroken("BEGIN") && Unbroken("")
  {}

  lemma LevelTexts()
    ensures Unbroken(" ISOLATION LEVEL") && Unbroken(" REPEATABLE READ")
  {}

  lemma BeginUnbroken(repeatable: bool)
    ensures Unbroken(BeginSql(repeatable))
  {
    ShortTexts();
    LevelTexts();
    UnbrokenJoined(" ISOLATION LEVEL", " REPEATABLE READ");
    UnbrokenJoined("BEGIN", if repeatable then " ISOLATION LEVEL" + " REPEATABLE READ" else "");
  }

  lemma PatternTexts()
    ensures Unbroken("CREATE PATTERN p") && Unbroken(" ($k int64) OF ") && Unbroken(" ($x int64) OF ")
  {}

  lemma PatternEndTexts()
    ensures Unbroken(" WHERE id = $k") && Unbroken(" WHERE v = $x")
  {}

  lemma PatternStorable(n: nat, table: string, byPk: bool)
    requires Unbroken(table)
    ensures Storable(PatternDecl(n, table, byPk))
  {
    PatternTexts();
    PatternEndTexts();
    SelectTexts();
    DecimalUnbroken(n);
    var head, tail := if byPk then " ($k int64) OF " else " ($x int64) OF ", if byPk then " WHERE id = $k" else " WHERE v = $x";
    Joined5("CREATE PATTERN p", ToDecimal(n), head, "SELECT * FROM ", table);
    UnbrokenJoined("CREATE PATTERN p" + ToDecimal(n) + head + "SELECT * FROM " + table, tail);
  }

  lemma CabinStorable(table: string)
    requires Unbroken(table)
    ensures Storable(CabinDecl(table))
  {
    assert Unbroken("CREATE CABIN ON ") && Unbroken("(v)");
    Joined3("CREATE CABIN ON ", table, "(v)");
  }

  predicate UnbrokenNames(tables: seq<Table>) {
    forall i :: 0 <= i < |tables| ==> Unbroken(tables[i].name)
  }

  /** A declaration, if one was drawn, can be stored. */
  predicate StorableDecl(x: Declared) {
    x.op.Some? ==> Storable(x.op.value)
  }

  lemma CabinDrawStorable(d: Draws, s: State)
    requires s.tables != [] && UnbrokenNames(s.tables)
    ensures StorableDecl(DrawCabin(d, s))
  {
    CabinStorable(s.tables[Below(d, s.at, |s.tables|)].name);
  }

  lemma PatternDrawStorable(d: Draws, s: State)
    requires s.tables != [] && UnbrokenNames(s.tables)
    ensures StorableDecl(DrawPattern(d, s))
  {
    var t, byPk := s.tables[Below(d, s.at, |s.tables|)], Chance(d, s.at + 1, 50);
    PatternStorable(s.patterns, t.name, byPk);
    DeclStorable(DrawPattern(d, s), PatternDecl(s.patterns, t.name, byPk));
  }

  lemma DeclStorable(x: Declared, op: Op)
    requires Storable(op) && (x.op.None? || x.op == Some(op))
    ensures StorableDecl(x)
  {}

  lemma BlankStorable(kind: Kind, sql: string)
    requires Unbroken(sql)
    ensures Storable(Blank(kind, "", sql))
  {}

  lemma BeginDrawStorable(d: Draws, s: State)
    ensures StorableDecl(DrawBegin(d, s))
  {
    var sql := BeginSql(!Chance(d, s.at + 1, 50));
    BeginUnbroken(!Chance(d, s.at + 1, 50));
    BlankStorable(Begin, sql);
    DeclStorable(DrawBegin(d, s), Blank(Begin, "", sql));
  }

  lemma SpecialStorable(d: Draws, s: State)
    requires s.tables != [] && UnbrokenNames(s.tables)
    ensures StorableDecl(DrawSpecial(d, s))
  {
    var roll, s' := Below(d, s.at, 100), s.(at := s.at + 1);
    if roll < 86 {
      ShortTexts();
      BlankStorable(Sync, "SYNC");
      DeclStorable(DrawSpecial(d, s), Blank(Sync, "", "SYNC"));
    } else {
      CabinDrawStorable(d, s');
      PatternDrawStorable(d, s');
      BeginDrawStorable(d, s');
      OneOf(DrawSpecial(d, s), DrawCabin(d, s'), DrawPattern(d, s'), DrawBegin(d, s'));
    }
  }

  lemma OneOf(x: Declared, a: Declared, b: Declared, c: Declared)
    requires (x == a || x == b || x == c) && StorableDecl(a) && StorableDecl(b) && StorableDecl(c)
    ensures StorableDecl(x)
  {}

  lemma DataStorable(d: Draws, rows: RowGen, s: State)
    requires YieldsStorable(rows) && s.tables != [] && UnbrokenNames(s.tables)
    ensures var e := DataOp(d, rows, s); Storable(e.op) && UnbrokenNames(e.state.tables)
  {}

  lemma SpecialTables(d: Draws, s: State)
    requires s.tables != []
    ensures DrawSpecial(d, s).state.tables == s.tables
  {}

  lemma NextStorable(d: Draws, rows: RowGen, s: State)
    requires YieldsStorable(rows) && s.tables != [] && UnbrokenNames(s.tables)
    ensures var e := NextOp(d, rows, s); Storable(e.op) && UnbrokenNames(e.state.tables)
  {
    if s.created < |s.tables| {
      CreateStorable(s.tables[s.created]);
    } else if s.inTxn {
      ShortTexts();
      if s.left > 0 { DataStorable(d, rows, s.(left := s.left - 1)); }
    } else {
      SpecialStorable(d, s);
      SpecialTables(d, s);
      var x := DrawSpecial(d, s);
      if x.op.None? { DataStorable(d, rows, x.state); }
    }
  }

  lemma StartUnbroken(d: Draws)
    ensures UnbrokenNames(Start(d).tables)
  {
    assert Unbroken("t");
    forall i | 0 <= i < |Start(d).tables| ensures Unbroken(Start(d).tables[i].name) {
      DecimalUnbroken(i);
      UnbrokenJoined("t", ToDecimal(i));
    }
  }

  lemma {:induction false} NamesStay(d: Draws, rows: RowGen, n: nat)
    requires YieldsStorable(rows)
    ensures UnbrokenNames(StateAt(d, rows, n).tables)
  {
    if n == 0 {
      StartUnbroken(d);
    } else {
      NamesStay(d, rows, n - 1);
      NextStorable(d, rows, StateAt(d, rows, n - 1));
    }
  }

  lemma OpStorable(d: Draws, rows: RowGen, n: nat)
    requires YieldsStorable(rows)
    ensures Storable(OpAt(d, rows, n))
  {
    NamesStay(d, rows, n);
    NextStorable(d, rows, StateAt(d, rows, n));
  }

  lemma GeneratedStorable(c: Settings, f: Forks, i: nat)
    requires i < |PlanOf(c, f).entries|
    ensures Storable(PlanOf(c, f).entries[i].op)
  {
    var d := f("workload");
    RowsYieldStorable(d, c.profile);
    OpStorable(d, RowsOf(d, c.profile), i);
  }

  lemma StorablePlan(entries: seq<Entry>)
    requires forall i :: 0 <= i < |entries| ==> Storable(entries[i].op)
    ensures AllWritable(entries) && AllFit(entries)
  {}

  /** What the minimizer leaves of a generated plan, and so the plan itself, comes back
      from its case file as it was written exactly when the signature adds no line but
      blanks, comments and settings that parse. */
  lemma ShrunkPlanRoundTrips(c: Settings, f: Forks, entries: seq<Entry>, config: CaseFile.Config, signature: string)
    requires Minimize.Subsequence(entries, PlanOf(c, f).entries) && entries != []
    ensures var plan := Plan(entries, PlanOf(c, f).toggles);
            var read := CaseFile.ReadText(CaseFile.Terminated(CaseFile.CaseLines(config, plan, signature)));
            read == CaseFile.Ok(Reloaded(config, plan)) <==> Harmless(signature)
  {
    ShrunkStorable(c, f, entries);
    RoundTrip(config, Plan(entries, PlanOf(c, f).toggles), signature);
  }

  lemma ShrunkStorable(c: Settings, f: Forks, entries: seq<Entry>)
    requires Minimize.Subsequence(entries, PlanOf(c, f).entries)
    ensures AllWritable(entries) && AllFit(entries)
  {
    var whole := PlanOf(c, f).entries;
    var at :| Minimize.Picks(entries, whole, at);
    forall i | 0 <= i < |entries| ensures Storable(entries[i].op) {
      GeneratedStorable(c, f, at[i]);
    }
    StorablePlan(entries);
  }

  /** A failure told in one line replays from its case file. */
  lemma OneLineFailureReplays(c: Settings, f: Forks, entries: seq<Entry>, config: CaseFile.Config, detail: string)
    requires Minimize.Subsequence(entries, PlanOf(c, f).entries) && entries != [] && '\n' !in detail
    ensures var plan := Plan(entries, PlanOf(c, f).toggles);
            CaseFile.ReadText(CaseFile.Terminated(CaseFile.CaseLines(config, plan, Minimize.Shape(detail))))
            == CaseFile.Ok(Reloaded(config, plan))
  {
    Minimize.ShapeOneLine(detail);
    OneLineHarmless(Minimize.Shape(detail));
    ShrunkPlanRoundTrips(c, f, entries, config, Minimize.Shape(detail));
  }

  /** The sweep's findings, each on a line of its own behind an open bracket. */
  function Findings(findings: seq<string>): string {
    if findings == [] then "" else "\n  [" + findings[0] + Findings(findings[1..])
  }

  /** The detail of a run the integrity sweep failed. */
  function IntegrityDetail(seed: U64, iteration: nat, findings: seq<string>, trace: string): string {
    IntegrityHead(seed, iteration, |findings|) + Findings(findings) + trace
  }

  function IntegrityHead(seed: U64, iteration: nat, count: nat): string {
    "seed=" + ToDecimal(seed) + " iteration=" + ToDecimal(iteration)
    + ": integrity: " + ToDecimal(count) + " finding(s)"
  }

  predicate OpensNothing(s: string) {
    forall c :: c in s ==> c != '[' && c != '\''
  }

  lemma HeadOpensNothing(seed: U64, iteration: nat, count: nat)
    ensures OpensNothing(IntegrityHead(seed, iteration, count))
  {
    DigitsOpenNothing(seed);
    DigitsOpenNothing(iteration);
    DigitsOpenNothing(count);
    HeadTexts();
    OpenJoined(ToDecimal(seed), ToDecimal(iteration), ToDecimal(count), "seed=", " iteration=", ": integrity: ", " finding(s)");
  }

  lemma DigitsOpenNothing(n: nat)
    ensures OpensNothing(ToDecimal(n))
  {
    var s := ToDecimal(n);
    assert forall i :: 0 <= i < |s| ==> s[i] != '[' && s[i] != '\'';
  }

  lemma HeadTexts()
    ensures OpensNothing("seed=") && OpensNothing(" iteration=")
    ensures OpensNothing(": integrity: ") && OpensNothing(" finding(s)")
  {}

  lemma OpenJoined(a: string, b: string, c: string, w: string, x: string, y: string, z: string)
    requires OpensNothing(a) && OpensNothing(b) && OpensNothing(c)
    requires OpensNothing(w) && OpensNothing(x) && OpensNothing(y) && OpensNothing(z)
    ensures OpensNothing(w + a + x + b + y + c + z)
  {}

  /** **An integrity failure does not replay**: the signature keeps the line breaks of its
      findings and the blanks after them, and nothing reads the file back, whatever the plan. */
  lemma IntegrityFailureUnreadable(config: CaseFile.Config, plan: Plan,
                                   seed: U64, iteration: nat, findings: seq<string>, trace: string)
    requires findings != []
    ensures var signature := Minimize.Shape(IntegrityDetail(seed, iteration, findings, trace));
            CaseFile.ReadText(CaseFile.Terminated(CaseFile.CaseLines(config, plan, signature))).Err?
  {
    var head, after := IntegrityHead(seed, iteration, |findings|), "[" + findings[0] + Findings(findings[1..]) + trace;
    HeadOpensNothing(seed, iteration, |findings|);
    Unfolded(head, findings[0], Findings(findings[1..]), trace);
    var rest := Minimize.ShapeKeepsPlain(head, "\n  ", after);
    Refolded(Minimize.Shape(head), rest);
    IndentedUnreadable(config, plan, Minimize.Shape(head), "  " + rest);
  }

  lemma Unfolded(head: string, first: string, others: string, trace: string)
    ensures head + ("\n  [" + first + others) + trace == head + "\n  " + ("[" + first + others + trace)
  {
    assert "\n  [" == "\n  " + "[";
  }

  lemma Refolded(head: string, rest: string)
    ensures head + "\n  " + rest == head + ['\n'] + ("  " + rest)
  {
    assert "\n  " == ['\n'] + "  ";
  }
}
