/** What sim/workload.cpp's operations say: the text sent to the engine and the fields the
    oracle reads are one statement, names and keys are of the promised range, and the mix is
    the one the rolls are cut for. */
module Statements {
  import opened Text
  import opened Ops
  import opened Plans
  import opened WorkloadModel
  import opened Streams

  // ---- The text and the fields ------------------------------------------------------------

  function WhereSql(op: Op): string {
    if op.byPk then " WHERE id = " + ToDecimal(op.key) else " WHERE v = " + ToSigned(op.predV)
  }

  /** The text is the statement the fields describe; CREATE PATTERN and BEGIN have fields of
      their own that no oracle reads. */
  ghost predicate Says(op: Op) {
    var t := op.table;
    match op.kind
    case CreateTable =>
      op.sql == "CREATE TABLE " + t + " (id int64, v int64, name varchar)" + (if op.btree then " BTREE" else " HEAP")
    case Insert => op.sql == "INSERT INTO " + t + " VALUES (" + ToSigned(op.v) + ", '" + op.name + "')"
    case Update =>
      op.sql == "UPDATE " + t + " SET " + (if op.setName then "name = '" + op.name + "'" else "v = " + ToSigned(op.v)) + WhereSql(op)
    case Delete => op.sql == "DELETE FROM " + t + WhereSql(op)
    case SelectPk => op.sql == "SELECT * FROM " + t + " WHERE id = " + ToDecimal(op.key)
    case SelectRange =>
      op.sql == "SELECT * FROM " + t + " WHERE id BETWEEN " + ToDecimal(op.lo) + " AND " + ToDecimal(op.hi)
    case FilterScan => op.sql == "SELECT * FROM " + t + " WHERE v = " + ToSigned(op.v)
    case Sync => op.sql == "SYNC"
    case Begin => op.sql in {"BEGIN", "BEGIN ISOLATION LEVEL REPEATABLE READ"}
    case Commit => op.sql == "COMMIT"
    case Rollback => op.sql == "ROLLBACK"
    case CreateCabin => op.sql == "CREATE CABIN ON " + t + "(v)"
    case CreatePattern =>
      exists n :: op.sql == "CREATE PATTERN p" + ToDecimal(n) + " ($k int64) OF SELECT * FROM " + t + " WHERE id = $k"
               || op.sql == "CREATE PATTERN p" + ToDecimal(n) + " ($x int64) OF SELECT * FROM " + t + " WHERE v = $x"
  }

  lemma Joined(a: string, b: string, c: string)
    ensures a + (b + c) == (a + b) + c
  {}

  lemma WhereSays(d: Draws, profile: Profile, t: Table, at: nat, op: Op)
    requires op.kind.Update? || op.kind.Delete?
    ensures var op' := DrawWhere(d, profile, t, at, op).op;
            && op'.sql == op.sql + WhereSql(op')
            && op'.(sql := op.sql, key := op.key, predV := op.predV) == op
  {
    if op.byPk {
      Joined(op.sql, " WHERE id = ", ToDecimal(GuessKey(d, at, t)));
    } else {
      Joined(op.sql, " WHERE v = ", ToSigned(NextValue(d, profile, at)));
    }
  }

  lemma UpdateSays(d: Draws, profile: Profile, t: Table, at: nat)
    ensures Says(DrawUpdate(d, profile, t, at).op)
  {
    var head := "UPDATE " + t.name + " SET ";
    var op := Blank(Update, t.name, head).(byPk := Chance(d, at, 70), setName := Chance(d, at + 1, 40));
    if op.setName {
      var name := NextName(d, at + 2);
      Joined(head, "name = '", name);
      Joined(head, "name = '" + name, "'");
      WhereSays(d, profile, t, AfterName(d, at + 2), op.(name := name, sql := op.sql + "name = '" + name + "'"));
    } else {
      var v := NextValue(d, profile, at + 2);
      Joined(head, "v = ", ToSigned(v));
      WhereSays(d, profile, t, at + 3, op.(v := v, sql := op.sql + "v = " + ToSigned(v)));
    }
  }

  lemma DeleteSays(d: Draws, profile: Profile, t: Table, at: nat)
    ensures Says(DrawDelete(d, profile, t, at).op)
  {
    WhereSays(d, profile, t, at + 1, Blank(Delete, t.name, "DELETE FROM " + t.name).(byPk := Chance(d, at, 70)));
  }

  lemma InsertSays(d: Draws, profile: Profile, t: Table, at: nat)
    ensures Says(DrawInsert(d, profile, t, at).op)
  {}

  lemma SelectsSay(d: Draws, profile: Profile, t: Table, at: nat)
    ensures Says(DrawSelectPk(d, t, at).op) && Says(DrawSelectRange(d, t, at).op) && Says(DrawFilterScan(d, profile, t, at).op)
  {}

  lemma RowSays(d: Draws, profile: Profile, t: Table, roll: nat, at: nat)
    ensures Says(DrawRow(d, profile, t, roll, at).op)
  {
    if roll < 42 { InsertSays(d, profile, t, at); }
    else if roll < 57 { UpdateSays(d, profile, t, at); }
    else if roll < 64 { DeleteSays(d, profile, t, at); }
    else { SelectsSay(d, profile, t, at); }
  }

  // ---- What is not a row's ------------------------------------------------------------------

  lemma CreateSays(t: Table)
    ensures Says(CreateOp(t))
  {
    assert " (id int64, " + "v int64, name " + "varchar)" == " (id int64, v int64, name varchar)";
  }

  lemma PatternSays(n: nat, table: string, byPk: bool)
    ensures Says(PatternDecl(n, table, byPk))
  {
    var head := "CREATE PATTERN p" + ToDecimal(n);
    if byPk {
      assert " ($k int64) OF " + "SELECT * FROM " == " ($k int64) OF SELECT * FROM ";
      Joined(head, " ($k int64) OF ", "SELECT * FROM ");
    } else {
      assert " ($x int64) OF " + "SELECT * FROM " == " ($x int64) OF SELECT * FROM ";
      Joined(head, " ($x int64) OF ", "SELECT * FROM ");
    }
  }

  lemma BeginSays(repeatable: bool)
    ensures BeginSql(repeatable) == if repeatable then "BEGIN ISOLATION LEVEL REPEATABLE READ" else "BEGIN"
  {
    assert " ISOLATION LEVEL" + " REPEATABLE READ" == " ISOLATION LEVEL REPEATABLE READ";
    assert "BEGIN" + " ISOLATION LEVEL REPEATABLE READ" == "BEGIN ISOLATION LEVEL REPEATABLE READ";
  }

  lemma PatternOf(d: Draws, s: State)
    requires s.tables != []
    ensures var x, t := DrawPattern(d, s), s.tables[Below(d, s.at, |s.tables|)];
            x.op.Some? ==> x.op.value == PatternDecl(s.patterns, t.name, Chance(d, s.at + 1, 50))
  {}

  lemma PatternDrawn(d: Draws, s: State, x: Declared)
    requires s.tables != [] && x == DrawPattern(d, s) && x.op.Some?
    ensures Says(x.op.value)
  {
    PatternOf(d, s);
    PatternSays(s.patterns, s.tables[Below(d, s.at, |s.tables|)].name, Chance(d, s.at + 1, 50));
  }

  lemma BeginDrawn(d: Draws, s: State)
    ensures var x := DrawBegin(d, s); x.op.Some? && Says(x.op.value)
  {
    BeginSays(!Chance(d, s.at + 1, 50));
  }

  lemma CabinDrawn(d: Draws, s: State)
    requires s.tables != []
    ensures var x := DrawCabin(d, s); x.op.Some? ==> Says(x.op.value)
  {}

  lemma SyncSays()
    ensures Says(Blank(Sync, "", "SYNC"))
  {}

  lemma SpecialSays(d: Draws, s: State, x: Declared)
    requires s.tables != [] && x == DrawSpecial(d, s) && x.op.Some?
    ensures Says(x.op.value)
  {
    var roll, s' := Below(d, s.at, 100), s.(at := s.at + 1);
    if roll < 86 { SyncSays(); }
    else if roll < 89 { CabinDrawn(d, s'); }
    else if roll < 92 { PatternDrawn(d, s', x); }
    else { BeginDrawn(d, s'); }
  }

  /** Every row operation says what it is. */
  ghost predicate AllSay(rows: RowGen) {
    forall t, roll, at :: Says(rows(t, roll, at).op)
  }

  lemma RowsSay(d: Draws, profile: Profile)
    ensures AllSay(RowsOf(d, profile))
  {
    var rows := RowsOf(d, profile);
    forall t: Table, roll: nat, at: nat ensures Says(rows(t, roll, at).op) { RowSays(d, profile, t, roll, at); }
  }

  lemma DataSays(d: Draws, rows: RowGen, s: State)
    requires AllSay(rows) && s.tables != []
    ensures Says(DataOp(d, rows, s).op)
  {
    var t := s.tables[Below(d, s.at + 1, |s.tables|)];
    assert DataOp(d, rows, s).op == rows(t, Below(d, s.at, 100), s.at + 2).op;
  }

  lemma EndSays(d: Draws, s: State)
    ensures Says(EndOp(d, s).op)
  {}

  lemma NextSays(d: Draws, rows: RowGen, s: State)
    requires AllSay(rows) && s.tables != []
    ensures Says(NextOp(d, rows, s).op)
  {
    if s.created < |s.tables| {
      CreateSays(s.tables[s.created]);
    } else if !s.inTxn {
      var x := DrawSpecial(d, s);
      if x.op.Some? { SpecialSays(d, s, x); } else { DataSays(d, rows, x.state); }
    } else if s.left > 0 {
      DataSays(d, rows, s.(left := s.left - 1));
    } else {
      EndSays(d, s);
    }
  }

  /** **The text says what the fields say**: for every operation of every stream. */
  lemma StreamSays(d: Draws, profile: Profile, n: nat, i: nat)
    requires i < n
    ensures Says(Stream(d, RowsOf(d, profile), n)[i])
  {
    RowsSay(d, profile);
    NextSays(d, RowsOf(d, profile), StateAt(d, RowsOf(d, profile), i));
  }

  // ---- What is drawn ----------------------------------------------------------------------------

  /** Letters alone, of a length that stays inline or one that spills. */
  predicate NameOk(name: string) {
    (forall c :: c in name ==> 'a' <= c <= 'z') && (|name| < 45 || 80 <= |name| < 320)
  }

  predicate ValueOk(profile: Profile, v: int) {
    0 <= v < if profile.Colliding? then 5 else 1000
  }

  /** A hit on one of so many inserted rows, or a miss just past the end. */
  predicate KeyOk(inserted: nat, key: nat) {
    1 <= key <= inserted + 3
  }

  /** An operation on a table that has been sent so many INSERTs. */
  predicate DrawnOk(profile: Profile, inserted: nat, op: Op) {
    match op.kind
    case Insert => ValueOk(profile, op.v) && NameOk(op.name)
    case Update =>
      && (if op.setName then NameOk(op.name) else ValueOk(profile, op.v))
      && (if op.byPk then KeyOk(inserted, op.key) else ValueOk(profile, op.predV))
    case Delete => if op.byPk then KeyOk(inserted, op.key) else ValueOk(profile, op.predV)
    case SelectPk => KeyOk(inserted, op.key)
    case SelectRange => KeyOk(inserted, op.lo) && op.lo <= op.hi < op.lo + 20
    case FilterScan => ValueOk(profile, op.v)
    case _ => true
  }

  lemma NameDrawn(d: Draws, at: nat)
    ensures NameOk(NextName(d, at))
  {
    var name := NextName(d, at);
    forall c | c in name ensures 'a' <= c <= 'z' {
      var i :| 0 <= i < |name| && name[i] == c;
      assert name[i] == Letter(Below(d, at + 2 + i, 26));
    }
  }

  lemma ValueDrawn(d: Draws, profile: Profile, at: nat)
    ensures ValueOk(profile, NextValue(d, profile, at))
  {}

  lemma KeyDrawn(d: Draws, at: nat, t: Table)
    requires t.inserted + 3 < U64_LIMIT
    ensures KeyOk(t.inserted, GuessKey(d, at, t)) && GuessKey(d, at, t) == 1 + Below(d, at, t.inserted + 3)
  {}

  lemma WhereDrawn(d: Draws, profile: Profile, t: Table, at: nat, op: Op)
    requires t.inserted + 3 < U64_LIMIT
    ensures var op' := DrawWhere(d, profile, t, at, op).op;
            && op' == op.(sql := op'.sql, key := op'.key, predV := op'.predV)
            && (if op.byPk then KeyOk(t.inserted, op'.key) else ValueOk(profile, op'.predV))
  {
    KeyDrawn(d, at, t);
    ValueDrawn(d, profile, at);
  }

  lemma InsertDrawn(d: Draws, profile: Profile, t: Table, at: nat)
    ensures var op := DrawInsert(d, profile, t, at).op; op.kind.Insert? && DrawnOk(profile, t.inserted, op)
  {
    NameDrawn(d, at + 1);
    ValueDrawn(d, profile, at);
  }

  lemma UpdateDrawn(d: Draws, profile: Profile, t: Table, at: nat)
    requires t.inserted + 3 < U64_LIMIT
    ensures var op := DrawUpdate(d, profile, t, at).op; op.kind.Update? && DrawnOk(profile, t.inserted, op)
  {
    var op := Blank(Update, t.name, "UPDATE " + t.name + " SET ").(byPk := Chance(d, at, 70), setName := Chance(d, at + 1, 40));
    NameDrawn(d, at + 2);
    ValueDrawn(d, profile, at + 2);
    if op.setName {
      var name := NextName(d, at + 2);
      WhereDrawn(d, profile, t, AfterName(d, at + 2), op.(name := name, sql := op.sql + "name = '" + name + "'"));
    } else {
      var v := NextValue(d, profile, at + 2);
      WhereDrawn(d, profile, t, at + 3, op.(v := v, sql := op.sql + "v = " + ToSigned(v)));
    }
  }

  lemma DeleteDrawn(d: Draws, profile: Profile, t: Table, at: nat)
    requires t.inserted + 3 < U64_LIMIT
    ensures var op := DrawDelete(d, profile, t, at).op; op.kind.Delete? && DrawnOk(profile, t.inserted, op)
  {
    WhereDrawn(d, profile, t, at + 1, Blank(Delete, t.name, "DELETE FROM " + t.name).(byPk := Chance(d, at, 70)));
  }

  lemma SelectPkDrawn(d: Draws, profile: Profile, t: Table, at: nat)
    requires t.inserted + 3 < U64_LIMIT
    ensures var op := DrawSelectPk(d, t, at).op; op.kind.SelectPk? && DrawnOk(profile, t.inserted, op)
  {
    KeyDrawn(d, at, t);
  }

  lemma SelectRangeDrawn(d: Draws, profile: Profile, t: Table, at: nat)
    requires t.inserted + 22 < U64_LIMIT
    ensures var op := DrawSelectRange(d, t, at).op; op.kind.SelectRange? && DrawnOk(profile, t.inserted, op)
  {
    KeyDrawn(d, at, t);
    assert GuessKey(d, at, t) + Below(d, at + 1, 20) < U64_LIMIT;
  }

  lemma FilterScanDrawn(d: Draws, profile: Profile, t: Table, at: nat)
    ensures var op := DrawFilterScan(d, profile, t, at).op; op.kind.FilterScan? && DrawnOk(profile, t.inserted, op)
  {
    ValueDrawn(d, profile, at);
  }

  /** The rolls of a hundred that give each kind of operation. */
  predicate KindOf(roll: nat, kind: Kind) {
    match kind
    case Insert => roll < 42
    case Update => 42 <= roll < 57
    case Delete => 57 <= roll < 64
    case SelectPk => 64 <= roll < 79
    case SelectRange => 79 <= roll < 88
    case FilterScan => 88 <= roll
    case _ => false
  }

  lemma RowDrawn(d: Draws, profile: Profile, t: Table, roll: nat, at: nat)
    requires t.inserted + 22 < U64_LIMIT
    ensures var op := DrawRow(d, profile, t, roll, at).op; KindOf(roll, op.kind) && DrawnOk(profile, t.inserted, op)
  {
    if roll < 42 { InsertDrawn(d, profile, t, at); }
    else if roll < 57 { UpdateDrawn(d, profile, t, at); }
    else if roll < 64 { DeleteDrawn(d, profile, t, at); }
    else if roll < 79 { SelectPkDrawn(d, profile, t, at); }
    else if roll < 88 { SelectRangeDrawn(d, profile, t, at); }
    else { FilterScanDrawn(d, profile, t, at); }
  }

  // ---- Over a stream ----------------------------------------------------------------------------

  /** How many of the first n operations insert into this table. */
  function InsertsInto(ops: seq<Op>, n: nat, table: string): nat
    requires n <= |ops|
  {
    if n == 0 then 0
    else InsertsInto(ops, n - 1, table) + if ops[n - 1].kind.Insert? && ops[n - 1].table == table then 1 else 0
  }

  /** The rolls below 42, and no others, insert, and into the table they are given. */
  ghost predicate Inserts(rows: RowGen) {
    forall t: Table, roll: nat, at: nat :: rows(t, roll, at).op.table == t.name && (rows(t, roll, at).op.kind.Insert? <==> roll < 42)
  }

  lemma RowsInsert(d: Draws, profile: Profile)
    ensures Inserts(RowsOf(d, profile))
  {
    var rows := RowsOf(d, profile);
    forall t: Table, roll: nat, at: nat
      ensures rows(t, roll, at).op.table == t.name && (rows(t, roll, at).op.kind.Insert? <==> roll < 42)
    {
      RowIsData(d, profile, t, roll, at);
      RowKind(d, profile, t, roll, at);
    }
  }

  lemma RowKind(d: Draws, profile: Profile, t: Table, roll: nat, at: nat)
    ensures DrawRow(d, profile, t, roll, at).op.kind.Insert? <==> roll < 42
  {}

  /** The counters go up by the INSERTs into their tables. */
  predicate Adds(s: State, op: Op, s': State) {
    && SameNames(s.tables, s'.tables)
    && forall k :: 0 <= k < |s.tables| ==>
         s'.tables[k].inserted == s.tables[k].inserted + if op.kind.Insert? && op.table == s.tables[k].name then 1 else 0
  }

  lemma DataAdds(d: Draws, rows: RowGen, s: State)
    requires Inserts(rows) && s.tables != [] && DistinctNames(s.tables)
    ensures Adds(s, DataOp(d, rows, s).op, DataOp(d, rows, s).state)
  {
    var pick := Below(d, s.at + 1, |s.tables|);
    assert forall k :: 0 <= k < |s.tables| ==> (s.tables[k].name == s.tables[pick].name <==> k == pick);
  }

  lemma SpecialKeepsTables(d: Draws, s: State)
    requires s.tables != []
    ensures DrawSpecial(d, s).state.tables == s.tables
    ensures DrawSpecial(d, s).op.Some? ==> !IsData(DrawSpecial(d, s).op.value.kind)
  {}

  lemma NextAdds(d: Draws, rows: RowGen, s: State)
    requires Inserts(rows) && s.tables != [] && DistinctNames(s.tables)
    ensures Adds(s, NextOp(d, rows, s).op, NextOp(d, rows, s).state)
  {
    if s.created >= |s.tables| {
      if !s.inTxn {
        SpecialKeepsTables(d, s);
        if DrawSpecial(d, s).op.None? { DataAdds(d, rows, DrawSpecial(d, s).state); }
      } else if s.left > 0 {
        DataAdds(d, rows, s.(left := s.left - 1));
      }
    }
  }

  ghost predicate Counting(ss: seq<State>, ops: seq<Op>) {
    |ss| == |ops| + 1 && forall i :: 0 <= i < |ops| ==> Adds(ss[i], ops[i], ss[i + 1])
  }

  lemma {:induction false} CountersFrom(ss: seq<State>, ops: seq<Op>, i: nat, k: nat)
    requires Counting(ss, ops) && i <= |ops| && k < |ss[0].tables| && ss[0].tables[k].inserted == 0
    ensures SameNames(ss[0].tables, ss[i].tables)
    ensures ss[i].tables[k].inserted == InsertsInto(ops, i, ss[0].tables[k].name)
  {
    if i > 0 {
      CountersFrom(ss, ops, i - 1, k);
      assert Adds(ss[i - 1], ops[i - 1], ss[i]);
    }
  }

  lemma StepAdds(d: Draws, rows: RowGen, i: nat)
    requires Inserts(rows) && DistinctNames(StateAt(d, rows, i).tables)
    ensures Adds(StateAt(d, rows, i), OpAt(d, rows, i), StateAt(d, rows, i + 1))
  {
    NextAdds(d, rows, StateAt(d, rows, i));
  }

  lemma {:induction false} NamesStay(d: Draws, rows: RowGen, i: nat)
    requires Inserts(rows)
    ensures DistinctNames(StateAt(d, rows, i).tables)
  {
    if i == 0 {
      StartNames(d);
    } else {
      NamesStay(d, rows, i - 1);
      StepAdds(d, rows, i - 1);
      SameDistinct(StateAt(d, rows, i - 1).tables, StateAt(d, rows, i).tables);
    }
  }

  lemma SameDistinct(a: seq<Table>, b: seq<Table>)
    requires SameNames(a, b) && DistinctNames(a)
    ensures DistinctNames(b)
  {}

  predicate AddsAt(ss: seq<State>, ops: seq<Op>, i: nat)
    requires i < |ops| && |ss| == |ops| + 1
  {
    Adds(ss[i], ops[i], ss[i + 1])
  }

  lemma StreamAdds(d: Draws, rows: RowGen, n: nat, i: nat)
    requires Inserts(rows) && i < n
    ensures AddsAt(States(d, rows, n), Stream(d, rows, n), i)
  {
    NamesStay(d, rows, i);
    StepAdds(d, rows, i);
    TracedState(d, rows, n, i);
    TracedState(d, rows, n, i + 1);
    TracedOp(d, rows, n, i);
  }

  lemma AddsCount(ss: seq<State>, ops: seq<Op>)
    requires |ss| == |ops| + 1 && forall i :: 0 <= i < |ops| ==> AddsAt(ss, ops, i)
    ensures Counting(ss, ops)
  {
    forall i | 0 <= i < |ops| ensures Adds(ss[i], ops[i], ss[i + 1]) { assert AddsAt(ss, ops, i); }
  }

  lemma StreamCounts(d: Draws, rows: RowGen, n: nat)
    requires Inserts(rows)
    ensures Counting(States(d, rows, n), Stream(d, rows, n))
  {
    forall i | 0 <= i < n ensures AddsAt(States(d, rows, n), Stream(d, rows, n), i) { StreamAdds(d, rows, n, i); }
    AddsCount(States(d, rows, n), Stream(d, rows, n));
  }

  /** **The counters are the INSERTs sent**, table by table, at every point of every stream. */
  lemma CountersCount(d: Draws, profile: Profile, n: nat, i: nat, k: nat)
    requires i <= n && k < |Start(d).tables|
    ensures var rows := RowsOf(d, profile);
            StateAt(d, rows, i).tables[k].inserted == InsertsInto(Stream(d, rows, n), i, StateAt(d, rows, i).tables[k].name)
  {
    var rows := RowsOf(d, profile);
    RowsInsert(d, profile);
    StreamCounts(d, rows, n);
    TracedState(d, rows, n, i);
    TracedState(d, rows, n, 0);
    CountersFrom(States(d, rows, n), Stream(d, rows, n), i, k);
  }

  lemma {:induction false} InsertsFew(ops: seq<Op>, n: nat, table: string)
    requires n <= |ops|
    ensures InsertsInto(ops, n, table) <= n
  {
    if n > 0 { InsertsFew(ops, n - 1, table); }
  }

  /** A data operation is drawn for one of the tables. */
  lemma DataFrom(d: Draws, rows: RowGen, s: State) returns (k: nat, roll: nat, at: nat)
    requires YieldsData(rows) && s.tables != [] && IsData(NextOp(d, rows, s).op.kind)
    ensures k < |s.tables| && roll < 100 && NextOp(d, rows, s).op == rows(s.tables[k], roll, at).op
  {
    var s' := if s.inTxn then s else DrawSpecial(d, s).state;
    SpecialKeepsTables(d, s);
    k, roll, at := Below(d, s'.at + 1, |s.tables|), Below(d, s'.at, 100), s'.at + 2;
  }

  /** **Keys, names and values are drawn as promised**: the i-th operation, if it names a key,
      names one of those the INSERTs before it may have been given, or one just past them. */
  lemma StreamDrawn(d: Draws, profile: Profile, n: nat, i: nat)
    requires i < n && n + 22 < U64_LIMIT
    ensures var ops := Stream(d, RowsOf(d, profile), n);
            IsData(ops[i].kind) ==> DrawnOk(profile, InsertsInto(ops, i, ops[i].table), ops[i])
  {
    var rows := RowsOf(d, profile);
    var ops, s := Stream(d, rows, n), StateAt(d, rows, i);
    if IsData(ops[i].kind) {
      RowsYieldData(d, profile);
      var k, roll, at := DataFrom(d, rows, s);
      CountersCount(d, profile, n, i, k);
      InsertsFew(ops, i, s.tables[k].name);
      RowDrawn(d, profile, s.tables[k], roll, at);
      RowIsData(d, profile, s.tables[k], roll, at);
    }
  }
}
