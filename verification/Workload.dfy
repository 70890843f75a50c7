/** sim/workload.cpp: the seeded operation generator. The random source is any stream of
    draws: `Below(n)` takes the next one modulo n, which reaches every value the rejection
    sampler of sim/rng.hpp can return and no other. */
module WorkloadModel {
  import opened Text
  import opened Optional
  import opened Ops
  import opened Plans

  type Draws = nat -> nat

  function Below(d: Draws, at: nat, n: nat): (r: nat)
    requires n > 0
    ensures r < n
  {
    d(at) % n
  }

  predicate Chance(d: Draws, at: nat, percent: nat) {
    Below(d, at, 100) < percent
  }

  // ---- Values ------------------------------------------------------------------------

  /** NextValue, one draw: a skewed one cubes the sample. */
  function NextValue(d: Draws, profile: Profile, at: nat): (v: I64)
    ensures 0 <= v <= 999
  {
    match profile
    case Uniform => Below(d, at, 1000)
    case Zipfian => Skewed(Below(d, at, 1000))
    case Colliding => Below(d, at, 5)
  }

  function Skewed(u: nat): (v: nat)
    requires u < 1000
    ensures v <= 999
  {
    CubeSmall(u);
    u * u * u / (1000 * 1000)
  }

  lemma CubeSmall(u: nat)
    requires u < 1000
    ensures u * u * u < 1000 * 1000 * 1000
  {
    Times(u, u, 999);
    Times(u * u, u, 999);
  }

  lemma Times(a: nat, b: nat, c: nat)
    requires b <= c
    ensures a * b <= a * c
  {}

  function NameLength(d: Draws, at: nat): nat {
    if Chance(d, at, 35) then 80 + Below(d, at + 1, 240) else Below(d, at + 1, 45)
  }

  function Letter(n: nat): (c: char)
    requires n < 26
    ensures 'a' <= c <= 'z'
  {
    ('a' as int + n) as char
  }

  /** NextName: the band, the length, then a draw a letter. */
  function NextName(d: Draws, at: nat): string {
    seq(NameLength(d, at), i requires 0 <= i => Letter(Below(d, at + 2 + i, 26)))
  }

  function AfterName(d: Draws, at: nat): nat {
    at + 2 + NameLength(d, at)
  }

  // ---- Operations --------------------------------------------------------------------

  datatype Table = Table(name: string, btree: bool, inserted: nat)

  function Blank(kind: Kind, table: string, sql: string): Op {
    Op(kind, table, sql, 0, 0, 0, 0, "", false, false, 0, false)
  }

  /** A 64-bit key. */
  function Key(n: nat): U64 {
    n % U64_LIMIT
  }

  /** Mostly hits, sometimes a miss just past the end. */
  function GuessKey(d: Draws, at: nat, t: Table): U64 {
    Key(1 + Below(d, at, t.inserted + 3))
  }

  datatype Drawn = Drawn(op: Op, at: nat)

  function DrawInsert(d: Draws, profile: Profile, t: Table, at: nat): Drawn {
    var v, name := NextValue(d, profile, at), NextName(d, at + 1);
    var sql := "INSERT INTO " + t.name + " VALUES (" + ToSigned(v) + ", '" + name + "')";
    Drawn(Blank(Insert, t.name, sql).(v := v, name := name), AfterName(d, at + 1))
  }

  /** The WHERE of an UPDATE or a DELETE: by key or by value. */
  function DrawWhere(d: Draws, profile: Profile, t: Table, at: nat, op: Op): Drawn {
    if op.byPk then
      var key := GuessKey(d, at, t);
      Drawn(op.(key := key, sql := op.sql + " WHERE id = " + ToDecimal(key)), at + 1)
    else
      var v := NextValue(d, profile, at);
      Drawn(op.(predV := v, sql := op.sql + " WHERE v = " + ToSigned(v)), at + 1)
  }

  function DrawUpdate(d: Draws, profile: Profile, t: Table, at: nat): Drawn {
    var op := Blank(Update, t.name, "UPDATE " + t.name + " SET ").(byPk := Chance(d, at, 70), setName := Chance(d, at + 1, 40));
    if op.setName then
      var name := NextName(d, at + 2);
      DrawWhere(d, profile, t, AfterName(d, at + 2), op.(name := name, sql := op.sql + "name = '" + name + "'"))
    else
      var v := NextValue(d, profile, at + 2);
      DrawWhere(d, profile, t, at + 3, op.(v := v, sql := op.sql + "v = " + ToSigned(v)))
  }

  function DrawDelete(d: Draws, profile: Profile, t: Table, at: nat): Drawn {
    DrawWhere(d, profile, t, at + 1, Blank(Delete, t.name, "DELETE FROM " + t.name).(byPk := Chance(d, at, 70)))
  }

  function DrawSelectPk(d: Draws, t: Table, at: nat): Drawn {
    var key := GuessKey(d, at, t);
    Drawn(Blank(SelectPk, t.name, "SELECT * FROM " + t.name + " WHERE id = " + ToDecimal(key)).(key := key), at + 1)
  }

  function DrawSelectRange(d: Draws, t: Table, at: nat): Drawn {
    var lo := GuessKey(d, at, t);
    var hi := Key(lo + Below(d, at + 1, 20));
    var sql := "SELECT * FROM " + t.name + " WHERE id BETWEEN " + ToDecimal(lo) + " AND " + ToDecimal(hi);
    Drawn(Blank(SelectRange, t.name, sql).(lo := lo, hi := hi), at + 2)
  }

  function DrawFilterScan(d: Draws, profile: Profile, t: Table, at: nat): Drawn {
    var v := NextValue(d, profile, at);
    Drawn(Blank(FilterScan, t.name, "SELECT * FROM " + t.name + " WHERE v = " + ToSigned(v)).(v := v), at + 1)
  }

  /** What the generator notes of the Cabins and the patterns it declared. */
  function CabinKey(table: string): string {
    table + ".v"
  }

  function PatternKey(table: string, byPk: bool): string {
    "pattern/" + (table + (if byPk then ":id" else ":v"))
  }

  // ---- The generator's value ---------------------------------------------------------------

  datatype State = State(
    tables: seq<Table>, created: nat, inTxn: bool, left: nat, cabins: set<string>, patterns: nat, at: nat)

  datatype Emitted = Emitted(state: State, op: Op)

  /** The operation a roll selects. */
  function DrawRow(d: Draws, profile: Profile, t: Table, roll: nat, at: nat): Drawn {
    if roll < 42 then DrawInsert(d, profile, t, at)
    else if roll < 57 then DrawUpdate(d, profile, t, at)
    else if roll < 64 then DrawDelete(d, profile, t, at)
    else if roll < 79 then DrawSelectPk(d, t, at)
    else if roll < 88 then DrawSelectRange(d, t, at)
    else DrawFilterScan(d, profile, t, at)
  }

  /** The data operation for a table, a roll and a place in the draws. */
  type RowGen = (Table, nat, nat) -> Drawn

  function RowsOf(d: Draws, profile: Profile): RowGen {
    (t: Table, roll: nat, at: nat) => DrawRow(d, profile, t, roll, at)
  }

  /** DataOp: the roll, the table, the operation. */
  function DataOp(d: Draws, rows: RowGen, s: State): (e: Emitted)
    requires s.tables != []
    ensures |e.state.tables| == |s.tables|
  {
    var roll, pick := Below(d, s.at, 100), Below(d, s.at + 1, |s.tables|);
    var t := s.tables[pick];
    var drawn := rows(t, roll, s.at + 2);
    Emitted(s.(at := drawn.at,
               tables := if roll < 42 then s.tables[pick := t.(inserted := t.inserted + 1)] else s.tables),
            drawn.op)
  }

  function CreateOp(t: Table): Op {
    Blank(CreateTable, t.name, "CREATE TABLE " + t.name + " (id int64, " + "v int64, name " + "varchar)"
                               + (if t.btree then " BTREE" else " HEAP")).(btree := t.btree)
  }

  function EndOp(d: Draws, s: State): Emitted {
    var commit := Chance(d, s.at, 70);
    Emitted(s.(inTxn := false, at := s.at + 1),
            if commit then Blank(Commit, "", "COMMIT") else Blank(Rollback, "", "ROLLBACK"))
  }

  function CabinDecl(table: string): Op {
    Blank(CreateCabin, table, "CREATE CABIN ON " + table + "(v)")
  }

  /** A draw that may declare something; when it does not, a data operation follows. */
  datatype Declared = Declared(state: State, op: Option<Op>)

  function DrawCabin(d: Draws, s: State): Declared
    requires s.tables != []
  {
    var t := s.tables[Below(d, s.at, |s.tables|)];
    var key, s' := CabinKey(t.name), s.(at := s.at + 1);
    if key in s.cabins then Declared(s', None)
    else Declared(s'.(cabins := s.cabins + {key}), Some(CabinDecl(t.name)))
  }

  function PatternSql(n: nat, table: string, byPk: bool): string {
    "CREATE PATTERN p" + ToDecimal(n)
    + (if byPk then " ($k int64) OF " else " ($x int64) OF ") + "SELECT * FROM " + table
    + (if byPk then " WHERE id = $k" else " WHERE v = $x")
  }

  function PatternDecl(n: nat, table: string, byPk: bool): Op {
    Blank(CreatePattern, table, PatternSql(n, table, byPk))
  }

  function DrawPattern(d: Draws, s: State): Declared
    requires s.tables != []
  {
    var t, byPk := s.tables[Below(d, s.at, |s.tables|)], Chance(d, s.at + 1, 50);
    var key, s' := PatternKey(t.name, byPk), s.(at := s.at + 2);
    if key in s.cabins then Declared(s', None)
    else Declared(s'.(cabins := s.cabins + {key}, patterns := s.patterns + 1),
                  Some(PatternDecl(s.patterns, t.name, byPk)))
  }

  function BeginSql(repeatable: bool): string {
    "BEGIN" + (if repeatable then " ISOLATION LEVEL" + " REPEATABLE READ" else "")
  }

  function DrawBegin(d: Draws, s: State): Declared {
    Declared(s.(inTxn := true, left := 1 + Below(d, s.at, 8), at := s.at + 2),
             Some(Blank(Begin, "", BeginSql(!Chance(d, s.at + 1, 50)))))
  }

  /** What the roll outside a transaction selects besides a data operation. */
  function DrawSpecial(d: Draws, s: State): Declared
    requires s.tables != []
  {
    var roll, s' := Below(d, s.at, 100), s.(at := s.at + 1);
    if roll < 82 then Declared(s', None)
    else if roll < 86 then Declared(s', Some(Blank(Sync, "", "SYNC")))
    else if roll < 89 then DrawCabin(d, s')
    else if roll < 92 then DrawPattern(d, s')
    else DrawBegin(d, s')
  }

  /** Next outside a transaction, once every table is created. */
  function OutsideOp(d: Draws, rows: RowGen, s: State): (e: Emitted)
    requires s.tables != []
    ensures |e.state.tables| == |s.tables|
  {
    var x := DrawSpecial(d, s);
    if x.op.None? then DataOp(d, rows, x.state) else Emitted(x.state, x.op.value)
  }

  function NextOp(d: Draws, rows: RowGen, s: State): (e: Emitted)
    requires s.tables != []
    ensures |e.state.tables| == |s.tables|
  {
    if s.created < |s.tables| then Emitted(s.(created := s.created + 1), CreateOp(s.tables[s.created]))
    else if !s.inTxn then OutsideOp(d, rows, s)
    else if s.left == 0 then EndOp(d, s)
    else DataOp(d, rows, s.(left := s.left - 1))
  }

  /** The constructor's tables: one to three, each heap or btree. */
  function FirstTables(d: Draws, n: nat): seq<Table> {
    seq(n, i requires 0 <= i => Table("t" + ToDecimal(i), Chance(d, 1 + i, 50), 0))
  }

  function Start(d: Draws): (s: State)
    ensures 1 <= |s.tables| <= 3
  {
    var n := 1 + Below(d, 0, 3);
    State(FirstTables(d, n), 0, false, 0, {}, 0, 1 + n)
  }

  // ---- The object -----------------------------------------------------------------------------

  class Workload {
    const draws: Draws
    const rows: RowGen
    var tables: seq<Table>
    var created: nat
    var inTxn: bool
    var txnOpsLeft: nat
    var cabins: set<string>
    var patterns: nat
    var at: nat

    function Value(): State
      reads this
    {
      State(tables, created, inTxn, txnOpsLeft, cabins, patterns, at)
    }

    constructor (draws: Draws, profile: Profile)
      ensures Value() == Start(draws) && this.draws == draws && rows == RowsOf(draws, profile)
    {
      this.draws, rows := draws, RowsOf(draws, profile);
      created, inTxn, txnOpsLeft, cabins, patterns := 0, false, 0, {}, 0;
      var n := 1 + Below(draws, 0, 3);
      var list: seq<Table> := [];
      for i := 0 to n
        invariant list == FirstTables(draws, i)
      {
        list := list + [Table("t" + ToDecimal(i), Chance(draws, 1 + i, 50), 0)];
      }
      tables, at := list, 1 + n;
    }

    method DrawData() returns (op: Op)
      requires tables != []
      modifies this`tables, this`at
      ensures Emitted(Value(), op) == DataOp(draws, rows, old(Value()))
    {
      var roll, pick := Below(draws, at, 100), Below(draws, at + 1, |tables|);
      var t := tables[pick];
      var drawn := rows(t, roll, at + 2);
      if roll < 42 { tables := tables[pick := t.(inserted := t.inserted + 1)]; }
      at := drawn.at;
      return drawn.op;
    }

    method DeclareCabin() returns (op: Option<Op>)
      requires tables != []
      modifies this`cabins, this`at
      ensures Declared(Value(), op) == DrawCabin(draws, old(Value()))
    {
      var t := tables[Below(draws, at, |tables|)];
      at := at + 1;
      var key := CabinKey(t.name);
      if key in cabins { return None; }
      cabins := cabins + {key};
      return Some(CabinDecl(t.name));
    }

    method DeclarePattern() returns (op: Option<Op>)
      requires tables != []
      modifies this`cabins, this`at, this`patterns
      ensures Declared(Value(), op) == DrawPattern(draws, old(Value()))
    {
      var t, byPk := tables[Below(draws, at, |tables|)], Chance(draws, at + 1, 50);
      at := at + 2;
      var key := PatternKey(t.name, byPk);
      if key in cabins { return None; }
      cabins := cabins + {key};
      op := Some(PatternDecl(patterns, t.name, byPk));
      patterns := patterns + 1;
    }

    method DeclareSpecial() returns (op: Option<Op>)
      requires tables != []
      modifies this
      ensures Declared(Value(), op) == DrawSpecial(draws, old(Value()))
    {
      var roll := Below(draws, at, 100);
      at := at + 1;
      if roll < 82 {
        op := None;
      } else if roll < 86 {
        op := Some(Blank(Sync, "", "SYNC"));
      } else if roll < 89 {
        op := DeclareCabin();
      } else if roll < 92 {
        op := DeclarePattern();
      } else {
        inTxn := true;
        txnOpsLeft := 1 + Below(draws, at, 8);
        op := Some(Blank(Begin, "", BeginSql(!Chance(draws, at + 1, 50))));
        at := at + 2;
      }
    }

    method DrawOutside() returns (op: Op)
      requires tables != []
      modifies this
      ensures Emitted(Value(), op) == OutsideOp(draws, rows, old(Value()))
    {
      var special := DeclareSpecial();
      if special.Some? { return special.value; }
      op := DrawData();
    }

    method Next() returns (op: Op)
      requires tables != []
      modifies this
      ensures Emitted(Value(), op) == NextOp(draws, rows, old(Value()))
    {
      if created < |tables| {
        op := CreateOp(tables[created]);
        created := created + 1;
      } else if !inTxn {
        op := DrawOutside();
      } else if txnOpsLeft == 0 {
        inTxn := false;
        op := if Chance(draws, at, 70) then Blank(Commit, "", "COMMIT") else Blank(Rollback, "", "ROLLBACK");
        at := at + 1;
      } else {
        txnOpsLeft := txnOpsLeft - 1;
        op := DrawData();
      }
    }
  }
}
