/** Every stream the generator can draw is well formed, whatever the draws. */
module Streams {
  import opened Text
  import opened Optional
  import opened Ops
  import opened Plans
  import opened WorkloadModel
  import opened WholeRuns
  import opened Finish
  import opened Iterations

  function StateAt(d: Draws, rows: RowGen, n: nat): (s: State)
    ensures |s.tables| == |Start(d).tables|
  {
    if n == 0 then Start(d) else NextOp(d, rows, StateAt(d, rows, n - 1)).state
  }

  function OpAt(d: Draws, rows: RowGen, n: nat): Op {
    NextOp(d, rows, StateAt(d, rows, n)).op
  }

  /** The first n operations. */
  function Stream(d: Draws, rows: RowGen, n: nat): seq<Op> {
    seq(n, i requires 0 <= i => OpAt(d, rows, i))
  }

  /** The names of the first i tables. */
  function Names(tables: seq<Table>, i: nat): set<string> {
    set k | 0 <= k < |tables| && k < i :: tables[k].name
  }

  predicate SameNames(a: seq<Table>, b: seq<Table>) {
    |a| == |b| && forall k :: 0 <= k < |a| ==> a[k].name == b[k].name
  }

  /** A row generator yields data operations on the table it is given. */
  ghost predicate YieldsData(rows: RowGen) {
    forall t, roll, at :: IsData(rows(t, roll, at).op.kind) && rows(t, roll, at).op.table == t.name
  }

  lemma RowsYieldData(d: Draws, profile: Profile)
    ensures YieldsData(RowsOf(d, profile))
  {
    var rows := RowsOf(d, profile);
    forall t: Table, roll: nat, at: nat ensures IsData(rows(t, roll, at).op.kind) && rows(t, roll, at).op.table == t.name {
      RowIsData(d, profile, t, roll, at);
    }
  }

  predicate DataOn(op: Op, table: string) {
    IsData(op.kind) && op.table == table
  }

  lemma WhereIsData(d: Draws, profile: Profile, t: Table, at: nat, op: Op)
    requires DataOn(op, t.name)
    ensures DataOn(DrawWhere(d, profile, t, at, op).op, t.name)
  {}

  lemma UpdateIsData(d: Draws, profile: Profile, t: Table, at: nat)
    ensures DataOn(DrawUpdate(d, profile, t, at).op, t.name)
  {
    var op := Blank(Update, t.name, "UPDATE " + t.name + " SET ").(byPk := Chance(d, at, 70), setName := Chance(d, at + 1, 40));
    if op.setName {
      var name := NextName(d, at + 2);
      WhereIsData(d, profile, t, AfterName(d, at + 2), op.(name := name, sql := op.sql + "name = '" + name + "'"));
    } else {
      var v := NextValue(d, profile, at + 2);
      WhereIsData(d, profile, t, at + 3, op.(v := v, sql := op.sql + "v = " + ToSigned(v)));
    }
  }

  lemma DeleteIsData(d: Draws, profile: Profile, t: Table, at: nat)
    ensures DataOn(DrawDelete(d, profile, t, at).op, t.name)
  {
    WhereIsData(d, profile, t, at + 1, Blank(Delete, t.name, "DELETE FROM " + t.name).(byPk := Chance(d, at, 70)));
  }

  lemma InsertIsData(d: Draws, profile: Profile, t: Table, at: nat)
    ensures DataOn(DrawInsert(d, profile, t, at).op, t.name)
  {}

  lemma SelectsAreData(d: Draws, profile: Profile, t: Table, at: nat)
    ensures DataOn(DrawSelectPk(d, t, at).op, t.name) && DataOn(DrawSelectRange(d, t, at).op, t.name)
    ensures DataOn(DrawFilterScan(d, profile, t, at).op, t.name)
  {}

  lemma RowIsData(d: Draws, profile: Profile, t: Table, roll: nat, at: nat)
    ensures DataOn(DrawRow(d, profile, t, roll, at).op, t.name)
  {
    if roll < 42 { InsertIsData(d, profile, t, at); }
    else if roll < 57 { UpdateIsData(d, profile, t, at); }
    else if roll < 64 { DeleteIsData(d, profile, t, at); }
    else { SelectsAreData(d, profile, t, at); }
  }

  // ---- One operation --------------------------------------------------------------------

  /** What the generator may emit, by its state: creations first; inside a transaction its
      data operations and then its end; outside it anything but an end. What reads, writes
      or declares names one of its tables. */
  predicate Emits(s: State, op: Op, s': State) {
    && SameNames(s.tables, s'.tables)
    && if s.created < |s.tables| then
      op.kind.CreateTable? && s' == s.(created := s.created + 1) && op.table == s.tables[s.created].name
    else
      && s'.created == s.created
      && (IsData(op.kind) || IsDecl(op.kind) ==> op.table in Names(s.tables, |s.tables|))
      && if s.inTxn && s.left == 0 then IsEnd(op.kind) && !s'.inTxn
         else if s.inTxn then IsData(op.kind) && s'.inTxn && s'.left == s.left - 1
         else if op.kind.Begin? then s'.inTxn && 1 <= s'.left <= 8
         else !s'.inTxn && !op.kind.CreateTable? && !IsEnd(op.kind)
  }

  lemma DataEmits(d: Draws, rows: RowGen, s: State)
    requires YieldsData(rows) && s.tables != []
    ensures var e := DataOp(d, rows, s); IsData(e.op.kind) && e.state == s.(at := e.state.at, tables := e.state.tables)
    ensures var e := DataOp(d, rows, s);
            SameNames(s.tables, e.state.tables) && e.op.table in Names(s.tables, |s.tables|)
  {
    var pick := Below(d, s.at + 1, |s.tables|);
    assert DataOp(d, rows, s).op.table == s.tables[pick].name;
  }

  lemma SpecialEmits(d: Draws, s: State)
    requires s.tables != [] && !s.inTxn
    ensures var x := DrawSpecial(d, s);
            && x.state.created == s.created && x.state.tables == s.tables
            && (x.op.None? ==> !x.state.inTxn)
            && (x.op.Some? ==> var k := x.op.value.kind;
                 if k.Begin? then x.state.inTxn && 1 <= x.state.left <= 8
                 else (!x.state.inTxn && (k.Sync? || IsDecl(k))
                       && (IsDecl(k) ==> x.op.value.table in Names(s.tables, |s.tables|))))
  {}

  lemma NextEmits(d: Draws, rows: RowGen, s: State)
    requires YieldsData(rows) && s.tables != []
    ensures var e := NextOp(d, rows, s); Emits(s, e.op, e.state)
  {
    if s.created >= |s.tables| {
      if s.inTxn {
        if s.left > 0 { DataEmits(d, rows, s.(left := s.left - 1)); }
      } else {
        SpecialEmits(d, s);
        var x := DrawSpecial(d, s);
        if x.op.None? { DataEmits(d, rows, x.state); }
      }
    }
  }

  // ---- Runs of the generator ---------------------------------------------------------------

  /** States and the operations between them, from a generator that has emitted nothing. */
  ghost predicate IsTrace(ss: seq<State>, ops: seq<Op>, tables: seq<Table>) {
    && |ss| == |ops| + 1 && ss[0].tables == tables && ss[0].created == 0 && !ss[0].inTxn && ss[0].cabins == {}
    && (forall i :: 0 <= i < |ops| ==> Emits(ss[i], ops[i], ss[i + 1]))
    && (forall i :: 0 <= i < |ops| ==> Declares(ss[i], ops[i], ss[i + 1]))
  }

  /** The states of a run, the last one after n operations. */
  function States(d: Draws, rows: RowGen, n: nat): (ss: seq<State>)
    ensures |ss| == n + 1
  {
    seq(n + 1, i requires 0 <= i => StateAt(d, rows, i))
  }

  lemma StepFrom(d: Draws, rows: RowGen, s: State, op: Op, s': State)
    requires YieldsData(rows) && s.tables != [] && NextOp(d, rows, s) == Emitted(s', op)
    ensures Emits(s, op, s') && Declares(s, op, s')
  {
    NextEmits(d, rows, s);
    NextDeclares(d, rows, s);
  }

  lemma {:induction false} StepAt(d: Draws, rows: RowGen, n: nat, m: nat)
    requires YieldsData(rows) && m == n + 1
    ensures Emits(StateAt(d, rows, n), OpAt(d, rows, n), StateAt(d, rows, m))
    ensures Declares(StateAt(d, rows, n), OpAt(d, rows, n), StateAt(d, rows, m))
  {
    StepFrom(d, rows, StateAt(d, rows, n), OpAt(d, rows, n), StateAt(d, rows, m));
  }

  lemma TracedState(d: Draws, rows: RowGen, n: nat, i: nat)
    requires i <= n
    ensures States(d, rows, n)[i] == StateAt(d, rows, i)
  {}

  lemma TracedOp(d: Draws, rows: RowGen, n: nat, i: nat)
    requires i < n
    ensures Stream(d, rows, n)[i] == OpAt(d, rows, i)
  {}

  ghost predicate Stepped(ss: seq<State>, ops: seq<Op>, i: nat)
    requires i < |ops| && |ss| == |ops| + 1
  {
    Emits(ss[i], ops[i], ss[i + 1]) && Declares(ss[i], ops[i], ss[i + 1])
  }

  lemma TracedStep(d: Draws, rows: RowGen, n: nat, i: nat)
    requires YieldsData(rows) && i < n
    ensures Stepped(States(d, rows, n), Stream(d, rows, n), i)
  {
    TracedState(d, rows, n, i);
    TracedState(d, rows, n, i + 1);
    TracedOp(d, rows, n, i);
    StepAt(d, rows, i, i + 1);
  }

  lemma TracedStart(d: Draws, rows: RowGen, n: nat)
    ensures var s := States(d, rows, n)[0]; s.tables == Start(d).tables && s.created == 0 && !s.inTxn && s.cabins == {}
  {}

  lemma SteppedTrace(ss: seq<State>, ops: seq<Op>)
    requires |ss| == |ops| + 1 && ss[0].created == 0 && !ss[0].inTxn && ss[0].cabins == {}
    requires forall i :: 0 <= i < |ops| ==> Stepped(ss, ops, i)
    ensures IsTrace(ss, ops, ss[0].tables)
  {
    forall i | 0 <= i < |ops| ensures Emits(ss[i], ops[i], ss[i + 1]) && Declares(ss[i], ops[i], ss[i + 1]) {
      assert Stepped(ss, ops, i);
    }
  }

  lemma GeneratedTrace(d: Draws, rows: RowGen, n: nat)
    requires YieldsData(rows)
    ensures IsTrace(States(d, rows, n), Stream(d, rows, n), Start(d).tables)
  {
    forall i | 0 <= i < n ensures Stepped(States(d, rows, n), Stream(d, rows, n), i) { TracedStep(d, rows, n, i); }
    TracedStart(d, rows, n);
    SteppedTrace(States(d, rows, n), Stream(d, rows, n));
  }

  lemma {:induction false} NamesKept(ss: seq<State>, ops: seq<Op>, tables: seq<Table>, i: nat)
    requires IsTrace(ss, ops, tables) && i < |ss|
    ensures SameNames(ss[i].tables, tables)
  {
    if i > 0 {
      NamesKept(ss, ops, tables, i - 1);
      assert Emits(ss[i - 1], ops[i - 1], ss[i]);
    }
  }

  // ---- Creations --------------------------------------------------------------------------

  predicate Creating(s: State, n: nat, tables: seq<Table>) {
    && s.created == (if n < |tables| then n else |tables|)
    && (n <= |tables| ==> s.tables == tables && !s.inTxn)
  }

  lemma {:induction false} CreatesFirst(ss: seq<State>, ops: seq<Op>, tables: seq<Table>, i: nat)
    requires IsTrace(ss, ops, tables) && i < |ss|
    ensures Creating(ss[i], i, tables)
  {
    if i > 0 {
      CreatesFirst(ss, ops, tables, i - 1);
      NamesKept(ss, ops, tables, i - 1);
      assert Emits(ss[i - 1], ops[i - 1], ss[i]);
    }
  }

  /** Tables are created first and once each: the i-th operation creates the i-th table,
      and no operation after the last table creates any. */
  lemma CreatedOnce(ss: seq<State>, ops: seq<Op>, tables: seq<Table>, i: nat)
    requires IsTrace(ss, ops, tables) && i < |ops|
    ensures ops[i].kind.CreateTable? <==> i < |tables|
    ensures i < |tables| ==> ops[i].table == tables[i].name
  {
    CreatesFirst(ss, ops, tables, i);
    NamesKept(ss, ops, tables, i);
    assert Emits(ss[i], ops[i], ss[i + 1]);
  }

  // ---- Transactions -------------------------------------------------------------------------

  /** The n operations before the i-th are data operations after a BEGIN. */
  predicate OpenSince(ops: seq<Op>, i: nat, n: nat)
    requires i <= |ops|
  {
    n < i && ops[i - n - 1].kind.Begin? && forall k :: i - n <= k < i ==> IsData(ops[k].kind)
  }

  /** Inside a transaction: what was drawn since its BEGIN and what is left make one to
      eight. */
  lemma {:induction false} OpenTransaction(ss: seq<State>, ops: seq<Op>, tables: seq<Table>, i: nat) returns (n: nat)
    requires IsTrace(ss, ops, tables) && i < |ss| && ss[i].inTxn
    ensures OpenSince(ops, i, n) && 1 <= n + ss[i].left <= 8
    decreases i
  {
    CreatesFirst(ss, ops, tables, i);
    CreatesFirst(ss, ops, tables, i - 1);
    NamesKept(ss, ops, tables, i - 1);
    assert Emits(ss[i - 1], ops[i - 1], ss[i]);
    if ss[i - 1].inTxn {
      n := OpenTransaction(ss, ops, tables, i - 1);
      n := n + 1;
    } else {
      n := 0;
    }
  }

  /** A finished transaction is a BEGIN, one to eight data operations, and its end; every
      end finishes one. */
  lemma FinishedTransaction(ss: seq<State>, ops: seq<Op>, tables: seq<Table>, i: nat) returns (n: nat)
    requires IsTrace(ss, ops, tables) && i < |ops| && IsEnd(ops[i].kind)
    ensures OpenSince(ops, i, n) && 1 <= n <= 8
  {
    assert Emits(ss[i], ops[i], ss[i + 1]);
    n := OpenTransaction(ss, ops, tables, i);
  }

  predicate BegunAfter(op: Op, begun: bool) {
    op.kind.Begin? || (begun && !IsEnd(op.kind))
  }

  /** Whether the stream has begun a transaction and not ended it before the i-th op. */
  function Begun(ops: seq<Op>, i: nat): bool
    requires i <= |ops|
  {
    if i == 0 then false else BegunAfter(ops[i - 1], Begun(ops, i - 1))
  }

  lemma {:induction false} BegunIsOpen(ss: seq<State>, ops: seq<Op>, tables: seq<Table>, i: nat)
    requires IsTrace(ss, ops, tables) && i < |ss|
    ensures Begun(ops, i) == ss[i].inTxn
  {
    if i > 0 {
      BegunIsOpen(ss, ops, tables, i - 1);
      CreatesFirst(ss, ops, tables, i - 1);
      NamesKept(ss, ops, tables, i - 1);
      assert Emits(ss[i - 1], ops[i - 1], ss[i]);
    }
  }

  /** BEGINs never nest, ends stand only inside a transaction, and nothing but data
      operations and the end does: no SYNC and no DDL. */
  lemma NothingNests(ss: seq<State>, ops: seq<Op>, tables: seq<Table>, i: nat)
    requires IsTrace(ss, ops, tables) && i < |ops|
    ensures if Begun(ops, i) then IsData(ops[i].kind) || IsEnd(ops[i].kind) else !IsEnd(ops[i].kind)
  {
    BegunIsOpen(ss, ops, tables, i);
    CreatesFirst(ss, ops, tables, i);
    NamesKept(ss, ops, tables, i);
    assert Emits(ss[i], ops[i], ss[i + 1]);
  }

  // ---- Declarations ---------------------------------------------------------------------------

  /** The text of a drawn pattern. */
  ghost predicate IsDrawn(op: Op) {
    op.kind.CreatePattern? ==> exists n: nat, byPk :: op.sql == PatternSql(n, op.table, byPk)
  }

  function NoteOf(op: Op): string {
    if op.kind.CreateCabin? then CabinKey(op.table)
    else PatternKey(op.table, op.sql != "" && op.sql[|op.sql| - 1] == 'k')
  }

  /** Nothing is forgotten, and a declaration is of something new. */
  ghost predicate Declares(s: State, op: Op, s': State) {
    && s.cabins <= s'.cabins
    && (IsDecl(op.kind) ==> IsDrawn(op) && NoteOf(op) !in s.cabins && NoteOf(op) in s'.cabins)
  }

  lemma PatternEnds(n: nat, table: string, byPk: bool)
    ensures var sql := PatternSql(n, table, byPk); sql != "" && (sql[|sql| - 1] == 'k' <==> byPk)
  {
    var end := if byPk then " WHERE id = $k" else " WHERE v = $x";
    var sql := PatternSql(n, table, byPk);
    assert sql[|sql| - 1] == end[|end| - 1];
  }

  /** What a draw that may declare something does to the declared set. */
  ghost predicate MayDeclare(s: State, x: Declared) {
    if x.op.Some? then Declares(s, x.op.value, x.state) else x.state.cabins == s.cabins
  }

  lemma PatternDeclares(d: Draws, s: State)
    requires s.tables != []
    ensures MayDeclare(s, DrawPattern(d, s))
  {
    var t, byPk := s.tables[Below(d, s.at, |s.tables|)], Chance(d, s.at + 1, 50);
    var x, key, op := DrawPattern(d, s), PatternKey(t.name, byPk), PatternDecl(s.patterns, t.name, byPk);
    PatternNoteOf(s.patterns, t.name, byPk);
    DeclaresNew(s, x, op, key);
  }

  lemma PatternNoteOf(n: nat, table: string, byPk: bool)
    ensures NoteOf(PatternDecl(n, table, byPk)) == PatternKey(table, byPk) && IsDrawn(PatternDecl(n, table, byPk))
  {
    PatternEnds(n, table, byPk);
  }

  lemma DeclaresNew(s: State, x: Declared, op: Op, key: string)
    requires NoteOf(op) == key && IsDrawn(op)
    requires if key in s.cabins then x.op.None? && x.state.cabins == s.cabins
             else x.op == Some(op) && x.state.cabins == s.cabins + {key}
    ensures MayDeclare(s, x)
  {}

  lemma CabinDeclares(d: Draws, s: State)
    requires s.tables != []
    ensures MayDeclare(s, DrawCabin(d, s))
  {}

  lemma SpecialDeclares(d: Draws, s: State)
    requires s.tables != []
    ensures MayDeclare(s, DrawSpecial(d, s))
  {
    var roll, s' := Below(d, s.at, 100), s.(at := s.at + 1);
    if 86 <= roll < 89 {
      CabinDeclares(d, s');
      SameCabins(s, s', DrawCabin(d, s'));
    } else if 89 <= roll < 92 {
      PatternDeclares(d, s');
      SameCabins(s, s', DrawPattern(d, s'));
    }
  }

  lemma SameCabins(s: State, s': State, x: Declared)
    requires s.cabins == s'.cabins && MayDeclare(s', x)
    ensures MayDeclare(s, x)
  {}

  lemma NextDeclares(d: Draws, rows: RowGen, s: State)
    requires YieldsData(rows) && s.tables != []
    ensures var e := NextOp(d, rows, s); Declares(s, e.op, e.state)
  {
    if s.created >= |s.tables| {
      if s.inTxn {
        if s.left > 0 { DataEmits(d, rows, s.(left := s.left - 1)); }
      } else {
        SpecialDeclares(d, s);
        var x := DrawSpecial(d, s);
        if x.op.None? { DataEmits(d, rows, x.state); }
      }
    }
  }

  lemma {:induction false} Remembered(ss: seq<State>, ops: seq<Op>, tables: seq<Table>, i: nat, j: nat)
    requires IsTrace(ss, ops, tables) && i < j < |ss| && IsDecl(ops[i].kind)
    ensures NoteOf(ops[i]) in ss[j].cabins
    decreases j - i
  {
    if j == i + 1 {
      assert Declares(ss[i], ops[i], ss[i + 1]);
    } else {
      Remembered(ss, ops, tables, i, j - 1);
      assert Declares(ss[j - 1], ops[j - 1], ss[j]);
    }
  }

  // The engine tells patterns apart by their bodies, the generator by its notes.

  /** A pattern's body from the end of its parameter list on. */
  function Body(table: string, byPk: bool): string {
    [')'] + (" OF " + "SELECT * FROM " + table + (if byPk then " WHERE id = $k" else " WHERE v = $x"))
  }

  lemma NoParenthesis(n: nat, byPk: bool)
    ensures ')' !in "CREATE PATTERN p" + ToDecimal(n) + (if byPk then " ($k int64" else " ($x int64")
  {
    var digits := ToDecimal(n);
    assert forall i :: 0 <= i < |digits| ==> digits[i] != ')';
    assert ')' !in "CREATE PATTERN p" && ')' !in " ($k int64" && ')' !in " ($x int64";
  }

  lemma PatternSplits(n: nat, table: string, byPk: bool)
    ensures PatternSql(n, table, byPk) ==
            "CREATE PATTERN p" + ToDecimal(n) + (if byPk then " ($k int64" else " ($x int64") + Body(table, byPk)
  {
    assert " ($k int64) OF " == " ($k int64" + ([')'] + " OF ");
    assert " ($x int64) OF " == " ($x int64" + ([')'] + " OF ");
  }

  lemma SuffixFound(head: string, tail: string)
    requires ')' !in head
    ensures var s := head + ([')'] + tail); s[Find(s, ')', 0)..] == [')'] + tail
  {
    FindAt(head, ')', tail);
    assert head + ([')'] + tail) == head + [')'] + tail;
  }

  lemma PatternBody(n: nat, table: string, byPk: bool)
    ensures var sql := PatternSql(n, table, byPk); sql[Find(sql, ')', 0)..] == Body(table, byPk)
  {
    NoParenthesis(n, byPk);
    PatternSplits(n, table, byPk);
    SuffixFound("CREATE PATTERN p" + ToDecimal(n) + (if byPk then " ($k int64" else " ($x int64"), Body(table, byPk)[1..]);
  }

  lemma SameMiddle(a: string, t: string, t': string, z: string)
    requires a + t + z == a + t' + z
    ensures t == t'
  {
    assert |t| == |t'|;
    assert forall i :: 0 <= i < |t| ==> t[i] == (a + t + z)[|a| + i] == (a + t' + z)[|a| + i] == t'[i];
  }

  lemma BodyEnds(table: string, byPk: bool)
    ensures var b := Body(table, byPk); b[|b| - 1] == if byPk then 'k' else 'x'
  {
    var end := if byPk then " WHERE id = $k" else " WHERE v = $x";
    var b := Body(table, byPk);
    assert b[|b| - 1] == end[|end| - 1];
  }

  lemma BodyInjective(t: string, byPk: bool, t': string, byPk': bool)
    requires Body(t, byPk) == Body(t', byPk')
    ensures t == t' && byPk == byPk'
  {
    BodyEnds(t, byPk);
    BodyEnds(t', byPk');
    var front, end := [')'] + (" OF " + "SELECT * FROM "), if byPk then " WHERE id = $k" else " WHERE v = $x";
    assert Body(t, byPk) == front + t + end && Body(t', byPk') == front + t' + end;
    SameMiddle(front, t, t', end);
  }

  lemma PatternNoted(op: Op, n: nat, byPk: bool)
    requires op.kind.CreatePattern? && op.sql == PatternSql(n, op.table, byPk)
    ensures NoteOf(op) == PatternKey(op.table, byPk) && DeclOf(op) == PatternOf(Body(op.table, byPk))
  {
    PatternBody(n, op.table, byPk);
    PatternEnds(n, op.table, byPk);
  }

  /** Two drawn declarations of one thing are noted alike. */
  lemma NotedAlike(a: Op, b: Op)
    requires IsDrawn(a) && IsDrawn(b) && IsDecl(a.kind) && IsDecl(b.kind) && DeclOf(a) == DeclOf(b)
    ensures NoteOf(a) == NoteOf(b)
  {
    if a.kind.CreatePattern? {
      var m, p :| a.sql == PatternSql(m, a.table, p);
      var n, q :| b.sql == PatternSql(n, b.table, q);
      PatternNoted(a, m, p);
      PatternNoted(b, n, q);
      BodyInjective(a.table, p, b.table, q);
    }
  }

  /** No Cabin and no pattern is declared twice. */
  lemma DeclaredOnce(ss: seq<State>, ops: seq<Op>, tables: seq<Table>, i: nat, j: nat)
    requires IsTrace(ss, ops, tables) && i < j < |ops| && IsDecl(ops[i].kind) && IsDecl(ops[j].kind)
    ensures DeclOf(ops[i]) != DeclOf(ops[j])
  {
    assert Declares(ss[i], ops[i], ss[i + 1]);
    if DeclOf(ops[i]) == DeclOf(ops[j]) && IsDrawn(ops[j]) { NotedAlike(ops[i], ops[j]); }
    Remembered(ss, ops, tables, i, j);
    assert Declares(ss[j], ops[j], ss[j + 1]);
  }

  // ---- What the runs need of a stream ---------------------------------------------------------

  predicate DistinctNames(tables: seq<Table>) {
    forall i, j :: 0 <= i < j < |tables| ==> tables[i].name != tables[j].name
  }

  lemma NamesGrow(tables: seq<Table>, i: nat)
    requires i < |tables|
    ensures Names(tables, i + 1) == Names(tables, i) + {tables[i].name}
  {}

  lemma NamesFull(tables: seq<Table>, i: nat)
    requires i >= |tables|
    ensures Names(tables, i + 1) == Names(tables, i)
  {}

  lemma {:induction false} CreationsOver(ss: seq<State>, ops: seq<Op>, tables: seq<Table>, i: nat, created: set<string>)
    requires IsTrace(ss, ops, tables) && |tables| <= i <= |ops|
    ensures NoCreate(ops[i..], created)
    decreases |ops| - i
  {
    if i < |ops| {
      CreatedOnce(ss, ops, tables, i);
      CreationsOver(ss, ops, tables, i + 1, created);
      assert ops[i..][1..] == ops[i + 1..];
    }
  }

  lemma CreatedNames(ss: seq<State>, ops: seq<Op>, tables: seq<Table>, i: nat)
    requires IsTrace(ss, ops, tables) && DistinctNames(tables) && i < |ops|
    ensures CreatedBy(ops[i], Names(tables, i)) == Names(tables, i + 1)
    ensures ops[i].kind.CreateTable? ==> ops[i].table !in Names(tables, i)
  {
    CreatedOnce(ss, ops, tables, i);
    if i < |tables| {
      NamesGrow(tables, i);
      assert forall k :: 0 <= k < i ==> tables[k].name != tables[i].name;
    } else {
      NamesFull(tables, i);
    }
  }

  lemma {:induction false} SuffixOk(ss: seq<State>, ops: seq<Op>, tables: seq<Table>, i: nat)
    requires IsTrace(ss, ops, tables) && DistinctNames(tables) && i <= |ops|
    ensures StreamOk(ops[i..], Names(tables, i))
    decreases |ops| - i
  {
    if i < |ops| {
      CreatedNames(ss, ops, tables, i);
      CreatedOnce(ss, ops, tables, i);
      SuffixOk(ss, ops, tables, i + 1);
      assert ops[i..][1..] == ops[i + 1..];
      if ops[i].kind.Begin? {
        CreationsOver(ss, ops, tables, i + 1, Names(tables, i));
      }
    }
  }

  /** What the first i operations declared. */
  function Declared(ops: seq<Op>, i: nat): set<Declaration>
    requires i <= |ops|
  {
    set k | 0 <= k < i && IsDecl(ops[k].kind) :: DeclOf(ops[k])
  }

  /** What the engine has accepted before the i-th operation. */
  function CatalogAt(ops: seq<Op>, tables: seq<Table>, i: nat): Catalog
    requires i <= |ops|
  {
    Catalog(Names(tables, i), if Begun(ops, i) then Some(Names(tables, i)) else None, Declared(ops, i))
  }

  lemma KeysGrow(ops: seq<Op>, i: nat)
    requires i < |ops|
    ensures Declared(ops, i + 1) == Declared(ops, i) + (if IsDecl(ops[i].kind) then {DeclOf(ops[i])} else {})
  {}

  lemma NewKey(ss: seq<State>, ops: seq<Op>, tables: seq<Table>, i: nat)
    requires IsTrace(ss, ops, tables) && i < |ops| && IsDecl(ops[i].kind)
    ensures DeclOf(ops[i]) !in Declared(ops, i)
  {
    forall k | 0 <= k < i && IsDecl(ops[k].kind) ensures DeclOf(ops[k]) != DeclOf(ops[i]) {
      DeclaredOnce(ss, ops, tables, k, i);
    }
  }

  lemma KnownTable(ss: seq<State>, ops: seq<Op>, tables: seq<Table>, i: nat)
    requires IsTrace(ss, ops, tables) && i < |ops| && (IsData(ops[i].kind) || IsDecl(ops[i].kind))
    ensures ops[i].table in Names(tables, i)
  {
    CreatedOnce(ss, ops, tables, i);
    CreatesFirst(ss, ops, tables, i);
    NamesKept(ss, ops, tables, i);
    assert Emits(ss[i], ops[i], ss[i + 1]);
    var k :| 0 <= k < |tables| && ss[i].tables[k].name == ops[i].table;
    assert tables[k].name in Names(tables, i);
  }

  lemma OpAccepted(ss: seq<State>, ops: seq<Op>, tables: seq<Table>, i: nat)
    requires IsTrace(ss, ops, tables) && DistinctNames(tables) && i < |ops|
    ensures Accepted(ops[i], CatalogAt(ops, tables, i))
    ensures Recorded(ops[i], CatalogAt(ops, tables, i)) == CatalogAt(ops, tables, i + 1)
  {
    NothingNests(ss, ops, tables, i);
    CreatedNames(ss, ops, tables, i);
    KeysGrow(ops, i);
    if IsDecl(ops[i].kind) { NewKey(ss, ops, tables, i); }
    if IsData(ops[i].kind) || IsDecl(ops[i].kind) { KnownTable(ss, ops, tables, i); }
  }

  lemma {:induction false} SuffixAccepted(ss: seq<State>, ops: seq<Op>, tables: seq<Table>, i: nat)
    requires IsTrace(ss, ops, tables) && DistinctNames(tables) && i <= |ops|
    ensures CatalogOk(ops[i..], CatalogAt(ops, tables, i))
    ensures Final(ops[i..], CatalogAt(ops, tables, i)) == CatalogAt(ops, tables, |ops|)
    ensures Made(ops[i..], Names(tables, i)) == Names(tables, |ops|)
    decreases |ops| - i
  {
    if i < |ops| {
      OpAccepted(ss, ops, tables, i);
      CreatedNames(ss, ops, tables, i);
      SuffixAccepted(ss, ops, tables, i + 1);
      assert ops[i..][1..] == ops[i + 1..];
    }
  }

  lemma StartNames(d: Draws)
    ensures DistinctNames(Start(d).tables)
  {
    var tables := Start(d).tables;
    forall i, j | 0 <= i < j < |tables| ensures tables[i].name != tables[j].name {
      if tables[i].name == tables[j].name {
        assert ToDecimal(i) == tables[i].name[1..] == tables[j].name[1..] == ToDecimal(j);
        DecimalInjective(i, j);
      }
    }
  }

  /** What the SYNCs of a stream see they cover, and nothing takes it back. */
  lemma {:induction false} SyncsCover(ss: seq<State>, ops: seq<Op>, tables: seq<Table>, i: nat, synced: set<string>, covered: set<string>)
    requires IsTrace(ss, ops, tables) && DistinctNames(tables) && i <= |ops|
    requires synced <= covered && synced <= Names(tables, i)
    ensures var synced' := SyncedBy(ops[i..], Names(tables, i), synced);
            synced' <= CoveredBy(ops[i..], CatalogAt(ops, tables, i), covered) && synced' <= Names(tables, |ops|)
    decreases |ops| - i
  {
    if i < |ops| {
      var c' := CatalogAt(ops, tables, i + 1);
      OpAccepted(ss, ops, tables, i);
      CreatedNames(ss, ops, tables, i);
      assert ops[i..][1..] == ops[i + 1..];
      assert Names(tables, i) <= Names(tables, i + 1) == c'.View();
      var synced', covered' := if ops[i].kind.Sync? then Names(tables, i) else synced, if ops[i].kind.Sync? then c'.View() else covered * c'.View();
      SyncsCover(ss, ops, tables, i + 1, synced', covered');
    }
  }

  /** Every generated stream is one the harness may run, with faults and without, however it
      stops: it creates no relation twice and none inside a transaction, asks nothing the
      engine refuses and keeps every relation it creates. */
  lemma GeneratedStreamOk(d: Draws, profile: Profile, n: nat, r: Rules)
    ensures Allowed(r, Stream(d, RowsOf(d, profile), n))
  {
    var rows := RowsOf(d, profile);
    RowsYieldData(d, profile);
    GeneratedTrace(d, rows, n);
    StartNames(d);
    var ops, ss, tables := Stream(d, rows, n), States(d, rows, n), Start(d).tables;
    SuffixOk(ss, ops, tables, 0);
    SuffixAccepted(ss, ops, tables, 0);
    SyncsCover(ss, ops, tables, 0, {}, {});
    assert ops[0..] == ops;
    assert CatalogAt(ops, tables, 0) == BLANK;
    assert Names(tables, 0) == {};
  }

  // ---- What is left of a stream after shrinking -------------------------------------------------

  /** `part` is `ops` at these rising places. */
  predicate PickedOps(part: seq<Op>, ops: seq<Op>, at: seq<nat>) {
    && |at| == |part|
    && (forall i, j :: 0 <= i < j < |at| ==> at[i] < at[j])
    && (forall i :: 0 <= i < |at| ==> at[i] < |ops| && part[i] == ops[at[i]])
  }

  lemma {:induction false} PickedNoCreate(ss: seq<State>, ops: seq<Op>, tables: seq<Table>,
                                          part: seq<Op>, at: seq<nat>, i: nat, created: set<string>)
    requires IsTrace(ss, ops, tables) && PickedOps(part, ops, at) && i <= |part|
    requires i < |part| ==> |tables| <= at[i]
    ensures NoCreate(part[i..], created)
    decreases |part| - i
  {
    if i < |part| {
      CreatedOnce(ss, ops, tables, at[i]);
      PickedNoCreate(ss, ops, tables, part, at, i + 1, created);
      assert part[i..][1..] == part[i + 1..];
    }
  }

  lemma {:induction false} PickedSuffixOk(ss: seq<State>, ops: seq<Op>, tables: seq<Table>,
                                          part: seq<Op>, at: seq<nat>, i: nat, created: set<string>)
    requires IsTrace(ss, ops, tables) && DistinctNames(tables) && PickedOps(part, ops, at) && i <= |part|
    requires forall k :: i <= k < |part| && at[k] < |tables| ==> tables[at[k]].name !in created
    ensures StreamOk(part[i..], created)
    decreases |part| - i
  {
    if i < |part| {
      CreatedOnce(ss, ops, tables, at[i]);
      PickedSuffixOk(ss, ops, tables, part, at, i + 1, CreatedBy(part[i], created));
      assert part[i..][1..] == part[i + 1..];
      if part[i].kind.Begin? {
        PickedNoCreate(ss, ops, tables, part, at, i + 1, created);
      }
    }
  }

  /** Whatever is taken out of a generated stream, what is left may be run with faults. */
  lemma ShrunkStreamOk(d: Draws, profile: Profile, n: nat, part: seq<Op>, at: seq<nat>)
    requires PickedOps(part, Stream(d, RowsOf(d, profile), n), at)
    ensures StreamOk(part, {})
  {
    var rows := RowsOf(d, profile);
    RowsYieldData(d, profile);
    GeneratedTrace(d, rows, n);
    StartNames(d);
    PickedSuffixOk(States(d, rows, n), Stream(d, rows, n), Start(d).tables, part, at, 0, {});
    assert part[0..] == part;
  }
}
