/** The engine the harness drives, as far as its answers and its rows go: a
    nondeterministic machine, because under injection a statement may answer an
    error whether or not it took effect. What this relation leaves open is what a
    run may meet; what it fixes are the engine's own promises (server/command_dispatcher.cpp,
    manual/sql/sql.md section 5):
      - an id is issued once, whether or not its INSERT was acknowledged;
      - an errored statement outside a transaction hits any part of what it names and
        nothing else, and opens no transaction;
      - a transaction's writes are seen by its own session, and reach the committed
        state only through COMMIT, whole, or not at all;
      - a statement that errs inside a transaction leaves it open, and may poison it until
        a ROLLBACK or leave a part of itself behind in it;
      - a statement is refused that begins inside a transaction, ends outside one, names a
        relation the session does not see, or repeats a declaration; without fault
        injection nothing else answers an error;
      - after the harness's own ROLLBACK no transaction is open. */
module EngineModel {
  import opened Text
  import opened Ops
  import opened OracleModel
  import opened Wire
  import opened Loop

  datatype Txn = NoTxn | Open(working: Tables)

  /** `used` holds every id ever issued, named to a client or not; `declared` every Cabin
      and pattern that may have been declared, which no ROLLBACK takes back. */
  datatype Engine = Engine(committed: Tables, txn: Txn, poisoned: bool, used: IdSets, declared: set<Declaration>) {
    function View(): Tables {
      if txn.Open? then txn.working else committed
    }
  }

  const FRESH: Engine := Engine(map[], NoTxn, false, map[], {})

  datatype Stmt = Send(op: Op) | HarnessRollback

  datatype Call = Call(stmt: Stmt, reply: Reply)

  ghost predicate UsedGrows(e: Engine, e': Engine) {
    forall t :: IdsIn(e.used, t) <= IdsIn(e'.used, t)
  }

  /** Only a declaration declares. */
  predicate DeclaredGrows(e: Engine, stmt: Stmt, e': Engine) {
    e.declared <= e'.declared <=
    e.declared + (if stmt.Send? && IsDecl(stmt.op.kind) then {DeclOf(stmt.op)} else {})
  }

  // ---- What a statement names and does, by its own fields -----------------------------------

  /** The rows a read asks for, or the WHERE of an UPDATE or DELETE hits. */
  predicate Named(op: Op, id: U64, row: Row) {
    match op.kind
    case SelectPk => id == op.key
    case SelectRange => op.lo <= id && id <= op.hi
    case FilterScan => row.v == op.v
    case Update | Delete => (op.byPk ==> id == op.key) && (!op.byPk ==> row.v == op.predV)
    case _ => false
  }

  function NamedIds(op: Op, rows: Rows): set<U64> {
    set id | id in rows && Named(op, id, rows[id])
  }

  /** SET writes one column and leaves the other. */
  predicate SetAs(op: Op, row: Row, row': Row) {
    && (op.setName ==> row'.name == op.name && row'.v == row.v)
    && (!op.setName ==> row'.v == op.v && row'.name == row.name)
  }

  predicate UpdatedTo(op: Op, rows: Rows, rows': Rows) {
    && rows'.Keys == rows.Keys
    && forall id :: id in rows ==> if Named(op, id, rows[id]) then SetAs(op, rows[id], rows'[id]) else rows'[id] == rows[id]
  }

  predicate DeletedTo(op: Op, rows: Rows, rows': Rows) {
    && (forall id :: id in rows' <==> id in rows && !Named(op, id, rows[id]))
    && forall id :: id in rows' ==> rows'[id] == rows[id]
  }

  predicate PartlyUpdated(op: Op, rows: Rows, rows': Rows) {
    && rows'.Keys == rows.Keys
    && forall id :: id in rows ==> rows'[id] == rows[id] || (Named(op, id, rows[id]) && SetAs(op, rows[id], rows'[id]))
  }

  predicate PartlyDeleted(op: Op, rows: Rows, rows': Rows) {
    && rows'.Keys <= rows.Keys
    && (forall id :: id in rows' ==> rows'[id] == rows[id])
    && (forall id :: id in rows && id !in rows' ==> Named(op, id, rows[id]))
  }

  ghost predicate Renders(line: string, rows: Rows, ids: set<U64>) {
    exists id :: id in ids && id in rows && line == Render(id, rows[id])
  }

  /** A listing holds each of these rows once, rendered, and nothing else, in any order. */
  ghost predicate IsListing(lines: seq<string>, rows: Rows, ids: set<U64>) {
    forall line :: multiset(lines)[line] == if Renders(line, rows, ids) then 1 else 0
  }

  /** An INSERT that answered an error left no row, or one whose id nobody was told. */
  predicate LostInsert(rows: Rows, rows': Rows, used: set<U64>, used': set<U64>) {
    rows' == rows || exists id :: id in rows' && id !in used && id in used' && rows' == rows[id := rows'[id]]
  }

  /** An error outside a transaction. */
  ghost predicate ErredAlone(e: Engine, op: Op, e': Engine) {
    var t := op.table;
    && e'.txn.NoTxn? && !e'.poisoned
    && match op.kind
       case Insert =>
         e'.committed == e.committed ||
         (t in e.committed && t in e'.committed && e'.committed == e.committed[t := e'.committed[t]]
          && LostInsert(e.committed[t], e'.committed[t], IdsIn(e.used, t), IdsIn(e'.used, t)))
       case Update =>
         e'.committed == e.committed ||
         (t in e.committed && t in e'.committed && e'.committed == e.committed[t := e'.committed[t]]
          && PartlyUpdated(op, e.committed[t], e'.committed[t]))
       case Delete =>
         e'.committed == e.committed ||
         (t in e.committed && t in e'.committed && e'.committed == e.committed[t := e'.committed[t]]
          && PartlyDeleted(op, e.committed[t], e'.committed[t]))
       case CreateTable =>
         e'.committed == e.committed || (t !in e.committed && e'.committed == e.committed[t := map[]])
       case _ => e'.committed == e.committed
  }

  /** A view that may have got an empty relation. */
  predicate MaybeCreated(view: Tables, view': Tables, t: string) {
    view' == view || (t !in view && view' == view[t := map[]])
  }

  /** An error inside a transaction: only a COMMIT can still have reached the committed
      state, and then whole. Any statement but an end leaves the transaction open, with any
      part of itself in it; a CREATE TABLE that does not poison it took effect or did not. */
  ghost predicate ErredInTxn(e: Engine, op: Op, e': Engine)
    requires e.txn.Open?
  {
    || (op.kind.Commit? && !e.poisoned && e'.committed == e.txn.working && e'.txn.NoTxn?)
    || (e'.committed == e.committed
        && (!IsEnd(op.kind) ==> e'.txn.Open?)
        && (op.kind.CreateTable? && !e'.poisoned ==> MaybeCreated(e.txn.working, e'.txn.working, op.table)))
  }

  /** What the engine answers an error to whether or not anything fails. */
  predicate Refused(e: Engine, op: Op) {
    match op.kind
    case Begin => e.txn.Open?
    case Commit | Rollback => e.txn.NoTxn?
    case CreateTable | Sync => false
    case CreateCabin | CreatePattern => op.table !in e.View() || DeclOf(op) in e.declared
    case _ => op.table !in e.View()
  }

  ghost predicate Holds(e': Engine, committed: Tables, txn: Txn) {
    e'.committed == committed && e'.txn == txn && !e'.poisoned
  }

  /** `e` with one relation of its view replaced. */
  ghost predicate Wrote(e: Engine, table: string, rows: Rows, e': Engine) {
    if e.txn.Open? then Holds(e', e.committed, Open(e.txn.working[table := rows]))
    else Holds(e', e.committed[table := rows], NoTxn)
  }

  ghost predicate Listed(e: Engine, op: Op, reply: Reply, e': Engine) {
    op.table in e.View() && reply.Lines?
    && IsListing(reply.rows, e.View()[op.table], NamedIds(op, e.View()[op.table]))
    && Holds(e', e.committed, e.txn)
  }

  /** A statement that answered anything but an error did what it says. */
  ghost predicate Answered(e: Engine, op: Op, reply: Reply, e': Engine) {
    var t, view := op.table, e.View();
    match op.kind
    case CreateTable =>
      (reply.Created? && t !in view && Wrote(e, t, map[], e'))
      || (reply.Exists? && t in view && Holds(e', e.committed, e.txn))
    case Insert =>
      && reply.Inserted? && t in view
      && reply.id !in IdsIn(e.used, t) && reply.id in IdsIn(e'.used, t)
      && Wrote(e, t, view[t][reply.id := Row(op.v, op.name)], e')
    case Update =>
      && t in view && reply == Updated(|NamedIds(op, view[t])|)
      && t in e'.View() && UpdatedTo(op, view[t], e'.View()[t]) && Wrote(e, t, e'.View()[t], e')
    case Delete =>
      && t in view && reply == Deleted(|NamedIds(op, view[t])|)
      && t in e'.View() && DeletedTo(op, view[t], e'.View()[t]) && Wrote(e, t, e'.View()[t], e')
    case Begin => reply.Begun? && e.txn.NoTxn? && Holds(e', e.committed, Open(e.committed))
    case Commit => reply.Committed? && e.txn.Open? && Holds(e', e.txn.working, NoTxn)
    case Rollback => reply.RolledBack? && e.txn.Open? && Holds(e', e.committed, NoTxn)
    case SelectPk | SelectRange | FilterScan => Listed(e, op, reply, e')
    case Sync => reply.Synced? && Holds(e', e.committed, e.txn)
    case CreateCabin | CreatePattern =>
      && (reply.Created? || reply.Adopted?) && t in view
      && DeclOf(op) in e'.declared && Holds(e', e.committed, e.txn)
  }

  ghost predicate EngineStep(e: Engine, call: Call, e': Engine) {
    && UsedGrows(e, e') && DeclaredGrows(e, call.stmt, e')
    && match call.stmt
       case HarnessRollback => Holds(e', e.committed, NoTxn)
       case Send(op) =>
         if !call.reply.Err? then !e.poisoned && Answered(e, op, call.reply, e')
         else if e.txn.Open? then ErredInTxn(e, op, e')
         else ErredAlone(e, op, e')
  }

  /** The statements one operation makes the loop send, with the replies it gets. */
  ghost function Calls(l: Loop, op: Op, ans: Answers): seq<Call> {
    var last := if l.Retries(op, ans) then ans.retry else ans.first;
    [Call(Send(op), ans.first)]
    + (if l.Retries(op, ans) then [Call(Send(op), ans.retry)] else [])
    + (if last.Err? && l.faultsOn && l.txnOpen then [Call(HarnessRollback, ans.rollback)] else [])
  }

  /** The engine goes from `e` to `e'` through a list of calls. */
  ghost predicate EngineCalls(e: Engine, calls: seq<Call>, e': Engine)
    decreases |calls|
  {
    if calls == [] then e' == e
    else exists mid :: EngineStep(e, calls[0], mid) && EngineCalls(mid, calls[1..], e')
  }

  /** Without fault injection a statement answers an error only where it is refused. */
  predicate RepliesAllowed(e: Engine, l: Loop, op: Op, ans: Answers) {
    !l.faultsOn && ans.first.Err? ==> Refused(e, op)
  }

  /** The engine states before, between and after a run's operations. Once a check has
      failed nothing more is sent, and what follows is not a state of the run. */
  ghost predicate EngineRun(es: seq<Engine>, l: Loop, ops: seq<Op>, answers: seq<Answers>)
    requires |ops| == |answers|
    decreases |ops|
  {
    && |es| == |ops| + 1
    && (ops != [] && l.verdict.ok ==>
          && RepliesAllowed(es[0], l, ops[0], answers[0])
          && EngineCalls(es[0], Calls(l, ops[0], answers[0]), es[1])
          && EngineRun(es[1..], l.Step(ops[0], answers[0]), ops[1..], answers[1..]))
  }

  // ---- What a crash may leave ------------------------------------------------------------

  /** CREATE TABLE is unlogged: until a SYNC covers it, a crash may lose a relation. The
      relations the SYNCs have covered, and the committed rows at the last one. */
  datatype Image = Image(covered: set<string>, rows: Tables)

  const BARE: Image := Image({}, map[])

  /** A SYNC covers what its session sees; a relation rolled back is not covered, even if
      one of that name is made again. */
  function ImageAfter(image: Image, op: Op, first: Reply, e': Engine): Image {
    if op.kind.Sync? && !first.Err? then Image(e'.View().Keys, e'.committed)
    else image.(covered := image.covered * e'.View().Keys)
  }

  ghost function ImageOf(image: Image, es: seq<Engine>, ops: seq<Op>, answers: seq<Answers>): Image
    requires |answers| == |ops| && |es| == |ops| + 1
    decreases |ops|
  {
    if ops == [] then image
    else ImageOf(ImageAfter(image, ops[0], answers[0].first, es[1]), es[1..], ops[1..], answers[1..])
  }
}
