/** The task-claim lease of server/main.go: claim, release, result, state, PATCH and
    create handlers, any number at once, interleaved statement by statement over the
    shared `task` rows and a clock that never runs backwards. One event is one
    statement at the engine, one local decision, or time passing. */
module Lease {
  import opened Optional

  const SECOND: nat := 1_000_000_000
  const TTL: nat := 30 * 60 * SECOND

  /** A stored timestamp: the second a clock reading falls in. */
  function Stamp(now: nat): (second: nat)
    ensures second * SECOND <= now < (second + 1) * SECOND
  {
    now / SECOND
  }

  /** claim_expired: more than the TTL since the stored second. */
  predicate Expired(now: nat, at: Option<nat>) {
    at.Some? && now > at.value * SECOND + TTL
  }

  // ---- Rows -------------------------------------------------------------------

  /** A `task` row, with the stored seconds of the `result` rows reported against it.
      `fields` holds the columns PATCH may write. */
  datatype Row = Row(
    fields: map<string, string>, raisedAt: nat, lastShipped: nat,
    claimedBy: Option<string>, claimedAt: Option<nat>,
    state: nat, updatedAt: nat, reports: seq<nat>)

  /** How the engine renders a nullable column, and how parseTaskRows reads it. */
  function Cell(v: Option<string>): string {
    if v.None? then "NULL" else v.value
  }

  function ReadCell(cell: string): Option<string> {
    if cell == "NULL" then None else Some(cell)
  }

  /** The derived `pending` of parseTaskRows. */
  predicate Pending(row: Row) {
    row.raisedAt == row.lastShipped
  }

  // ---- Statements -----------------------------------------------------------------

  /** The writing statements. A report is one transaction: its INSERT and its UPDATE. */
  datatype Write =
    | ClaimFree(agent: string, stamp: nat)
    | ClaimHeld(agent: string, stamp: nat, owner: string, at: Option<nat>)
    | Release(agent: string, stamp: nat)
    | Report(stamp: nat)
    | SetState(code: nat, stamp: nat)
    | Patch(changes: map<string, string>, stamp: nat)
    | Create(fields: map<string, string>, stamp: nat)

  /** The WHERE of an UPDATE, given that the row is there. */
  predicate Hits(row: Row, w: Write) {
    match w
    case ClaimFree(_, _) => row.claimedBy.None?
    case ClaimHeld(_, _, owner, at) => row.claimedBy == Some(owner) && at.Some? && row.claimedAt == at
    case Release(agent, _) => row.claimedBy == Some(agent)
    case Report(_) | SetState(_, _) | Patch(_, _) => true
    case Create(_, _) => false
  }

  function Written(row: Row, w: Write): Row {
    match w
    case ClaimFree(agent, stamp) => row.(claimedBy := Some(agent), claimedAt := Some(stamp), updatedAt := stamp)
    case ClaimHeld(agent, stamp, _, _) => row.(claimedBy := Some(agent), claimedAt := Some(stamp), updatedAt := stamp)
    case Release(_, stamp) => row.(claimedBy := None, claimedAt := None, updatedAt := stamp)
    case Report(stamp) =>
      row.(reports := row.reports + [stamp], lastShipped := stamp, claimedBy := None, claimedAt := None, updatedAt := stamp)
    case SetState(code, stamp) => row.(state := code, updatedAt := stamp)
    case Patch(changes, stamp) => row.(fields := row.fields + changes, updatedAt := stamp)
    case Create(_, _) => row
  }

  function NewRow(fields: map<string, string>, stamp: nat): Row {
    Row(fields, stamp, stamp, None, None, 0, stamp, [])
  }

  /** Whether a statement takes effect; an id is issued once, so a CREATE meets no row. */
  predicate Lands(tasks: map<nat, Row>, t: nat, w: Write) {
    if w.Create? then t !in tasks else t in tasks && Hits(tasks[t], w)
  }

  function Landed(tasks: map<nat, Row>, t: nat, w: Write): map<nat, Row> {
    if !Lands(tasks, t, w) then tasks
    else if w.Create? then tasks[t := NewRow(w.fields, w.stamp)]
    else tasks[t := Written(tasks[t], w)]
  }

  // ---- Handlers ---------------------------------------------------------------------

  datatype Request =
    | AskClaim(agent: string) | AskRelease(agent: string) | AskReport
    | AskState(code: nat) | AskPatch(changes: map<string, string>) | AskCreate(fields: map<string, string>)

  /** What a handler does next. */
  datatype Todo =
    | Send(w: Write)
    | Fetch(agent: string, stamp: nat)
    | Decide(agent: string, stamp: nat, owner: Option<string>, at: Option<nat>)

  /** `Adrift`: the client saw an error, and the statement may still take effect later. */
  datatype Handler = Running(task: nat, todo: Todo) | Adrift(task: nat, w: Write) | Done(won: bool)

  /** The first statement of a handler that read the clock at `now`. */
  function FirstWrite(r: Request, now: nat): Write {
    match r
    case AskClaim(agent) => ClaimFree(agent, Stamp(now))
    case AskRelease(agent) => Release(agent, Stamp(now))
    case AskReport => Report(Stamp(now))
    case AskState(code) => SetState(code, Stamp(now))
    case AskPatch(changes) => Patch(changes, Stamp(now))
    case AskCreate(fields) => Create(fields, Stamp(now))
  }

  /** Phase 2 of a claim, once the row has been read. */
  function Decided(t: nat, d: Todo, now: nat): Handler
    requires d.Decide?
  {
    if d.owner.None? then Done(false)
    else if d.owner.value != d.agent && !Expired(now, d.at) then Done(false)
    else Running(t, Send(ClaimHeld(d.agent, d.stamp, d.owner.value, d.at)))
  }

  // ---- The machine ----------------------------------------------------------------------

  datatype State = State(clock: nat, tasks: map<nat, Row>, handlers: map<nat, Handler>)

  datatype Event =
    | Tick(to: nat)
    | Arrive(h: nat, task: nat, request: Request)
    | Act(h: nat)
    | Fail(h: nat)
    | Late(h: nat)

  const START: State := State(0, map[], map[])

  predicate Can(s: State, e: Event) {
    match e
    case Tick(to) => s.clock <= to
    case Arrive(h, _, _) => h !in s.handlers
    case Act(h) => h in s.handlers && s.handlers[h].Running?
    case Fail(h) => h in s.handlers && s.handlers[h].Running? && !s.handlers[h].todo.Decide?
    case Late(h) => h in s.handlers && s.handlers[h].Adrift?
  }

  /** The handler after its statement, or its decision. */
  function Answered(s: State, p: Handler): Handler
    requires p.Running?
  {
    match p.todo
    case Send(w) =>
      if Lands(s.tasks, p.task, w) then Done(true)
      else if w.ClaimFree? then Running(p.task, Fetch(w.agent, w.stamp))
      else Done(false)
    case Fetch(agent, stamp) =>
      if p.task !in s.tasks then Done(false)
      else
        var row := s.tasks[p.task];
        Running(p.task, Decide(agent, stamp, ReadCell(Cell(row.claimedBy)), row.claimedAt))
    case Decide(_, _, _, _) => Decided(p.task, p.todo, s.clock)
  }

  function After(s: State, e: Event): State
    requires Can(s, e)
  {
    match e
    case Tick(to) => s.(clock := to)
    case Arrive(h, t, r) => s.(handlers := s.handlers[h := Running(t, Send(FirstWrite(r, s.clock)))])
    case Act(h) =>
      var p := s.handlers[h];
      s.(tasks := if p.todo.Send? then Landed(s.tasks, p.task, p.todo.w) else s.tasks,
         handlers := s.handlers[h := Answered(s, p)])
    case Fail(h) =>
      var p := s.handlers[h];
      s.(handlers := s.handlers[h := if p.todo.Send? then Adrift(p.task, p.todo.w) else Done(false)])
    case Late(h) =>
      var p := s.handlers[h];
      s.(tasks := Landed(s.tasks, p.task, p.w), handlers := s.handlers[h := Done(false)])
  }

  /** A run: the states before, between and after its events. */
  ghost predicate IsRun(ss: seq<State>, es: seq<Event>) {
    && |ss| == |es| + 1
    && forall i :: 0 <= i < |es| ==> Can(ss[i], es[i]) && ss[i + 1] == After(ss[i], es[i])
  }

  // ---- What every reachable state keeps -----------------------------------------------

  function LastReport(row: Row): nat {
    if row.reports == [] then row.raisedAt else row.reports[|row.reports| - 1]
  }

  /** claimed_by and claimed_at are set and cleared together, no stamp lies in the
      future, and last_shipped_at is the last report's second. */
  predicate RowOk(row: Row, now: nat) {
    && (row.claimedBy.None? <==> row.claimedAt.None?)
    && (row.claimedAt.Some? ==> row.claimedAt.value <= Stamp(now))
    && row.lastShipped == LastReport(row)
  }

  function StampOf(w: Write): nat {
    w.stamp
  }

  /** A claim about to replace another agent's lease does so because it saw that very
      lease expired. */
  predicate WriteOk(w: Write, now: nat) {
    && StampOf(w) <= Stamp(now)
    && (w.ClaimHeld? && w.owner != w.agent ==> Expired(now, w.at))
  }

  predicate HandlerOk(p: Handler, now: nat) {
    match p
    case Running(_, Send(w)) => WriteOk(w, now)
    case Running(_, Fetch(_, stamp)) => stamp <= Stamp(now)
    case Running(_, Decide(_, stamp, _, _)) => stamp <= Stamp(now)
    case Adrift(_, w) => WriteOk(w, now)
    case Done(_) => true
  }

  ghost predicate Inv(s: State) {
    && (forall t :: t in s.tasks ==> RowOk(s.tasks[t], s.clock))
    && (forall h :: h in s.handlers ==> HandlerOk(s.handlers[h], s.clock))
  }

  lemma Later(now: nat, later: nat)
    requires now <= later
    ensures Stamp(now) <= Stamp(later)
  {}

  lemma LandedOk(tasks: map<nat, Row>, t: nat, w: Write, now: nat)
    requires forall t :: t in tasks ==> RowOk(tasks[t], now)
    requires WriteOk(w, now)
    ensures forall t' :: t' in Landed(tasks, t, w) ==> RowOk(Landed(tasks, t, w)[t'], now)
  {}

  lemma StepKeeps(s: State, e: Event)
    requires Inv(s) && Can(s, e)
    ensures Inv(After(s, e))
  {
    match e
    case Tick(to) => Later(s.clock, to);
    case Arrive(h, t, r) =>
    case Act(h) =>
      var p := s.handlers[h];
      assert HandlerOk(p, s.clock);
      if p.todo.Send? { LandedOk(s.tasks, p.task, p.todo.w, s.clock); }
    case Fail(h) => assert HandlerOk(s.handlers[h], s.clock);
    case Late(h) =>
      var p := s.handlers[h];
      assert HandlerOk(p, s.clock);
      LandedOk(s.tasks, p.task, p.w, s.clock);
  }

  /** Every reachable state is well formed. */
  lemma {:induction false} ReachableOk(ss: seq<State>, es: seq<Event>, i: nat)
    requires IsRun(ss, es) && ss[0] == START && i < |ss|
    ensures Inv(ss[i])
  {
    if i > 0 {
      ReachableOk(ss, es, i - 1);
      StepKeeps(ss[i - 1], es[i - 1]);
    }
  }

  // ---- No two owners -------------------------------------------------------------------

  /** The statement an event makes take effect on task `t`. */
  predicate Effect(s: State, e: Event, t: nat, w: Write) {
    || (e.Act? && Can(s, e) && s.handlers[e.h] == Running(t, Send(w)) && Lands(s.tasks, t, w))
    || (e.Late? && Can(s, e) && s.handlers[e.h] == Adrift(t, w) && Lands(s.tasks, t, w))
  }

  /** An effective claim of `t` by `a`, whichever phase it took. */
  ghost predicate Claims(s: State, e: Event, t: nat, a: string) {
    exists w :: Effect(s, e, t, w) && (w.ClaimFree? || w.ClaimHeld?) && w.agent == a
  }

  ghost predicate Releases(s: State, e: Event, t: nat, a: string) {
    exists w :: Effect(s, e, t, w) && w.Release? && w.agent == a
  }

  ghost predicate Reports(s: State, e: Event, t: nat) {
    exists w :: Effect(s, e, t, w) && w.Report?
  }

  /** An effective claim of a lease that is `a`'s and has expired at that moment. */
  ghost predicate StealsExpired(s: State, e: Event, t: nat, a: string) {
    && t in s.tasks && s.tasks[t].claimedBy == Some(a)
    && s.tasks[t].claimedAt.Some? && s.clock > s.tasks[t].claimedAt.value * SECOND + TTL
    && exists b :: b != a && Claims(s, e, t, b)
  }

  ghost predicate EndsLease(s: State, e: Event, t: nat, a: string) {
    Releases(s, e, t, a) || Reports(s, e, t) || StealsExpired(s, e, t, a)
  }

  predicate Holds(s: State, t: nat, a: string) {
    t in s.tasks && s.tasks[t].claimedBy == Some(a)
  }

  /** The write behind a change of rows. */
  lemma EffectOf(s: State, e: Event, t: nat) returns (w: Write)
    requires Can(s, e) && t in s.tasks
    ensures t in After(s, e).tasks
    ensures After(s, e).tasks[t] != s.tasks[t] ==>
              Effect(s, e, t, w) && !w.Create? && After(s, e).tasks[t] == Written(s.tasks[t], w)
  {
    w := Report(0);
    match e
    case Act(h) =>
      if s.handlers[h].todo.Send? { w := s.handlers[h].todo.w; }
    case Late(h) => w := s.handlers[h].w;
    case _ =>
  }

  /** A lease leaves its holder only by the holder's own release, by a report, or by a
      claim that meets it expired. */
  lemma LeaseMoves(s: State, e: Event, t: nat, a: string)
    requires Inv(s) && Can(s, e) && Holds(s, t, a)
    ensures Holds(After(s, e), t, a) || EndsLease(s, e, t, a)
  {
    var w := EffectOf(s, e, t);
    if !Holds(After(s, e), t, a) {
      assert Effect(s, e, t, w);
      if w.Release? {
        assert Releases(s, e, t, a);
      } else if w.Report? {
        assert Reports(s, e, t);
      } else {
        assert w.ClaimHeld? && w.owner == a != w.agent;
        assert HandlerOk(s.handlers[e.h], s.clock);
        assert Claims(s, e, t, w.agent);
      }
    }
  }

  lemma ClaimHolds(s: State, e: Event, t: nat, a: string)
    requires Can(s, e) && Claims(s, e, t, a)
    ensures Holds(After(s, e), t, a)
  {}

  /** The first event that ends a lease held at `i` and lost by `j`. */
  lemma {:induction false} LeaseEnds(ss: seq<State>, es: seq<Event>, i: nat, j: nat, t: nat, a: string) returns (k: nat)
    requires IsRun(ss, es) && ss[0] == START && i <= j < |ss|
    requires Holds(ss[i], t, a) && !Holds(ss[j], t, a)
    ensures i <= k < j && EndsLease(ss[k], es[k], t, a)
    decreases j - i
  {
    ReachableOk(ss, es, i);
    LeaseMoves(ss[i], es[i], t, a);
    if Holds(ss[i + 1], t, a) {
      k := LeaseEnds(ss, es, i + 1, j, t, a);
    } else {
      k := i;
    }
  }

  /** **No two owners.** Between two effective claims of one task by different agents
      lies the first agent's release, a report, or a steal of its expired lease, the
      second claim itself counting as that steal. */
  lemma NoTwoOwners(ss: seq<State>, es: seq<Event>, i: nat, j: nat, t: nat, a: string, b: string)
    requires IsRun(ss, es) && ss[0] == START && i < j < |es|
    requires Claims(ss[i], es[i], t, a) && Claims(ss[j], es[j], t, b) && a != b
    ensures exists k :: i < k <= j && EndsLease(ss[k], es[k], t, a)
  {
    ClaimHolds(ss[i], es[i], t, a);
    ClaimHolds(ss[j], es[j], t, b);
    var k := LeaseEnds(ss, es, i + 1, j + 1, t, a);
  }

  // ---- What an agent is told ------------------------------------------------------------

  /** The statement is one the request asks for, stamped `stamp`. */
  predicate Serves(r: Request, stamp: nat, w: Write) {
    && w.stamp == stamp
    && match r
       case AskClaim(agent) => (w.ClaimFree? || w.ClaimHeld?) && w.agent == agent
       case AskRelease(agent) => w.Release? && w.agent == agent
       case AskReport => w.Report?
       case AskState(code) => w.SetState? && w.code == code
       case AskPatch(changes) => w.Patch? && w.changes == changes
       case AskCreate(fields) => w.Create? && w.fields == fields
  }

  /** The handler's statement takes effect at this event, and it sees that it did. */
  ghost predicate Takes(s: State, e: Event, h: nat, t: nat, r: Request, stamp: nat) {
    e == Act(h) && exists w :: Effect(s, e, t, w) && Serves(r, stamp, w)
  }

  predicate Working(p: Handler, t: nat, r: Request, stamp: nat) {
    match p
    case Running(task, Send(w)) => task == t && Serves(r, stamp, w)
    case Running(task, Fetch(agent, at)) => task == t && r == AskClaim(agent) && at == stamp
    case Running(task, Decide(agent, at, _, _)) => task == t && r == AskClaim(agent) && at == stamp
    case Adrift(task, w) => task == t && Serves(r, stamp, w)
    case Done(_) => true
  }

  /** One event, for a handler under way. */
  lemma StaysWorking(s: State, e: Event, h: nat, t: nat, r: Request, stamp: nat)
    requires Can(s, e) && h in s.handlers && Working(s.handlers[h], t, r, stamp)
    ensures h in After(s, e).handlers && Working(After(s, e).handlers[h], t, r, stamp)
    ensures After(s, e).handlers[h] == Done(true) <==> s.handlers[h] == Done(true) || Takes(s, e, h, t, r, stamp)
  {
    var p := s.handlers[h];
    if e == Act(h) && p.todo.Send? && Lands(s.tasks, p.task, p.todo.w) { assert Effect(s, e, t, p.todo.w); }
  }

  /** **A handler answers yes exactly when its statement took effect**: in every run, for a
      claim, a release, a report, a state change, a PATCH and a create; the statement carries
      what was asked and the second in which the request arrived. */
  lemma {:induction false} AnswersTruly(ss: seq<State>, es: seq<Event>, k: nat, i: nat, h: nat, t: nat, r: Request, stamp: nat)
    requires IsRun(ss, es) && k < i < |ss| && es[k] == Arrive(h, t, r) && stamp == Stamp(ss[k].clock)
    ensures h in ss[i].handlers && Working(ss[i].handlers[h], t, r, stamp)
    ensures ss[i].handlers[h] == Done(true) <==> exists j :: k < j < i && Takes(ss[j], es[j], h, t, r, stamp)
  {
    if i == k + 1 {
      assert ss[i] == After(ss[k], es[k]);
    } else {
      AnswersTruly(ss, es, k, i - 1, h, t, r, stamp);
      StaysWorking(ss[i - 1], es[i - 1], h, t, r, stamp);
    }
  }

  /** **No two winners.** Where two agents' claims of one task were both answered yes, the
      first to take effect ended before the second, or by it. */
  lemma NoTwoWinners(ss: seq<State>, es: seq<Event>, i: nat, t: nat, h: nat, a: string, k: nat, h': nat, b: string, k': nat)
    requires IsRun(ss, es) && ss[0] == START && k < i < |ss| && k' < i && a != b
    requires es[k] == Arrive(h, t, AskClaim(a)) && es[k'] == Arrive(h', t, AskClaim(b))
    requires h in ss[i].handlers && ss[i].handlers[h] == Done(true)
    requires h' in ss[i].handlers && ss[i].handlers[h'] == Done(true)
    ensures exists j, j' :: k < j < i && k' < j' < i && j != j'
              && es[j] == Act(h) && Claims(ss[j], es[j], t, a) && es[j'] == Act(h') && Claims(ss[j'], es[j'], t, b)
              && EndsBetween(ss, es, if j < j' then j else j', if j < j' then j' else j, t, if j < j' then a else b)
  {
    AnswersTruly(ss, es, k, i, h, t, AskClaim(a), Stamp(ss[k].clock));
    AnswersTruly(ss, es, k', i, h', t, AskClaim(b), Stamp(ss[k'].clock));
    var j :| k < j < i && Takes(ss[j], es[j], h, t, AskClaim(a), Stamp(ss[k].clock));
    var j' :| k' < j' < i && Takes(ss[j'], es[j'], h', t, AskClaim(b), Stamp(ss[k'].clock));
    if j < j' {
      NoTwoOwners(ss, es, j, j', t, a, b);
    } else if j' < j {
      NoTwoOwners(ss, es, j', j, t, b, a);
    }
  }

  ghost predicate EndsBetween(ss: seq<State>, es: seq<Event>, i: nat, j: nat, t: nat, a: string)
    requires |ss| == |es| + 1 && i <= j < |es|
  {
    exists m :: i < m <= j && EndsLease(ss[m], es[m], t, a)
  }

  // ---- What a statement leaves --------------------------------------------------------------

  /** When a statement that reaches the engine takes effect, and that otherwise it leaves
      every row alone. */
  lemma StatementLands(s: State, e: Event, t: nat, w: Write)
    requires Can(s, e)
    requires (e.Act? && s.handlers[e.h] == Running(t, Send(w))) || (e.Late? && s.handlers[e.h] == Adrift(t, w))
    ensures Effect(s, e, t, w) <==>
              if w.Create? then t !in s.tasks
              else
                && t in s.tasks
                && (w.ClaimFree? ==> s.tasks[t].claimedBy == None)
                && (w.ClaimHeld? ==> s.tasks[t].claimedBy == Some(w.owner) && w.at != None && s.tasks[t].claimedAt == w.at)
                && (w.Release? ==> s.tasks[t].claimedBy == Some(w.agent))
    ensures !Effect(s, e, t, w) ==> After(s, e).tasks == s.tasks
  {}

  /** The row a statement leaves of a row, column by column. */
  ghost predicate Leaves(w: Write, row: Row, row': Row) {
    match w
    case ClaimFree(agent, stamp) =>
      row' == Row(row.fields, row.raisedAt, row.lastShipped, Some(agent), Some(stamp), row.state, stamp, row.reports)
    case ClaimHeld(agent, stamp, _, _) =>
      row' == Row(row.fields, row.raisedAt, row.lastShipped, Some(agent), Some(stamp), row.state, stamp, row.reports)
    case Release(_, stamp) =>
      row' == Row(row.fields, row.raisedAt, row.lastShipped, None, None, row.state, stamp, row.reports)
    case Report(stamp) =>
      row' == Row(row.fields, row.raisedAt, stamp, None, None, row.state, stamp, row.reports + [stamp])
    case SetState(code, stamp) =>
      row' == Row(row.fields, row.raisedAt, row.lastShipped, row.claimedBy, row.claimedAt, code, stamp, row.reports)
    case Patch(changes, stamp) =>
      && row' == Row(row'.fields, row.raisedAt, row.lastShipped, row.claimedBy, row.claimedAt, row.state, stamp, row.reports)
      && (forall c :: c in row'.fields <==> c in row.fields || c in changes)
      && (forall c :: c in changes ==> row'.fields[c] == changes[c])
      && (forall c :: c in row.fields && c !in changes ==> row'.fields[c] == row.fields[c])
    case Create(_, _) => false
  }

  /** What an effective statement leaves; no other row moves. */
  lemma EffectLeaves(s: State, e: Event, t: nat, w: Write)
    requires Effect(s, e, t, w)
    ensures After(s, e).tasks.Keys == s.tasks.Keys + {t}
    ensures forall t' :: t' in s.tasks && t' != t ==> After(s, e).tasks[t'] == s.tasks[t']
    ensures if w.Create? then t !in s.tasks && After(s, e).tasks[t] == Row(w.fields, w.stamp, w.stamp, None, None, 0, w.stamp, [])
            else t in s.tasks && Leaves(w, s.tasks[t], After(s, e).tasks[t])
  {}

  /** A claim stamped `stamp` holds until TTL past that second, unless its own agent
      claims again or releases, or a result is reported. */
  lemma {:induction false} LeaseLasts(ss: seq<State>, es: seq<Event>, i: nat, j: nat, t: nat, w: Write)
    requires IsRun(ss, es) && ss[0] == START && i < j < |ss|
    requires Effect(ss[i], es[i], t, w) && (w.ClaimFree? || w.ClaimHeld?)
    requires ss[j].clock <= w.stamp * SECOND + TTL
    requires forall k :: i < k < j ==>
               !Claims(ss[k], es[k], t, w.agent) && !Releases(ss[k], es[k], t, w.agent) && !Reports(ss[k], es[k], t)
    ensures Holds(ss[j], t, w.agent) && ss[j].tasks[t].claimedAt == Some(w.stamp)
    decreases j - i
  {
    if j > i + 1 {
      ClockGrows(ss, es, j - 1);
      LeaseLasts(ss, es, i, j - 1, t, w);
      ReachableOk(ss, es, j - 1);
      LeaseMoves(ss[j - 1], es[j - 1], t, w.agent);
      LeaseStays(ss[j - 1], es[j - 1], t, w.agent);
    }
  }

  lemma ClockGrows(ss: seq<State>, es: seq<Event>, i: nat)
    requires IsRun(ss, es) && i < |es|
    ensures ss[i].clock <= ss[i + 1].clock
  {}

  /** While a lease keeps its holder, only the holder's own claim moves claimed_at. */
  lemma LeaseStays(s: State, e: Event, t: nat, a: string)
    requires Can(s, e) && Holds(s, t, a) && Holds(After(s, e), t, a)
    ensures After(s, e).tasks[t].claimedAt == s.tasks[t].claimedAt || Claims(s, e, t, a)
  {
    var w := EffectOf(s, e, t);
  }

  // ---- Progress ----------------------------------------------------------------------------

  /** The holder "NULL" renders as an unclaimed column does, so phase 2 never touches it. */
  predicate Claimable(row: Row, b: string, now: nat) {
    row.claimedBy.None?
    || (row.claimedBy != Some("NULL")
        && (row.claimedBy == Some(b) || (row.claimedAt.Some? && now > row.claimedAt.value * SECOND + TTL)))
  }

  function Pass(s: State, h: nat, now: nat): State
    requires h in s.handlers && s.clock <= now
  {
    var s' := After(s, Tick(now));
    if Can(s', Act(h)) then After(s', Act(h)) else s'
  }

  /** A claim left to run by itself: phase 1, the read, the decision at `c2`, phase 2. */
  function ClaimAlone(s: State, h: nat, c0: nat, c1: nat, c2: nat, c3: nat): State
    requires h in s.handlers && s.clock <= c0 <= c1 <= c2 <= c3
  {
    Pass(Pass(Pass(Pass(s, h, c0), h, c1), h, c2), h, c3)
  }

  /** An uncontended claim by any agent succeeds exactly when the task is unclaimed or
      its lease is the claimer's own or has expired, and the holder is not named "NULL". */
  lemma ClaimAloneSucceeds(s: State, h: nat, t: nat, b: string, stamp: nat, c0: nat, c1: nat, c2: nat, c3: nat)
    requires Inv(s) && t in s.tasks && s.clock <= c0 <= c1 <= c2 <= c3
    requires h in s.handlers && s.handlers[h] == Running(t, Send(ClaimFree(b, stamp)))
    ensures var row, s' := s.tasks[t], ClaimAlone(s, h, c0, c1, c2, c3);
            && s'.handlers[h] == Done(Claimable(row, b, c2))
            && s'.tasks == if Claimable(row, b, c2)
                           then s.tasks[t := row.(claimedBy := Some(b), claimedAt := Some(stamp), updatedAt := stamp)]
                           else s.tasks
  {
    var row := s.tasks[t];
    var s0 := Pass(s, h, c0);
    if row.claimedBy.Some? {
      assert s0.handlers[h] == Running(t, Fetch(b, stamp)) && s0.tasks == s.tasks;
      var s1 := Pass(s0, h, c1);
      var d := Decide(b, stamp, ReadCell(row.claimedBy.value), row.claimedAt);
      assert s1.handlers[h] == Running(t, d) && s1.tasks == s.tasks;
      var s2 := Pass(s1, h, c2);
      assert s2.handlers[h] == Decided(t, d, c2) && s2.tasks == s.tasks;
    }
  }

  // ---- The shipping record -----------------------------------------------------------------

  /** In every reachable state a task that is not pending has a result, and pending says
      exactly that no result was reported or the last one carries the raised second. */
  lemma ShippedHasResult(ss: seq<State>, es: seq<Event>, i: nat, t: nat)
    requires IsRun(ss, es) && ss[0] == START && i < |ss| && t in ss[i].tasks
    ensures var row := ss[i].tasks[t];
            && (Pending(row) <==> row.reports == [] || row.reports[|row.reports| - 1] == row.raisedAt)
            && ((forall r :: r in row.reports ==> r > row.raisedAt) ==> (Pending(row) <==> row.reports == []))
  {
    ReachableOk(ss, es, i);
    var row := ss[i].tasks[t];
    assert RowOk(row, ss[i].clock);
    assert row.reports != [] ==> row.reports[|row.reports| - 1] in row.reports;
  }

  /** What one event may do to a task: it is never removed, its raised second never
      moves, its results only grow and only by a report, and its lease moves only by a
      claim, a release or a report. PATCH and state changes touch none of these. */
  lemma OneEventPerColumn(s: State, e: Event, t: nat)
    requires Can(s, e) && t in s.tasks
    ensures t in After(s, e).tasks
    ensures var row, row' := s.tasks[t], After(s, e).tasks[t];
            && row'.raisedAt == row.raisedAt
            && (!Reports(s, e, t) ==> row'.reports == row.reports && row'.lastShipped == row.lastShipped)
            && (Reports(s, e, t) ==> row'.reports == row.reports + [row'.lastShipped] && row'.claimedBy.None?)
            && ((row'.claimedBy, row'.claimedAt) != (row.claimedBy, row.claimedAt) ==>
                  Reports(s, e, t) || exists a :: Claims(s, e, t, a) || Releases(s, e, t, a))
  {
    var w := EffectOf(s, e, t);
    var row, row' := s.tasks[t], After(s, e).tasks[t];
    if row' != row && (w.ClaimFree? || w.ClaimHeld?) { assert Claims(s, e, t, w.agent); }
    if row' != row && w.Release? { assert Releases(s, e, t, w.agent); }
    if row' != row && w.Report? { assert Reports(s, e, t); }
  }

  // ---- When claimed_at moves back ----------------------------------------------------------

  predicate IsClaim(w: Write) {
    w.ClaimFree? || w.ClaimHeld?
  }

  /** A handler whose claim of `t`, stamped `stamp`, may still take effect. */
  predicate Claiming(p: Handler, t: nat, stamp: nat) {
    match p
    case Running(task, Send(w)) => task == t && IsClaim(w) && w.stamp == stamp
    case Running(task, Fetch(_, at)) => task == t && at == stamp
    case Running(task, Decide(_, at, _, _)) => task == t && at == stamp
    case Adrift(task, w) => task == t && IsClaim(w) && w.stamp == stamp
    case Done(_) => false
  }

  /** The event brings in a claim of `t`. */
  predicate ClaimArrives(e: Event, t: nat) {
    e.Arrive? && e.task == t && e.request.AskClaim?
  }

  lemma ClaimingStays(s: State, e: Event, h: nat, t: nat, stamp: nat)
    requires Can(s, e) && h in After(s, e).handlers && Claiming(After(s, e).handlers[h], t, stamp)
    ensures (h in s.handlers && Claiming(s.handlers[h], t, stamp))
            || (h !in s.handlers && ClaimArrives(e, t) && e.h == h && stamp == Stamp(s.clock))
  {}

  /** Every claim under way was brought in by its handler's arrival, and carries the
      second of that moment. */
  lemma {:induction false} ClaimArrived(ss: seq<State>, es: seq<Event>, i: nat, h: nat, t: nat, stamp: nat) returns (k: nat)
    requires IsRun(ss, es) && ss[0] == START && i < |ss|
    requires h in ss[i].handlers && Claiming(ss[i].handlers[h], t, stamp)
    ensures k < i && ClaimArrives(es[k], t) && es[k].h == h && stamp == Stamp(ss[k].clock)
  {
    ClaimingStays(ss[i - 1], es[i - 1], h, t, stamp);
    if h in ss[i - 1].handlers {
      k := ClaimArrived(ss, es, i - 1, h, t, stamp);
    } else {
      k := i - 1;
    }
  }

  lemma {:induction false} HandlersStay(ss: seq<State>, es: seq<Event>, i: nat, j: nat, h: nat)
    requires IsRun(ss, es) && i <= j < |ss| && h in ss[i].handlers
    ensures h in ss[j].handlers
    decreases j - i
  {
    if i < j {
      assert Can(ss[i], es[i]) && ss[i + 1] == After(ss[i], es[i]);
      HandlersStay(ss, es, i + 1, j, h);
    }
  }

  /** A handler arrives once. */
  lemma ArrivesOnce(ss: seq<State>, es: seq<Event>, j: nat, k: nat)
    requires IsRun(ss, es) && j < |es| && k < |es|
    requires es[j].Arrive? && es[k].Arrive? && es[j].h == es[k].h
    ensures j == k
  {
    if j < k {
      assert ss[j + 1] == After(ss[j], es[j]) && Can(ss[k], es[k]);
      HandlersStay(ss, es, j + 1, k, es[j].h);
    } else if k < j {
      assert ss[k + 1] == After(ss[k], es[k]) && Can(ss[j], es[j]);
      HandlersStay(ss, es, k + 1, j, es[k].h);
    }
  }

  /** The event moves the stamp of a held task to an earlier second. */
  predicate MovesBack(s: State, e: Event, t: nat)
    requires Can(s, e)
  {
    var s' := After(s, e);
    && t in s.tasks && s.tasks[t].claimedAt.Some?
    && t in s'.tasks && s'.tasks[t].claimedAt.Some?
    && s'.tasks[t].claimedAt.value < s.tasks[t].claimedAt.value
  }

  ghost predicate LandsClaim(s: State, e: Event, t: nat) {
    exists w :: Effect(s, e, t, w) && IsClaim(w)
  }

  /** The handler behind the event arrived in a second before `stamp`. */
  ghost predicate ArrivedBefore(ss: seq<State>, es: seq<Event>, i: nat, stamp: nat)
    requires |ss| == |es| + 1 && i < |es| && (es[i].Act? || es[i].Late?)
  {
    exists k :: 0 <= k < i && es[k].Arrive? && es[k].h == es[i].h && Stamp(ss[k].clock) < stamp
  }

  lemma MovedByClaim(s: State, e: Event, t: nat) returns (w: Write)
    requires Can(s, e) && t in s.tasks && s.tasks[t].claimedAt.Some?
    ensures MovesBack(s, e, t) ==> Effect(s, e, t, w) && IsClaim(w) && w.stamp < s.tasks[t].claimedAt.value
    ensures !MovesBack(s, e, t) ==> forall w' :: Effect(s, e, t, w') && IsClaim(w') ==> w'.stamp >= s.tasks[t].claimedAt.value
  {
    w := EffectOf(s, e, t);
  }

  /** **claimed_at moves back exactly** where a claim takes effect whose handler arrived in
      an earlier second than the stored one: over every run, at every event. */
  lemma MovesBackExactly(ss: seq<State>, es: seq<Event>, i: nat, t: nat)
    requires IsRun(ss, es) && ss[0] == START && i < |es|
    requires t in ss[i].tasks && ss[i].tasks[t].claimedAt.Some?
    ensures MovesBack(ss[i], es[i], t) <==>
              LandsClaim(ss[i], es[i], t) && ArrivedBefore(ss, es, i, ss[i].tasks[t].claimedAt.value)
  {
    var stored := ss[i].tasks[t].claimedAt.value;
    var w := MovedByClaim(ss[i], es[i], t);
    if LandsClaim(ss[i], es[i], t) {
      var w' :| Effect(ss[i], es[i], t, w') && IsClaim(w');
      var h := es[i].h;
      assert Claiming(ss[i].handlers[h], t, w'.stamp);
      var k := ClaimArrived(ss, es, i, h, t, w'.stamp);
      forall j | 0 <= j < i && es[j].Arrive? && es[j].h == h ensures j == k { ArrivesOnce(ss, es, j, k); }
    }
  }

  /** No claim of `t` is under way, nor adrift. */
  ghost predicate Unclaiming(s: State, t: nat) {
    forall h, stamp :: h in s.handlers ==> !Claiming(s.handlers[h], t, stamp)
  }

  /** No claim of `t` arrives while another is under way or adrift. */
  ghost predicate SerialClaims(ss: seq<State>, es: seq<Event>, t: nat)
    requires |ss| == |es| + 1
  {
    forall k :: 0 <= k < |es| && ClaimArrives(es[k], t) ==> Unclaiming(ss[k], t)
  }

  predicate ClaimsAs(s: State, h: nat, t: nat, stamp: nat) {
    h in s.handlers && Claiming(s.handlers[h], t, stamp)
  }

  /** One claim of `t` is under way at a time, and its stamp is no older than the row's. */
  ghost predicate OneClaim(s: State, t: nat) {
    && (forall h, h', x, y ::
          ClaimsAs(s, h, t, x) && ClaimsAs(s, h', t, y) ==> h == h')
    && (forall h, x ::
          ClaimsAs(s, h, t, x) && t in s.tasks && s.tasks[t].claimedAt.Some? ==> s.tasks[t].claimedAt.value <= x)
  }

  lemma OneClaimStep(s: State, e: Event, t: nat)
    requires Inv(s) && Can(s, e) && OneClaim(s, t)
    requires ClaimArrives(e, t) ==> Unclaiming(s, t)
    ensures OneClaim(After(s, e), t) && !MovesBack(s, e, t)
  {
    var s' := After(s, e);
    forall h, x | ClaimsAs(s', h, t, x)
      ensures ClaimsAs(s, h, t, x) || (ClaimArrives(e, t) && e.h == h && x == Stamp(s.clock))
    {
      ClaimingStays(s, e, h, t, x);
    }
    if t in s.tasks {
      var w := EffectOf(s, e, t);
      assert RowOk(s.tasks[t], s.clock);
      if s'.tasks[t] != s.tasks[t] && IsClaim(w) { assert ClaimsAs(s, e.h, t, w.stamp); }
    }
  }

  lemma {:induction false} OneClaimAlways(ss: seq<State>, es: seq<Event>, i: nat, t: nat)
    requires IsRun(ss, es) && ss[0] == START && i < |ss|
    requires SerialClaims(ss, es, t)
    ensures OneClaim(ss[i], t)
  {
    if i > 0 {
      ReachableOk(ss, es, i - 1);
      OneClaimAlways(ss, es, i - 1, t);
      OneClaimStep(ss[i - 1], es[i - 1], t);
    }
  }

  /** **One claim at a time keeps claimed_at monotone**: where no claim of a task arrives
      before the earlier ones have finished, none of them left adrift, a held stamp never
      moves back. */
  lemma SerialClaimsMonotone(ss: seq<State>, es: seq<Event>, i: nat, t: nat)
    requires IsRun(ss, es) && ss[0] == START && i < |es|
    requires SerialClaims(ss, es, t)
    ensures !MovesBack(ss[i], es[i], t)
  {
    ReachableOk(ss, es, i);
    OneClaimAlways(ss, es, i, t);
    OneClaimStep(ss[i], es[i], t);
  }

  // ---- What does not hold ----------------------------------------------------------------

  /** A run goes on where another stopped. */
  lemma RunsJoin(ss: seq<State>, es: seq<Event>, ss': seq<State>, es': seq<Event>)
    requires IsRun(ss, es) && IsRun(ss', es') && ss[|es|] == ss'[0]
    ensures IsRun(ss[..|es|] + ss', es + es')
  {}

  /** Handler 1 read the clock in second 0 and has sent nothing yet; the heartbeat of
      second 1 has landed. */
  predicate Stalled(s: State) {
    && 7 in s.tasks && s.tasks[7].claimedBy == Some("a") && s.tasks[7].claimedAt == Some(1)
    && 1 in s.handlers && s.handlers[1] == Running(7, Send(ClaimFree("a", 0)))
  }

  lemma NewerHeartbeat() returns (ss: seq<State>, es: seq<Event>)
    ensures IsRun(ss, es) && ss[0] == START && |es| == 6 && Stalled(ss[6])
  {
    var e0, e2, e3, e4 := Arrive(0, 7, AskCreate(map[])), Arrive(1, 7, AskClaim("a")), Tick(SECOND), Arrive(2, 7, AskClaim("a"));
    var s1 := After(START, e0);
    var s2 := After(s1, Act(0));
    var s3 := After(s2, e2);
    var s4 := After(s3, e3);
    var s5 := After(s4, e4);
    var s6 := After(s5, Act(2));
    ss, es := [START, s1, s2, s3, s4, s5, s6], [e0, Act(0), e2, e3, e4, Act(2)];
  }

  lemma OlderHeartbeat(s: State) returns (ss: seq<State>, es: seq<Event>)
    requires Stalled(s)
    ensures IsRun(ss, es) && ss[0] == s && |es| == 4 && 7 in ss[3].tasks && 7 in ss[4].tasks
    ensures ss[3].tasks[7].claimedAt == Some(1) && ss[4].tasks[7].claimedAt == Some(0)
  {
    var s1 := After(s, Act(1));
    assert s1.handlers[1] == Running(7, Fetch("a", 0)) && s1.tasks == s.tasks;
    var s2 := After(s1, Act(1));
    assert s2.handlers[1] == Running(7, Decide("a", 0, Some("a"), Some(1))) && s2.tasks == s.tasks;
    var s3 := After(s2, Act(1));
    assert s3.handlers[1] == Running(7, Send(ClaimHeld("a", 0, "a", Some(1)))) && s3.tasks == s.tasks;
    var s4 := After(s3, Act(1));
    ss, es := [s, s1, s2, s3, s4], [Act(1), Act(1), Act(1), Act(1)];
  }

  /** claimed_at is not monotone: an agent whose first heartbeat stalls after reading the
      clock puts its older second over its newer one. */
  lemma ClaimedAtMovesBack() returns (ss: seq<State>, es: seq<Event>)
    ensures IsRun(ss, es) && ss[0] == START && |es| == 10 && 7 in ss[9].tasks && 7 in ss[10].tasks
    ensures ss[9].tasks[7].claimedAt == Some(1) && ss[10].tasks[7].claimedAt == Some(0)
  {
    var first, before := NewerHeartbeat();
    var second, after := OlderHeartbeat(first[6]);
    RunsJoin(first, before, second, after);
    ss, es := first[..6] + second, before + after;
  }

  /** One-second stamps: a result reported in the second its task was raised leaves the
      task pending. */
  lemma SameSecondReportStaysPending() returns (ss: seq<State>, es: seq<Event>)
    ensures IsRun(ss, es) && ss[0] == START && |es| == 4 && 7 in ss[4].tasks
    ensures ss[4].tasks[7].reports == [0] && Pending(ss[4].tasks[7])
  {
    var s0 := START;
    var s1 := After(s0, Arrive(0, 7, AskCreate(map[])));
    var s2 := After(s1, Act(0));
    var s3 := After(s2, Arrive(1, 7, AskReport));
    var s4 := After(s3, Act(1));
    ss := [s0, s1, s2, s3, s4];
    es := [Arrive(0, 7, AskCreate(map[])), Act(0), Arrive(1, 7, AskReport), Act(1)];
  }
}
