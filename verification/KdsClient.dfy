/** server/kdsclient.go: one connection shared behind a mutex. The mutex makes calls
    follow one another; what the network and the server do within a call is a script of
    `Io`, so every claim is about every pattern of failures. `Client` carries the
    meaning of a call; class `KdsClient` is the object, proved to follow it. */
module Kds {
  import opened Optional

  /** What happens to one statement on the wire: the write fails, the server having got
      it or not; the reply is never read; or a line is read. `reply` is the server's
      reply to this statement. */
  datatype Io = WriteFails(served: bool, reply: string) | ReadFails(reply: string) | Answers(reply: string)

  /** The server's end of a connection: the call whose BEGIN is open, the replies it sent
      that nobody read, and whether the client has seen an I/O failure on it. */
  datatype Session = Session(opener: Option<nat>, unread: seq<string>, failed: bool)

  const CONNECTED: Session := Session(None, [], false)

  /** A statement the server ran: for which call, and inside whose transaction. */
  datatype Served = Served(call: nat, stmt: string, within: Option<nat>)

  predicate IsErr(line: string) {
    "ERR " <= line
  }

  /** The transaction open once the server has run `stmt`. A refused statement changes
      nothing, and BEGIN inside a transaction is refused. */
  function Opened(opener: Option<nat>, call: nat, stmt: string, reply: string): Option<nat> {
    if IsErr(reply) then opener
    else if stmt == "BEGIN" then (if opener.Some? then opener else Some(call))
    else if stmt == "COMMIT" || stmt == "ROLLBACK" then None
    else opener
  }

  function Serve(s: Session, call: nat, stmt: string, reply: string): Session {
    s.(opener := Opened(s.opener, call, stmt, reply), unread := s.unread + [reply])
  }

  datatype Exchange = Exchange(session: Session, served: seq<Served>, line: Option<string>)

  /** execLocked: write, then read the oldest reply. */
  function OnWire(s: Session, call: nat, stmt: string, io: Io): Exchange {
    var served := [Served(call, stmt, s.opener)];
    match io
    case WriteFails(false, _) => Exchange(s.(failed := true), [], None)
    case WriteFails(true, reply) => Exchange(Serve(s, call, stmt, reply).(failed := true), served, None)
    case ReadFails(reply) => Exchange(Serve(s, call, stmt, reply).(failed := true), served, None)
    case Answers(reply) =>
      var s' := Serve(s, call, stmt, reply);
      var line := s'.unread[0];
      Exchange(s'.(unread := s'.unread[1..]), served, if IsErr(line) then None else Some(line))
  }

  datatype Txn = Txn(session: Session, served: seq<Served>, replies: Option<seq<string>>, keep: bool)

  /** The statements of ExecTxn after BEGIN, from the k-th: a failure rolls back. */
  function TxnFrom(s: Session, call: nat, stmts: seq<string>, ios: seq<Io>, k: nat, replies: seq<string>): Txn
    requires |ios| == |stmts| + 2 && k <= |stmts|
    decreases |stmts| - k
  {
    if k == |stmts| then
      var x := OnWire(s, call, "COMMIT", ios[k + 1]);
      Txn(x.session, x.served, if x.line.Some? then Some(replies) else None, x.line.Some?)
    else
      var x := OnWire(s, call, stmts[k], ios[k + 1]);
      if x.line.None? then
        var y := OnWire(x.session, call, "ROLLBACK", ios[k + 2]);
        Txn(y.session, x.served + y.served, None, y.line.Some?)
      else
        var rest := TxnFrom(x.session, call, stmts, ios, k + 1, replies + [x.line.value]);
        rest.(served := x.served + rest.served)
  }

  /** `rest` finishes what `whole` describes, `log` having grown from `before`. */
  predicate Continues(whole: Txn, before: seq<Served>, log: seq<Served>, rest: Txn) {
    && rest.session == whole.session && rest.replies == whole.replies && rest.keep == whole.keep
    && log + rest.served == before + whole.served
  }

  lemma Continued(whole: Txn, before: seq<Served>, log: seq<Served>, served: seq<Served>, rest: Txn)
    requires Continues(whole, before, log, rest.(served := served + rest.served))
    ensures Continues(whole, before, log + served, rest)
  {
    assert log + (served + rest.served) == (log + served) + rest.served;
  }

  /** A statement that was answered: the transaction goes on after it. */
  lemma TxnGoesOn(whole: Txn, before: seq<Served>, log: seq<Served>, s: Session, call: nat, stmts: seq<string>,
                  ios: seq<Io>, k: nat, m: nat, got: seq<string>)
    requires |ios| == |stmts| + 2 && k < |stmts| && m == k + 1
    requires Continues(whole, before, log, TxnFrom(s, call, stmts, ios, k, got))
    requires OnWire(s, call, stmts[k], ios[m]).line.Some?
    ensures var x := OnWire(s, call, stmts[k], ios[m]);
            Continues(whole, before, log + x.served, TxnFrom(x.session, call, stmts, ios, m, got + [x.line.value]))
  {
    var x := OnWire(s, call, stmts[k], ios[m]);
    Continued(whole, before, log, x.served, TxnFrom(x.session, call, stmts, ios, m, got + [x.line.value]));
  }

  datatype Client = Client(conn: Option<Session>, calls: nat, log: seq<Served>) {
    function Dialled(dial: bool): Option<Session> {
      if conn.None? && dial then Some(CONNECTED) else conn
    }

    function Exec(stmt: string, dial: bool, io: Io): (Client, Option<string>) {
      if Dialled(dial).None? then (this.(calls := calls + 1), None)
      else
        var x := OnWire(Dialled(dial).value, calls, stmt, io);
        (Client(if x.line.Some? then Some(x.session) else None, calls + 1, log + x.served), x.line)
    }

    function ExecTxn(stmts: seq<string>, dial: bool, ios: seq<Io>): (Client, Option<seq<string>>)
      requires |ios| == |stmts| + 2
    {
      if Dialled(dial).None? then (this.(calls := calls + 1), None)
      else
        var b := OnWire(Dialled(dial).value, calls, "BEGIN", ios[0]);
        if b.line.None? then (Client(None, calls + 1, log + b.served), None)
        else
          var t := TxnFrom(b.session, calls, stmts, ios, 0, []);
          (Client(if t.keep then Some(t.session) else None, calls + 1, log + b.served + t.served), t.replies)
    }

    /** With the mutex free: no connection, or one on which no transaction is open, no
        reply waits and no I/O has failed. */
    predicate Idle() {
      conn.Some? ==> conn.value == CONNECTED
    }

    /** Every statement run inside a transaction belongs to the call that opened it. */
    ghost predicate Isolated() {
      forall e :: e in log && e.within.Some? ==> e.within.value == e.call
    }
  }

  const NEW: Client := Client(None, 0, [])

  // ---- The object ---------------------------------------------------------------------------

  class KdsClient {
    var conn: Option<Session>
    var calls: nat
    var log: seq<Served>

    function Value(): Client
      reads this
    {
      Client(conn, calls, log)
    }

    constructor ()
      ensures Value() == NEW
    {
      conn, calls, log := None, 0, [];
    }

    method DialLocked(dial: bool) returns (ok: bool)
      requires conn.None?
      modifies this`conn
      ensures conn == old(Value()).Dialled(dial) && ok == dial
    {
      if dial { conn := Some(CONNECTED); }
      return dial;
    }

    method DropLocked()
      modifies this`conn
      ensures conn.None?
    {
      conn := None;
    }

    method ExecLocked(stmt: string, io: Io) returns (line: Option<string>)
      requires conn.Some?
      modifies this`conn, this`log
      ensures var x := OnWire(old(conn.value), calls, stmt, io);
              conn == Some(x.session) && log == old(log) + x.served && line == x.line
    {
      var s := conn.value;
      var served := [Served(calls, stmt, s.opener)];
      if io.WriteFails? {
        if io.served {
          s := Serve(s, calls, stmt, io.reply);
          log := log + served;
        }
        conn := Some(s.(failed := true));
        return None;
      }
      s := Serve(s, calls, stmt, io.reply);
      log := log + served;
      if io.ReadFails? {
        conn := Some(s.(failed := true));
        return None;
      }
      var oldest := s.unread[0];
      conn := Some(s.(unread := s.unread[1..]));
      return if IsErr(oldest) then None else Some(oldest);
    }

    method Exec(stmt: string, dial: bool, io: Io) returns (reply: Option<string>)
      modifies this
      ensures (Value(), reply) == old(Value()).Exec(stmt, dial, io)
    {
      if conn.None? {
        var ok := DialLocked(dial);
        if !ok {
          calls := calls + 1;
          return None;
        }
      }
      reply := ExecLocked(stmt, io);
      if reply.None? { DropLocked(); }
      calls := calls + 1;
    }

    method ExecTxn(stmts: seq<string>, dial: bool, ios: seq<Io>) returns (replies: Option<seq<string>>)
      requires |ios| == |stmts| + 2
      modifies this
      ensures (Value(), replies) == old(Value()).ExecTxn(stmts, dial, ios)
    {
      if conn.None? {
        var ok := DialLocked(dial);
        if !ok {
          calls := calls + 1;
          return None;
        }
      }
      var begun := ExecLocked("BEGIN", ios[0]);
      if begun.None? {
        DropLocked();
        calls := calls + 1;
        return None;
      }
      replies := FinishTxn(stmts, ios);
      calls := calls + 1;
    }

    /** ExecTxn from the first statement on. */
    method FinishTxn(stmts: seq<string>, ios: seq<Io>) returns (replies: Option<seq<string>>)
      requires |ios| == |stmts| + 2 && conn.Some?
      modifies this`conn, this`log
      ensures var t := TxnFrom(old(conn.value), calls, stmts, ios, 0, []);
              && conn == (if t.keep then Some(t.session) else None)
              && log == old(log) + t.served && replies == t.replies
    {
      ghost var t, before := TxnFrom(conn.value, calls, stmts, ios, 0, []), log;
      var got := [];
      var k := 0;
      while k < |stmts|
        invariant k <= |stmts| && conn.Some?
        invariant Continues(t, before, log, TxnFrom(conn.value, calls, stmts, ios, k, got))
      {
        ghost var s, was := conn.value, log;
        var reply := ExecLocked(stmts[k], ios[k + 1]);
        if reply.None? {
          var rolled := End("ROLLBACK", ios[k + 2]);
          return None;
        }
        TxnGoesOn(t, before, was, s, calls, stmts, ios, k, k + 1, got);
        got := got + [reply.value];
        k := k + 1;
      }
      var committed := End("COMMIT", ios[k + 1]);
      return if committed then Some(got) else None;
    }

    /** The statement that ends a transaction; a connection that cannot run it is dropped. */
    method End(stmt: string, io: Io) returns (ok: bool)
      requires conn.Some?
      modifies this`conn, this`log
      ensures var x := OnWire(old(conn.value), calls, stmt, io);
              && ok == x.line.Some?
              && conn == (if ok then Some(x.session) else None) && log == old(log) + x.served
    {
      var line := ExecLocked(stmt, io);
      if line.None? { DropLocked(); }
      return line.Some?;
    }
  }

  // ---- One call --------------------------------------------------------------------------------

  /** From an idle client Exec leaves an idle client exactly when it did not open a
      transaction, and the reply it returns is the server's reply to its own statement. */
  lemma ExecKeeps(c: Client, stmt: string, dial: bool, io: Io)
    requires c.Idle() && c.Isolated()
    ensures var (c', reply) := c.Exec(stmt, dial, io);
            && c'.Isolated()
            && (c'.Idle() <==> !(stmt == "BEGIN" && reply.Some?))
            && (reply.Some? ==> io == Answers(reply.value))
  {}

  /** A connection on which a statement failed fails from then on. */
  predicate Sticky(ios: seq<Io>) {
    forall k :: 0 <= k < |ios| - 1 && !ios[k].Answers? ==> !ios[k + 1].Answers?
  }

  predicate Fine(io: Io) {
    io.Answers? && !IsErr(io.reply)
  }

  /** The k-th statement failed on the wire and the ROLLBACK after it read a line that is
      not an error: its own reply, or the one the statement left behind. */
  predicate Slips(ios: seq<Io>, k: nat)
    requires k + 2 < |ios|
  {
    && (forall i :: 0 <= i <= k ==> Fine(ios[i]))
    && !ios[k + 1].Answers? && ios[k + 2].Answers?
    && !IsErr(if ios[k + 1] == WriteFails(false, ios[k + 1].reply) then ios[k + 2].reply else ios[k + 1].reply)
  }

  ghost predicate SlipsFrom(ios: seq<Io>, k: nat) {
    exists j :: k <= j && j + 2 < |ios| && Slips(ios, j)
  }

  predicate Within(served: seq<Served>, call: nat) {
    forall e :: e in served ==> e.call == call && (e.within.None? || e.within == Some(call))
  }

  predicate InTxn(s: Session, call: nat) {
    s.unread == [] && !s.failed && (s.opener.None? || s.opener == Some(call))
  }

  lemma Exchanged(s: Session, call: nat, stmt: string, io: Io)
    requires InTxn(s, call)
    ensures var x := OnWire(s, call, stmt, io);
            && Within(x.served, call)
            && (x.line.Some? <==> Fine(io))
            && (io.Answers? ==> InTxn(x.session, call) && x.served == [Served(call, stmt, s.opener)])
            && (Fine(io) ==> x.line == Some(io.reply))
  {}

  lemma RolledBack(s: Session, call: nat, stmt: string, io: Io, end: Io)
    requires InTxn(s, call) && !Fine(io)
    ensures var x := OnWire(s, call, stmt, io);
            var y := OnWire(x.session, call, "ROLLBACK", end);
            && Within(y.served, call)
            && (y.line.Some? ==> (y.session == CONNECTED <==> io.Answers?))
            && (y.line.Some? && !io.Answers? ==>
                  end.Answers? && !IsErr(if io == WriteFails(false, io.reply) then end.reply else io.reply))
            && (end.Answers? && !io.Answers? && !IsErr(if io == WriteFails(false, io.reply) then end.reply else io.reply) ==>
                  y.line.Some?)
  {
    var x := OnWire(s, call, stmt, io);
    Exchanged(s, call, stmt, io);
  }

  /** The statements of a transaction leave an idle connection, or none, exactly when no
      ROLLBACK slips past a failed statement. */
  lemma {:induction false} TxnKeeps(s: Session, call: nat, stmts: seq<string>, ios: seq<Io>, k: nat, replies: seq<string>)
    requires |ios| == |stmts| + 2 && k <= |stmts| && InTxn(s, call)
    requires forall i :: 0 <= i <= k ==> Fine(ios[i])
    ensures var t := TxnFrom(s, call, stmts, ios, k, replies);
            && Within(t.served, call)
            && ((t.keep ==> t.session == CONNECTED) <==> !SlipsFrom(ios, k))
    decreases |stmts| - k
  {
    if k == |stmts| {
      Exchanged(s, call, "COMMIT", ios[k + 1]);
    } else {
      Exchanged(s, call, stmts[k], ios[k + 1]);
      var x := OnWire(s, call, stmts[k], ios[k + 1]);
      if x.line.None? {
        RolledBack(s, call, stmts[k], ios[k + 1], ios[k + 2]);
        assert forall j :: k < j && j + 2 < |ios| ==> !Slips(ios, j);
        assert SlipsFrom(ios, k) <==> Slips(ios, k);
      } else {
        TxnKeeps(x.session, call, stmts, ios, k + 1, replies + [x.line.value]);
        assert !Slips(ios, k);
        assert SlipsFrom(ios, k) <==> SlipsFrom(ios, k + 1);
      }
    }
  }

  /** ExecTxn leaves an idle client exactly when no ROLLBACK slips past a failed
      statement; on connections that stay failed none ever does. */
  lemma ExecTxnKeeps(c: Client, stmts: seq<string>, dial: bool, ios: seq<Io>)
    requires |ios| == |stmts| + 2 && c.Idle() && c.Isolated()
    ensures var c' := c.ExecTxn(stmts, dial, ios).0;
            && c'.Isolated()
            && (c'.Idle() <==> !(c.Dialled(dial).Some? && SlipsFrom(ios, 0)))
            && (Sticky(ios) ==> c'.Idle())
  {
    if c.Dialled(dial).Some? {
      var b := OnWire(CONNECTED, c.calls, "BEGIN", ios[0]);
      Exchanged(CONNECTED, c.calls, "BEGIN", ios[0]);
      if b.line.Some? {
        TxnKeeps(b.session, c.calls, stmts, ios, 0, []);
      } else {
        assert !SlipsFrom(ios, 0);
      }
    }
  }

  // ---- When a call succeeds --------------------------------------------------------------------

  /** The lines read. */
  function Texts(ios: seq<Io>): seq<string> {
    seq(|ios|, i requires 0 <= i < |ios| => ios[i].reply)
  }

  predicate FailsFirst(ios: seq<Io>, j: nat)
    requires j < |ios|
  {
    !Fine(ios[j]) && forall i :: 0 <= i < j ==> Fine(ios[i])
  }

  /** The ROLLBACK after the j-th statement reads a line that is not an error: its own, or
      one that statement left unread. */
  predicate RollsBack(ios: seq<Io>, j: nat)
    requires j + 1 < |ios|
  {
    && ios[j + 1].Answers?
    && !IsErr(if ios[j].ReadFails? || (ios[j].WriteFails? && ios[j].served) then ios[j].reply else ios[j + 1].reply)
  }

  ghost predicate AllFine(ios: seq<Io>) {
    forall i :: 0 <= i < |ios| ==> Fine(ios[i])
  }

  /** The first failure was of a statement between BEGIN and COMMIT, and was rolled back. */
  ghost predicate Recovers(ios: seq<Io>) {
    exists j :: 1 <= j < |ios| - 1 && FailsFirst(ios, j) && RollsBack(ios, j)
  }

  /** **Exec answers exactly** what the connection answered, where it answered and no error;
      and it keeps the connection exactly then. */
  lemma ExecExactly(c: Client, stmt: string, dial: bool, io: Io, line: string)
    requires c.Idle()
    ensures var (c', reply) := c.Exec(stmt, dial, io);
            && (reply == Some(line) <==> (c.conn.Some? || dial) && io == Answers(line) && !("ERR " <= line))
            && (c'.conn.Some? <==> reply.Some?)
  {}

  lemma TextsFrom(ios: seq<Io>, k: nat, m: nat, end: nat)
    requires k < end <= |ios| && m == k + 1
    ensures Texts(ios[k..end]) == [ios[k].reply] + Texts(ios[m..end])
  {}

  lemma CommitReports(s: Session, call: nat, stmts: seq<string>, ios: seq<Io>, replies: seq<string>)
    requires |ios| == |stmts| + 2 && InTxn(s, call)
    requires forall i :: 0 <= i <= |stmts| ==> Fine(ios[i])
    ensures var t := TxnFrom(s, call, stmts, ios, |stmts|, replies);
            && t.replies == (if AllFine(ios) then Some(replies + Texts(ios[|stmts| + 1..|stmts| + 1])) else None)
            && (t.keep <==> AllFine(ios) || Recovers(ios))
  {
    Exchanged(s, call, "COMMIT", ios[|stmts| + 1]);
    EndFailure(ios);
    var none := Texts(ios[|stmts| + 1..|stmts| + 1]);
    assert none == [] && replies + none == replies;
  }

  /** The statements from the k-th on, the ones before having been answered. */
  lemma {:induction false} TxnReports(s: Session, call: nat, stmts: seq<string>, ios: seq<Io>, k: nat, replies: seq<string>)
    requires |ios| == |stmts| + 2 && k <= |stmts| && InTxn(s, call)
    requires forall i :: 0 <= i <= k ==> Fine(ios[i])
    ensures var t := TxnFrom(s, call, stmts, ios, k, replies);
            && t.replies == (if AllFine(ios) then Some(replies + Texts(ios[k + 1..|stmts| + 1])) else None)
            && (t.keep <==> AllFine(ios) || Recovers(ios))
    decreases |stmts| - k
  {
    var m, n := k + 1, |stmts|;
    if k == n {
      CommitReports(s, call, stmts, ios, replies);
    } else {
      Exchanged(s, call, stmts[k], ios[m]);
      var x := OnWire(s, call, stmts[k], ios[m]);
      if x.line.None? {
        FirstFailure(ios, m);
        RolledBackReads(s, call, stmts[k], ios, m);
      } else {
        TxnReports(x.session, call, stmts, ios, m, replies + [x.line.value]);
        TextsFrom(ios, m, k + 2, n + 1);
        assert replies + ([ios[m].reply] + Texts(ios[k + 2..n + 1])) == (replies + [ios[m].reply]) + Texts(ios[k + 2..n + 1]);
      }
    }
  }

  /** There is one first failure. */
  lemma FirstFailure(ios: seq<Io>, m: nat)
    requires 1 <= m < |ios| - 1 && FailsFirst(ios, m)
    ensures !AllFine(ios) && (Recovers(ios) <==> RollsBack(ios, m))
  {
    assert forall j :: 0 <= j < |ios| && FailsFirst(ios, j) ==> j == m;
  }

  /** A failed COMMIT, or BEGIN, is not rolled back. */
  lemma EndFailure(ios: seq<Io>)
    requires |ios| >= 2 && forall i :: 0 <= i < |ios| - 1 ==> Fine(ios[i])
    ensures !Recovers(ios) && (AllFine(ios) <==> Fine(ios[|ios| - 1]))
  {}

  lemma StartFailure(ios: seq<Io>)
    requires |ios| >= 2 && !Fine(ios[0])
    ensures !Recovers(ios) && !AllFine(ios)
  {}

  lemma RolledBackReads(s: Session, call: nat, stmt: string, ios: seq<Io>, m: nat)
    requires InTxn(s, call) && m + 1 < |ios| && !Fine(ios[m])
    ensures OnWire(OnWire(s, call, stmt, ios[m]).session, call, "ROLLBACK", ios[m + 1]).line.Some? <==> RollsBack(ios, m)
  {
    Exchanged(s, call, stmt, ios[m]);
  }

  /** **ExecTxn succeeds exactly** when it has a connection and everything from BEGIN to
      COMMIT is answered and no error, and returns the answers to the statements; it keeps
      the connection exactly then, or where the statement that failed was rolled back. */
  lemma ExecTxnExactly(c: Client, stmts: seq<string>, dial: bool, ios: seq<Io>)
    requires |ios| == |stmts| + 2 && c.Idle()
    ensures var (c', replies) := c.ExecTxn(stmts, dial, ios);
            && replies == (if (c.conn.Some? || dial) && AllFine(ios) then Some(Texts(ios[1..|stmts| + 1])) else None)
            && (c'.conn.Some? <==> (c.conn.Some? || dial) && (AllFine(ios) || Recovers(ios)))
  {
    if c.Dialled(dial).Some? {
      var b := OnWire(CONNECTED, c.calls, "BEGIN", ios[0]);
      Exchanged(CONNECTED, c.calls, "BEGIN", ios[0]);
      if b.line.Some? {
        TxnReports(b.session, c.calls, stmts, ios, 0, []);
        assert [] + Texts(ios[1..|stmts| + 1]) == Texts(ios[1..|stmts| + 1]);
      } else {
        StartFailure(ios);
      }
    }
  }

  // ---- Whole runs --------------------------------------------------------------------------------

  datatype Call = One(stmt: string, dial: bool, io: Io) | Many(stmts: seq<string>, dial: bool, ios: seq<Io>)

  /** No caller sends BEGIN through Exec, and a connection that failed stays failed. */
  predicate Proper(call: Call) {
    match call
    case One(stmt, _, _) => stmt != "BEGIN"
    case Many(stmts, _, ios) => |ios| == |stmts| + 2 && Sticky(ios)
  }

  function Run(c: Client, calls: seq<Call>): Client
    requires forall call :: call in calls ==> Proper(call)
  {
    if calls == [] then c
    else
      var last := calls[|calls| - 1];
      var before := Run(c, calls[..|calls| - 1]);
      assert Proper(last);
      match last
      case One(stmt, dial, io) => before.Exec(stmt, dial, io).0
      case Many(stmts, dial, ios) => before.ExecTxn(stmts, dial, ios).0
  }

  /** **Isolation.** Whenever the mutex is free the connection is absent or idle, and no
      statement ever ran inside another call's transaction. */
  lemma {:induction false} RunIsolated(calls: seq<Call>)
    requires forall call :: call in calls ==> Proper(call)
    ensures Run(NEW, calls).Idle() && Run(NEW, calls).Isolated()
    decreases |calls|
  {
    if calls != [] {
      var front, last := calls[..|calls| - 1], calls[|calls| - 1];
      assert last in calls;
      RunIsolated(front);
      match last
      case One(stmt, dial, io) => ExecKeeps(Run(NEW, front), stmt, dial, io);
      case Many(stmts, dial, ios) => ExecTxnKeeps(Run(NEW, front), stmts, dial, ios);
    }
  }

  // ---- What a reported transaction did ----------------------------------------------------------

  function ServedAll(call: nat, stmts: seq<string>): seq<Served> {
    seq(|stmts|, i requires 0 <= i < |stmts| => Served(call, stmts[i], Some(call)))
  }

  /** Line for line what the server replied. */
  predicate Echo(ios: seq<Io>, lines: seq<string>) {
    |lines| == |ios| && forall i :: 0 <= i < |ios| ==> ios[i] == Answers(lines[i])
  }

  predicate Ends(stmt: string) {
    stmt == "COMMIT" || stmt == "ROLLBACK"
  }

  lemma StatementsTail(stmts: seq<string>, ios: seq<Io>, k: nat, m: nat)
    requires |ios| == |stmts| + 2 && k < |stmts| && m == k + 1
    ensures stmts[k..] + ["COMMIT"] == [stmts[k]] + (stmts[m..] + ["COMMIT"])
    ensures ios[m..|stmts| + 1] == [ios[m]] + ios[m + 1..|stmts| + 1]
  {}

  lemma RepliesTail(all: seq<string>, replies: seq<string>, reply: string)
    requires |all| > |replies| && all[..|replies| + 1] == replies + [reply]
    ensures all[..|replies|] == replies && all[|replies|..] == [reply] + all[|replies| + 1..]
  {
    assert all[..|replies|] == all[..|replies| + 1][..|replies|];
    assert all[|replies|] == all[..|replies| + 1][|replies|];
  }

  lemma {:induction false} TxnServed(s: Session, call: nat, stmts: seq<string>, ios: seq<Io>, k: nat, replies: seq<string>)
    requires |ios| == |stmts| + 2 && k <= |stmts| && s == Session(Some(call), [], false)
    requires forall stmt :: stmt in stmts ==> !Ends(stmt)
    ensures var t := TxnFrom(s, call, stmts, ios, k, replies);
            t.replies.Some? ==>
              && t.served == ServedAll(call, stmts[k..] + ["COMMIT"])
              && |t.replies.value| == |replies| + |stmts| - k
              && t.replies.value[..|replies|] == replies
              && Echo(ios[k + 1..|stmts| + 1], t.replies.value[|replies|..])
    decreases |stmts| - k
  {
    if k < |stmts| {
      assert !Ends(stmts[k]);
      var x := OnWire(s, call, stmts[k], ios[k + 1]);
      if x.line.Some? {
        var replies' := replies + [x.line.value];
        TxnServed(x.session, call, stmts, ios, k + 1, replies');
        var t := TxnFrom(x.session, call, stmts, ios, k + 1, replies');
        if t.replies.Some? {
          StatementsTail(stmts, ios, k, k + 1);
          RepliesTail(t.replies.value, replies, x.line.value);
        }
      }
    }
  }

  /** A transaction reported done ran whole and alone: BEGIN, its statements in order and
      COMMIT, all inside its own transaction, each reply the one to its own statement. */
  lemma ReportedTxnRan(c: Client, stmts: seq<string>, dial: bool, ios: seq<Io>)
    requires |ios| == |stmts| + 2 && c.Idle()
    requires forall stmt :: stmt in stmts ==> !Ends(stmt)
    ensures var (c', replies) := c.ExecTxn(stmts, dial, ios);
            replies.Some? ==>
              && c'.log == c.log + [Served(c.calls, "BEGIN", None)] + ServedAll(c.calls, stmts + ["COMMIT"])
              && Echo(ios[1..|stmts| + 1], replies.value)
  {
    if c.Dialled(dial).Some? {
      var b := OnWire(CONNECTED, c.calls, "BEGIN", ios[0]);
      if b.line.Some? {
        TxnServed(b.session, c.calls, stmts, ios, 0, []);
        assert stmts[0..] == stmts;
      }
    }
  }

  /** Without the assumption the isolation fails: a read that times out once leaves its
      reply behind, ROLLBACK reads that reply instead of its own, and every later call
      is answered with its predecessor's reply. */
  lemma SlippedRollback()
    ensures var c' := NEW.ExecTxn(["INSERT"], true, [Answers("OK"), ReadFails("INSERTED"), Answers("ROLLED BACK")]).0;
            !c'.Idle() && c'.Exec("SELECT", true, Answers("id")).1 == Some("ROLLED BACK")
  {
    assert !IsErr("OK") && !IsErr("INSERTED") && !IsErr("ROLLED BACK") by {
      assert "ROLLED BACK"[0] != "ERR "[0] && "INSERTED"[0] != "ERR "[0];
    }
    var x := OnWire(CONNECTED, 0, "BEGIN", Answers("OK"));
    var y := OnWire(x.session, 0, "INSERT", ReadFails("INSERTED"));
    assert y.session == Session(Some(0), ["INSERTED"], true);
    var z := OnWire(y.session, 0, "ROLLBACK", Answers("ROLLED BACK"));
    assert z.session == Session(None, ["ROLLED BACK"], true);
  }
}
