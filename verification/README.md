# A verified model of the simulation harness and the task server

The repository holds a database (`ckdbs`), a deterministic simulation harness that looks
for its bugs (`ckdbs/sim`), a small task server on top of it (`server`) and a read-only
dashboard (`web`). This project models the checking and coordination logic, the code whose
mistakes would be silent, and proves what it promises.

- **The oracle and the verdict loop** (`Oracle.dfy`, `ReadCheck.dfy`, `Loop.dfy`,
  `Engine.dfy`, `NoFalseAlarms.dfy`, `Reconcile.dfy`, `Finish.dfy`, `WholeRuns.dfy`,
  `Iterations.dfy`, `Exactness.dfy`, `OracleLaws.dfy`, `Detection.dfy`, `Bookkeeping.dfy`,
  `Verdicts.dfy`).
  The oracle is a map with a pending-transaction copy and two kinds of unknown outcome. The
  loop feeds it the engine's replies, absorbs injected errors, and compares reads, row counts
  and, after a restart, whole relations. The engine is a nondeterministic machine: an errored
  statement took effect, partly or not at all. A relation between engine and oracle is kept
  by every operation, whatever was answered, unless the operation itself fails a check; so
  no iteration over an allowed stream fails one on an engine that keeps its promises, of any
  length, under any pattern of errors, in every stop mode. Which streams are allowed is
  exact: for every other one an iteration of such an engine is built that fails. And of an
  engine that promised nothing: over every run an operation passes exactly when its answer
  is right, and an iteration exactly when everything answered was, up to the ids that an
  error has put in doubt, which are exactly those it may have hit.
- **The claim lease** (`Lease.dfy`, `SelectReply.dfy`). Any number of handlers are interleaved
  statement by statement over the shared rows and a clock that never runs backwards. A
  statement whose client saw an error may still land at any later time. A handler answers
  yes exactly when its statement took effect.
- **The connection** (`KdsClient.dfy`). The mutex-guarded client over a scripted network:
  when a call succeeds, what it returns, and when it keeps its connection.
- **The minimizer and its case file** (`Minimize.dfy`, `CaseTitle.dfy`, `CaseFile.dfy`,
  `CaseRoundTrip.dfy`).
- **The integrity sweep** (`Integrity.dfy`), **the chunked id allocator** (`Allocator.dfy`),
  **the seeded plan builder** (`Rng.dfy`, `Workload.dfy`, `Streams.dfy`, `Statements.dfy`,
  `PlanBuilder.dfy`, `GeneratedPlans.dfy`) and **the dashboard** (`Dashboard.dfy`).

Where the source changes things step by step the model does too: classes `Oracle`,
`Iteration`, `KdsClient`, `Store`, `BumpAheadAllocator` and `Workload`, and loops for the
walks. Each such method is proved equal to a transition on values; the theorems are about
those transitions. The protocol of the server is a state machine over its steps.

`dafny verify dfyconfig.toml` checks the whole project.

## What the engine is taken to promise

`EngineModel.EngineStep` and `Iterations.Plausible` fix the following, from
`ckdbs/src/server/command_dispatcher.cpp`, section 5 of `ckdbs/manual/sql/sql.md` and the
contract `ckdbs/sim/loop.cpp` states at lines 484-574; everything else is left open.

- An id is issued once, whether or not its INSERT was acknowledged.
- Which rows a statement names, what it makes of them and what it lists is said by its own
  fields (`Named`, `SetAs`, `IsListing`), not by the oracle's functions.
- A statement that answers anything but an error did what it says. One that errs outside a
  transaction touched any part of the rows it names and no others, and opened no transaction.
- Writes of a transaction are seen by its own session and reach the committed rows only
  through COMMIT, whole or not at all, even when the COMMIT answers an error. Any other
  statement that errs inside one leaves it open, with any part of itself in it, and may
  poison it: nothing is answered then until a ROLLBACK. After the harness's own ROLLBACK no
  transaction is open.
- A second BEGIN, a COMMIT or ROLLBACK outside a transaction, a read, write or declaration
  on a relation the session does not see, and a repeated Cabin or pattern are refused
  (`Refused`). With fault injection any statement may answer an error as well; without it
  nothing else does (`RepliesAllowed`). A refusal is an error like any other to the
  harness, and without faults it fails the run.
- The instance shuts down and restarts, its chains are sound and in order, and a restart
  brings back the committed rows: all of them after a clean stop or where the recovery gate
  asserts it, else at least those that stand as the last SYNC left them. Only a crash loses
  a relation, and only one no SYNC covers: CREATE TABLE is unlogged.

## Where a naive statement is false

- **No false alarms on every stream** fails, in different places with and without faults,
  and `Exactness.NeverAlarmsExactly` says where, for every stream, every stop mode and both
  settings of the recovery gate. With faults on, an engine that keeps its promises can be
  failed by a check exactly when the stream creates a relation twice or can create one inside
  a transaction (`StreamOk` shuts both out): CREATE TABLE is transactional, and the oracle
  creates the relation in the committed state at once, so the probe misses it after a
  rollback. With faults off it can be failed exactly when the stream asks something the
  engine refuses, creates a relation twice (`CatalogOk`), or makes one it does not keep. For
  a clean stop and for a crash after a SYNC that is one made in a transaction that is not
  committed; for a plain crash it is one the last SYNC in the stream saw and does not cover
  at the end (`Keeps`). The smallest cases are `CreateInTransactionAlarms` (only with
  faults), `StrayEndAlarms` (only without), `UncommittedCreateAlarms` (all but one
  setting), `RecreatedAlarms` (only in a plain crash without faults, or with them) and
  `SecondCreateAlarms` (always). Every generated stream is allowed (`GeneratedStreamOk`), and
  what the minimizer leaves of one stays so with faults (`ShrunkPlanNeverAlarms`); without
  them a BEGIN taken away leaves a COMMIT that fails.
- **An iteration over an allowed stream passes** is false with faults on: it fails when no
  relation came to be, and any stream may lose its every CREATE TABLE (`SchemaMayBeLost`).
  `IterationPasses`: it passes exactly when the oracle ends with a relation. It can pass
  exactly when the stream creates one (`CanPassExactly`), and passes on every engine that
  keeps its promises exactly without faults and over an allowed stream
  (`NeverFailsExactly`). A shrunk plan that lost its CREATE TABLEs always fails, and so do
  `BEGIN; COMMIT` and a lone COMMIT, by that guard alone.
- **`claimed_at` never moves back** fails: the clock is read before phase 1
  (`ClaimedAtMovesBack`). `MovesBackExactly` says when, over every run: where a claim takes
  effect whose handler arrived in an earlier second than the stored one. It never does
  where the claims of a task come one at a time (`SerialClaimsMonotone`).
- **An expired lease can always be taken** fails for a holder named `NULL`, which reads as
  unclaimed in phase 2; `ClaimAloneSucceeds` has the exact condition.
- **A reported task is not pending** fails within one second (`SameSecondReportStaysPending`);
  `ShippedHasResult` has the exact condition.
- **A connection never leaks a transaction or a reply** fails when a connection answers again
  after a failed statement (`SlippedRollback`); `ExecTxnKeeps` has the exact condition.
- **Ids are issued once** fails without the sync per chunk, with an empty chunk, and when an
  allocator is kept after a failed overwrite or after a failed sync that did not reach the
  image; keeping one after a failed read, or after a sync that failed late, is harmless.
  `IssuesOnceExactly` is an equivalence over the settings and the set of errors survived;
  for a caller, who is not told where a sync failed, `SafePolicies` leaves the failed read.
- **Every plan survives its case file** fails for fields with a tab or a newline, for
  INT64_MIN, whose negation overflows on reading, and for a signature of several lines whose
  later ones are neither blank nor comments nor settings that parse: the signature is written
  into the header as it is. `RoundTrip` is an equivalence over all of these. Every generated
  plan meets the conditions on fields, and a failure told in one line replays
  (`OneLineFailureReplays`); but an integrity failure does not: its findings start indented
  lines, the signature keeps them, and no reader takes the file
  (`IntegrityFailureUnreadable`).
- **A crash plan is a prefix of the clean plan** fails with no operations: `Below(0)` is
  zero, so the crash plan holds one operation (`CrashPlanIsPrefix`).

## Model

| member | source | states |
|---|---|---|
| `OracleModel.RenderInjective` | ckdbs/sim/oracle.hpp:181-183 | two rendered rows are equal only when id, value and name are, so comparing lines compares rows |
| `OracleModel.IdOfRender` | ckdbs/sim/oracle.cpp:10-14 | the id parsed off a rendered row is the row's id |
| `OracleModel.AssignMatching` | ckdbs/sim/oracle.cpp:18-43 | UPDATE's walk changes exactly the rows matched before any was assigned, and counts them |
| `OracleModel.EraseMatching` | ckdbs/sim/oracle.cpp:45-68 | DELETE's walk, erasing while it iterates, removes exactly the matching rows and counts them |
| `OracleModel.ListSelected` | ckdbs/sim/oracle.cpp:115-159 | the expectation lists the selected rows by ascending id without the unchecked ones |
| `OracleModel.Oracle.Begin` | ckdbs/sim/oracle.hpp:90-94 | the pending copy starts as the committed state and nothing is touched |
| `OracleModel.Oracle.Commit` | ckdbs/sim/oracle.hpp:95-100 | the pending copy becomes the committed state whole |
| `OracleModel.Oracle.Rollback` | ckdbs/sim/oracle.hpp:101-105 | the pending copy is dropped and nothing else moves |
| `OracleModel.Oracle.Abandon` | ckdbs/sim/oracle.hpp:108-113 | the pending copy is dropped and every id it touched becomes unchecked |
| `OracleModel.Oracle.ApplyInsert` | ckdbs/sim/oracle.hpp:117-125 | the row lands in the live view, and its id counts as issued and touched |
| `OracleModel.Oracle.ApplyUpdate` | ckdbs/sim/oracle.cpp:18-43 | the live view is updated in place, the matched ids touched, their number returned |
| `OracleModel.Oracle.ApplyDelete` | ckdbs/sim/oracle.cpp:45-68 | the matched rows leave the live view, their ids touched, their number returned |
| `OracleModel.Oracle.Matching` | ckdbs/sim/oracle.cpp:70-83 | the ids a mutation would touch, ascending |
| `OracleModel.Oracle.NoteIndeterminate` | ckdbs/sim/oracle.hpp:137 | a relation gains one row nobody named |
| `OracleModel.Oracle.Expect` | ckdbs/sim/oracle.cpp:115-159 | the four expectations over a given view |
| `OracleLaws.CommitIsDirect` | ckdbs/sim/oracle.hpp:90-100 | for every write sequence BEGIN; writes; COMMIT leaves the committed state the writes leave by themselves |
| `OracleLaws.RollbackIsNothing` | ckdbs/sim/oracle.hpp:101-105 | for every write sequence BEGIN; writes; ROLLBACK leaves the committed state and the doubts alone |
| `OracleLaws.AbandonDoubtsEverything` | ckdbs/sim/oracle.hpp:106-113 | Abandon leaves the committed state and doubts every id at which committing would have changed it |
| `OracleLaws.InsertLands` | ckdbs/sim/oracle.hpp:117-125 | an INSERT puts its row under its id and moves nothing else |
| `OracleLaws.UpdateLands` | ckdbs/sim/oracle.cpp:18-43 | an UPDATE writes the column it sets in the rows with its key, or with its old value, and leaves their other column and every other row |
| `OracleLaws.DeleteLands` | ckdbs/sim/oracle.cpp:45-68 | a DELETE takes those rows out and no others |
| `OracleLaws.ExpectLists` | ckdbs/sim/oracle.cpp:115-159 | an expectation lists, by ascending id, the checked rows with the key, in the range (both ends included) or with the value |
| `Wire.SplitEscapedLines` | ckdbs/sim/reply.hpp:18-31 | the cursor loop splits a reply at its escaped line breaks |
| `Wire.SplitJoined` | ckdbs/sim/reply.hpp:16-31 | splitting a joined reply gives its header and rows back |
| `ReadCheck.WithoutUnknowns` | ckdbs/sim/loop.cpp:151-168 | the greedy filter keeps matched and assertable rows, in order |
| `ReadCheck.KeptMatches` | ckdbs/sim/loop.cpp:148-168 | what the filter keeps is the expectation, as a multiset, exactly when the reply is acceptable |
| `ReadCheck.ScanAgreesExactly` | ckdbs/sim/loop.cpp:174-201 | a scan agrees exactly when the expected rows are a sub-multiset of it and every surplus row is ignorable |
| `ReadCheck.PointAgreesExactly` | ckdbs/sim/loop.cpp:174-201 | the same for a point read, which is compared unsorted |
| `ReadCheck.ReadAgrees` | ckdbs/sim/loop.cpp:174-201 | the loop's comparison computes exactly that |
| `Loop.Iteration.CheckCount` | ckdbs/sim/loop.cpp:233-252 | a count is compared only where the oracle can be sure of it |
| `Loop.Iteration.CheckRead` | ckdbs/sim/loop.cpp:205-221 | a read passes, fails or is skipped as the transition says |
| `Loop.Iteration.AbsorbError` | ckdbs/sim/loop.cpp:260-313 | an error applies nothing and doubts what it may have hit, by where it landed |
| `Loop.Iteration.CloseOpenTransaction` | ckdbs/sim/loop.cpp:456-465 | an open transaction is rolled back, or abandoned when the ROLLBACK errs |
| `Loop.Iteration.ExecuteOp` | ckdbs/sim/loop.cpp:315-448 | one operation, its retry and its judgement are the transition `Step` |
| `Loop.Iteration.RunPlan` | ckdbs/sim/loop.cpp:614-639 | the operation loop runs the plan up to its first failure |
| `NoFalseAlarms.ListingPasses` | ckdbs/sim/loop.cpp:205-221 | in step, every listing of the engine's rows passes the oracle's comparison |
| `NoFalseAlarms.CountsAgree` | ckdbs/sim/loop.cpp:233-252 | in step, a checkable count is the same on both sides |
| `NoFalseAlarms.JudgedKeeps` | ckdbs/sim/loop.cpp:341-448 | an answered operation is judged good and keeps engine and oracle in step |
| `NoFalseAlarms.ErredAloneKeeps` | ckdbs/sim/loop.cpp:300-313 | an error outside a transaction keeps them in step, whatever part took effect |
| `NoFalseAlarms.LostCommitKeeps` | ckdbs/sim/loop.cpp:271-289 | so does a COMMIT that errs, whether it committed or not |
| `NoFalseAlarms.StepKeeps` | ckdbs/sim/loop.cpp:260-448 | every operation with every answer, in or out of a transaction, keeps the relation and fails no check, unless it was a CREATE TABLE answered EXISTS or an error with faults off, and then it fails |
| `WholeRuns.RunKeeps` | ckdbs/sim/loop.cpp:614-639 | with faults on, runs of any length over an allowed stream fail no check, by induction over their operations, and end in step: rows, relations, and the last SYNC's snapshot with what it put on the device |
| `WholeRuns.OffRunKeeps` | ckdbs/sim/loop.cpp:614-639 | the same without faults, over a stream that asks nothing the engine refuses; the engine ends with the relations the stream kept, the oracle with all it made, the device with what the SYNCs cover |
| `Finish.FinishIteration` | ckdbs/sim/loop.cpp:640-697 | the guard, the probe, the stop, the sweep and the reconciliation leave the transition `Finished`, and pass exactly when something was created and all of them agree |
| `Finish.Probe` | ckdbs/sim/loop.cpp:769-784 | the probe passes exactly when every relation's scan does |
| `Finish.FinishedOk` | ckdbs/sim/loop.cpp:640-697 | the verdict left is that condition, whichever order the relations are walked in |
| `Finish.FinishedCounts` | ckdbs/sim/loop.cpp:471-574 | a passing end adds a checked read for each relation probed, and the relations' gated and lost counts |
| `Iterations.RestartPasses` | ckdbs/sim/loop.cpp:487-574 | rows in step with the engine's, and snapshots with the device's, are restored in every mode, with the recovery gate and without |
| `Iterations.EndAgrees` | ckdbs/sim/loop.cpp:640-697 | no end an engine that keeps its promises may give a run in step fails a check |
| `Iterations.IterationPasses` | ckdbs/sim/loop.cpp:614-697 | over an allowed stream an iteration fails no check in any mode, and passes exactly when the oracle ends with a relation or no faults were on |
| `Exactness.NeverAlarmsExactly` | ckdbs/sim/loop.cpp:614-697 | under all rules: no engine that keeps its promises can be failed by a check exactly on the allowed streams; for every other stream a failing iteration from a fresh engine exists |
| `Exactness.SchemaMayBeLost` | ckdbs/sim/loop.cpp:640-650 | with faults on every stream has a run that fails no check and creates nothing |
| `Exactness.UncreatedFails` | ckdbs/sim/loop.cpp:640-650 | with faults on a stream without a CREATE TABLE fails no check and always ends with nothing created |
| `Exactness.CanPassExactly` | ckdbs/sim/loop.cpp:640-697 | with faults on an iteration can pass exactly when its stream has a CREATE TABLE |
| `Exactness.NeverFailsExactly` | ckdbs/sim/loop.cpp:614-697 | it passes whatever the engine does exactly without faults and over an allowed stream |
| `Exactness.CreateInTransactionAlarms` | ckdbs/sim/oracle.hpp:82-85 | BEGIN; CREATE TABLE; COMMIT can be failed exactly with faults on |
| `Exactness.UncommittedCreateAlarms` | ckdbs/sim/oracle.hpp:82-85 | BEGIN; CREATE TABLE can be failed under all rules but a plain crash without faults |
| `Exactness.RecreatedAlarms` | ckdbs/sim/loop.cpp:495-502 | a relation rolled back, SYNCed in that state and made again is kept, and can be failed exactly with faults on or by a plain crash |
| `Exactness.SecondCreateAlarms` | ckdbs/sim/loop.cpp:315-360 | two CREATE TABLEs of one relation can be failed under all rules |
| `Exactness.BracketedEndPasses` | ckdbs/src/server/command_dispatcher.cpp:6356-6359 | BEGIN and an end never fail a check; without faults they always pass, with faults never, as nothing was created |
| `Exactness.StrayEndAlarms` | ckdbs/src/server/command_dispatcher.cpp:6356-6359 | a lone COMMIT or ROLLBACK can be failed by a check exactly without faults; with them it never passes, as nothing was created |
| `WholeRuns.CloseKeeps` | ckdbs/sim/loop.cpp:456-465 | closing keeps engine and oracle in step and moves the committed relations of neither |
| `WholeRuns.ProbePasses` | ckdbs/sim/loop.cpp:471-482 | the quiescence probe never fires on an engine that scans its relations and holds all of the oracle's |
| `WholeRuns.ProbeFires` | ckdbs/sim/loop.cpp:769-784 | it fires on every engine that lost one of them |
| `Detection.ProbeDetects` | ckdbs/sim/loop.cpp:769-784 | over any engine and any run, the scans the probe lets through are exactly those that list every committed row not in doubt once and nothing else |
| `Detection.NextJudged` | ckdbs/sim/loop.cpp:205-252 | after any run, against any engine, an operation passes exactly when its answer is right: a read holds the rows asked for, id by id and each once, a count is of the rows the statement names, any other reply is of its kind; up to ids in doubt, and but for absorbed errors and lost relations |
| `Detection.RunJudged` | ckdbs/sim/loop.cpp:614-639 | a run passes exactly when every one of its answers was right |
| `Bookkeeping.StepRecords` | ckdbs/sim/loop.cpp:260-313 | an id comes to be in doubt exactly by an error that may have hit it: a row its UPDATE or DELETE names, what its transaction touched; ids named, rows touched and the snapshot are those answered |
| `Bookkeeping.StepCounts` | ckdbs/sim/loop.cpp:315-448 | every counter of the verdict goes up by exactly what the operation checked, skipped or absorbed |
| `Bookkeeping.NextBooked` | ckdbs/sim/loop.cpp:614-639 | both hold of the next operation after any run |
| `Bookkeeping.CalmRunChecksAll` | ckdbs/sim/oracle.cpp:85-113 | after a run in which nothing erred no id is excused and every count is compared |
| `Verdicts.IterationJudged` | ckdbs/sim/loop.cpp:614-697 | whatever the engine, an iteration passes exactly when every answer was right, something was created if faults were on, the probe and the restart gave back their rows id by id, the SYNC before a crash was answered and the chains are sound and in order |
| `Reconciliation.ReconcileTable` | ckdbs/sim/loop.cpp:495-574 | one relation's verdict, gated and lost counts |
| `Reconciliation.Reconcile` | ckdbs/sim/loop.cpp:487-574 | the loop over the relations tallies those into the verdict |
| `Reconciliation.TableExact` | ckdbs/sim/loop.cpp:495-574 | of one relation: when it fails, how many rows count as gated (the checked ones missing that the last SYNC did not cover as they stand), and when it counts as lost |
| `Reconciliation.ReconcileExact` | ckdbs/sim/loop.cpp:487-574 | the verdict survives the whole loop exactly when every relation is restored: an error only where no SYNC covered it and the stop was not clean, else no line repeated, invented or altered, and every owed row back id by id: all of them, or in a crash without the recovery gate those of the last SYNC that still stand |
| `Lease.StepKeeps` | server/main.go:1525-1705 | every event of every handler keeps: claimed_by NULL exactly when claimed_at is, no stamp in the future, a pending steal saw its lease expired |
| `Lease.ReachableOk` | server/main.go:1542-1602 | so every reachable state is well formed |
| `Lease.LeaseMoves` | server/main.go:1624-1663 | a lease leaves its holder only by its own release, a report, or a claim that meets it expired |
| `Lease.NoTwoOwners` | server/main.go:1525-1603 | between effective claims of one task by different agents lies such an end |
| `Lease.AnswersTruly` | server/main.go:1525-1705 | in every run a handler of any of the six kinds answers yes exactly when a statement with what was asked and the second of its arrival took effect for it |
| `Lease.NoTwoWinners` | server/main.go:1525-1603 | where two agents' claims of one task were both answered yes, the one to take effect first ended before the other, or by it |
| `Lease.StatementLands` | server/main.go:1542-1663 | when a statement takes effect, by kind, and that otherwise it leaves every row alone |
| `Lease.EffectLeaves` | server/main.go:1286-1705 | the row an effective statement leaves, column by column; no other row moves |
| `Lease.LeaseLasts` | server/main.go:64-69 | a claim holds for the TTL past its stamp unless its agent claims or releases or a result is reported |
| `Lease.ClaimAloneSucceeds` | server/main.go:1542-1602 | an uncontended claim succeeds exactly on an unclaimed task, on one's own lease or an expired one, the holder not named NULL, and then sets exactly owner and stamps |
| `Lease.ShippedHasResult` | server/main.go:1701-1705 | pending means no result or a last one in the raised second, so a task that is not pending has a result |
| `Lease.OneEventPerColumn` | server/main.go:1286-1505 | PATCH and state changes move neither lease nor shipping record; results only grow, by reports |
| `Lease.ClaimedAtMovesBack` | server/main.go:1542 | a run in which claimed_at decreases |
| `Lease.ClaimArrived` | server/main.go:1525-1542 | every claim under way, or adrift, carries the second in which its handler arrived |
| `Lease.MovesBackExactly` | server/main.go:1542-1602 | over every run, an event lowers a held claimed_at exactly when it lands a claim whose handler arrived in an earlier second than the stored one |
| `Lease.SerialClaimsMonotone` | server/main.go:1542-1602 | where no claim of a task arrives while another is under way or adrift, a held claimed_at never decreases |
| `Lease.SameSecondReportStaysPending` | server/main.go:1143-1150 | a run in which a reported task stays pending |
| `SelectReply.SplitSelectRows` | server/main.go:1756-1767 | the rows of a reply, blank lines dropped |
| `SelectReply.SelectRowsBack` | server/main.go:1752-1767 | a reply of rows without commas or backslashes in their cells comes apart into those rows |
| `SelectReply.OwnerReadsBack` | server/main.go:1875-1882 | the owner read is the owner stored exactly when it is not named NULL |
| `Kds.KdsClient.ExecLocked` | server/kdsclient.go:126-139 | a statement is written and the oldest reply read, or the connection has failed |
| `Kds.KdsClient.Exec` | server/kdsclient.go:60-75 | one statement; any error drops the connection |
| `Kds.KdsClient.ExecTxn` | server/kdsclient.go:85-117 | BEGIN, the statements, COMMIT, with its error exits |
| `Kds.ExecExactly` | server/kdsclient.go:60-75 | Exec returns a line exactly when it has a connection and is answered that line, no error; it keeps the connection exactly then |
| `Kds.ExecTxnExactly` | server/kdsclient.go:85-117 | ExecTxn succeeds exactly when everything from BEGIN to COMMIT is answered and no error, and returns the answers to the statements; it keeps the connection exactly then, or where the statement that failed was rolled back |
| `Kds.ExecKeeps` | server/kdsclient.go:60-75 | Exec leaves the connection idle exactly when it opened no transaction, and returns its own reply |
| `Kds.ExecTxnKeeps` | server/kdsclient.go:85-117 | ExecTxn leaves it idle exactly when no ROLLBACK slips past a failed statement, which none does on connections that stay failed |
| `Kds.RunIsolated` | server/kdsclient.go:60-139 | over every run of calls the free connection is idle and every statement inside a transaction belongs to the call that opened it |
| `Kds.ReportedTxnRan` | server/kdsclient.go:76-117 | a transaction reported done ran whole and alone, in order, each reply its own |
| `Kds.SlippedRollback` | server/kdsclient.go:101-106 | without that assumption a reply is left behind and every later call reads its predecessor's |
| `Minimize.FailureSignature` | ckdbs/sim/minimize.cpp:10-36 | the flag-driven scan computes the signature |
| `Minimize.ShapeIdempotent` | ckdbs/sim/minimize.cpp:12-36 | a signature is its own signature |
| `Minimize.ShapeIgnoresNumbers` | ckdbs/sim/minimize.cpp:24-30 | the digits of a number do not matter |
| `Minimize.ShapeMarksNumbers` | ckdbs/sim/minimize.cpp:24-30 | a number shows as one `#` |
| `Minimize.ShapeIgnoresBrackets` | ckdbs/sim/minimize.cpp:19-21 | a bracketed trace does not matter |
| `Minimize.ShapeIgnoresQuotes` | ckdbs/sim/minimize.cpp:22-23 | nor do quoted contents |
| `Minimize.FailureHasSignature` | ckdbs/sim/minimize.cpp:10-11 | the empty signature means exactly that the run passed |
| `Minimize.ShapeOneLine` | ckdbs/sim/minimize.cpp:15-35 | a signature breaks no line its detail does not |
| `Minimize.Sweep` | ckdbs/sim/minimize.cpp:58-77 | one sweep replays every chunk from the first up to the one that can go, or to the last, one replay each; at chunk one, every removal tried |
| `Minimize.Shrink` | ckdbs/sim/minimize.cpp:54-82 | its replays, in order, are those of the search: after a hit the sweep starts over on what it left, after a miss it goes on, after the last chunk at half the size; it stops at the end of the search or at the cap, and returns the last candidate that kept the signature; that is a non-empty subsequence, costs at most 2n^2 replays, and short of the cap no single removal keeps the signature |
| `Minimize.SearchEnds` | ckdbs/sim/minimize.cpp:54-82 | no such sequence of replays is longer than 2n^2 |
| `Minimize.FirstHalfGoes` | ckdbs/sim/minimize.cpp:58-75 | under any cap that leaves a replay, where the first half can go the result is shorter |
| `Minimize.MinimizeFailure` | ckdbs/sim/minimize.cpp:86-102 | finds the first failing iteration and returns what that search over its plan holds, which still fails the same way |
| `CaseFile.ParseUnsigned` | ckdbs/sim/minimize.cpp:138-147 | the value of a digit string modulo 2^64, nothing for any other string |
| `CaseFile.SignedRoundTrip` | ckdbs/sim/minimize.cpp:149-156 | every 64-bit value reads back but INT64_MIN, which overflows |
| `CaseFile.KindRoundTrip` | ckdbs/sim/workload.cpp:21-49 | an operation kind's name parses back to it |
| `CaseFile.FaultRoundTrip` | ckdbs/sim/faults.cpp:15-41 | a fault kind's name parses back to it |
| `CaseFile.ModeRoundTrip` | ckdbs/sim/loop.cpp:15-29 | a mode's name parses back to it |
| `CaseFile.SplitTabs` | ckdbs/sim/minimize.cpp:120-132 | the cursor loop splits a line at its tabs |
| `CaseFile.WriteCase` | ckdbs/sim/minimize.cpp:167-198 | the file is its header, its config line and every entry's fault and op lines |
| `CaseFile.ReadCase` | ckdbs/sim/minimize.cpp:200-315 | the line loop reads a file or names its first problem |
| `CaseRoundTrip.WrittenReads` | ckdbs/sim/minimize.cpp:167-315 | below a harmless signature a plan with clean fields comes back whole, or not at all when empty or overflowing |
| `CaseRoundTrip.IndentedUnreadable` | ckdbs/sim/minimize.cpp:173-315 | a file whose signature has an indented later line is read by nothing, whatever the plan |
| `CaseRoundTrip.ReadWritable` | ckdbs/sim/minimize.cpp:200-315 | nothing ReadCase returns holds a tab or a newline |
| `CaseRoundTrip.RoundTrip` | ckdbs/sim/minimize.cpp:167-315 | ReadCase after WriteCase gives back entries, fault lists, toggles, seed, mode, profiles and gates exactly when the plan is not empty, its fields are clean, no signed value is INT64_MIN and each later line of the signature is blank, a comment or settings that parse |
| `Integrity.SweepTuples` | ckdbs/sim/integrity.cpp:192-299 | whatever the walk calls it with, in any order and however often, the four running numbers yield exactly the findings of the quantified definition on the pages as they were met: undecodable and missized rows, keystones, chain order, transaction ids, and a walk that failed |
| `Integrity.CleanMeansOrdered` | ckdbs/sim/integrity.cpp:200-275 | nothing about the order is reported exactly when the whole chain is ordered, whatever else is |
| `Integrity.CleanMeansSound` | ckdbs/sim/integrity.cpp:192-299 | a sweep finds nothing exactly when the walk ended, every slot is dead or a sound row, ids lie at or above their page's min_key and below every later page's |
| `Integrity.FindingsExactly` | ckdbs/sim/integrity.cpp:192-299 | a sweep reports a finding exactly when a slot of its page makes it true, or a tuple of a page met before, or the walk's end |
| `Integrity.GroupedSpreads` | ckdbs/sim/integrity.cpp:207-229 | the pages met are the calls, cut where the page changes: none lost, added or moved |
| `Integrity.ReturnsAreFound` | ckdbs/include/kds/storage/visit.hpp:60-79 | a walk that cyclic links bring back, from another page, to one that held a row is reported out of order, wherever its page budget ends it |
| `Integrity.PruningLosesNothing` | ckdbs/sim/integrity.cpp:189-217 | on a chain found in order a scan pruned by min_key equals a full scan |
| `Integrity.SweepVarHeap` | ckdbs/sim/integrity.cpp:402-427 | the walk ends on every store and reports exactly the chain's pages, a cycle, and unreadable or wrongly typed pages |
| `Allocator.BumpAheadAllocator.ReserveChunk` | ckdbs/bench/keystone_alloc_bench.cpp:102-129 | the interval is taken, the row advanced and synced, or an error left half of that |
| `Allocator.BumpAheadAllocator.Next` | ckdbs/bench/keystone_alloc_bench.cpp:89-94 | the next id, reserving when the chunk is spent |
| `Allocator.NextAnswers` | ckdbs/bench/keystone_alloc_bench.cpp:89-129 | an id is answered from the chunk in memory whatever the disk would do, else exactly when the row was read, overwritten and, where each chunk is synced, synced; it is the next of the chunk, or the counter |
| `Allocator.StepKeeps` | ckdbs/bench/keystone_alloc_bench.cpp:89-129 | every event keeps all issued and owned ids below the durable counter and apart |
| `Allocator.IssuedOnce` | ckdbs/bench/keystone_alloc_bench.cpp:73-138 | over runs of many allocators, failures, crashes and re-creations, some kept after harmless errors, no id is issued twice, and n ids take ceil(n / chunk) reservations, one more if a chunk reserved by a late failure is unserved |
| `Allocator.IssuesOnceExactly` | ckdbs/bench/keystone_alloc_bench.cpp:73-138 | all runs issue ids once exactly when the chunk is not empty and synced, and no allocator is kept after a failed overwrite or a lost sync |
| `Allocator.SafePolicies` | ckdbs/bench/keystone_alloc_bench.cpp:89-129 | of the policies a caller can write, exactly those that survive failed reads alone |
| `Allocator.KeptOverwriteReissues` | ckdbs/bench/keystone_alloc_bench.cpp:113-121 | a run in which an allocator kept after a failed overwrite issues an id another issues |
| `Allocator.KeptSyncReissues` | ckdbs/bench/keystone_alloc_bench.cpp:122-129 | a run in which one kept after a lost sync issues an id that is issued again after a crash |
| `RngModel.Below` | ckdbs/sim/rng.hpp:75-83 | the first accepted word modulo n, and zero for n of zero |
| `RngModel.Unbiased` | ckdbs/sim/rng.hpp:72-83 | equally many accepted words give each result |
| `WorkloadModel.Workload.constructor` | ckdbs/sim/workload.cpp:51-58 | one to three tables |
| `WorkloadModel.Workload.DrawData` | ckdbs/sim/workload.cpp:155-187 | one data operation and the draws it takes |
| `WorkloadModel.Workload.Next` | ckdbs/sim/workload.cpp:189-269 | one operation and the generator's next state |
| `Streams.NextEmits` | ckdbs/sim/workload.cpp:189-269 | what each state may emit |
| `Streams.CreatedOnce` | ckdbs/sim/workload.cpp:190-200 | tables are created first, once each, and nothing else creates |
| `Streams.FinishedTransaction` | ckdbs/sim/workload.cpp:202-217 | every end closes a BEGIN and one to eight data operations |
| `Streams.NothingNests` | ckdbs/sim/workload.cpp:202-269 | BEGINs do not nest, and no SYNC or DDL falls inside a transaction |
| `Streams.DeclaredOnce` | ckdbs/sim/workload.cpp:226-262 | no Cabin and no pattern body is declared twice |
| `Streams.GeneratedStreamOk` | ckdbs/sim/workload.cpp:189-269 | every generated stream is allowed under all rules: relations created once, outside transactions, kept and covered by their SYNCs, brackets matched, every relation named created before, nothing declared twice |
| `Streams.ShrunkStreamOk` | ckdbs/sim/minimize.cpp:54-82 | whatever is taken out of a generated stream, what is left is allowed with faults |
| `Statements.StreamSays` | ckdbs/sim/workload.cpp:100-269 | the text of every operation of every stream is the statement its fields describe |
| `Statements.CountersCount` | ckdbs/sim/workload.cpp:100-111 | the counters keys are guessed from are the INSERTs sent, table by table, at every point of every stream |
| `Statements.RowDrawn` | ckdbs/sim/workload.cpp:155-187 | of a hundred rolls 42 insert, 15 update, 7 delete, 15 read by key, 9 a range and 12 by value |
| `Statements.StreamDrawn` | ckdbs/sim/workload.cpp:60-187 | a key is one the INSERTs before it may have been given or one of three past them, a range spans at most twenty, a name is letters of an inline or a spilled length, a value is in its profile's range |
| `PlanBuilder.FaultsDrawn` | ckdbs/sim/faults.cpp:79-87 | nothing is scheduled without a profile, operations or a rate, else the rate's share rounded down, but at least one fault |
| `PlanBuilder.KindWeights` | ckdbs/sim/faults.cpp:54-74 | of the ninety rolls each kind has its weight |
| `PlanBuilder.At` | ckdbs/sim/faults.cpp:101-112 | two binary searches find exactly an operation's faults |
| `PlanBuilder.SlicesAreAll` | ckdbs/sim/faults.cpp:79-112 | the slices of all operations concatenate to the schedule |
| `PlanBuilder.ScheduleWithin` | ckdbs/sim/faults.cpp:79-99 | the schedule is sorted, of the right size, and aims within the run |
| `PlanBuilder.BuildPlan` | ckdbs/sim/loop.cpp:720-749 | the loop builds the plan of its settings and streams |
| `PlanBuilder.CrashPlanIsPrefix` | ckdbs/sim/loop.cpp:720-749 | a crash plan is the clean plan cut short with equal toggles, exactly when there is an operation to run |
| `PlanBuilder.CleanPlanArmsAll` | ckdbs/sim/loop.cpp:737-747 | a clean plan arms the whole schedule in order |
| `GeneratedPlans.GeneratedPlanNeverAlarms` | ckdbs/sim/loop.cpp:720-749 | under all rules no engine that keeps its promises can be failed by a check on a generated plan; without faults it always passes, with faults it can |
| `GeneratedPlans.ShrunkPlanNeverAlarms` | ckdbs/sim/minimize.cpp:54-82 | with faults on, neither can it on any plan left of a generated one, and that can pass exactly when a CREATE TABLE is left |
| `GeneratedPlans.ShrunkPlanRoundTrips` | ckdbs/sim/minimize.cpp:104-109 | what the minimizer leaves of a generated plan comes back from its case file exactly when the signature is harmless |
| `GeneratedPlans.OneLineFailureReplays` | ckdbs/sim/minimize.cpp:86-109 | a failure whose detail is one line comes back as it was |
| `GeneratedPlans.IntegrityFailureUnreadable` | ckdbs/sim/integrity.cpp:50-66 | the case file of a run the integrity sweep failed is read by nothing |
| `Dashboard.LessIsStrictWeak` | web/main.go:455-467 | the comparison is a strict weak order |
| `Dashboard.SortIsStable` | web/main.go:455-467 | tied tasks keep their order |
| `Dashboard.ResultsPicked` | web/main.go:424-427 | a task's results are those reported against it, in their order |
| `Dashboard.ViewsPicked` | web/main.go:429-439 | a milestone's tasks are those that name it, in their order, with their results |
| `Dashboard.PageShows` | web/main.go:423-481 | a group for each milestone in the given order and one for the tasks without; each holds exactly its tasks, pending before shipped, then by priority, then by id, and counts them |
| `Dashboard.NewGroup` | web/main.go:452-481 | a group's sorted tasks and its counts |
| `Dashboard.MakeGroups` | web/main.go:423-450 | the folds and the groups, the unassigned last |
| `Dashboard.GroupsConserve` | web/main.go:423-450 | the groups hold exactly the given tasks exactly when every task's key is shown once |
| `Dashboard.DistinctIdsShowOnce` | web/main.go:441-449 | distinct, non-empty milestone ids covering the tasks show each once |
| `Dashboard.GroupsInOrder` | web/main.go:452-467 | every group is in reading order |
| `Dashboard.PageTotals` | web/main.go:271-278 | the page totals over the tasks |
| `Dashboard.CountsAddUp` | web/main.go:423-481 | the groups' pending and claimed counts add up to those totals |

## Left out

- The database engine (WAL, page store, btree, recovery, dispatcher) is only the machine `EngineModel` describes; recovery is taken to restore what is promised above.
- Replies are values of `Wire.Reply`: parsing ids, counts and status words off the wire is not modelled, except the row section of a SELECT; nor is the text of failure details and of problem messages.
- `Finish.FinishIteration`: the shutdown and the reboot succeed, and of the integrity check the tuple sweep is there; the superblock, catalog, btree-node, undo and var-heap findings are not.
- The toggle pairing (`RunTogglePairing`, `SameOutcome`), instance booting, the verdict's summaries and the command line add only easy members.
- `WorkloadModel.Workload.Next`: the generator's insert counters are unbounded where the source's are 64 bits wide; keys are taken modulo 2^64. The mt19937 sequence and the fork hash are any streams of draws.
- `PlanBuilder.BuildPlan`: faults drawn for one operation keep their draw order, which std::sort leaves open; `SlicesAreAll` holds for every sorted order.
- `Exactness.NeverAlarmsExactly`: streams of 2^64 operations and more, which no vector holds, are not covered: an engine would run out of ids. Patterns are told apart by the text of their bodies; the engine compares what that text parses to.
- `CaseRoundTrip.RoundTrip`: opening, writing and failing to write the file are not modelled.
- `Minimize.Shrink`: a replay is a function of the plan, which is the harness's determinism contract.
- `Lease.StepKeeps`: requests refused before any statement (bad JSON, bad names), the PATCH existence checks and the foreign key on milestones are left out; a report against a missing task changes nothing.
- `Kds.KdsClient.ExecTxn`: calls follow one another, as the mutex makes them; dialling with retries at start is left out. A refused COMMIT or ROLLBACK is taken to leave the transaction open, the worse case.
- `Integrity.SweepTuples`: the undo and spill pointers the walk collects and resolves later, the decoding of varchar cells and the btree nodes are left out; a clean btree sweep does not imply a correct search tree.
- `Allocator.IssuedOnce`: reservations past 2^64 wrap in the model and are excluded from its runs.
- `Dashboard.NewGroup`: the sort is modelled on values, so that two groups of one milestone share a slice in the source is not visible.
- `Lease.AnswersTruly`: yes is what the statement came to; the row read back into the reply of a claim or a release is not modelled, nor that reading it may fail.
- HTTP routing, JSON, templates, Markdown and time formatting are plumbing.
