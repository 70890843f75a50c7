/** sim/faults.cpp's schedule and sim/loop.cpp's BuildPlan: an iteration's whole input,
    drawn from independent streams, one per label, before anything runs. */
module PlanBuilder {
  import opened Optional
  import opened Ops
  import opened Plans
  import opened WorkloadModel
  import opened Streams

  datatype Scheduled = Scheduled(opIndex: nat, kind: FaultKind)

  // ---- The schedule ---------------------------------------------------------------------

  /** DrawKind's weights, out of ninety. */
  function KindAt(roll: nat): FaultKind {
    if roll < 20 then PageFailRead
    else if roll < 40 then PageFailWrite
    else if roll < 55 then PageFailSync
    else if roll < 60 then PageFailGrow
    else if roll < 75 then LogFailWrite
    else LogFailSync
  }

  predicate Between(r: nat, lo: nat, hi: nat) {
    lo <= r < hi
  }

  lemma {:induction false} IntervalSize(lo: nat, hi: nat)
    requires lo <= hi
    ensures |set r | lo <= r < hi && Between(r, lo, hi)| == hi - lo
    decreases hi
  {
    if lo < hi {
      var last := hi - 1;
      IntervalSize(lo, last);
      assert (set r | lo <= r < hi && Between(r, lo, hi)) == (set r | lo <= r < last && Between(r, lo, last)) + {last};
    }
  }

  /** Of the ninety rolls so many give each kind. */
  function Weight(k: FaultKind): nat {
    match k
    case PageFailRead | PageFailWrite => 20
    case PageFailGrow => 5
    case _ => 15
  }

  lemma KindWeights(k: FaultKind)
    ensures |set r | 0 <= r < 90 && KindAt(r) == k| == Weight(k)
  {
    var (lo, hi) := match k
      case PageFailRead => (0, 20) case PageFailWrite => (20, 40) case PageFailSync => (40, 55)
      case PageFailGrow => (55, 60) case LogFailWrite => (60, 75) case LogFailSync => (75, 90);
    IntervalSize(lo, hi);
    assert (set r | 0 <= r < 90 && KindAt(r) == k) == set r | lo <= r < hi && Between(r, lo, hi);
  }

  function FaultCount(ops: nat, profile: FaultProfile, rate: nat): nat {
    if profile.NoFaults? || ops == 0 || rate == 0 then 0
    else if ops * rate / 1000 == 0 then 1 else ops * rate / 1000
  }

  /** The faults as drawn: an index and a kind each. */
  function DrawnFaults(d: Draws, ops: nat, count: nat): (faults: seq<Scheduled>)
    requires count > 0 ==> ops > 0
    ensures |faults| == count
  {
    seq(count, i requires 0 <= i < count => Scheduled(Below(d, 2 * i, ops), KindAt(Below(d, 2 * i + 1, 90))))
  }

  predicate Sorted(faults: seq<Scheduled>) {
    forall i, j :: 0 <= i < j < |faults| ==> faults[i].opIndex <= faults[j].opIndex
  }

  /** std::sort by op index. It leaves equal indices in any order; here they keep theirs. */
  function InsertFault(f: Scheduled, faults: seq<Scheduled>): (r: seq<Scheduled>)
    ensures multiset(r) == multiset(faults) + multiset{f}
  {
    if faults == [] || faults[0].opIndex > f.opIndex then
      assert [f] + faults == [f] + faults;
      [f] + faults
    else
      assert faults == [faults[0]] + faults[1..];
      [faults[0]] + InsertFault(f, faults[1..])
  }

  function SortFaults(faults: seq<Scheduled>): (r: seq<Scheduled>)
    ensures multiset(r) == multiset(faults)
  {
    if faults == [] then []
    else
      assert faults == faults[..|faults| - 1] + [faults[|faults| - 1]];
      InsertFault(faults[|faults| - 1], SortFaults(faults[..|faults| - 1]))
  }

  lemma {:induction false} InsertSorts(f: Scheduled, faults: seq<Scheduled>)
    requires Sorted(faults)
    ensures Sorted(InsertFault(f, faults))
    decreases |faults|
  {
    if faults != [] && faults[0].opIndex <= f.opIndex {
      InsertSorts(f, faults[1..]);
      var rest := InsertFault(f, faults[1..]);
      forall k | 0 <= k < |rest| ensures faults[0].opIndex <= rest[k].opIndex {
        assert rest[k] in multiset(rest);
        assert rest[k] in multiset(faults[1..]) || rest[k] == f;
      }
    }
  }

  lemma {:induction false} SortSorts(faults: seq<Scheduled>)
    ensures Sorted(SortFaults(faults))
    decreases |faults|
  {
    if faults != [] {
      SortSorts(faults[..|faults| - 1]);
      InsertSorts(faults[|faults| - 1], SortFaults(faults[..|faults| - 1]));
    }
  }

  function Schedule(d: Draws, ops: nat, profile: FaultProfile, rate: nat): (faults: seq<Scheduled>) {
    SortFaults(DrawnFaults(d, ops, FaultCount(ops, profile, rate)))
  }

  /** Without a profile, operations or a rate nothing is scheduled; else so many faults in a
      thousand operations, rounded down, but at least one. */
  lemma FaultsDrawn(d: Draws, ops: nat, profile: FaultProfile, rate: nat)
    ensures var n := |Schedule(d, ops, profile, rate)|;
            && (n == 0 <==> profile.NoFaults? || ops == 0 || rate == 0)
            && (n > 0 ==> n == 1 || n * 1000 <= ops * rate) && (profile.IoFaults? ==> ops * rate < (n + 1) * 1000)
  {
    ScheduleWithin(d, ops, profile, rate);
    PositiveProduct(ops, rate);
    if profile.IoFaults? && ops * rate > 0 { assert ops * rate == (ops * rate / 1000) * 1000 + ops * rate % 1000; }
  }

  lemma PositiveProduct(a: nat, b: nat)
    ensures a * b > 0 <==> a > 0 && b > 0
  {}

  // ---- At ------------------------------------------------------------------------------------

  /** The faults of one operation, in schedule order. */
  function FaultsAt(faults: seq<Scheduled>, op: nat): seq<Scheduled> {
    if faults == [] then []
    else
      var last := faults[|faults| - 1];
      FaultsAt(faults[..|faults| - 1], op) + (if last.opIndex == op then [last] else [])
  }

  /** std::lower_bound on the op index. */
  method LowerBound(faults: seq<Scheduled>, op: nat) returns (k: nat)
    requires Sorted(faults)
    ensures k <= |faults|
    ensures forall i :: 0 <= i < k ==> faults[i].opIndex < op
    ensures forall i :: k <= i < |faults| ==> faults[i].opIndex >= op
  {
    var lo, hi := 0, |faults|;
    while lo < hi
      invariant lo <= hi <= |faults|
      invariant forall i :: 0 <= i < lo ==> faults[i].opIndex < op
      invariant forall i :: hi <= i < |faults| ==> faults[i].opIndex >= op
    {
      var mid := (lo + hi) / 2;
      if faults[mid].opIndex < op { lo := mid + 1; } else { hi := mid; }
    }
    return lo;
  }

  /** std::upper_bound from there on. */
  method UpperBound(faults: seq<Scheduled>, op: nat, from: nat) returns (k: nat)
    requires Sorted(faults) && from <= |faults|
    requires forall i :: from <= i < |faults| ==> faults[i].opIndex >= op
    ensures from <= k <= |faults|
    ensures forall i :: from <= i < k ==> faults[i].opIndex == op
    ensures forall i :: k <= i < |faults| ==> faults[i].opIndex > op
  {
    var lo, hi := from, |faults|;
    while lo < hi
      invariant from <= lo <= hi <= |faults|
      invariant forall i :: from <= i < lo ==> faults[i].opIndex == op
      invariant forall i :: hi <= i < |faults| ==> faults[i].opIndex > op
    {
      var mid := (lo + hi) / 2;
      if op < faults[mid].opIndex { hi := mid; } else { lo := mid + 1; }
    }
    return lo;
  }

  lemma {:induction false} SliceIsFaultsAt(faults: seq<Scheduled>, op: nat, lo: nat, hi: nat)
    requires lo <= hi <= |faults|
    requires forall i :: 0 <= i < lo ==> faults[i].opIndex < op
    requires forall i :: lo <= i < hi ==> faults[i].opIndex == op
    requires forall i :: hi <= i < |faults| ==> faults[i].opIndex > op
    ensures FaultsAt(faults, op) == faults[lo..hi]
    decreases |faults|
  {
    if faults != [] {
      var n := |faults| - 1;
      var front := faults[..n];
      if hi <= n {
        SliceIsFaultsAt(front, op, lo, hi);
        assert front[lo..hi] == faults[lo..hi];
      } else if lo <= n {
        SliceIsFaultsAt(front, op, lo, n);
        assert front[lo..n] + [faults[n]] == faults[lo..hi];
      } else {
        SliceIsFaultsAt(front, op, n, n);
      }
    }
  }

  /** At: two binary searches find all of an operation's faults. */
  method At(faults: seq<Scheduled>, op: nat) returns (slice: seq<Scheduled>)
    requires Sorted(faults)
    ensures slice == FaultsAt(faults, op)
  {
    var first := LowerBound(faults, op);
    var last := UpperBound(faults, op, first);
    SliceIsFaultsAt(faults, op, first, last);
    return faults[first..last];
  }

  /** The slices of the first n operations, one after another. */
  function Slices(faults: seq<Scheduled>, n: nat): seq<Scheduled> {
    if n == 0 then [] else Slices(faults, n - 1) + FaultsAt(faults, n - 1)
  }

  /** Where the faults of one operation end. */
  lemma EndOfOp(faults: seq<Scheduled>, op: nat, from: nat) returns (k: nat)
    requires Sorted(faults) && from <= |faults|
    requires forall i :: from <= i < |faults| ==> faults[i].opIndex >= op
    ensures from <= k <= |faults|
    ensures forall i :: from <= i < k ==> faults[i].opIndex == op
    ensures forall i :: k <= i < |faults| ==> faults[i].opIndex > op
  {
    k := from;
    while k < |faults| && faults[k].opIndex == op
      invariant from <= k <= |faults|
      invariant forall i :: from <= i < k ==> faults[i].opIndex == op
    {
      k := k + 1;
    }
  }

  lemma {:induction false} SlicesArePrefix(faults: seq<Scheduled>, n: nat) returns (k: nat)
    requires Sorted(faults)
    ensures SplitsAt(faults, n, k) && Slices(faults, n) == faults[..k]
  {
    if n == 0 {
      k := 0;
    } else {
      var from := SlicesArePrefix(faults, n - 1);
      k := SplitFurther(faults, n - 1, from);
    }
  }

  /** The faults before the k-th are those of the operations before the n-th. */
  predicate SplitsAt(faults: seq<Scheduled>, n: nat, k: nat) {
    && k <= |faults|
    && (forall i :: 0 <= i < k ==> faults[i].opIndex < n)
    && (forall i :: k <= i < |faults| ==> faults[i].opIndex >= n)
  }

  lemma SplitFurther(faults: seq<Scheduled>, n: nat, from: nat) returns (k: nat)
    requires Sorted(faults) && SplitsAt(faults, n, from)
    ensures SplitsAt(faults, n + 1, k) && faults[..from] + FaultsAt(faults, n) == faults[..k]
  {
    k := EndOfOp(faults, n, from);
    SliceIsFaultsAt(faults, n, from, k);
    assert faults[..from] + faults[from..k] == faults[..k];
  }

  /** **Fault conservation.** Over all operations the slices are the whole schedule, in
      order: no fault is lost and none armed twice. */
  lemma SlicesAreAll(faults: seq<Scheduled>, n: nat)
    requires Sorted(faults) && forall i :: 0 <= i < |faults| ==> faults[i].opIndex < n
    ensures Slices(faults, n) == faults
  {
    var k := SlicesArePrefix(faults, n);
    assert SplitsAt(faults, n, k);
    assert k == |faults|;
  }

  lemma ScheduleWithin(d: Draws, ops: nat, profile: FaultProfile, rate: nat)
    ensures var faults := Schedule(d, ops, profile, rate);
            Sorted(faults) && |faults| == FaultCount(ops, profile, rate)
            && forall i :: 0 <= i < |faults| ==> faults[i].opIndex < ops
  {
    var drawn := DrawnFaults(d, ops, FaultCount(ops, profile, rate));
    SortSorts(drawn);
    SortKeepsBelow(drawn, ops);
  }

  lemma SortKeepsBelow(drawn: seq<Scheduled>, ops: nat)
    requires forall i :: 0 <= i < |drawn| ==> drawn[i].opIndex < ops
    ensures var faults := SortFaults(drawn);
            |faults| == |drawn| && forall i :: 0 <= i < |faults| ==> faults[i].opIndex < ops
  {
    var faults := SortFaults(drawn);
    assert |multiset(faults)| == |multiset(drawn)|;
    forall i | 0 <= i < |faults| ensures faults[i].opIndex < ops {
      assert faults[i] in multiset(faults);
      assert faults[i] in drawn;
    }
  }

  // ---- Plans ---------------------------------------------------------------------------------

  datatype Settings = Settings(
    ops: nat, mode: Mode, profile: Profile, faults: FaultProfile, rate: nat, toggles: Option<Toggles>)

  /** The streams forked off one iteration's seed, by label. They do not depend on one
      another's use, nor on the settings. */
  type Forks = string -> Draws

  function TogglesFor(c: Settings, f: Forks): Toggles {
    if c.toggles.Some? then c.toggles.value
    else
      var d := f("toggles");
      Toggles(Chance(d, 0, 50), Chance(d, 1, 50), Chance(d, 2, 50))
  }

  /** The crash point: `Below(0)` is zero, so a crash plan always holds an operation. */
  function StopAt(c: Settings, f: Forks): nat {
    if c.mode.Clean? then c.ops
    else if c.ops == 0 then 1
    else 1 + Below(f("crash"), 0, c.ops)
  }

  function Kinds(faults: seq<Scheduled>): seq<FaultKind> {
    seq(|faults|, i requires 0 <= i < |faults| => faults[i].kind)
  }

  function EntryAt(faults: seq<Scheduled>, d: Draws, rows: RowGen, i: nat): Entry {
    Entry(OpAt(d, rows, i), Kinds(FaultsAt(faults, i)))
  }

  function Entries(faults: seq<Scheduled>, d: Draws, rows: RowGen, n: nat): (es: seq<Entry>)
    ensures |es| == n
  {
    seq(n, i requires 0 <= i => EntryAt(faults, d, rows, i))
  }

  function PlanOf(c: Settings, f: Forks): Plan {
    var d := f("workload");
    Plan(Entries(Schedule(f("faults"), c.ops, c.faults, c.rate), d, RowsOf(d, c.profile), StopAt(c, f)), TogglesFor(c, f))
  }

  method KindsOf(slice: seq<Scheduled>) returns (kinds: seq<FaultKind>)
    ensures kinds == Kinds(slice)
  {
    kinds := [];
    for i := 0 to |slice|
      invariant kinds == Kinds(slice)[..i]
    {
      kinds := kinds + [slice[i].kind];
    }
  }

  method BuildPlan(c: Settings, f: Forks) returns (plan: Plan)
    ensures plan == PlanOf(c, f)
  {
    var stop := StopAt(c, f);
    var faults := Schedule(f("faults"), c.ops, c.faults, c.rate);
    ScheduleWithin(f("faults"), c.ops, c.faults, c.rate);
    var entries := BuildEntries(faults, f("workload"), c.profile, stop);
    return Plan(entries, TogglesFor(c, f));
  }

  method BuildEntries(faults: seq<Scheduled>, d: Draws, profile: Profile, stop: nat) returns (entries: seq<Entry>)
    requires Sorted(faults)
    ensures entries == Entries(faults, d, RowsOf(d, profile), stop)
  {
    ghost var rows := RowsOf(d, profile);
    var workload := new Workload(d, profile);
    entries := [];
    for i := 0 to stop
      invariant workload.draws == d && workload.rows == rows && workload.Value() == StateAt(d, rows, i)
      invariant entries == Entries(faults, d, rows, i)
    {
      var entry := NextEntry(workload, faults, i);
      EntriesGrow(faults, d, rows, i, entry);
      entries := entries + [entry];
    }
  }

  method NextEntry(workload: Workload, faults: seq<Scheduled>, i: nat) returns (entry: Entry)
    requires Sorted(faults) && workload.Value() == StateAt(workload.draws, workload.rows, i)
    modifies workload
    ensures workload.Value() == StateAt(workload.draws, workload.rows, i + 1)
    ensures entry == EntryAt(faults, workload.draws, workload.rows, i)
  {
    var slice := At(faults, i);
    var kinds := KindsOf(slice);
    ghost var s := workload.Value();
    var op := workload.Next();
    StateStep(workload.draws, workload.rows, i, s, workload.Value(), op);
    return Entry(op, kinds);
  }

  lemma EntriesGrow(faults: seq<Scheduled>, d: Draws, rows: RowGen, i: nat, entry: Entry)
    requires entry == EntryAt(faults, d, rows, i)
    ensures Entries(faults, d, rows, i) + [entry] == Entries(faults, d, rows, i + 1)
  {}

  lemma StateStep(d: Draws, rows: RowGen, i: nat, s: State, s': State, op: Op)
    requires s == StateAt(d, rows, i) && Emitted(s', op) == NextOp(d, rows, s)
    ensures s' == StateAt(d, rows, i + 1) && op == OpAt(d, rows, i)
  {}

  // ---- What plans of one seed share ----------------------------------------------------------

  lemma EntriesPrefix(faults: seq<Scheduled>, d: Draws, rows: RowGen, m: nat, n: nat)
    requires m <= n
    ensures Entries(faults, d, rows, m) == Entries(faults, d, rows, n)[..m]
  {}

  /** **The plan prefix.** For one seed a plan that crashes is the clean plan cut short,
      with the same toggles, exactly when there is an operation to run: with none, the
      clean plan is empty and the crash plan is not. */
  lemma CrashPlanIsPrefix(c: Settings, f: Forks)
    ensures var crash, clean := PlanOf(c, f), PlanOf(c.(mode := Clean), f);
            && crash.toggles == clean.toggles
            && (crash.entries <= clean.entries <==> c.mode.Clean? || c.ops > 0)
            && (c.ops > 0 ==> 1 <= |crash.entries| <= |clean.entries| == c.ops)
  {
    var d := f("workload");
    var faults := Schedule(f("faults"), c.ops, c.faults, c.rate);
    if c.ops > 0 { EntriesPrefix(faults, d, RowsOf(d, c.profile), StopAt(c, f), c.ops); }
  }

  /** The faults armed before the operations of a plan, one after another. */
  function Armed(entries: seq<Entry>): seq<FaultKind> {
    if entries == [] then [] else Armed(entries[..|entries| - 1]) + entries[|entries| - 1].faults
  }

  lemma KindsJoined(a: seq<Scheduled>, b: seq<Scheduled>)
    ensures Kinds(a + b) == Kinds(a) + Kinds(b)
  {}

  lemma {:induction false} ArmedIsSlices(faults: seq<Scheduled>, d: Draws, rows: RowGen, n: nat)
    ensures Armed(Entries(faults, d, rows, n)) == Kinds(Slices(faults, n))
  {
    if n > 0 {
      ArmedIsSlices(faults, d, rows, n - 1);
      EntriesPrefix(faults, d, rows, n - 1, n);
      KindsJoined(Slices(faults, n - 1), FaultsAt(faults, n - 1));
    }
  }

  /** A clean plan arms the whole schedule, in order. */
  lemma CleanPlanArmsAll(c: Settings, f: Forks)
    requires c.mode.Clean?
    ensures Armed(PlanOf(c, f).entries) == Kinds(Schedule(f("faults"), c.ops, c.faults, c.rate))
  {
    var d, faults := f("workload"), Schedule(f("faults"), c.ops, c.faults, c.rate);
    ScheduleWithin(f("faults"), c.ops, c.faults, c.rate);
    SlicesAreAll(faults, c.ops);
    ArmedIsSlices(faults, d, RowsOf(d, c.profile), c.ops);
  }
}
