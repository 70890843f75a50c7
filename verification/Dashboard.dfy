/** web/main.go's dashboard: tasks and results folded into milestones, each group in the
    order someone picking up work reads it, and the totals over the page. */
module Dashboard {
  import opened Optional
  import opened Ordering

  datatype Result = Result(id: string, taskId: string)

  datatype Task = Task(
    id: string, milestone: Option<string>, pending: bool, priority: Option<int>,
    claimedBy: Option<string>, claimExpired: bool)

  datatype View = View(task: Task, results: seq<Result>)

  /** `milestone` is absent for the unassigned bucket. */
  datatype Group = Group(milestone: Option<string>, tasks: seq<View>, pending: nat, shipped: nat, claimed: nat)

  predicate Claimed(t: Task) {
    t.claimedBy.Some? && !t.claimExpired
  }

  function KeyOf(t: Task): string {
    if t.milestone.Some? then t.milestone.value else ""
  }

  // ---- The order of a group --------------------------------------------------------------

  predicate Before(a: string, b: string) {
    |a| < |b| || (|a| == |b| && !Le(b, a))
  }

  /** Pending first, then lower priorities, tasks without one last, then ids by length and text. */
  predicate Less(a: Task, b: Task) {
    if a.pending != b.pending then a.pending
    else if a.priority.None? != b.priority.None? then a.priority.Some?
    else if a.priority.Some? && a.priority != b.priority then a.priority.value < b.priority.value
    else Before(a.id, b.id)
  }

  predicate Tied(a: Task, b: Task) {
    !Less(a, b) && !Less(b, a)
  }

  lemma BeforeOrder(a: string, b: string, c: string)
    ensures !Before(a, a)
    ensures Before(a, b) && Before(b, c) ==> Before(a, c)
    ensures !Before(a, b) && !Before(b, a) <==> a == b
  {
    LeTotal(a, a);
    LeTotal(a, b);
    LeTotal(b, c);
    LeTotal(a, c);
    if Le(a, b) && Le(b, a) { LeAntisymmetric(a, b); }
    if Le(a, b) && Le(b, c) && Le(c, a) {
      LeTransitive(a, b, c);
      LeAntisymmetric(a, c);
      LeAntisymmetric(a, b);
    }
  }

  /** The comparison is a strict weak order, which is what the sort needs of it; ties are
      tasks with one id, priority and status. */
  lemma LessIsStrictWeak(a: Task, b: Task, c: Task)
    ensures !Less(a, a)
    ensures Less(a, b) && Less(b, c) ==> Less(a, c)
    ensures Tied(a, b) <==> a.pending == b.pending && a.priority == b.priority && a.id == b.id
  {
    BeforeOrder(a.id, b.id, c.id);
    BeforeOrder(b.id, a.id, c.id);
  }

  // ---- Sorting ----------------------------------------------------------------------------------

  predicate InOrder(s: seq<View>) {
    forall i, j :: 0 <= i < j < |s| ==> !Less(s[j].task, s[i].task)
  }

  function InsertView(x: View, s: seq<View>): seq<View> {
    if s == [] || !Less(s[0].task, x.task) then [x] + s else [s[0]] + InsertView(x, s[1..])
  }

  /** sort.SliceStable: every stable sort returns this. */
  function StableSort(s: seq<View>): seq<View> {
    if s == [] then [] else InsertView(s[0], StableSort(s[1..]))
  }

  /** What a measure of tasks adds up to over a list. */
  function Sum(w: View -> nat, s: seq<View>): nat {
    if s == [] then 0 else w(s[0]) + Sum(w, s[1..])
  }

  lemma {:induction false} SumInsert(w: View -> nat, x: View, s: seq<View>)
    ensures Sum(w, InsertView(x, s)) == w(x) + Sum(w, s)
    decreases |s|
  {
    if s == [] || !Less(s[0].task, x.task) {
      assert ([x] + s)[1..] == s;
    } else {
      SumInsert(w, x, s[1..]);
      assert ([s[0]] + InsertView(x, s[1..]))[1..] == InsertView(x, s[1..]);
    }
  }

  /** Sorting keeps every measure, and so loses and repeats nothing. */
  lemma {:induction false} SumSorted(w: View -> nat, s: seq<View>)
    ensures Sum(w, StableSort(s)) == Sum(w, s)
    decreases |s|
  {
    if s != [] {
      SumSorted(w, s[1..]);
      SumInsert(w, s[0], StableSort(s[1..]));
    }
  }

  function TiesOf(t: Task, s: seq<View>): seq<View> {
    if s == [] then [] else (if Tied(t, s[0].task) then [s[0]] else []) + TiesOf(t, s[1..])
  }

  lemma {:induction false} InsertStable(x: View, s: seq<View>, t: Task)
    ensures TiesOf(t, InsertView(x, s)) == TiesOf(t, [x] + s)
    decreases |s|
  {
    assert ([x] + s)[1..] == s;
    if s != [] && Less(s[0].task, x.task) {
      var rest := InsertView(x, s[1..]);
      assert ([s[0]] + rest)[1..] == rest && ([x] + s[1..])[1..] == s[1..];
      InsertStable(x, s[1..], t);
      LessIsStrictWeak(t, x.task, x.task);
      LessIsStrictWeak(t, s[0].task, x.task);
      LessIsStrictWeak(x.task, s[0].task, x.task);
    }
  }

  /** Tied tasks keep the order they came in. */
  lemma {:induction false} SortIsStable(s: seq<View>, t: Task)
    ensures TiesOf(t, StableSort(s)) == TiesOf(t, s)
    decreases |s|
  {
    if s != [] {
      SortIsStable(s[1..], t);
      var sorted := StableSort(s[1..]);
      InsertStable(s[0], sorted, t);
      assert ([s[0]] + sorted)[1..] == sorted;
    }
  }

  /** Nothing before the list's own least element. */
  predicate AtLeast(x: Task, s: seq<View>) {
    forall i :: 0 <= i < |s| ==> !Less(s[i].task, x)
  }

  lemma {:induction false} InsertAtLeast(y: Task, x: View, s: seq<View>)
    requires AtLeast(y, s) && !Less(x.task, y)
    ensures AtLeast(y, InsertView(x, s))
    decreases |s|
  {
    if s != [] && Less(s[0].task, x.task) { InsertAtLeast(y, x, s[1..]); }
  }

  lemma ConsInOrder(x: View, s: seq<View>)
    requires InOrder(s) && AtLeast(x.task, s)
    ensures InOrder([x] + s)
  {}

  lemma {:induction false} InsertInOrder(x: View, s: seq<View>)
    requires InOrder(s)
    ensures InOrder(InsertView(x, s))
    decreases |s|
  {
    if s == [] {
    } else if !Less(s[0].task, x.task) {
      forall i | 0 <= i < |s| ensures !Less(s[i].task, x.task) {
        if i > 0 { NotBelow(x.task, s[0].task, s[i].task); }
      }
      ConsInOrder(x, s);
    } else {
      InsertInOrder(x, s[1..]);
      LessIsStrictWeak(s[0].task, x.task, s[0].task);
      InsertAtLeast(s[0].task, x, s[1..]);
      ConsInOrder(s[0], InsertView(x, s[1..]));
    }
  }

  /** Not-less is transitive, as the order is strict weak. */
  lemma NotBelow(a: Task, b: Task, c: Task)
    requires !Less(b, a) && !Less(c, b)
    ensures !Less(c, a)
  {
    LessIsStrictWeak(a, b, c);
    LessIsStrictWeak(c, a, b);
    LessIsStrictWeak(b, c, a);
  }

  lemma {:induction false} SortInOrder(s: seq<View>)
    ensures InOrder(StableSort(s))
    decreases |s|
  {
    if s != [] {
      SortInOrder(s[1..]);
      InsertInOrder(s[0], StableSort(s[1..]));
    }
  }

  // ---- Groups -----------------------------------------------------------------------------------

  function ResultsOf(results: seq<Result>, task: string): seq<Result> {
    if results == [] then []
    else
      var last := results[|results| - 1];
      ResultsOf(results[..|results| - 1], task) + (if last.taskId == task then [last] else [])
  }

  function ViewOf(t: Task, results: seq<Result>): View {
    View(t, ResultsOf(results, t.id))
  }

  /** The tasks of one key, in the order they came, with their results. */
  function ViewsOf(tasks: seq<Task>, results: seq<Result>, key: string): seq<View> {
    if tasks == [] then []
    else
      var last := tasks[|tasks| - 1];
      ViewsOf(tasks[..|tasks| - 1], results, key) + (if KeyOf(last) == key then [ViewOf(last, results)] else [])
  }

  function One(b: bool): nat {
    if b then 1 else 0
  }

  const PENDING: View -> nat := (v: View) => One(v.task.pending)
  const SHIPPED: View -> nat := (v: View) => One(!v.task.pending)
  const CLAIMED: View -> nat := (v: View) => One(Claimed(v.task))

  function GroupOf(milestone: Option<string>, views: seq<View>): Group {
    var sorted := StableSort(views);
    Group(milestone, sorted, Sum(PENDING, sorted), Sum(SHIPPED, sorted), Sum(CLAIMED, sorted))
  }

  function MilestoneGroups(milestones: seq<string>, tasks: seq<Task>, results: seq<Result>): seq<Group> {
    seq(|milestones|, i requires 0 <= i < |milestones| => GroupOf(Some(milestones[i]), ViewsOf(tasks, results, milestones[i])))
  }

  function GroupsOf(milestones: seq<string>, tasks: seq<Task>, results: seq<Result>): seq<Group> {
    var orphans := ViewsOf(tasks, results, "");
    MilestoneGroups(milestones, tasks, results) + (if orphans == [] then [] else [GroupOf(None, orphans)])
  }

  // ---- The methods --------------------------------------------------------------------------------

  function Get<T>(m: map<string, seq<T>>, key: string): seq<T> {
    if key in m then m[key] else []
  }

  /** The map holds every task's results. */
  ghost predicate Attached(byTask: map<string, seq<Result>>, results: seq<Result>) {
    forall k :: Get(byTask, k) == ResultsOf(results, k)
  }

  lemma AttachedOneMore(m: map<string, seq<Result>>, results: seq<Result>, r: Result)
    requires Attached(m, results)
    ensures Attached(m[r.taskId := Get(m, r.taskId) + [r]], results + [r])
  {
    var m' := m[r.taskId := Get(m, r.taskId) + [r]];
    assert (results + [r])[..|results|] == results;
    forall k ensures Get(m', k) == ResultsOf(results + [r], k) {
      assert Get(m, k) == ResultsOf(results, k);
    }
  }

  method FoldResults(results: seq<Result>) returns (byTask: map<string, seq<Result>>)
    ensures Attached(byTask, results)
  {
    byTask := map[];
    for i := 0 to |results|
      invariant Attached(byTask, results[..i])
    {
      var r := results[i];
      AttachedOneMore(byTask, results[..i], r);
      assert results[..i + 1] == results[..i] + [r];
      byTask := byTask[r.taskId := Get(byTask, r.taskId) + [r]];
    }
    assert results[..|results|] == results;
  }

  lemma ViewMatches(byTask: map<string, seq<Result>>, results: seq<Result>, t: Task)
    requires Attached(byTask, results)
    ensures View(t, Get(byTask, t.id)) == ViewOf(t, results)
  {}

  lemma FoldedStart(results: seq<Result>)
    ensures Folded(map[], [], results)
  {}

  method FoldTasks(tasks: seq<Task>, results: seq<Result>, byTask: map<string, seq<Result>>)
    returns (byMilestone: map<string, seq<View>>)
    requires Attached(byTask, results)
    ensures Folded(byMilestone, tasks, results)
  {
    byMilestone := map[];
    FoldedStart(results);
    ghost var done: seq<Task> := [];
    for i := 0 to |tasks|
      invariant done == tasks[..i] && Folded(byMilestone, done, results)
    {
      byMilestone := FoldTask(byMilestone, done, tasks[i], results, byTask);
      done := done + [tasks[i]];
    }
    assert tasks[..|tasks|] == tasks;
  }

  /** One task appended to its milestone's list. */
  method FoldTask(m: map<string, seq<View>>, ghost done: seq<Task>, t: Task,
                  ghost results: seq<Result>, byTask: map<string, seq<Result>>)
    returns (m': map<string, seq<View>>)
    requires Attached(byTask, results) && Folded(m, done, results)
    ensures Folded(m', done + [t], results)
  {
    var view := View(t, Get(byTask, t.id));
    ViewMatches(byTask, results, t);
    FoldedOneMore(m, done, t, results);
    return m[KeyOf(t) := Get(m, KeyOf(t)) + [view]];
  }

  /** The map holds every key's tasks. */
  ghost predicate Folded(byMilestone: map<string, seq<View>>, tasks: seq<Task>, results: seq<Result>) {
    forall k :: Get(byMilestone, k) == ViewsOf(tasks, results, k)
  }

  lemma FoldedOneMore(m: map<string, seq<View>>, tasks: seq<Task>, t: Task, results: seq<Result>)
    requires Folded(m, tasks, results)
    ensures Folded(m[KeyOf(t) := Get(m, KeyOf(t)) + [ViewOf(t, results)]], tasks + [t], results)
  {
    var m' := m[KeyOf(t) := Get(m, KeyOf(t)) + [ViewOf(t, results)]];
    assert (tasks + [t])[..|tasks|] == tasks;
    forall k ensures Get(m', k) == ViewsOf(tasks + [t], results, k) {
      assert Get(m, k) == ViewsOf(tasks, results, k);
    }
  }

  lemma {:induction false} SumOneMore(w: View -> nat, s: seq<View>, i: nat)
    requires i < |s|
    ensures Sum(w, s[..i + 1]) == Sum(w, s[..i]) + w(s[i])
    decreases i
  {
    if i == 0 {
      assert s[..1][1..] == [];
    } else {
      SumOneMore(w, s[1..], i - 1);
      assert s[..i + 1][1..] == s[1..][..i] && s[..i][1..] == s[1..][..i - 1];
    }
  }

  method NewGroup(milestone: Option<string>, tasks: seq<View>) returns (g: Group)
    ensures g == GroupOf(milestone, tasks)
  {
    var sorted := StableSort(tasks);
    var pending, shipped, claimed := 0, 0, 0;
    for i := 0 to |sorted|
      invariant pending == Sum(PENDING, sorted[..i]) && shipped == Sum(SHIPPED, sorted[..i])
      invariant claimed == Sum(CLAIMED, sorted[..i])
    {
      SumOneMore(PENDING, sorted, i);
      SumOneMore(SHIPPED, sorted, i);
      SumOneMore(CLAIMED, sorted, i);
      var t := sorted[i].task;
      if t.pending { pending := pending + 1; } else { shipped := shipped + 1; }
      if Claimed(t) { claimed := claimed + 1; }
    }
    assert sorted[..|sorted|] == sorted;
    return Group(milestone, sorted, pending, shipped, claimed);
  }

  lemma FoldedAt(m: map<string, seq<View>>, tasks: seq<Task>, results: seq<Result>, key: string)
    requires Folded(m, tasks, results)
    ensures Get(m, key) == ViewsOf(tasks, results, key)
  {}

  lemma OneGroupMore(milestones: seq<string>, tasks: seq<Task>, results: seq<Result>, i: nat)
    requires i < |milestones|
    ensures MilestoneGroups(milestones, tasks, results)[..i + 1]
         == MilestoneGroups(milestones, tasks, results)[..i]
            + [GroupOf(Some(milestones[i]), ViewsOf(tasks, results, milestones[i]))]
  {}

  method MakeMilestoneGroups(milestones: seq<string>, ghost tasks: seq<Task>, ghost results: seq<Result>,
                             byMilestone: map<string, seq<View>>) returns (groups: seq<Group>)
    requires Folded(byMilestone, tasks, results)
    ensures groups == MilestoneGroups(milestones, tasks, results)
  {
    groups := [];
    ghost var all := MilestoneGroups(milestones, tasks, results);
    for i := 0 to |milestones|
      invariant groups == all[..i]
    {
      FoldedAt(byMilestone, tasks, results, milestones[i]);
      OneGroupMore(milestones, tasks, results, i);
      var g := NewGroup(Some(milestones[i]), Get(byMilestone, milestones[i]));
      groups := groups + [g];
    }
    assert all[..|milestones|] == all;
  }

  method MakeGroups(milestones: seq<string>, tasks: seq<Task>, results: seq<Result>) returns (groups: seq<Group>)
    ensures groups == GroupsOf(milestones, tasks, results)
  {
    var byTask := FoldResults(results);
    var byMilestone := FoldTasks(tasks, results, byTask);
    groups := MakeMilestoneGroups(milestones, tasks, results, byMilestone);
    var orphans := Get(byMilestone, "");
    if orphans != [] {
      var g := NewGroup(None, orphans);
      groups := groups + [g];
    }
  }

  // ---- Conservation ---------------------------------------------------------------------------------

  /** How many milestones carry an id. */
  function Copies(milestones: seq<string>, key: string): nat {
    if milestones == [] then 0 else One(milestones[0] == key) + Copies(milestones[1..], key)
  }

  /** In how many groups the tasks of a key are shown. */
  function Shown(milestones: seq<string>, key: string): nat {
    Copies(milestones, key) + One(key == "")
  }

  function SumGroups(w: View -> nat, groups: seq<Group>): nat {
    if groups == [] then 0 else Sum(w, groups[0].tasks) + SumGroups(w, groups[1..])
  }

  /** What the tasks of each milestone measure, milestone by milestone. */
  function SumKeys(w: View -> nat, milestones: seq<string>, tasks: seq<Task>, results: seq<Result>): nat {
    if milestones == [] then 0
    else Sum(w, ViewsOf(tasks, results, milestones[0])) + SumKeys(w, milestones[1..], tasks, results)
  }

  /** What a list of tasks measures when each counts as often as it is shown. */
  function SumShown(w: View -> nat, milestones: seq<string>, tasks: seq<Task>, results: seq<Result>): nat {
    if tasks == [] then 0
    else
      var last := tasks[|tasks| - 1];
      SumShown(w, milestones, tasks[..|tasks| - 1], results) + Shown(milestones, KeyOf(last)) * w(ViewOf(last, results))
  }

  lemma {:induction false} SumSnoc(w: View -> nat, s: seq<View>, x: View)
    ensures Sum(w, s + [x]) == Sum(w, s) + w(x)
  {
    SumOneMore(w, s + [x], |s|);
    assert (s + [x])[..|s| + 1] == s + [x] && (s + [x])[..|s|] == s;
  }

  lemma SumViewsSnoc(w: View -> nat, tasks: seq<Task>, results: seq<Result>, key: string)
    requires tasks != []
    ensures var front, last := tasks[..|tasks| - 1], tasks[|tasks| - 1];
            Sum(w, ViewsOf(tasks, results, key)) ==
            Sum(w, ViewsOf(front, results, key)) + (if KeyOf(last) == key then w(ViewOf(last, results)) else 0)
  {
    var front, last := tasks[..|tasks| - 1], tasks[|tasks| - 1];
    var views := ViewsOf(front, results, key);
    if KeyOf(last) == key {
      SumSnoc(w, views, ViewOf(last, results));
    } else {
      assert views + [] == views;
    }
  }

  lemma Distribute(b: bool, c: nat, x: nat)
    ensures (One(b) + c) * x == (if b then x else 0) + c * x
    ensures (c + One(b)) * x == (if b then x else 0) + c * x
  {}

  lemma {:induction false} SumKeysSnoc(w: View -> nat, milestones: seq<string>, tasks: seq<Task>, results: seq<Result>)
    requires tasks != []
    ensures var front, last := tasks[..|tasks| - 1], tasks[|tasks| - 1];
            SumKeys(w, milestones, tasks, results) ==
            SumKeys(w, milestones, front, results) + Copies(milestones, KeyOf(last)) * w(ViewOf(last, results))
    decreases |milestones|
  {
    if milestones != [] {
      SumKeysSnoc(w, milestones[1..], tasks, results);
      var front, last := tasks[..|tasks| - 1], tasks[|tasks| - 1];
      SumViewsSnoc(w, tasks, results, milestones[0]);
      Distribute(milestones[0] == KeyOf(last), Copies(milestones[1..], KeyOf(last)), w(ViewOf(last, results)));
    }
  }

  lemma SumShownSnoc(w: View -> nat, milestones: seq<string>, tasks: seq<Task>, results: seq<Result>)
    requires tasks != []
    ensures var front, last := tasks[..|tasks| - 1], tasks[|tasks| - 1];
            SumShown(w, milestones, tasks, results) ==
            SumShown(w, milestones, front, results) + Copies(milestones, KeyOf(last)) * w(ViewOf(last, results))
            + (if KeyOf(last) == "" then w(ViewOf(last, results)) else 0)
  {
    var last := tasks[|tasks| - 1];
    Distribute(KeyOf(last) == "", Copies(milestones, KeyOf(last)), w(ViewOf(last, results)));
  }

  lemma {:induction false} SumByKeys(w: View -> nat, milestones: seq<string>, tasks: seq<Task>, results: seq<Result>)
    ensures SumKeys(w, milestones, tasks, results) + Sum(w, ViewsOf(tasks, results, ""))
         == SumShown(w, milestones, tasks, results)
    decreases |tasks|
  {
    if tasks == [] {
      NoTasks(w, milestones, results);
    } else {
      var front, last := tasks[..|tasks| - 1], tasks[|tasks| - 1];
      SumByKeys(w, milestones, front, results);
      SumKeysSnoc(w, milestones, tasks, results);
      SumViewsSnoc(w, tasks, results, "");
      SumShownSnoc(w, milestones, tasks, results);
    }
  }

  lemma {:induction false} NoTasks(w: View -> nat, milestones: seq<string>, results: seq<Result>)
    ensures SumKeys(w, milestones, [], results) == 0
  {
    if milestones != [] { NoTasks(w, milestones[1..], results); }
  }

  lemma {:induction false} SumGroupsJoined(w: View -> nat, a: seq<Group>, b: seq<Group>)
    ensures SumGroups(w, a + b) == SumGroups(w, a) + SumGroups(w, b)
    decreases |a|
  {
    if a == [] {
      assert a + b == b;
    } else {
      assert (a + b)[1..] == a[1..] + b;
      SumGroupsJoined(w, a[1..], b);
    }
  }

  lemma {:induction false} SumMilestoneGroups(w: View -> nat, milestones: seq<string>, tasks: seq<Task>, results: seq<Result>)
    ensures SumGroups(w, MilestoneGroups(milestones, tasks, results)) == SumKeys(w, milestones, tasks, results)
    decreases |milestones|
  {
    if milestones != [] {
      SumMilestoneGroups(w, milestones[1..], tasks, results);
      SumSorted(w, ViewsOf(tasks, results, milestones[0]));
      assert MilestoneGroups(milestones, tasks, results)[1..] == MilestoneGroups(milestones[1..], tasks, results);
    }
  }

  /** Every measure of the page is the measure of the tasks, each counted as often as its
      key is shown. */
  lemma PageMeasure(w: View -> nat, milestones: seq<string>, tasks: seq<Task>, results: seq<Result>)
    ensures SumGroups(w, GroupsOf(milestones, tasks, results)) == SumShown(w, milestones, tasks, results)
  {
    var orphans := ViewsOf(tasks, results, "");
    var tail := if orphans == [] then [] else [GroupOf(None, orphans)];
    SumGroupsJoined(w, MilestoneGroups(milestones, tasks, results), tail);
    SumMilestoneGroups(w, milestones, tasks, results);
    SumSorted(w, orphans);
    SumByKeys(w, milestones, tasks, results);
    if orphans != [] { assert tail[1..] == []; }
  }

  /** The views of all tasks, as the page was given them. */
  function AllViews(tasks: seq<Task>, results: seq<Result>): seq<View> {
    seq(|tasks|, i requires 0 <= i < |tasks| => ViewOf(tasks[i], results))
  }

  predicate ShownOnce(milestones: seq<string>, tasks: seq<Task>) {
    forall i :: 0 <= i < |tasks| ==> Shown(milestones, KeyOf(tasks[i])) == 1
  }

  lemma AllViewsSnoc(tasks: seq<Task>, results: seq<Result>)
    requires tasks != []
    ensures AllViews(tasks, results) ==
            AllViews(tasks[..|tasks| - 1], results) + [ViewOf(tasks[|tasks| - 1], results)]
  {}

  lemma {:induction false} SumAllShown(w: View -> nat, milestones: seq<string>, tasks: seq<Task>, results: seq<Result>)
    requires ShownOnce(milestones, tasks)
    ensures SumShown(w, milestones, tasks, results) == Sum(w, AllViews(tasks, results))
    decreases |tasks|
  {
    if tasks != [] {
      var front, last := tasks[..|tasks| - 1], tasks[|tasks| - 1];
      SumAllShown(w, milestones, front, results);
      AllViewsSnoc(tasks, results);
      SumSnoc(w, AllViews(front, results), ViewOf(last, results));
      assert Shown(milestones, KeyOf(last)) == 1;
    }
  }

  /** All the tasks of all the groups. */
  function Flat(groups: seq<Group>): seq<View> {
    if groups == [] then [] else groups[0].tasks + Flat(groups[1..])
  }

  function Is(v: View): View -> nat {
    (x: View) => One(x == v)
  }

  lemma {:induction false} SumIsCount(s: seq<View>, v: View)
    ensures Sum(Is(v), s) == multiset(s)[v]
    decreases |s|
  {
    if s != [] {
      SumIsCount(s[1..], v);
      assert s == [s[0]] + s[1..];
    }
  }

  lemma {:induction false} FlatCount(groups: seq<Group>, v: View)
    ensures SumGroups(Is(v), groups) == multiset(Flat(groups))[v]
    decreases |groups|
  {
    if groups != [] {
      FlatCount(groups[1..], v);
      SumIsCount(groups[0].tasks, v);
    }
  }

  lemma CountSnoc(tasks: seq<Task>, results: seq<Result>, v: View)
    requires tasks != []
    ensures multiset(AllViews(tasks, results))[v] ==
            multiset(AllViews(tasks[..|tasks| - 1], results))[v] + One(ViewOf(tasks[|tasks| - 1], results) == v)
  {
    AllViewsSnoc(tasks, results);
  }

  lemma ScaledOneMore(k: nat, c: nat, k': nat, b: bool)
    requires b ==> k' == k
    ensures k * (c + One(b)) == k * c + k' * One(b)
  {}

  lemma {:induction false} ShownCount(milestones: seq<string>, tasks: seq<Task>, results: seq<Result>, v: View)
    ensures SumShown(Is(v), milestones, tasks, results) ==
            Shown(milestones, KeyOf(v.task)) * multiset(AllViews(tasks, results))[v]
    decreases |tasks|
  {
    if tasks != [] {
      var front, last := tasks[..|tasks| - 1], tasks[|tasks| - 1];
      var here := ViewOf(last, results) == v;
      ShownCount(milestones, front, results, v);
      CountSnoc(tasks, results, v);
      ScaledOneMore(Shown(milestones, KeyOf(v.task)), multiset(AllViews(front, results))[v], Shown(milestones, KeyOf(last)), here);
      assert Is(v)(ViewOf(last, results)) == One(here);
    }
  }

  /** How often a task is on the page. */
  lemma PageCount(milestones: seq<string>, tasks: seq<Task>, results: seq<Result>, v: View)
    ensures multiset(Flat(GroupsOf(milestones, tasks, results)))[v] ==
            Shown(milestones, KeyOf(v.task)) * multiset(AllViews(tasks, results))[v]
  {
    PageMeasure(Is(v), milestones, tasks, results);
    FlatCount(GroupsOf(milestones, tasks, results), v);
    ShownCount(milestones, tasks, results, v);
  }

  lemma ConservedOnlyIf(milestones: seq<string>, tasks: seq<Task>, results: seq<Result>, i: nat)
    requires i < |tasks|
    requires multiset(Flat(GroupsOf(milestones, tasks, results))) == multiset(AllViews(tasks, results))
    ensures Shown(milestones, KeyOf(tasks[i])) == 1
  {
    var v := ViewOf(tasks[i], results);
    assert AllViews(tasks, results)[i] == v;
    PageCount(milestones, tasks, results, v);
    OnlyOnce(Shown(milestones, KeyOf(v.task)), multiset(AllViews(tasks, results))[v]);
  }

  lemma ConservedIf(milestones: seq<string>, tasks: seq<Task>, results: seq<Result>, v: View)
    requires ShownOnce(milestones, tasks)
    ensures multiset(Flat(GroupsOf(milestones, tasks, results)))[v] == multiset(AllViews(tasks, results))[v]
  {
    var k, c := Shown(milestones, KeyOf(v.task)), multiset(AllViews(tasks, results))[v];
    PageCount(milestones, tasks, results, v);
    if c > 0 { ShownTask(milestones, tasks, results, v); }
    OnceOrNone(k, c);
  }

  lemma OnceOrNone(k: nat, c: nat)
    requires c > 0 ==> k == 1
    ensures k * c == c
  {}

  /** **Conservation.** The groups hold exactly the given tasks, each as often as given,
      exactly when every task's key is shown once. */
  lemma GroupsConserve(milestones: seq<string>, tasks: seq<Task>, results: seq<Result>)
    ensures multiset(Flat(GroupsOf(milestones, tasks, results))) == multiset(AllViews(tasks, results))
       <==> ShownOnce(milestones, tasks)
  {
    var page, all := multiset(Flat(GroupsOf(milestones, tasks, results))), multiset(AllViews(tasks, results));
    if page == all {
      forall i | 0 <= i < |tasks| ensures Shown(milestones, KeyOf(tasks[i])) == 1 {
        ConservedOnlyIf(milestones, tasks, results, i);
      }
    }
    if ShownOnce(milestones, tasks) {
      forall v ensures page[v] == all[v] {
        ConservedIf(milestones, tasks, results, v);
      }
    }
  }

  lemma OnlyOnce(k: nat, c: nat)
    requires c > 0 && k * c == c
    ensures k == 1
  {
    assert (k - 1) * c == 0;
  }

  lemma ShownTask(milestones: seq<string>, tasks: seq<Task>, results: seq<Result>, v: View)
    requires ShownOnce(milestones, tasks) && v in multiset(AllViews(tasks, results))
    ensures Shown(milestones, KeyOf(v.task)) == 1
  {
    assert v in AllViews(tasks, results);
    var i :| 0 <= i < |tasks| && AllViews(tasks, results)[i] == v;
    assert Shown(milestones, KeyOf(tasks[i])) == 1;
  }

  /** Milestone ids that are distinct, not empty, and cover the tasks show every task once. */
  lemma DistinctIdsShowOnce(milestones: seq<string>, tasks: seq<Task>)
    requires forall i, j :: 0 <= i < j < |milestones| ==> milestones[i] != milestones[j]
    requires "" !in milestones
    requires forall i :: 0 <= i < |tasks| && tasks[i].milestone.Some? ==> tasks[i].milestone.value in milestones
    ensures ShownOnce(milestones, tasks)
  {
    forall i | 0 <= i < |tasks| ensures Shown(milestones, KeyOf(tasks[i])) == 1 {
      CopiesDistinct(milestones, KeyOf(tasks[i]));
    }
  }

  lemma {:induction false} CopiesDistinct(milestones: seq<string>, key: string)
    requires forall i, j :: 0 <= i < j < |milestones| ==> milestones[i] != milestones[j]
    ensures Copies(milestones, key) == One(key in milestones)
    decreases |milestones|
  {
    if milestones != [] {
      CopiesDistinct(milestones[1..], key);
      assert key in milestones <==> key == milestones[0] || key in milestones[1..];
    }
  }

  // ---- Totals -----------------------------------------------------------------------------------------

  function TotalPending(groups: seq<Group>): nat {
    if groups == [] then 0 else groups[0].pending + TotalPending(groups[1..])
  }

  function TotalClaimed(groups: seq<Group>): nat {
    if groups == [] then 0 else groups[0].claimed + TotalClaimed(groups[1..])
  }

  /** The totals basePage counts over the tasks themselves. */
  method PageTotals(tasks: seq<Task>) returns (pending: nat, claimed: nat)
    ensures forall results: seq<Result> ::
              pending == Sum(PENDING, AllViews(tasks, results)) && claimed == Sum(CLAIMED, AllViews(tasks, results))
  {
    pending, claimed := 0, 0;
    for i := 0 to |tasks|
      invariant forall results: seq<Result> ::
                  pending == Sum(PENDING, AllViews(tasks, results)[..i]) && claimed == Sum(CLAIMED, AllViews(tasks, results)[..i])
    {
      forall results: seq<Result>
        ensures Sum(PENDING, AllViews(tasks, results)[..i + 1]) == Sum(PENDING, AllViews(tasks, results)[..i]) + One(tasks[i].pending)
        ensures Sum(CLAIMED, AllViews(tasks, results)[..i + 1]) == Sum(CLAIMED, AllViews(tasks, results)[..i]) + One(Claimed(tasks[i]))
      {
        SumOneMore(PENDING, AllViews(tasks, results), i);
        SumOneMore(CLAIMED, AllViews(tasks, results), i);
      }
      if tasks[i].pending { pending := pending + 1; }
      if Claimed(tasks[i]) { claimed := claimed + 1; }
    }
    forall results: seq<Result> ensures AllViews(tasks, results)[..|tasks|] == AllViews(tasks, results) {}
  }

  ghost predicate Counted(groups: seq<Group>) {
    forall i :: 0 <= i < |groups| ==>
      groups[i].pending == Sum(PENDING, groups[i].tasks) && groups[i].claimed == Sum(CLAIMED, groups[i].tasks)
  }

  lemma {:induction false} TotalsAreSums(groups: seq<Group>)
    requires Counted(groups)
    ensures TotalPending(groups) == SumGroups(PENDING, groups) && TotalClaimed(groups) == SumGroups(CLAIMED, groups)
    decreases |groups|
  {
    if groups != [] { TotalsAreSums(groups[1..]); }
  }

  lemma GroupsCounted(milestones: seq<string>, tasks: seq<Task>, results: seq<Result>)
    ensures Counted(GroupsOf(milestones, tasks, results))
  {}

  /** When every task is shown once the groups' pending and claimed counts add up to the
      page's. */
  lemma CountsAddUp(milestones: seq<string>, tasks: seq<Task>, results: seq<Result>)
    requires ShownOnce(milestones, tasks)
    ensures var groups := GroupsOf(milestones, tasks, results);
            && TotalPending(groups) == Sum(PENDING, AllViews(tasks, results))
            && TotalClaimed(groups) == Sum(CLAIMED, AllViews(tasks, results))
  {
    GroupsCounted(milestones, tasks, results);
    TotalsAreSums(GroupsOf(milestones, tasks, results));
    PageMeasure(PENDING, milestones, tasks, results);
    PageMeasure(CLAIMED, milestones, tasks, results);
    SumAllShown(PENDING, milestones, tasks, results);
    SumAllShown(CLAIMED, milestones, tasks, results);
  }

  /** Each group is in reading order. */
  lemma GroupsInOrder(milestones: seq<string>, tasks: seq<Task>, results: seq<Result>, i: nat)
    requires i < |GroupsOf(milestones, tasks, results)|
    ensures InOrder(GroupsOf(milestones, tasks, results)[i].tasks)
  {
    if i < |milestones| {
      SortInOrder(ViewsOf(tasks, results, milestones[i]));
    } else {
      SortInOrder(ViewsOf(tasks, results, ""));
    }
  }

  // ---- What a reader sees -----------------------------------------------------------------------------

  /** a may stand before b: pending before shipped; then by priority, the lower first, and
      with one before without; then by id, the shorter first. */
  predicate MayPrecede(a: Task, b: Task) {
    && (b.pending ==> a.pending)
    && (a.pending == b.pending ==>
          && (b.priority.Some? ==> a.priority.Some? && a.priority.value <= b.priority.value)
          && (a.priority == b.priority ==> |a.id| <= |b.id| && (|a.id| == |b.id| ==> Le(a.id, b.id))))
  }

  lemma NotLessPrecedes(a: Task, b: Task)
    requires !Less(b, a)
    ensures MayPrecede(a, b)
  {
    LeTotal(a.id, b.id);
  }

  /** `part` is `items` at the flagged places, in order. */
  ghost predicate Taken<T>(part: seq<T>, items: seq<T>, flags: seq<bool>, at: seq<nat>) {
    && |part| == |at| && |items| == |flags|
    && (forall i, j :: 0 <= i < j < |at| ==> at[i] < at[j])
    && (forall k :: k in at <==> 0 <= k < |flags| && flags[k])
    && (forall i :: 0 <= i < |at| ==> at[i] < |items| && part[i] == items[at[i]])
  }

  lemma TakenMore<T>(part: seq<T>, items: seq<T>, flags: seq<bool>, at: seq<nat>, x: T, flag: bool)
    requires Taken(part, items, flags, at)
    ensures if flag then Taken(part + [x], items + [x], flags + [flag], at + [|items|])
            else Taken(part, items + [x], flags + [flag], at)
  {
    assert forall i :: 0 <= i < |at| ==> at[i] in at;
  }

  function Against(results: seq<Result>, task: string): (flags: seq<bool>) {
    seq(|results|, k requires 0 <= k < |results| => results[k].taskId == task)
  }

  /** A task's results are those reported against it, in their order. */
  lemma {:induction false} ResultsPicked(results: seq<Result>, task: string) returns (at: seq<nat>)
    ensures Taken(ResultsOf(results, task), results, Against(results, task), at)
  {
    if results == [] {
      at := [];
    } else {
      var n, front, last := |results| - 1, results[..|results| - 1], results[|results| - 1];
      at := ResultsPicked(front, task);
      TakenMore(ResultsOf(front, task), front, Against(front, task), at, last, last.taskId == task);
      assert front + [last] == results && Against(front, task) + [last.taskId == task] == Against(results, task);
      if last.taskId == task { at := at + [n]; }
    }
  }

  /** The tasks that name this milestone; under the empty id come those that name none. */
  function Under(tasks: seq<Task>, key: string): (flags: seq<bool>) {
    seq(|tasks|, k requires 0 <= k < |tasks| =>
          tasks[k].milestone == Some(key) || (key == "" && tasks[k].milestone == None))
  }

  /** A milestone's tasks are those that name it, in their order, with their results. */
  lemma {:induction false} ViewsPicked(tasks: seq<Task>, results: seq<Result>, key: string) returns (at: seq<nat>)
    ensures Taken(ViewsOf(tasks, results, key), AllViews(tasks, results), Under(tasks, key), at)
  {
    if tasks == [] {
      at := [];
    } else {
      var front, last := tasks[..|tasks| - 1], tasks[|tasks| - 1];
      var under := Under(tasks, key)[|tasks| - 1];
      at := ViewsPicked(front, results, key);
      TakenMore(ViewsOf(front, results, key), AllViews(front, results), Under(front, key), at, ViewOf(last, results), under);
      AllViewsSnoc(tasks, results);
      assert Under(front, key) + [under] == Under(tasks, key);
      if under { at := at + [|tasks| - 1]; }
    }
  }

  lemma SortedSame(s: seq<View>)
    ensures multiset(StableSort(s)) == multiset(s)
  {
    forall v ensures multiset(StableSort(s))[v] == multiset(s)[v] {
      SumSorted(Is(v), s);
      SumIsCount(s, v);
      SumIsCount(StableSort(s), v);
    }
  }

  /** How many tasks of a list are pending, shipped and claimed. */
  ghost predicate CountedAs(tasks: seq<View>, pending: nat, shipped: nat, claimed: nat) {
    && pending == |set k | 0 <= k < |tasks| && tasks[k].task.pending|
    && shipped == |tasks| - pending
    && claimed == |set k | 0 <= k < |tasks| && tasks[k].task.claimedBy != None && !tasks[k].task.claimExpired|
  }

  lemma {:induction false} SumIsSize(w: View -> nat, chosen: View -> bool, tasks: seq<View>)
    requires forall v :: w(v) == One(chosen(v))
    ensures Sum(w, tasks) == |set k | 0 <= k < |tasks| && chosen(tasks[k])|
  {
    if tasks != [] {
      var n := |tasks| - 1;
      SumIsSize(w, chosen, tasks[..n]);
      SumOneMore(w, tasks, n);
      assert tasks[..n + 1] == tasks;
      var before, all := set k | 0 <= k < n && chosen(tasks[..n][k]), set k | 0 <= k < |tasks| && chosen(tasks[k]);
      assert all == if chosen(tasks[n]) then before + {n} else before;
    }
  }

  lemma {:induction false} SumSplits(tasks: seq<View>)
    ensures Sum(PENDING, tasks) + Sum(SHIPPED, tasks) == |tasks|
  {
    if tasks != [] { SumSplits(tasks[1..]); }
  }

  lemma GroupCounts(milestone: Option<string>, views: seq<View>)
    ensures var g := GroupOf(milestone, views); CountedAs(g.tasks, g.pending, g.shipped, g.claimed)
  {
    var sorted := StableSort(views);
    var isPending, isClaimed := (v: View) => v.task.pending, (v: View) => v.task.claimedBy != None && !v.task.claimExpired;
    SumIsSize(PENDING, isPending, sorted);
    SumIsSize(CLAIMED, isClaimed, sorted);
    assert (set k | 0 <= k < |sorted| && isPending(sorted[k])) == set k | 0 <= k < |sorted| && sorted[k].task.pending;
    assert (set k | 0 <= k < |sorted| && isClaimed(sorted[k]))
        == set k | 0 <= k < |sorted| && sorted[k].task.claimedBy != None && !sorted[k].task.claimExpired;
    SumSplits(sorted);
  }

  /** **What the page shows**: a group for each milestone in the given order, and one for the
      tasks without a milestone where there are any; each holds exactly its tasks, in reading
      order, and counts them. */
  lemma PageShows(milestones: seq<string>, tasks: seq<Task>, results: seq<Result>, i: nat)
    requires i < |GroupsOf(milestones, tasks, results)|
    ensures var groups, orphans := GroupsOf(milestones, tasks, results), ViewsOf(tasks, results, "");
            && |groups| == |milestones| + One(orphans != [])
            && var g := groups[i];
               && g.milestone == (if i < |milestones| then Some(milestones[i]) else None)
               && multiset(g.tasks) == multiset(ViewsOf(tasks, results, if i < |milestones| then milestones[i] else ""))
               && (forall j, k :: 0 <= j < k < |g.tasks| ==> MayPrecede(g.tasks[j].task, g.tasks[k].task))
               && CountedAs(g.tasks, g.pending, g.shipped, g.claimed)
  {
    var key := if i < |milestones| then milestones[i] else "";
    var milestone := if i < |milestones| then Some(milestones[i]) else None;
    var views := ViewsOf(tasks, results, key);
    var g := GroupsOf(milestones, tasks, results)[i];
    assert g == GroupOf(milestone, views);
    SortedSame(views);
    GroupCounts(milestone, views);
    SortInOrder(views);
    forall j, k | 0 <= j < k < |g.tasks| ensures MayPrecede(g.tasks[j].task, g.tasks[k].task) {
      NotLessPrecedes(g.tasks[j].task, g.tasks[k].task);
    }
  }
}
