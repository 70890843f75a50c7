/** sim/minimize.cpp: the failure signature, and the search that shrinks a failing plan
    while that signature survives. A replay is a function of the plan: the harness draws
    everything from the plan and the engine is deterministic under it. */
module Minimize {
  import opened Text
  import opened Numbers
  import opened Plans

  // ---- The signature ---------------------------------------------------------------

  datatype Scanner = Scanner(out: string, inBracket: bool, inQuote: bool, inDigits: bool)

  const FRESH: Scanner := Scanner("", false, false, false)

  /** One character of the detail. */
  function Feed(s: Scanner, c: char): Scanner {
    if c == '[' then s.(inBracket := true)
    else if c == ']' then s.(inBracket := false)
    else if s.inBracket then s
    else if c == '\'' then s.(inQuote := !s.inQuote)
    else if s.inQuote then s
    else if IsDigit(c) then
      if s.inDigits then s else s.(out := s.out + "#", inDigits := true)
    else s.(out := s.out + [c], inDigits := false)
  }

  function FeedAll(s: Scanner, text: string): Scanner
    decreases |text|
  {
    if text == "" then s else FeedAll(Feed(s, text[0]), text[1..])
  }

  function Shape(detail: string): string {
    FeedAll(FRESH, detail).out
  }

  datatype Outcome = Outcome(ok: bool, detail: string)

  function Signature(v: Outcome): string {
    if v.ok then "" else Shape(v.detail)
  }

  method FailureSignature(v: Outcome) returns (out: string)
    ensures out == Signature(v)
  {
    if v.ok { return ""; }
    out := "";
    var inBracket, inQuote, inDigits := false, false, false;
    for i := 0 to |v.detail|
      invariant FeedAll(Scanner(out, inBracket, inQuote, inDigits), v.detail[i..]) == FeedAll(FRESH, v.detail)
    {
      var c := v.detail[i];
      assert v.detail[i..][0] == c && v.detail[i..][1..] == v.detail[i + 1..];
      if c == '[' { inBracket := true; continue; }
      if c == ']' { inBracket := false; continue; }
      if inBracket { continue; }
      if c == '\'' { inQuote := !inQuote; continue; }
      if inQuote { continue; }
      if IsDigit(c) {
        if !inDigits {
          out := out + "#";
          inDigits := true;
        }
        continue;
      }
      inDigits := false;
      out := out + [c];
    }
  }

  lemma {:induction false} FeedJoined(s: Scanner, a: string, b: string)
    ensures FeedAll(s, a + b) == FeedAll(FeedAll(s, a), b)
    decreases |a|
  {
    if a == "" {
      assert a + b == b;
    } else {
      assert (a + b)[1..] == a[1..] + b;
      FeedJoined(Feed(s, a[0]), a[1..], b);
    }
  }

  /** A character every signature keeps. */
  predicate Plain(c: char) {
    c != '[' && c != ']' && c != '\'' && !IsDigit(c)
  }

  lemma {:induction false} FeedPlain(s: Scanner, text: string)
    requires forall c :: c in s.out ==> Plain(c)
    ensures forall c :: c in FeedAll(s, text).out ==> Plain(c)
    decreases |text|
  {
    if text != "" { FeedPlain(Feed(s, text[0]), text[1..]); }
  }

  lemma {:induction false} FeedKeeps(s: Scanner, text: string)
    requires !s.inBracket && !s.inQuote && forall c :: c in text ==> Plain(c)
    ensures FeedAll(s, text).out == s.out + text
    decreases |text|
  {
    if text != "" {
      assert text[0] in text && forall c :: c in text[1..] ==> c in text;
      FeedKeeps(Feed(s, text[0]), text[1..]);
      assert s.out + text == (s.out + [text[0]]) + text[1..];
    }
  }

  /** A signature is its own signature. */
  lemma ShapeIdempotent(detail: string)
    ensures Shape(Shape(detail)) == Shape(detail)
  {
    FeedPlain(FRESH, detail);
    FeedKeeps(FRESH, Shape(detail));
  }

  lemma {:induction false} FeedDigits(s: Scanner, digits: string)
    requires digits != "" && forall c :: c in digits ==> IsDigit(c)
    ensures FeedAll(s, digits) == Feed(s, '0')
    decreases |digits|
  {
    assert digits[0] in digits;
    assert Feed(s, digits[0]) == Feed(s, '0');
    if |digits| > 1 {
      assert forall c :: c in digits[1..] ==> c in digits;
      FeedDigits(Feed(s, '0'), digits[1..]);
      assert Feed(Feed(s, '0'), '0') == Feed(s, '0');
    } else {
      assert digits[1..] == "";
    }
  }

  /** Two details that differ in the digits of a number have the same signature. */
  lemma ShapeIgnoresNumbers(before: string, m: string, n: string, after: string)
    requires m != "" && n != "" && (forall c :: c in m ==> IsDigit(c)) && (forall c :: c in n ==> IsDigit(c))
    ensures Shape(before + m + after) == Shape(before + n + after)
  {
    FeedJoined(FRESH, before + m, after);
    FeedJoined(FRESH, before, m);
    FeedDigits(FeedAll(FRESH, before), m);
    FeedJoined(FRESH, before + n, after);
    FeedJoined(FRESH, before, n);
    FeedDigits(FeedAll(FRESH, before), n);
  }

  /** A number shows as one '#', wherever the detail before it ends outside brackets, quotes
      and numbers. */
  lemma ShapeMarksNumbers(before: string, n: string)
    requires n != "" && forall c :: c in n ==> IsDigit(c)
    requires var s := FeedAll(FRESH, before); !s.inBracket && !s.inQuote && !s.inDigits
    ensures Shape(before + n) == Shape(before) + "#"
  {
    FeedJoined(FRESH, before, n);
    FeedDigits(FeedAll(FRESH, before), n);
  }

  lemma {:induction false} FeedHidden(s: Scanner, text: string)
    requires (s.inBracket && ']' !in text) ||
             (s.inQuote && forall c :: c in text ==> c != '\'' && c != '[' && c != ']')
    ensures FeedAll(s, text) == s
    decreases |text|
  {
    if text != "" {
      assert text[0] in text && forall c :: c in text[1..] ==> c in text;
      FeedHidden(s, text[1..]);
    }
  }

  /** A bracketed trace adds nothing, wherever no bracket is open already. */
  lemma ShapeIgnoresBrackets(before: string, trace: string, after: string)
    requires !FeedAll(FRESH, before).inBracket && ']' !in trace
    ensures Shape(before + ("[" + trace + "]") + after) == Shape(before + after)
  {
    var s := FeedAll(FRESH, before);
    FeedJoined(FRESH, before + ("[" + trace + "]"), after);
    FeedJoined(FRESH, before, "[" + trace + "]");
    FeedJoined(s, "[" + trace, "]");
    FeedJoined(s, "[", trace);
    FeedHidden(Feed(s, '['), trace);
    FeedJoined(FRESH, before, after);
  }

  /** Nor do quoted row contents, outside brackets and other quotes. */
  lemma ShapeIgnoresQuotes(before: string, row: string, after: string)
    requires !FeedAll(FRESH, before).inBracket && !FeedAll(FRESH, before).inQuote
    requires forall c :: c in row ==> c != '\'' && c != '[' && c != ']'
    ensures Shape(before + ("'" + row + "'") + after) == Shape(before + after)
  {
    var s := FeedAll(FRESH, before);
    FeedJoined(FRESH, before + ("'" + row + "'"), after);
    FeedJoined(FRESH, before, "'" + row + "'");
    FeedJoined(s, "'" + row, "'");
    FeedJoined(s, "'", row);
    FeedHidden(Feed(s, '\''), row);
    FeedJoined(FRESH, before, after);
  }

  lemma {:induction false} FeedGrows(s: Scanner, text: string)
    ensures s.out <= FeedAll(s, text).out
    decreases |text|
  {
    if text != "" { FeedGrows(Feed(s, text[0]), text[1..]); }
  }

  /** A failure's detail opens with "seed=", so only a run that passed has no signature. */
  lemma FailureHasSignature(v: Outcome)
    requires !v.ok ==> "seed=" <= v.detail
    ensures Signature(v) == "" <==> v.ok
  {
    if !v.ok {
      assert v.detail == "seed=" + v.detail[5..];
      FeedJoined(FRESH, "seed=", v.detail[5..]);
      FeedKeeps(FRESH, "seed=");
      FeedGrows(FeedAll(FRESH, "seed="), v.detail[5..]);
    }
  }

  lemma {:induction false} FeedOutside(s: Scanner, text: string)
    requires !s.inBracket && !s.inQuote && forall c :: c in text ==> c != '[' && c != '\''
    ensures !FeedAll(s, text).inBracket && !FeedAll(s, text).inQuote
    decreases |text|
  {
    if text != "" {
      assert text[0] in text && forall c :: c in text[1..] ==> c in text;
      FeedOutside(Feed(s, text[0]), text[1..]);
    }
  }

  /** Outside brackets and quotes, plain text is kept as it stands. */
  lemma ShapeKeepsPlain(before: string, plain: string, after: string) returns (rest: string)
    requires forall c :: c in before ==> c != '[' && c != '\''
    requires forall c :: c in plain ==> Plain(c)
    ensures Shape(before + plain + after) == Shape(before) + plain + rest
  {
    var s := FeedAll(FRESH, before);
    FeedOutside(FRESH, before);
    FeedKeeps(s, plain);
    FeedJoined(FRESH, before + plain, after);
    FeedJoined(FRESH, before, plain);
    FeedGrows(FeedAll(s, plain), after);
    rest := Shape(before + plain + after)[|Shape(before) + plain|..];
  }

  lemma {:induction false} FeedDraws(s: Scanner, text: string, c: char)
    requires c !in s.out && c !in text && c != '#'
    ensures c !in FeedAll(s, text).out
    decreases |text|
  {
    if text != "" { FeedDraws(Feed(s, text[0]), text[1..], c); }
  }

  /** A signature has no line break its detail has not. */
  lemma ShapeOneLine(detail: string)
    requires '\n' !in detail
    ensures '\n' !in Shape(detail)
  {
    FeedDraws(FRESH, detail, '\n');
  }

  // ---- Shrinking --------------------------------------------------------------------

  /** `plan` without the entries from `start` up to `start + size`. */
  function Without(plan: seq<Entry>, start: nat, size: nat): seq<Entry>
    requires start <= |plan|
  {
    plan[..start] + plan[(if start + size <= |plan| then start + size else |plan|)..]
  }

  predicate Increasing(at: seq<nat>, bound: nat) {
    && (forall i :: 0 <= i < |at| ==> at[i] < bound)
    && (forall i, j :: 0 <= i < j < |at| ==> at[i] < at[j])
  }

  predicate Picks(part: seq<Entry>, whole: seq<Entry>, at: seq<nat>) {
    |at| == |part| && Increasing(at, |whole|) && forall i :: 0 <= i < |part| ==> part[i] == whole[at[i]]
  }

  /** A subsequence: whole entries, in order, so each keeps the faults armed before it. */
  ghost predicate Subsequence(part: seq<Entry>, whole: seq<Entry>) {
    exists at :: Picks(part, whole, at)
  }

  /** No single removal keeps the failure. */
  predicate OneMinimal(sig: seq<Entry> -> string, plan: seq<Entry>, target: string) {
    |plan| > 1 ==> forall i :: 0 <= i < |plan| ==> sig(Without(plan, i, 1)) != target
  }

  /** What a search over `m` entries at granularity `g` may still cost, in replays. */
  function Budget(m: nat, g: nat): int {
    m * (m + 1) / 2 + (if g >= m then m else 3 * m - g)
  }

  lemma WithoutPicks(plan: seq<Entry>, whole: seq<Entry>, at: seq<nat>, start: nat, size: nat)
    requires start <= |plan| && Picks(plan, whole, at)
    ensures Subsequence(Without(plan, start, size), whole)
  {
    var end := if start + size <= |plan| then start + size else |plan|;
    assert Picks(Without(plan, start, size), whole, at[..start] + at[end..]);
  }

  lemma WholePicks(whole: seq<Entry>)
    ensures Subsequence(whole, whole)
  {
    var at: seq<nat> := seq(|whole|, (i: nat) => i);
    assert Picks(whole, whole, at);
  }

  /** What every plan the search holds keeps of the original. */
  ghost predicate Shrunk(sig: seq<Entry> -> string, plan: seq<Entry>, original: seq<Entry>, target: string) {
    && Subsequence(plan, original)
    && (original != [] ==> plan != [])
    && (sig(original) == target ==> sig(plan) == target)
  }

  lemma ShrunkFurther(sig: seq<Entry> -> string, plan: seq<Entry>, original: seq<Entry>, target: string, start: nat, size: nat)
    requires Shrunk(sig, plan, original, target) && start <= |plan|
    requires Without(plan, start, size) != [] && sig(Without(plan, start, size)) == target
    ensures Shrunk(sig, Without(plan, start, size), original, target)
  {
    var at :| Picks(plan, original, at);
    WithoutPicks(plan, original, at, start, size);
  }

  lemma MulMonotone(a: nat, b: nat, c: nat)
    requires a <= b
    ensures a * c <= b * c
  {}

  lemma CeilBounds(m: nat, g: nat)
    requires g > 0
    ensures m <= CeilDiv(m, g) * g < m + g
  {
    var n := m + g - 1;
    assert n == (n / g) * g + n % g;
  }

  /** A chunk is not the whole plan. */
  lemma ChunkSmall(m: nat, g: nat)
    requires g >= 2 && m >= 2
    ensures 1 <= CeilDiv(m, g) < m
  {
    var chunk := CeilDiv(m, g);
    CeilBounds(m, g);
    if chunk >= m {
      MulMonotone(m, chunk, g);
      assert m * g < m + g;
      MulMonotone(2, m, g);
      MulMonotone(2, g, m);
      assert false;
    }
  }

  /** A sweep has no more chunks than its granularity. */
  lemma ChunksFew(m: nat, g: nat, k: nat)
    requires g >= 2 && m >= 2 && k * CeilDiv(m, g) < m
    ensures k < g && k < m
  {
    var chunk := CeilDiv(m, g);
    CeilBounds(m, g);
    ChunkSmall(m, g);
    if k >= g {
      MulMonotone(g, k, chunk);
      assert false;
    }
    MulMonotone(1, chunk, k);
  }

  lemma BudgetProgress(m: nat, g: nat, m': nat)
    requires g >= 2 && m >= 2 && m' < m
    ensures Budget(m', g) + (if g < m then g else m) <= Budget(m, g)
    decreases m
  {
    assert m * (m + 1) == (m - 1) * m + 2 * m;
    if m' < m - 1 && m > 2 {
      BudgetProgress(m - 1, g, m');
    }
  }

  lemma BudgetFiner(m: nat, g: nat)
    requires g >= 2 && m >= 2 && g < m
    ensures Budget(m, if 2 * g < m then 2 * g else m) + g <= Budget(m, g)
  {}

  lemma BudgetQuadratic(n: nat)
    requires n >= 2
    ensures Budget(n, 2) <= 2 * n * n
  {
    assert n * (n + 1) / 2 <= (n * n + n) / 2;
    if n > 2 {
      MulMonotone(3, n, n);
    }
  }

  lemma CeilOne(m: nat, g: nat)
    requires 1 <= m <= g
    ensures CeilDiv(m, g) == 1
  {
    CeilBounds(m, g);
  }

  /** No removal of one entry before `end` keeps the failure. */
  predicate TestedBelow(sig: seq<Entry> -> string, plan: seq<Entry>, target: string, end: nat)
    requires end <= |plan|
  {
    forall i :: 0 <= i < end ==> sig(Without(plan, i, 1)) != target
  }

  lemma WithoutSmaller(plan: seq<Entry>, start: nat, size: nat)
    requires start < |plan| && 1 <= size < |plan|
    ensures Without(plan, start, size) != [] && |Without(plan, start, size)| < |plan|
  {}

  lemma TestedOneMore(sig: seq<Entry> -> string, plan: seq<Entry>, target: string, end: nat)
    requires end < |plan| && TestedBelow(sig, plan, target, end) && sig(Without(plan, end, 1)) != target
    ensures TestedBelow(sig, plan, target, end + 1)
  {}

  lemma OneMoreChunk(k: nat, chunk: nat)
    ensures (k + 1) * chunk == k * chunk + chunk
  {}

  // ---- The replays, in order ------------------------------------------------------------

  /** One replay: the plan held, the granularity, and where the chunk begins it goes without. */
  datatype Trial = Trial(plan: seq<Entry>, granularity: nat, start: nat) {
    predicate Well() {
      granularity >= 2 && start < |plan| && |plan| > 1
    }

    function Chunk(): nat
      requires Well()
    {
      CeilDiv(|plan|, granularity)
    }

    function Candidate(): seq<Entry>
      requires Well()
    {
      Without(plan, start, Chunk())
    }

    predicate Hits(sig: seq<Entry> -> string, target: string)
      requires Well()
    {
      sig(Candidate()) == target
    }

    /** No chunk of the sweep is left. */
    predicate Last()
      requires Well()
    {
      start + Chunk() >= |plan|
    }
  }

  /** What is held, and at which granularity, when the next sweep begins. */
  predicate NextSweep(sig: seq<Entry> -> string, target: string, t: Trial, plan: seq<Entry>, granularity: nat)
    requires t.Well()
  {
    if t.Hits(sig, target) then plan == t.Candidate() && granularity == t.granularity
    else t.Last() && t.granularity < |t.plan| && plan == t.plan && granularity == Least(2 * t.granularity, |t.plan|)
  }

  /** The replay after a replay: a hit starts over on what it left, a miss goes on to the next
      chunk, and after the last chunk to one half the size. */
  predicate Follows(sig: seq<Entry> -> string, target: string, t: Trial, u: Trial)
    requires t.Well()
  {
    if t.Hits(sig, target) || t.Last() then u.start == 0 && NextSweep(sig, target, t, u.plan, u.granularity)
    else u == Trial(t.plan, t.granularity, t.start + t.Chunk())
  }

  /** Nothing follows. */
  predicate Over(sig: seq<Entry> -> string, target: string, t: Trial)
    requires t.Well()
  {
    if t.Hits(sig, target) then |t.Candidate()| <= 1 else t.Last() && t.granularity >= |t.plan|
  }

  /** The replays of a search, in order. */
  ghost predicate IsSearch(sig: seq<Entry> -> string, original: seq<Entry>, target: string, trail: seq<Trial>) {
    && (forall i :: 0 <= i < |trail| ==> trail[i].Well())
    && (trail != [] ==> trail[0] == Trial(original, 2, 0))
    && (forall i :: 0 < i < |trail| ==> Follows(sig, target, trail[i - 1], trail[i]))
  }

  /** The last candidate that keeps the failure, or the original if none does. */
  function LastHit(sig: seq<Entry> -> string, original: seq<Entry>, target: string, trail: seq<Trial>): seq<Entry>
    requires forall i :: 0 <= i < |trail| ==> trail[i].Well()
  {
    if trail == [] then original
    else
      var t := trail[|trail| - 1];
      if t.Hits(sig, target) then t.Candidate() else LastHit(sig, original, target, trail[..|trail| - 1])
  }

  /** What the search holds when a sweep begins. */
  ghost predicate AtSweep(sig: seq<Entry> -> string, original: seq<Entry>, target: string, trail: seq<Trial>,
                          plan: seq<Entry>, granularity: nat)
  {
    && IsSearch(sig, original, target, trail)
    && if trail == [] then plan == original && granularity == 2
       else NextSweep(sig, target, trail[|trail| - 1], plan, granularity)
  }

  /** The replays of one sweep: every chunk from the first, the last of them a hit if any is. */
  ghost predicate IsSweep(sig: seq<Entry> -> string, target: string, plan: seq<Entry>, granularity: nat,
                          tried: seq<Trial>, progress: bool)
  {
    && (forall i :: 0 <= i < |tried| ==> tried[i].Well() && tried[i].plan == plan && tried[i].granularity == granularity)
    && (tried != [] ==> tried[0].start == 0)
    && (forall i :: 0 < i < |tried| ==> tried[i].start == tried[i - 1].start + tried[i - 1].Chunk())
    && (forall i :: 0 <= i < |tried| ==> (tried[i].Hits(sig, target) <==> progress && i == |tried| - 1))
  }

  lemma SweepJoins(sig: seq<Entry> -> string, original: seq<Entry>, target: string, trail: seq<Trial>,
                   plan: seq<Entry>, granularity: nat, tried: seq<Trial>, progress: bool)
    requires AtSweep(sig, original, target, trail, plan, granularity) && tried != []
    requires IsSweep(sig, target, plan, granularity, tried, progress)
    ensures IsSearch(sig, original, target, trail + tried)
  {
    var whole := trail + tried;
    assert tried[0] == Trial(plan, granularity, 0);
    forall i | 0 < i < |whole| ensures Follows(sig, target, whole[i - 1], whole[i]) {
      if i > |trail| {
        var k := i - |trail|;
        assert whole[i - 1] == tried[k - 1] && whole[i] == tried[k] && !tried[k - 1].Hits(sig, target);
        assert tried[k].start < |plan|;
      } else if i < |trail| {
        assert whole[i - 1] == trail[i - 1] && whole[i] == trail[i];
      }
    }
  }

  /** A sweep that hits holds what it hit; one that does not holds what was held. */
  lemma {:induction false} SweepHolds(sig: seq<Entry> -> string, original: seq<Entry>, target: string, trail: seq<Trial>,
                                      plan: seq<Entry>, granularity: nat, tried: seq<Trial>, progress: bool)
    requires forall i :: 0 <= i < |trail| ==> trail[i].Well()
    requires IsSweep(sig, target, plan, granularity, tried, progress) && (progress ==> tried != [])
    ensures forall i :: 0 <= i < |trail + tried| ==> (trail + tried)[i].Well()
    ensures LastHit(sig, original, target, trail + tried) ==
            if progress then tried[|tried| - 1].Candidate() else LastHit(sig, original, target, trail)
    decreases |tried|
  {
    if tried == [] {
      assert trail + tried == trail;
    } else {
      assert (trail + tried)[..|trail + tried| - 1] == trail + tried[..|tried| - 1];
      if !progress {
        SweepHolds(sig, original, target, trail, plan, granularity, tried[..|tried| - 1], false);
      }
    }
  }

  /** These replays lead to this plan. */
  ghost predicate Reached(sig: seq<Entry> -> string, original: seq<Entry>, target: string, trail: seq<Trial>, plan: seq<Entry>) {
    IsSearch(sig, original, target, trail) && plan == LastHit(sig, original, target, trail)
  }

  ghost predicate Ended(sig: seq<Entry> -> string, target: string, trail: seq<Trial>) {
    trail != [] && trail[|trail| - 1].Well() && Over(sig, target, trail[|trail| - 1])
  }

  /** One more sweep: where it hit, on from what it left; where it ran to its end, on at half
      the size, or no further. */
  lemma AfterSweep(sig: seq<Entry> -> string, original: seq<Entry>, target: string, trail: seq<Trial>, plan: seq<Entry>,
                   granularity: nat, tried: seq<Trial>, progress: bool, left: seq<Entry>)
    requires AtSweep(sig, original, target, trail, plan, granularity) && Reached(sig, original, target, trail, plan)
    requires IsSweep(sig, target, plan, granularity, tried, progress) && tried != []
    requires left == if progress then tried[|tried| - 1].Candidate() else plan
    ensures Reached(sig, original, target, trail + tried, left)
    ensures progress ==> AtSweep(sig, original, target, trail + tried, left, granularity)
    ensures progress && |left| <= 1 ==> Ended(sig, target, trail + tried)
    ensures !progress && tried[|tried| - 1].Last() ==>
              if granularity >= |plan| then Ended(sig, target, trail + tried)
              else AtSweep(sig, original, target, trail + tried, plan, Least(2 * granularity, |plan|))
  {
    SweepJoins(sig, original, target, trail, plan, granularity, tried, progress);
    SweepHolds(sig, original, target, trail, plan, granularity, tried, progress);
    assert (trail + tried)[|trail + tried| - 1] == tried[|tried| - 1];
  }

  lemma {:induction false} SearchShrinks(sig: seq<Entry> -> string, original: seq<Entry>, target: string, trail: seq<Trial>, i: nat)
    requires IsSearch(sig, original, target, trail) && i < |trail|
    ensures |trail[i].plan| <= |original| && |trail[i].Candidate()| < |trail[i].plan|
  {
    ChunkSmall(|trail[i].plan|, trail[i].granularity);
    if i > 0 { SearchShrinks(sig, original, target, trail, i - 1); }
  }

  /** How far a search may have come by its i-th replay, the k-th of its sweep. */
  lemma {:induction false} SearchSpends(sig: seq<Entry> -> string, original: seq<Entry>, target: string, trail: seq<Trial>, i: nat)
    returns (k: nat)
    requires IsSearch(sig, original, target, trail) && i < |trail|
    ensures k < |trail[i].plan| && trail[i].start == k * trail[i].Chunk()
    ensures i + Budget(|trail[i].plan|, trail[i].granularity) <= Budget(|original|, 2) + k
  {
    k := 0;
    if i > 0 {
      var t, u := trail[i - 1], trail[i];
      var before := SearchSpends(sig, original, target, trail, i - 1);
      assert Follows(sig, target, t, u);
      ChunksFew(|t.plan|, t.granularity, before);
      if t.Hits(sig, target) {
        SearchShrinks(sig, original, target, trail, i - 1);
        BudgetProgress(|t.plan|, t.granularity, |u.plan|);
      } else if t.Last() {
        BudgetFiner(|t.plan|, t.granularity);
      } else {
        k := before + 1;
        OneMoreChunk(before, t.Chunk());
        ChunksFew(|u.plan|, u.granularity, k);
      }
    }
  }

  /** A search is over after 2n^2 replays. */
  lemma SearchEnds(sig: seq<Entry> -> string, original: seq<Entry>, target: string, trail: seq<Trial>)
    requires IsSearch(sig, original, target, trail)
    ensures |trail| <= 2 * |original| * |original|
  {
    if trail != [] {
      var k := SearchSpends(sig, original, target, trail, |trail| - 1);
      BudgetCovers(|trail[|trail| - 1].plan|, trail[|trail| - 1].granularity, k);
      BudgetQuadratic(|original|);
    }
  }

  lemma BudgetCovers(m: nat, g: nat, k: nat)
    requires g >= 2 && m >= 2 && k < m
    ensures k + 1 <= Budget(m, g)
  {
    MulMonotone(2, m + 1, m);
  }

  /** Where any replay kept the failure, what the search holds is shorter. */
  lemma {:induction false} HitShortens(sig: seq<Entry> -> string, original: seq<Entry>, target: string, trail: seq<Trial>, i: nat)
    requires IsSearch(sig, original, target, trail) && i < |trail| && trail[i].Hits(sig, target)
    ensures |LastHit(sig, original, target, trail)| < |original|
  {
    var last := trail[|trail| - 1];
    if last.Hits(sig, target) {
      SearchShrinks(sig, original, target, trail, |trail| - 1);
    } else {
      HitShortens(sig, original, target, trail[..|trail| - 1], i);
    }
  }

  /** One sweep at one granularity: the first chunk whose removal keeps the failure. A
      chunk is never the whole plan, so the source's test for an empty candidate never
      holds. */
  method Sweep(sig: seq<Entry> -> string, plan: seq<Entry>, target: string, granularity: nat,
               maxReplays: nat, replays0: nat)
    returns (progress: bool, start: nat, chunk: nat, replays: nat, ghost tried: seq<Trial>)
    requires |plan| > 1 && granularity >= 2 && replays0 < maxReplays
    ensures chunk == CeilDiv(|plan|, granularity)
    ensures replays0 <= replays <= maxReplays && replays - replays0 <= Least(granularity, |plan|)
    ensures progress ==> start < |plan| && Without(plan, start, chunk) != []
                         && |Without(plan, start, chunk)| < |plan| && sig(Without(plan, start, chunk)) == target
    ensures !progress && replays < maxReplays && chunk == 1 ==> TestedBelow(sig, plan, target, |plan|)
    ensures IsSweep(sig, target, plan, granularity, tried, progress) && tried != [] && |tried| == replays - replays0
    ensures progress ==> tried[|tried| - 1].start == start
    ensures !progress && replays < maxReplays ==> tried[|tried| - 1].Last()
  {
    chunk := CeilDiv(|plan|, granularity);
    ChunkSmall(|plan|, granularity);
    progress, start, replays, tried := false, 0, replays0, [];
    var k := 0;
    while start < |plan|
      invariant replays == replays0 + k && replays <= maxReplays && start == k * chunk
      invariant k <= Least(granularity, |plan|)
      invariant chunk == 1 ==> start <= |plan| && TestedBelow(sig, plan, target, start)
      invariant IsSweep(sig, target, plan, granularity, tried, false) && |tried| == k
      invariant start == if tried == [] then 0 else tried[k - 1].start + chunk
      decreases |plan| - start
    {
      if replays >= maxReplays { return; }
      ChunksFew(|plan|, granularity, k);
      WithoutSmaller(plan, start, chunk);
      OneMoreChunk(k, chunk);
      var candidate := Without(plan, start, chunk);
      TriedOneMore(sig, target, plan, granularity, tried, Trial(plan, granularity, start));
      replays, k, tried := replays + 1, k + 1, tried + [Trial(plan, granularity, start)];
      if sig(candidate) == target {
        progress := true;
        return;
      }
      if chunk == 1 { TestedOneMore(sig, plan, target, start); }
      start := start + chunk;
    }
  }

  lemma TriedOneMore(sig: seq<Entry> -> string, target: string, plan: seq<Entry>, granularity: nat, tried: seq<Trial>, t: Trial)
    requires IsSweep(sig, target, plan, granularity, tried, false) && t.Well()
    requires t.plan == plan && t.granularity == granularity
    requires t.start == if tried == [] then 0 else tried[|tried| - 1].start + t.Chunk()
    ensures IsSweep(sig, target, plan, granularity, tried + [t], t.Hits(sig, target))
  {
    var longer := tried + [t];
    assert longer[|tried|] == t && forall i :: 0 <= i < |tried| ==> longer[i] == tried[i];
  }

  /** The search, with or without the cap on replays: it ends, keeps the failure, costs at
      most 2n^2 replays, and where the cap did not stop it the result is minimal. Its replays
      are those of `trail`, in order, to the end or as far as the cap allows, and what it
      returns is the last of them that kept the failure. */
  method Shrink(sig: seq<Entry> -> string, original: seq<Entry>, target: string, maxReplays: nat, replays0: nat)
    returns (plan: seq<Entry>, replays: nat, ghost trail: seq<Trial>)
    ensures Shrunk(sig, plan, original, target)
    ensures replays < maxReplays ==> OneMinimal(sig, plan, target)
    ensures replays0 <= replays && (replays <= maxReplays || replays == replays0)
    ensures replays - replays0 <= 2 * |original| * |original|
    ensures |trail| == replays - replays0 && Reached(sig, original, target, trail, plan)
    ensures replays < maxReplays && |original| > 1 ==> Ended(sig, target, trail)
  {
    plan, replays, trail := original, replays0, [];
    var granularity := 2;
    WholePicks(original);
    while |plan| > 1 && replays < maxReplays
      invariant Shrunk(sig, plan, original, target) && granularity >= 2
      invariant replays0 <= replays && (replays <= maxReplays || replays == replays0)
      invariant |trail| == replays - replays0 && Reached(sig, original, target, trail, plan)
      invariant replays < maxReplays ==> AtSweep(sig, original, target, trail, plan, granularity)
      invariant |plan| <= 1 && |original| > 1 ==> Ended(sig, target, trail)
      decreases |plan|, |plan| - granularity
    {
      var progress, start, chunk, used, tried := Sweep(sig, plan, target, granularity, maxReplays, replays);
      AfterSweep(sig, original, target, trail, plan, granularity, tried, progress,
                 if progress then Without(plan, start, chunk) else plan);
      replays, trail := used, trail + tried;
      if progress {
        ShrunkFurther(sig, plan, original, target, start, chunk);
        plan := Without(plan, start, chunk);
        continue;
      }
      if granularity >= |plan| {
        CeilOne(|plan|, granularity);
        assert OneMinimal(sig, plan, target) || replays >= maxReplays;
        SearchEnds(sig, original, target, trail);
        return;
      }
      granularity := if granularity * 2 < |plan| then granularity * 2 else |plan|;
    }
    SearchEnds(sig, original, target, trail);
  }

  /** Under any cap that leaves a replay: where the first half can go the result is shorter. */
  lemma FirstHalfGoes(sig: seq<Entry> -> string, original: seq<Entry>, target: string, trail: seq<Trial>)
    requires IsSearch(sig, original, target, trail) && trail != []
    requires sig(Without(original, 0, CeilDiv(|original|, 2))) == target
    ensures |LastHit(sig, original, target, trail)| < |original|
  {
    HitShortens(sig, original, target, trail, 0);
  }

  // ---- The whole search -----------------------------------------------------------------

  /** `plan` is of the iteration it belongs to, `replays` of the shrinking alone. */
  datatype Minimized = Minimized(
    found: bool, iteration: nat, signature: string, plan: seq<Entry>, before: nat, after: nat, replays: nat)

  const NOTHING: Minimized := Minimized(false, 0, "", [], 0, 0, 0)

  /** Every failing run reports its seed first. */
  ghost predicate WellReported(run: (seq<Entry>, nat) -> Outcome) {
    forall plan, i :: !run(plan, i).ok ==> "seed=" <= run(plan, i).detail
  }

  /** The first failing iteration, and a plan of it that still fails the same way. */
  method MinimizeFailure(build: nat -> seq<Entry>, run: (seq<Entry>, nat) -> Outcome, iterations: nat, maxReplays: nat)
    returns (out: Minimized, ghost trail: seq<Trial>)
    ensures out.found <==> exists i: nat :: i < iterations && !run(build(i), i).ok
    ensures out.found ==>
              && out.iteration < iterations && !run(build(out.iteration), out.iteration).ok
              && (forall i: nat :: i < out.iteration ==> run(build(i), i).ok)
              && out.before == |build(out.iteration)| && out.after == |out.plan|
              && out.replays <= maxReplays && out.replays <= 2 * out.before * out.before
    ensures out.found ==>
              && Subsequence(out.plan, build(out.iteration))
              && (out.before > 0 ==> out.after > 0)
              && Signature(run(out.plan, out.iteration)) == out.signature
                 == Signature(run(build(out.iteration), out.iteration))
              && (WellReported(run) ==> !run(out.plan, out.iteration).ok)
              && (out.replays < maxReplays ==>
                    OneMinimal(candidate => Signature(run(candidate, out.iteration)), out.plan, out.signature))
    ensures out.found ==>
              var sig := candidate => Signature(run(candidate, out.iteration));
              && |trail| == out.replays && Reached(sig, build(out.iteration), out.signature, trail, out.plan)
              && (out.replays < maxReplays && out.before > 1 ==> Ended(sig, out.signature, trail))
  {
    out, trail := NOTHING, [];
    for i := 0 to iterations
      invariant forall j: nat :: j < i ==> run(build(j), j).ok
      invariant out == NOTHING
    {
      var plan := build(i);
      var verdict := run(plan, i);
      if verdict.ok { continue; }
      var target := FailureSignature(verdict);
      var sig := candidate => Signature(run(candidate, i));
      var small, replays, tried := Shrink(sig, plan, target, maxReplays, 0);
      trail := tried;
      out := Minimized(true, i, target, small, |plan|, |small|, replays);
      assert sig(small) == target;
      if WellReported(run) {
        FailureHasSignature(verdict);
        FailureHasSignature(run(small, i));
      }
      return;
    }
  }
}
