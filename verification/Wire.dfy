/** sim/reply.hpp: the dispatcher's one-line replies. `Reply` is what a reply
    says; the row section of a SELECT is also modelled as text, because the
    harness takes it apart itself. */
module Wire {
  import opened Text

  datatype Reply =
    | Err
    | Created | Exists | Adopted
    | Inserted(id: U64)
    | Updated(count: nat) | Deleted(count: nat)
    | Begun | Committed | RolledBack | Synced
    | Lines(rows: seq<string>)
    | Other

  /** The row lines of a reply: everything after its header. */
  function RowsOf(reply: Reply): seq<string> {
    if reply.Lines? then reply.rows else []
  }

  // ---- SplitEscapedLines ----------------------------------------------------

  const BREAK: string := ['\\', 'n']

  predicate BreakAt(s: string, k: nat) {
    k + 2 <= |s| && s[k] == '\\' && s[k + 1] == 'n'
  }

  /** The first `\n` escape at or after `from`, or |s|. */
  function FindBreak(s: string, from: nat): (k: nat)
    requires from <= |s|
    ensures from <= k <= |s|
    ensures k < |s| ==> BreakAt(s, k)
    decreases |s| - from
  {
    if from + 2 > |s| then |s|
    else if BreakAt(s, from) then from
    else FindBreak(s, from + 1)
  }

  function SplitFrom(s: string, at: nat): (lines: seq<string>)
    requires at <= |s|
    decreases |s| - at
  {
    var k := FindBreak(s, at);
    if k == |s| then [s[at..]] else [s[at..k]] + SplitFrom(s, k + 2)
  }

  /** The cursor loop of SplitEscapedLines. */
  method SplitEscapedLines(reply: string) returns (out: seq<string>)
    ensures out == SplitFrom(reply, 0)
  {
    out := [];
    var at := 0;
    ghost var whole := SplitFrom(reply, 0);
    while true
      invariant at <= |reply| && out + SplitFrom(reply, at) == whole
      decreases |reply| - at
    {
      var next := FindBreak(reply, at);
      if next == |reply| {
        SplitEnds(reply, at);
        out := out + [reply[at..]];
        return;
      }
      SplitGoesOn(reply, at, next, next + 2, out, whole);
      out := out + [reply[at..next]];
      at := next + 2;
    }
  }

  lemma SplitEnds(s: string, at: nat)
    requires at <= |s| == FindBreak(s, at)
    ensures SplitFrom(s, at) == [s[at..]]
  {}

  /** The line before a break moves from what is left to what is out. */
  lemma SplitGoesOn(s: string, at: nat, next: nat, after: nat, out: seq<string>, whole: seq<string>)
    requires at <= |s| && next == FindBreak(s, at) < |s| && after == next + 2
    requires out + SplitFrom(s, at) == whole
    ensures at < after <= |s| && (out + [s[at..next]]) + SplitFrom(s, after) == whole
  {
    SplitStep(s, at, next, after);
    Regrouped(out, s[at..next], SplitFrom(s, after));
  }

  lemma SplitStep(s: string, at: nat, next: nat, after: nat)
    requires at <= |s| && next == FindBreak(s, at) < |s| && after == next + 2
    ensures SplitFrom(s, at) == [s[at..next]] + SplitFrom(s, after)
  {}

  lemma {:induction false} FindBreakSkips(s: string, from: nat, k: nat)
    requires from <= k <= |s|
    requires forall i :: from <= i < k ==> s[i] != '\\'
    requires k < |s| ==> BreakAt(s, k)
    ensures FindBreak(s, from) == k
    decreases k - from
  {
    if from < k && from + 2 <= |s| {
      FindBreakSkips(s, from + 1, k);
    }
  }

  /** Splitting a reply the engine joined gives back its header and its rows, as
      long as no line holds a backslash: rendered rows never do. */
  lemma {:induction false} SplitJoined(prefix: string, lines: seq<string>)
    requires lines != []
    requires forall l :: l in lines ==> '\\' !in l
    ensures SplitFrom(prefix + Join(lines, BREAK), |prefix|) == lines
    decreases |lines|
  {
    var line := lines[0];
    assert line in lines;
    if |lines| == 1 {
      LastLine(prefix, line);
      assert lines == [line];
    } else {
      var rest, head := Join(lines[1..], BREAK), prefix + line + BREAK;
      var s := prefix + (line + BREAK + rest);
      SplitJoined(head, lines[1..]);
      Reassociate(prefix, line, rest);
      FirstLine(s, prefix, line, rest, |prefix| + |line|, |head|);
      assert lines == [line] + lines[1..];
    }
  }

  lemma Reassociate(prefix: string, line: string, rest: string)
    ensures prefix + (line + BREAK + rest) == (prefix + line + BREAK) + rest
  {}

  lemma FirstLine(s: string, prefix: string, line: string, rest: string, k: nat, after: nat)
    requires s == prefix + (line + BREAK + rest) && '\\' !in line
    requires k == |prefix| + |line| && after == k + 2
    ensures after <= |s| && SplitFrom(s, |prefix|) == [line] + SplitFrom(s, after)
  {
    LineBeforeBreak(s, prefix, line, rest, k);
    SplitStep(s, |prefix|, k, after);
  }

  lemma LastLine(prefix: string, line: string)
    requires '\\' !in line
    ensures SplitFrom(prefix + line, |prefix|) == [line]
  {
    var s := prefix + line;
    assert forall i :: |prefix| <= i < |s| ==> s[i] == line[i - |prefix|];
    FindBreakSkips(s, |prefix|, |s|);
    assert s[|prefix|..] == line;
  }

  lemma LineBeforeBreak(s: string, prefix: string, line: string, rest: string, k: nat)
    requires s == prefix + (line + BREAK + rest) && '\\' !in line && k == |prefix| + |line|
    ensures FindBreak(s, |prefix|) == k && k < |s| && s[|prefix|..k] == line
  {
    assert BreakAt(s, k);
    LineInside(s, prefix, line, rest, k);
    assert forall i :: |prefix| <= i < k ==> s[i] == s[|prefix|..k][i - |prefix|];
    FindBreakSkips(s, |prefix|, k);
  }

  lemma LineInside(s: string, prefix: string, line: string, rest: string, k: nat)
    requires s == prefix + (line + BREAK + rest) && k == |prefix| + |line|
    ensures k <= |s| && s[|prefix|..k] == line
  {}
}
