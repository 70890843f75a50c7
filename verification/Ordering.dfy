/** The two orders the harness relies on: std::sort over rendered rows, and the
    ascending iteration of a std::map keyed by id. */
module Ordering {
  import opened Text

  // ---- std::string's order and std::sort ----------------------------------

  predicate Le(a: string, b: string) {
    if a == [] then true
    else if b == [] then false
    else a[0] < b[0] || (a[0] == b[0] && Le(a[1..], b[1..]))
  }

  lemma {:induction false} LeTotal(a: string, b: string)
    ensures Le(a, b) || Le(b, a)
  {
    if a != [] && b != [] && a[0] == b[0] {
      LeTotal(a[1..], b[1..]);
    }
  }

  lemma {:induction false} LeAntisymmetric(a: string, b: string)
    requires Le(a, b) && Le(b, a)
    ensures a == b
  {
    if a != [] && b != [] {
      LeAntisymmetric(a[1..], b[1..]);
      assert a == [a[0]] + a[1..] && b == [b[0]] + b[1..];
    }
  }

  lemma {:induction false} LeTransitive(a: string, b: string, c: string)
    requires Le(a, b) && Le(b, c)
    ensures Le(a, c)
  {
    if a != [] && b != [] && c != [] && a[0] == b[0] == c[0] {
      LeTransitive(a[1..], b[1..], c[1..]);
    }
  }

  predicate IsSorted(s: seq<string>) {
    forall i, j :: 0 <= i < j < |s| ==> Le(s[i], s[j])
  }

  function Insert(x: string, s: seq<string>): (r: seq<string>)
    ensures multiset(r) == multiset(s) + multiset{x}
  {
    if s == [] then [x]
    else if Le(x, s[0]) then [x] + s
    else
      assert s == [s[0]] + s[1..];
      [s[0]] + Insert(x, s[1..])
  }

  lemma ConsSorted(x: string, s: seq<string>)
    requires IsSorted(s) && forall y :: y in s ==> Le(x, y)
    ensures IsSorted([x] + s)
  {
    var r := [x] + s;
    assert forall j :: 0 < j < |r| ==> r[j] == s[j - 1] && r[j] in s;
  }

  lemma {:induction false} InsertSorted(x: string, s: seq<string>)
    requires IsSorted(s)
    ensures IsSorted(Insert(x, s))
  {
    if s != [] {
      LeTotal(x, s[0]);
      if Le(x, s[0]) {
        forall y | y in s ensures Le(x, y) {
          var i :| 0 <= i < |s| && s[i] == y;
          if i > 0 { LeTransitive(x, s[0], y); }
        }
        ConsSorted(x, s);
      } else {
        InsertSorted(x, s[1..]);
        var t := Insert(x, s[1..]);
        forall y | y in t ensures Le(s[0], y) {
          assert y in multiset(t);
          assert y == x || y in s[1..];
        }
        ConsSorted(s[0], t);
      }
    }
  }

  /** std::sort over rendered rows. */
  function Sort(s: seq<string>): (r: seq<string>)
    ensures multiset(r) == multiset(s)
    ensures |r| == |s|
  {
    if s == [] then []
    else
      var r := Insert(s[0], Sort(s[1..]));
      assert s == [s[0]] + s[1..];
      assert |multiset(r)| == |multiset(s)|;
      r
  }

  lemma {:induction false} SortSorts(s: seq<string>)
    ensures IsSorted(Sort(s))
  {
    if s != [] {
      SortSorts(s[1..]);
      InsertSorted(s[0], Sort(s[1..]));
    }
  }

  lemma SortedHeadLeast(s: seq<string>, x: string)
    requires s != [] && IsSorted(s) && x in multiset(s)
    ensures Le(s[0], x)
  {
    var i :| 0 <= i < |s| && s[i] == x;
    if i == 0 { LeTotal(x, x); }
  }

  lemma SortedTail(s: seq<string>)
    requires s != [] && IsSorted(s)
    ensures IsSorted(s[1..]) && multiset(s[1..]) == multiset(s) - multiset{s[0]}
  {
    assert s == [s[0]] + s[1..];
  }

  /** A sorted sequence is determined by its multiset, so comparing two sorted
      vectors element by element compares their contents. */
  lemma {:induction false} SortedUnique(a: seq<string>, b: seq<string>)
    requires IsSorted(a) && IsSorted(b) && multiset(a) == multiset(b)
    ensures a == b
    decreases |a|
  {
    assert |a| == |multiset(a)| == |multiset(b)| == |b|;
    if a != [] {
      SameHead(a, b);
      SortedTail(a);
      SortedTail(b);
      SortedUnique(a[1..], b[1..]);
      assert a == [a[0]] + a[1..] && b == [b[0]] + b[1..];
    }
  }

  lemma SameHead(a: seq<string>, b: seq<string>)
    requires a != [] && b != [] && IsSorted(a) && IsSorted(b) && multiset(a) == multiset(b)
    ensures a[0] == b[0]
  {
    assert a[0] in multiset(b) && b[0] in multiset(a);
    SortedHeadLeast(b, a[0]);
    SortedHeadLeast(a, b[0]);
    LeAntisymmetric(a[0], b[0]);
  }

  // ---- The ascending order of a map's keys --------------------------------

  predicate Ascending(ids: seq<U64>) {
    forall i, j :: 0 <= i < j < |ids| ==> ids[i] < ids[j]
  }

  predicate IsMin(s: set<U64>, m: U64) {
    m in s && forall x :: x in s ==> m <= x
  }

  lemma {:induction false} MinExists(s: set<U64>)
    requires s != {}
    ensures exists m :: IsMin(s, m)
    decreases |s|
  {
    var m :| m in s;
    if s == {m} {
      assert IsMin(s, m);
    } else {
      var rest := s - {m};
      assert rest != {};
      MinExists(rest);
      var k :| IsMin(rest, k);
      assert forall x :: x in s ==> x == m || x in rest;
      assert IsMin(s, if k < m then k else m);
    }
  }

  /** begin() of a std::map. */
  function Min(s: set<U64>): (m: U64)
    requires s != {}
    ensures IsMin(s, m)
  {
    MinExists(s);
    var m :| IsMin(s, m);
    m
  }

  /** The keys in iteration order. */
  function Ids(s: set<U64>): (ids: seq<U64>)
    ensures Ascending(ids)
    ensures forall x :: x in ids <==> x in s
    ensures |ids| == |s|
  {
    Iterates(s);
    Iterated(s)
  }

  function Iterated(s: set<U64>): seq<U64>
    decreases |s|
  {
    if s == {} then [] else var m := Min(s); [m] + Iterated(s - {m})
  }

  predicate Lists(ids: seq<U64>, s: set<U64>) {
    Ascending(ids) && (forall x :: x in ids ==> x in s) && (forall x :: x in s ==> x in ids) && |ids| == |s|
  }

  lemma {:induction false} Iterates(s: set<U64>)
    ensures Lists(Iterated(s), s)
    decreases |s|
  {
    if s != {} {
      var m := Min(s);
      LeastFirst(s, m);
      Iterates(s - {m});
      ListsOneMore(s, m, Iterated(s - {m}));
    }
  }

  lemma ListsOneMore(s: set<U64>, m: U64, rest: seq<U64>)
    requires m in s && Lists(rest, s - {m}) && forall x :: x in s - {m} ==> m < x
    ensures Lists([m] + rest, s)
  {
    ConsAscending(m, rest);
    assert s == (s - {m}) + {m} && forall x :: x in [m] + rest <==> x == m || x in rest;
  }

  lemma ConsAscending(m: U64, rest: seq<U64>)
    requires Ascending(rest) && forall x :: x in rest ==> m < x
    ensures Ascending([m] + rest)
  {
    forall i, j | 0 <= i < j < |[m] + rest| ensures ([m] + rest)[i] < ([m] + rest)[j] {
      assert ([m] + rest)[j] == rest[j - 1] && rest[j - 1] in rest;
    }
  }

  lemma LeastFirst(s: set<U64>, m: U64)
    requires IsMin(s, m)
    ensures |s - {m}| < |s| && forall x :: x in s - {m} ==> m < x
  {}
}
