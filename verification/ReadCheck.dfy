/** sim/loop.cpp's read comparison: a reply may hold rows nobody may assert on,
    and nothing else may differ from what the oracle expects. */
module ReadCheck {
  import opened Numbers
  import opened Ordering
  import opened OracleModel
  import opened Wire

  /** Exactly the replies a read may give: every expected row is there as often
      as expected, and every surplus row is one no comparison may rest on. */
  ghost predicate Accepts(o: State, table: string, expected: seq<string>, actual: seq<string>) {
    AcceptsBag(o, table, multiset(expected), multiset(actual))
  }

  ghost predicate AcceptsBag(o: State, table: string, expected: multiset<string>, actual: multiset<string>) {
    && expected <= actual
    && forall row :: row in actual - expected ==> o.Ignorable(table, row)
  }

  /** What the filter keeps, given the expected rows not matched yet. */
  function Kept(o: State, table: string, actual: seq<string>, unmatched: multiset<string>): seq<string> {
    if actual == [] then []
    else if actual[0] in unmatched then
      [actual[0]] + Kept(o, table, actual[1..], unmatched - multiset{actual[0]})
    else if o.Ignorable(table, actual[0]) then Kept(o, table, actual[1..], unmatched)
    else [actual[0]] + Kept(o, table, actual[1..], unmatched)
  }

  /** The loop of WithoutUnknowns. */
  method WithoutUnknowns(actual: seq<string>, expected: seq<string>, o: State, table: string)
    returns (kept: seq<string>)
    ensures kept == Kept(o, table, actual, multiset(expected))
  {
    var unmatched := multiset(expected);
    kept := [];
    for i := 0 to |actual|
      invariant kept + Kept(o, table, actual[i..], unmatched) == Kept(o, table, actual, multiset(expected))
    {
      var row := actual[i];
      assert actual[i..][1..] == actual[i + 1..];
      ghost var tail := Kept(o, table, actual[i + 1..], unmatched - multiset{row});
      assert kept + ([row] + tail) == (kept + [row]) + tail;
      if row in unmatched {
        unmatched := unmatched - multiset{row};
        kept := kept + [row];
      } else {
        assert unmatched - multiset{row} == unmatched;
        if !o.Ignorable(table, row) {
          kept := kept + [row];
        }
      }
    }
  }

  /** The filter keeps an ignorable row only as often as it is expected and any
      other row as often as it came. */
  lemma {:induction false} KeptCount(o: State, table: string, actual: seq<string>, unmatched: multiset<string>, row: string)
    ensures multiset(Kept(o, table, actual, unmatched))[row] ==
            if o.Ignorable(table, row) then Least(multiset(actual)[row], unmatched[row]) else multiset(actual)[row]
  {
    if actual != [] {
      var a0, rest := actual[0], actual[1..];
      assert actual == [a0] + rest;
      if a0 in unmatched {
        KeptCount(o, table, rest, unmatched - multiset{a0}, row);
      } else {
        KeptCount(o, table, rest, unmatched, row);
      }
    }
  }

  lemma {:induction false} KeptFrom(o: State, table: string, actual: seq<string>, unmatched: multiset<string>)
    ensures forall row :: row in Kept(o, table, actual, unmatched) ==> row in actual
  {
    if actual != [] {
      KeptFrom(o, table, actual[1..], unmatched - multiset{actual[0]});
      KeptFrom(o, table, actual[1..], unmatched);
    }
  }

  lemma {:induction false} KeptSorted(o: State, table: string, actual: seq<string>, unmatched: multiset<string>)
    requires IsSorted(actual)
    ensures IsSorted(Kept(o, table, actual, unmatched))
  {
    if actual != [] {
      var rest := actual[1..];
      var left := if actual[0] in unmatched then unmatched - multiset{actual[0]} else unmatched;
      KeptSorted(o, table, rest, left);
      KeptFrom(o, table, rest, left);
      ConsSorted(actual[0], Kept(o, table, rest, left));
    }
  }

  /** Filtering leaves exactly the expected multiset when the reply is acceptable. */
  lemma KeptMatches(o: State, table: string, expected: seq<string>, actual: seq<string>)
    ensures multiset(Kept(o, table, actual, multiset(expected))) == multiset(expected)
            <==> Accepts(o, table, expected, actual)
  {
    var k, e, a := multiset(Kept(o, table, actual, multiset(expected))), multiset(expected), multiset(actual);
    forall row
      ensures k[row] == if o.Ignorable(table, row) then Least(a[row], e[row]) else a[row]
    {
      KeptCount(o, table, actual, e, row);
    }
    if Accepts(o, table, expected, actual) {
      forall row ensures k[row] == e[row] {
        assert e[row] <= a[row];
        assert a[row] > e[row] ==> row in a - e;
      }
    } else if k == e {
      forall row ensures e[row] <= a[row] && (row in a - e ==> o.Ignorable(table, row)) {
        assert k[row] == e[row];
      }
    }
  }

  /** With nothing unknown an acceptable reply is the expected one. */
  lemma AcceptsNothingUnknown(o: State, table: string, expected: seq<string>, actual: seq<string>)
    requires !o.HasUnknowns()
    ensures Accepts(o, table, expected, actual) <==> multiset(expected) == multiset(actual)
  {
    var e, a := multiset(expected), multiset(actual);
    if Accepts(o, table, expected, actual) {
      forall row ensures row !in a - e {
        assert !o.Ignorable(table, row);
      }
      forall row ensures a[row] == e[row] {
        assert row !in a - e;
      }
    }
  }

  /** The expected rows themselves are always acceptable. */
  lemma AcceptsExpected(o: State, table: string, expected: seq<string>, actual: seq<string>)
    requires multiset(expected) == multiset(actual)
    ensures Accepts(o, table, expected, actual)
  {
    assert multiset(actual) - multiset(expected) == multiset{};
  }

  /** The comparison of two vectors: as they are, then without the rows nobody may
      assert on. */
  predicate Compared(o: State, table: string, actual: seq<string>, wanted: seq<string>) {
    actual == wanted || (o.HasUnknowns() && Kept(o, table, actual, multiset(wanted)) == wanted)
  }

  /** The comparison ReadAgrees makes, as a value. */
  predicate Agrees(reply: Reply, expected: seq<string>, ordered: bool, o: State, table: string) {
    && !reply.Err?
    && if ordered then Compared(o, table, RowsOf(reply), expected)
       else Compared(o, table, Sort(RowsOf(reply)), Sort(expected))
  }

  lemma ComparedSorted(o: State, table: string, actual: seq<string>, wanted: seq<string>)
    requires IsSorted(actual) && IsSorted(wanted)
    ensures Compared(o, table, actual, wanted) <==> Accepts(o, table, wanted, actual)
  {
    if o.HasUnknowns() {
      var kept := Kept(o, table, actual, multiset(wanted));
      KeptSorted(o, table, actual, multiset(wanted));
      KeptMatches(o, table, wanted, actual);
      if multiset(kept) == multiset(wanted) {
        SortedUnique(kept, wanted);
      }
      if actual == wanted { AcceptsExpected(o, table, wanted, actual); }
    } else {
      AcceptsNothingUnknown(o, table, wanted, actual);
      if multiset(actual) == multiset(wanted) {
        SortedUnique(actual, wanted);
      }
    }
  }

  /** A scan agrees exactly when it is acceptable. */
  lemma ScanAgreesExactly(reply: Reply, expected: seq<string>, o: State, table: string)
    ensures Agrees(reply, expected, false, o, table) <==> !reply.Err? && Accepts(o, table, expected, RowsOf(reply))
  {
    SortSorts(RowsOf(reply));
    SortSorts(expected);
    ComparedSorted(o, table, Sort(RowsOf(reply)), Sort(expected));
  }

  /** A point read, which expects at most one row, agrees exactly when it is acceptable. */
  lemma PointAgreesExactly(reply: Reply, expected: seq<string>, o: State, table: string)
    requires |expected| <= 1
    ensures Agrees(reply, expected, true, o, table) <==> !reply.Err? && Accepts(o, table, expected, RowsOf(reply))
  {
    var rows := RowsOf(reply);
    if o.HasUnknowns() {
      KeptMatches(o, table, expected, rows);
      SmallUnique(expected, Kept(o, table, rows, multiset(expected)));
    } else {
      AcceptsNothingUnknown(o, table, expected, rows);
      SmallUnique(expected, rows);
    }
    if rows == expected {
      AcceptsExpected(o, table, expected, rows);
    }
  }

  lemma SmallUnique(a: seq<string>, b: seq<string>)
    requires |a| <= 1
    ensures a == b <==> multiset(a) == multiset(b)
  {
    if multiset(a) == multiset(b) {
      assert |b| == |multiset(b)| == |a|;
      if |a| == 1 {
        assert a == [a[0]] && b == [b[0]];
        assert b[0] in multiset(a);
      }
    }
  }

  /** Whether a read's reply agrees with the oracle (ReadAgrees). A scan is compared
      sorted, a point read as it came; either way the verdict is exactly `Accepts`,
      so matching greedily loses nothing and excuses no row with a checked id. */
  method ReadAgrees(reply: Reply, expected: seq<string>, ordered: bool, o: State, table: string)
    returns (agrees: bool)
    ensures !ordered || |expected| <= 1 ==>
              (agrees <==> !reply.Err? && Accepts(o, table, expected, RowsOf(reply)))
  {
    if ordered {
      if |expected| <= 1 { PointAgreesExactly(reply, expected, o, table); }
    } else {
      ScanAgreesExactly(reply, expected, o, table);
    }
    if reply.Err? { return false; }
    var actual, wanted := RowsOf(reply), expected;
    if !ordered {
      actual, wanted := Sort(actual), Sort(wanted);
    }
    if actual == wanted { return true; }
    if o.HasUnknowns() {
      actual := WithoutUnknowns(actual, wanted, o, table);
      if actual == wanted { return true; }
    }
    return false;
  }
}
