/** Decimal rendering and the small string scanners the harness is built on:
    std::to_string, std::from_chars, and splitting a line at a separator. */
module Text {

  const U64_LIMIT: nat := 0x1_0000_0000_0000_0000

  /** A std::uint64_t. */
  type U64 = x: int | 0 <= x < 0x1_0000_0000_0000_0000

  /** A std::int64_t. */
  type I64 = x: int | -0x8000_0000_0000_0000 <= x < 0x8000_0000_0000_0000

  predicate IsDigit(c: char) {
    '0' <= c <= '9'
  }

  predicate AllDigits(s: string) {
    forall i :: 0 <= i < |s| ==> IsDigit(s[i])
  }

  function Digit(d: nat): (c: char)
    requires d < 10
    ensures IsDigit(c) && DigitValue(c) == d
  {
    "0123456789"[d]
  }

  function DigitValue(c: char): (d: nat)
    requires IsDigit(c)
    ensures d < 10
  {
    c as int - '0' as int
  }

  /** std::to_string of an unsigned number. */
  function ToDecimal(n: nat): (s: string)
    ensures s != [] && AllDigits(s)
  {
    if n < 10 then [Digit(n)] else ToDecimal(n / 10) + [Digit(n % 10)]
  }

  /** std::to_string of a signed number. */
  function ToSigned(v: int): (s: string)
    ensures s != []
  {
    if v < 0 then "-" + ToDecimal(-v) else ToDecimal(v)
  }

  /** The value a run of decimal digits denotes. */
  function Value(s: string): nat
    requires AllDigits(s)
  {
    if s == [] then 0 else 10 * Value(s[..|s| - 1]) + DigitValue(s[|s| - 1])
  }

  lemma {:induction false} ValueOfDecimal(n: nat)
    ensures Value(ToDecimal(n)) == n
  {
    var s := ToDecimal(n);
    if n < 10 {
      assert s[..|s| - 1] == [];
    } else {
      ValueOfDecimal(n / 10);
      assert s[..|s| - 1] == ToDecimal(n / 10);
    }
  }

  lemma DecimalInjective(m: nat, n: nat)
    requires ToDecimal(m) == ToDecimal(n)
    ensures m == n
  {
    ValueOfDecimal(m);
    ValueOfDecimal(n);
  }

  lemma SignFirst(v: int)
    ensures ToSigned(v)[0] == '-' <==> v < 0
  {
    var digits := ToDecimal(if v < 0 then -v else v);
    assert IsDigit(digits[0]);
  }

  lemma MinusTail(v: int)
    requires v < 0
    ensures ToSigned(v)[1..] == ToDecimal(-v)
  {}

  lemma SignedInjective(v: int, w: int)
    requires ToSigned(v) == ToSigned(w)
    ensures v == w
  {
    SignFirst(v);
    SignFirst(w);
    if v < 0 {
      MinusTail(v);
      MinusTail(w);
      DecimalInjective(-v, -w);
    } else {
      DecimalInjective(v, w);
    }
  }

  /** How many leading characters are digits: where std::from_chars stops. */
  function DigitRun(s: string): (k: nat)
    ensures k <= |s| && AllDigits(s[..k])
    ensures k < |s| ==> !IsDigit(s[k])
  {
    if s == [] || !IsDigit(s[0]) then 0
    else
      var k := 1 + DigitRun(s[1..]);
      assert s[..k] == [s[0]] + s[1..][..k - 1];
      k
  }

  /** std::from_chars into a std::uint64_t that starts at zero: a number that is
      missing or does not fit leaves the zero in place. */
  function FromChars(s: string): (id: U64) {
    var value := Value(s[..DigitRun(s)]);
    if value < U64_LIMIT then value else 0
  }

  lemma {:induction false} DigitRunOfDigits(digits: string, rest: string)
    requires AllDigits(digits)
    requires rest != [] ==> !IsDigit(rest[0])
    ensures DigitRun(digits + rest) == |digits|
  {
    if digits == [] {
      assert digits + rest == rest;
    } else {
      DigitRunOfDigits(digits[1..], rest);
      assert (digits + rest)[1..] == digits[1..] + rest;
    }
  }

  lemma FromCharsOfDecimal(id: U64, rest: string)
    requires rest != [] ==> !IsDigit(rest[0])
    ensures FromChars(ToDecimal(id) + rest) == id
  {
    DigitRunOfDigits(ToDecimal(id), rest);
    assert (ToDecimal(id) + rest)[..|ToDecimal(id)|] == ToDecimal(id);
    ValueOfDecimal(id);
  }

  /** A separator that does not occur in the heads fixes where the tails begin. */
  lemma SplitUnique(a: string, x: string, b: string, y: string, sep: char)
    requires sep !in a && sep !in b
    requires a + [sep] + x == b + [sep] + y
    ensures a == b && x == y
  {
    var l := a + [sep] + x;
    HeadEnds(l, a, x, sep);
    HeadEnds(l, b, y, sep);
    Parts(a, x, sep);
    Parts(b, y, sep);
  }

  lemma HeadEnds(l: string, a: string, x: string, sep: char)
    requires l == a + [sep] + x && sep !in a
    ensures Find(l, sep, 0) == |a|
  {
    FindAt(a, sep, x);
  }

  lemma Parts(a: string, x: string, sep: char)
    ensures (a + [sep] + x)[..|a|] == a && (a + [sep] + x)[|a| + 1..] == x
  {}

  /** No decimal rendering holds a character that is neither a digit nor '-'. */
  lemma SignedAlphabet(v: int, c: char)
    requires !IsDigit(c) && c != '-'
    ensures c !in ToSigned(v)
  {
    var s := ToSigned(v);
    assert forall i :: 0 <= i < |s| ==> s[i] != c;
  }

  // ---- Splitting at a separator -------------------------------------------

  /** The index of the first `sep` at or after `from`, or |s| when there is none. */
  function Find(s: string, sep: char, from: nat): (k: nat)
    requires from <= |s|
    ensures from <= k <= |s|
    ensures k < |s| ==> s[k] == sep
    decreases |s| - from
  {
    if from == |s| || s[from] == sep then from else Find(s, sep, from + 1)
  }

  lemma {:induction false} FindSkips(s: string, sep: char, from: nat)
    requires from <= |s|
    ensures sep !in s[from..Find(s, sep, from)]
    decreases |s| - from
  {
    if from < |s| && s[from] != sep {
      FindSkips(s, sep, from + 1);
      assert s[from..Find(s, sep, from)] == [s[from]] + s[from + 1..Find(s, sep, from + 1)];
    }
  }

  /** The fields between separators; always at least one. */
  function Split(s: string, sep: char): (fields: seq<string>)
    ensures fields != []
    ensures forall f :: f in fields ==> sep !in f
    decreases |s|
  {
    var k := Find(s, sep, 0);
    FindSkips(s, sep, 0);
    assert s[0..k] == s[..k];
    if k == |s| then [s] else [s[..k]] + Split(s[k + 1..], sep)
  }

  lemma Regrouped(a: seq<string>, b: string, c: seq<string>)
    ensures a + ([b] + c) == (a + [b]) + c
  {}

  function Join(fields: seq<string>, sep: string): string
    requires fields != []
  {
    if |fields| == 1 then fields[0] else fields[0] + sep + Join(fields[1..], sep)
  }

  lemma FindAt(head: string, sep: char, tail: string)
    requires sep !in head
    ensures Find(head + [sep] + tail, sep, 0) == |head|
  {
    var s := head + [sep] + tail;
    var k := Find(s, sep, 0);
    FindSkips(s, sep, 0);
    assert forall i :: 0 <= i < |head| ==> s[i] == head[i] != sep;
    assert forall i :: 0 <= i < k ==> s[0..k][i] == s[i] != sep;
    assert s[|head|] == sep;
  }

  lemma FindNone(s: string, sep: char)
    requires sep !in s
    ensures Find(s, sep, 0) == |s|
  {
    assert forall i :: 0 <= i < |s| ==> s[i] != sep;
  }

  /** Splitting a joined record gives its fields back. */
  lemma {:induction false} SplitJoin(fields: seq<string>, sep: char)
    requires fields != [] && forall f :: f in fields ==> sep !in f
    ensures Split(Join(fields, [sep]), sep) == fields
    decreases |fields|
  {
    var s := Join(fields, [sep]);
    if |fields| == 1 {
      FindNone(s, sep);
      assert fields == [fields[0]];
    } else {
      var rest := Join(fields[1..], [sep]);
      FindAt(fields[0], sep, rest);
      SplitJoin(fields[1..], sep);
      assert s[|fields[0]| + 1..] == rest;
      assert s[..|fields[0]|] == fields[0];
      assert fields == [fields[0]] + fields[1..];
    }
  }
}
