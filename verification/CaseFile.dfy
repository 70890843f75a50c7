/** sim/minimize.cpp's `.sim` case file: the writer, the reader, and exactly which plans
    survive the trip. The file is its text; opening and writing it are not modelled. */
module CaseFile {
  import opened Text
  import opened Optional
  import opened Ops
  import opened Plans
  import opened CaseTitle

  // ---- Names --------------------------------------------------------------------------

  const KINDS: seq<Kind> := [
    CreateTable, Insert, SelectPk, SelectRange, FilterScan, Sync, Update, Delete,
    Begin, Commit, Rollback, CreateCabin, CreatePattern]

  const MODES: seq<Mode> := [Clean, SyncCrash, Crash]
  const PROFILES: seq<Profile> := [Uniform, Zipfian, Colliding]
  const FAULT_PROFILES: seq<FaultProfile> := [NoFaults, IoFaults]
  const FAULT_KINDS: seq<FaultKind> := [
    PageFailRead, PageFailWrite, PageFailSync, PageFailGrow, LogFailWrite, LogFailSync]

  function KindName(k: Kind): string {
    match k
    case CreateTable => "create-table"
    case Insert => "insert"
    case SelectPk => "select-pk"
    case SelectRange => "select-range"
    case FilterScan => "filter-scan"
    case Sync => "sync"
    case Update => "update"
    case Delete => "delete"
    case Begin => "begin"
    case Commit => "commit"
    case Rollback => "rollback"
    case CreateCabin => "create-cabin"
    case CreatePattern => "create-pattern"
  }

  function ModeName(m: Mode): string {
    match m
    case Clean => "clean"
    case SyncCrash => "sync-crash"
    case Crash => "crash"
  }

  function ProfileName(p: Profile): string {
    match p
    case Uniform => "uniform"
    case Zipfian => "zipfian"
    case Colliding => "colliding"
  }

  function FaultProfileName(f: FaultProfile): string {
    match f
    case NoFaults => "none"
    case IoFaults => "io"
  }

  function FaultName(f: FaultKind): string {
    match f
    case PageFailRead => "page-fail-read"
    case PageFailWrite => "page-fail-write"
    case PageFailSync => "page-fail-sync"
    case PageFailGrow => "page-fail-grow"
    case LogFailWrite => "log-fail-write"
    case LogFailSync => "log-fail-sync"
  }

  /** The parsers: the first listed value whose name is `text`. */
  function Lookup<T>(all: seq<T>, name: T -> string, text: string): Option<T> {
    if all == [] then None
    else if text == name(all[0]) then Some(all[0])
    else Lookup(all[1..], name, text)
  }

  function ParseKind(text: string): Option<Kind> { Lookup(KINDS, KindName, text) }
  function ParseMode(text: string): Option<Mode> { Lookup(MODES, ModeName, text) }
  function ParseProfile(text: string): Option<Profile> { Lookup(PROFILES, ProfileName, text) }
  function ParseFaultProfile(text: string): Option<FaultProfile> { Lookup(FAULT_PROFILES, FaultProfileName, text) }
  function ParseFault(text: string): Option<FaultKind> { Lookup(FAULT_KINDS, FaultName, text) }

  lemma {:induction false} LookupFinds<T>(all: seq<T>, name: T -> string, i: nat)
    requires i < |all| && forall j :: 0 <= j < i ==> name(all[j]) != name(all[i])
    ensures Lookup(all, name, name(all[i])) == Some(all[i])
    decreases i
  {
    if i > 0 {
      assert name(all[0]) != name(all[i]);
      assert forall j :: 0 <= j < i - 1 ==> all[1..][j] == all[j + 1];
      LookupFinds(all[1..], name, i - 1);
    }
  }

  /** Enough of a kind's name to tell it from the other twelve. */
  function KindKey(text: string): (nat, char, char)
    requires text != ""
  {
    (|text|, text[0], if |text| > 7 then text[7] else ' ')
  }

  lemma KindKeys(k: Kind) returns (i: nat)
    ensures i < |KINDS| && KINDS[i] == k
    ensures forall j :: 0 <= j < i ==> KindKey(KindName(KINDS[j])) != KindKey(KindName(k))
  {
    match k
    case CreateTable => i := 0;
    case Insert => i := 1;
    case SelectPk => i := 2;
    case SelectRange => i := 3;
    case FilterScan => i := 4;
    case Sync => i := 5;
    case Update => i := 6;
    case Delete => i := 7;
    case Begin => i := 8;
    case Commit => i := 9;
    case Rollback => i := 10;
    case CreateCabin => i := 11;
    case CreatePattern => i := 12;
  }

  lemma KindRoundTrip(k: Kind)
    ensures ParseKind(KindName(k)) == Some(k)
  {
    var i := KindKeys(k);
    LookupFinds(KINDS, KindName, i);
  }

  lemma ModeRoundTrip(m: Mode)
    ensures ParseMode(ModeName(m)) == Some(m)
  {
    assert |ModeName(Clean)| == 5 && |ModeName(SyncCrash)| == 10 && ModeName(Clean)[1] != ModeName(Crash)[1];
    LookupFinds(MODES, ModeName, match m case Clean => 0 case SyncCrash => 1 case Crash => 2);
  }

  lemma ProfileRoundTrip(p: Profile)
    ensures ParseProfile(ProfileName(p)) == Some(p)
  {
    assert ProfileName(Uniform)[0] == 'u' && ProfileName(Zipfian)[0] == 'z' && ProfileName(Colliding)[0] == 'c';
    LookupFinds(PROFILES, ProfileName, match p case Uniform => 0 case Zipfian => 1 case Colliding => 2);
  }

  lemma FaultProfileRoundTrip(f: FaultProfile)
    ensures ParseFaultProfile(FaultProfileName(f)) == Some(f)
  {
    LookupFinds(FAULT_PROFILES, FaultProfileName, match f case NoFaults => 0 case IoFaults => 1);
  }

  lemma FaultRoundTrip(f: FaultKind)
    ensures ParseFault(FaultName(f)) == Some(f)
  {
    assert FaultName(PageFailRead)[10] == 'r' && FaultName(PageFailWrite)[10] == 'w'
        && FaultName(PageFailSync)[10] == 's' && FaultName(PageFailGrow)[10] == 'g'
        && FaultName(LogFailWrite)[0] == 'l' && FaultName(LogFailWrite)[9] == 'w'
        && FaultName(LogFailSync)[0] == 'l' && FaultName(LogFailSync)[9] == 's';
    LookupFinds(FAULT_KINDS, FaultName,
      match f
      case PageFailRead => 0 case PageFailWrite => 1 case PageFailSync => 2
      case PageFailGrow => 3 case LogFailWrite => 4 case LogFailSync => 5);
  }

  // ---- Numbers --------------------------------------------------------------------------

  const I64_MIN: int := -0x8000_0000_0000_0000

  function Unsigned(text: string): Option<U64> {
    if text == "" || !AllDigits(text) then None else Some(Value(text) % U64_LIMIT)
  }

  method ParseUnsigned(text: string) returns (out: Option<U64>)
    ensures out == Unsigned(text)
  {
    if text == "" { return None; }
    var value: U64 := 0;
    for i := 0 to |text|
      invariant AllDigits(text[..i]) && value == Value(text[..i]) % U64_LIMIT
    {
      if !IsDigit(text[i]) { return None; }
      var before := Value(text[..i]);
      assert text[..i + 1][..i] == text[..i];
      WrapStep(before, DigitValue(text[i]));
      value := (value * 10 + DigitValue(text[i])) % U64_LIMIT;
    }
    assert text[..|text|] == text;
    return Some(value);
  }

  lemma WrapStep(a: nat, d: nat)
    ensures (a % U64_LIMIT * 10 + d) % U64_LIMIT == (10 * a + d) % U64_LIMIT
  {
    var q, r := a / U64_LIMIT, a % U64_LIMIT;
    assert 10 * a + d == 10 * q * U64_LIMIT + (r * 10 + d);
    ModAdds(10 * q, r * 10 + d);
  }

  lemma {:induction false} ModAdds(k: nat, x: nat)
    ensures (k * U64_LIMIT + x) % U64_LIMIT == x % U64_LIMIT
  {}

  /** A signed field, or the one magnitude whose negation overflows. */
  datatype SignedField = NotANumber | Overflows | Number(v: I64)

  /** static_cast of a std::uint64_t to a std::int64_t. */
  function AsSigned(m: U64): I64 {
    if m < 0x8000_0000_0000_0000 then m else m - 0x1_0000_0000_0000_0000
  }

  function Signed(text: string): SignedField {
    var negative := text != "" && text[0] == '-';
    match Unsigned(if negative then text[1..] else text)
    case None => NotANumber
    case Some(m) =>
      if !negative then Number(AsSigned(m))
      else if AsSigned(m) == I64_MIN then Overflows
      else Number(-AsSigned(m))
  }

  lemma UnsignedOf(text: string, n: U64)
    requires text != "" && AllDigits(text) && Value(text) == n
    ensures Unsigned(text) == Some(n)
  {}

  lemma UnsignedRoundTrip(n: U64)
    ensures Unsigned(ToDecimal(n)) == Some(n)
  {
    ValueOfDecimal(n);
    UnsignedOf(ToDecimal(n), n);
  }

  lemma NegativeRoundTrip(v: int)
    requires I64_MIN <= v < 0
    ensures Signed(ToSigned(v)) == if v == I64_MIN then Overflows else Number(v)
  {
    var text := ToSigned(v);
    assert text[0] == '-' && text[1..] == ToDecimal(-v);
    UnsignedRoundTrip(-v);
  }

  lemma PositiveRoundTrip(v: int)
    requires 0 <= v < 0x8000_0000_0000_0000
    ensures Signed(ToSigned(v)) == Number(v)
  {
    UnsignedRoundTrip(v);
    var text := ToDecimal(v);
    assert IsDigit(text[0]);
  }

  /** Every signed value but INT64_MIN reads back. */
  lemma SignedRoundTrip(v: int)
    requires I64_MIN <= v < 0x8000_0000_0000_0000
    ensures Signed(ToSigned(v)) == if v == I64_MIN then Overflows else Number(v)
  {
    if v < 0 { NegativeRoundTrip(v); } else { PositiveRoundTrip(v); }
  }

  // ---- Writing ----------------------------------------------------------------------------

  /** The run-level settings a case file records. */
  datatype Config = Config(
    seed: U64, mode: Mode, profile: Profile, faults: FaultProfile,
    skipRecovery: bool, assertRecovery: bool, toggles: Option<Toggles>, iterations: nat)

  function Bit(b: bool): string {
    if b then "1" else "0"
  }

  function TogglesField(t: Toggles): string {
    Bit(t.waystone) + Bit(t.cabins) + Bit(t.accessStatistics)
  }

  function ConfigFields(c: Config, t: Toggles): seq<string> {
    ["seed=" + ToDecimal(c.seed), "mode=" + ModeName(c.mode), "profile=" + ProfileName(c.profile),
     "faults=" + FaultProfileName(c.faults), "toggles=" + TogglesField(t),
     "skip-recovery=" + Bit(c.skipRecovery), "assert-recovery=" + Bit(c.assertRecovery)]
  }

  function OpFields(op: Op): seq<string> {
    [KindName(op.kind), op.table, ToDecimal(op.key), ToDecimal(op.lo), ToDecimal(op.hi),
     ToSigned(op.v), ToSigned(op.predV), Bit(op.btree), Bit(op.byPk), Bit(op.setName), op.name, op.sql]
  }

  function Line(tag: string, fields: seq<string>): string {
    Join([tag] + fields, "\t")
  }

  function FaultLines(faults: seq<FaultKind>): seq<string> {
    seq(|faults|, i requires 0 <= i < |faults| => Line("fault", [FaultName(faults[i])]))
  }

  function OpLine(op: Op): string {
    Line("op", OpFields(op))
  }

  /** An entry: the faults armed before its op, then the op. */
  function LinesOf(e: Entry): seq<string> {
    FaultLines(e.faults) + [OpLine(e.op)]
  }

  function EntryLines(entries: seq<Entry>): seq<string> {
    if entries == [] then []
    else EntryLines(entries[..|entries| - 1]) + LinesOf(entries[|entries| - 1])
  }

  function HeadLines(c: Config, t: Toggles, signature: string): seq<string> {
    [TITLE, "# failure:" + signature, Line("config", ConfigFields(c, t))]
  }

  function CaseLines(c: Config, plan: Plan, signature: string): seq<string> {
    HeadLines(c, plan.toggles, signature) + EntryLines(plan.entries)
  }

  /** Every line with its newline. */
  function Terminated(lines: seq<string>): string {
    if lines == [] then "" else lines[0] + "\n" + Terminated(lines[1..])
  }

  lemma {:induction false} TerminatedJoined(a: seq<string>, b: seq<string>)
    ensures Terminated(a + b) == Terminated(a) + Terminated(b)
    decreases |a|
  {
    if a == [] {
      assert a + b == b;
    } else {
      assert (a + b)[1..] == a[1..] + b;
      TerminatedJoined(a[1..], b);
    }
  }

  lemma TerminatedOne(a: seq<string>, line: string)
    ensures Terminated(a + [line]) == Terminated(a) + line + "\n"
  {
    TerminatedJoined(a, [line]);
    assert Terminated([line]) == line + "\n" + Terminated([]);
  }

  lemma TerminatedThree(a: string, b: string, c: string)
    ensures Terminated([a, b, c]) == a + "\n" + b + "\n" + c + "\n"
  {
    TerminatedOne([], a);
    assert [] + [a] == [a] && [a] + [b] == [a, b] && [a, b] + [c] == [a, b, c];
    TerminatedOne([a], b);
    TerminatedOne([a, b], c);
  }

  method WriteCase(c: Config, plan: Plan, signature: string) returns (out: string)
    ensures out == Terminated(CaseLines(c, plan, signature))
  {
    out := TITLE + "\n" + ("# failure:" + signature) + "\n";
    out := out + Line("config", ConfigFields(c, plan.toggles)) + "\n";
    TerminatedThree(TITLE, "# failure:" + signature, Line("config", ConfigFields(c, plan.toggles)));
    out := WriteEntries(out, HeadLines(c, plan.toggles, signature), plan.entries);
  }

  method WriteEntries(before: string, ghost head: seq<string>, entries: seq<Entry>) returns (out: string)
    requires before == Terminated(head)
    ensures out == Terminated(head + EntryLines(entries))
  {
    out := before;
    assert head + [] == head;
    for i := 0 to |entries|
      invariant out == Terminated(head + EntryLines(entries[..i]))
    {
      ghost var was := EntryLines(entries[..i]);
      out := WriteEntry(out, entries[i]);
      assert entries[..i + 1][..i] == entries[..i];
      TerminatedGrows(head, was, LinesOf(entries[i]));
    }
    assert entries[..|entries|] == entries;
  }

  lemma TerminatedGrows(head: seq<string>, a: seq<string>, b: seq<string>)
    ensures Terminated(head + (a + b)) == Terminated(head + a) + Terminated(b)
  {
    assert head + (a + b) == (head + a) + b;
    TerminatedJoined(head + a, b);
  }

  /** One entry's fault lines and its op line. */
  method WriteEntry(before: string, e: Entry) returns (out: string)
    ensures out == before + Terminated(LinesOf(e))
  {
    out := WriteFaults(before, e.faults);
    out := out + OpLine(e.op) + "\n";
    TerminatedOne(FaultLines(e.faults), OpLine(e.op));
  }

  method WriteFaults(before: string, faults: seq<FaultKind>) returns (out: string)
    ensures out == before + Terminated(FaultLines(faults))
  {
    out := before;
    ghost var lines := FaultLines(faults);
    for i := 0 to |faults|
      invariant out == before + Terminated(lines[..i])
    {
      out := out + Line("fault", [FaultName(faults[i])]) + "\n";
      TerminatedOne(lines[..i], lines[i]);
      assert lines[..i] + [lines[i]] == lines[..i + 1];
    }
    assert lines[..|faults|] == lines;
  }

  // ---- Reading ----------------------------------------------------------------------------

  datatype Problem =
    | SeedNotANumber | UnknownMode(text: string) | UnknownProfile(text: string) | UnknownFaults(text: string)
    | TogglesNotThreeDigits | UnknownConfigField(text: string)
    | FaultWithoutKind | UnknownFault(text: string) | UnknownTag(line: nat, tag: string)
    | ShortOpLine(line: nat, fields: nat) | UnknownOp(text: string) | BadNumber(line: nat) | NumberOverflows(line: nat)
    | DanglingFault | NoOps

  datatype Result<+T> = Ok(value: T) | Err(problem: Problem)

  /** What has been read so far; `pending` are the faults of the op still to come. */
  datatype Reader = Reader(config: Config, plan: Plan, pending: seq<FaultKind>)

  datatype Loaded = Loaded(config: Config, plan: Plan)

  const UNREAD: Reader :=
    Reader(Config(0, Clean, Uniform, NoFaults, false, true, None, 1), Plan([], Toggles(false, false, true)), [])

  function ConfigField(r: Reader, f: string): Result<Reader> {
    if "seed=" <= f then
      match Unsigned(f[5..])
      case None => Err(SeedNotANumber)
      case Some(n) => Ok(r.(config := r.config.(seed := n)))
    else if "mode=" <= f then
      match ParseMode(f[5..])
      case None => Err(UnknownMode(f[5..]))
      case Some(m) => Ok(r.(config := r.config.(mode := m)))
    else if "profile=" <= f then
      match ParseProfile(f[8..])
      case None => Err(UnknownProfile(f[8..]))
      case Some(p) => Ok(r.(config := r.config.(profile := p)))
    else if "faults=" <= f then
      match ParseFaultProfile(f[7..])
      case None => Err(UnknownFaults(f[7..]))
      case Some(p) => Ok(r.(config := r.config.(faults := p)))
    else if "skip-recovery=" <= f then Ok(r.(config := r.config.(skipRecovery := f[14..] == "1")))
    else if "assert-recovery=" <= f then Ok(r.(config := r.config.(assertRecovery := f[16..] == "1")))
    else if "toggles=" <= f then
      var v := f[8..];
      if |v| != 3 then Err(TogglesNotThreeDigits)
      else Ok(r.(plan := r.plan.(toggles := Toggles(v[0] == '1', v[1] == '1', v[2] == '1'))))
    else Err(UnknownConfigField(f))
  }

  function ConfigFrom(r: Reader, fields: seq<string>): Result<Reader>
    decreases |fields|
  {
    if fields == [] then Ok(r)
    else
      match ConfigField(r, fields[0])
      case Err(p) => Err(p)
      case Ok(r') => ConfigFrom(r', fields[1..])
  }

  /** The plan's toggles are pinned, and a case is one iteration. */
  function Pinned(r: Reader): Reader {
    r.(config := r.config.(toggles := Some(r.plan.toggles), iterations := 1))
  }

  function ReadOp(f: seq<string>, n: nat): Result<Op> {
    if |f| < 13 then Err(ShortOpLine(n, |f|))
    else
      match ParseKind(f[1])
      case None => Err(UnknownOp(f[1]))
      case Some(kind) =>
        var key, lo, hi, v, predV := Unsigned(f[3]), Unsigned(f[4]), Unsigned(f[5]), Signed(f[6]), Signed(f[7]);
        if key.None? || lo.None? || hi.None? || v.NotANumber? then Err(BadNumber(n))
        else if v.Overflows? then Err(NumberOverflows(n))
        else if predV.NotANumber? then Err(BadNumber(n))
        else if predV.Overflows? then Err(NumberOverflows(n))
        else Ok(Op(kind, f[2], f[12], key.value, lo.value, hi.value, v.v, f[11], f[8] == "1", f[9] == "1", predV.v, f[10] == "1"))
  }

  function ReadFields(r: Reader, f: seq<string>, n: nat): Result<Reader>
    requires f != []
  {
    if f[0] == "config" then
      match ConfigFrom(r, f[1..])
      case Err(p) => Err(p)
      case Ok(r') => Ok(Pinned(r'))
    else if f[0] == "fault" then
      if |f| < 2 then Err(FaultWithoutKind)
      else
        match ParseFault(f[1])
        case None => Err(UnknownFault(f[1]))
        case Some(kind) => Ok(r.(pending := r.pending + [kind]))
    else if f[0] != "op" then Err(UnknownTag(n, f[0]))
    else
      match ReadOp(f, n)
      case Err(p) => Err(p)
      case Ok(op) => Ok(r.(plan := r.plan.(entries := r.plan.entries + [Entry(op, r.pending)]), pending := []))
  }

  /** The n-th line: blank lines and comments are skipped. */
  function ReadLine(r: Reader, line: string, n: nat): Result<Reader> {
    if line == "" || line[0] == '#' then Ok(r) else ReadFields(r, Split(line, '\t'), n)
  }

  /** The lines of `text` from `at` on, `n` lines before them; the last may lack its newline. */
  function ReadFrom(r: Reader, text: string, at: nat, n: nat): Result<Reader>
    requires at <= |text|
    decreases |text| - at
  {
    if at == |text| then Ok(r)
    else
      var next := Find(text, '\n', at);
      match ReadLine(r, text[at..next], n + 1)
      case Err(p) => Err(p)
      case Ok(r') => ReadFrom(r', text, if next == |text| then next else next + 1, n + 1)
  }

  function Finish(r: Reader): Result<Loaded> {
    if r.pending != [] then Err(DanglingFault)
    else if r.plan.entries == [] then Err(NoOps)
    else Ok(Loaded(r.config, r.plan))
  }

  function ReadText(text: string): Result<Loaded> {
    match ReadFrom(UNREAD, text, 0, 0)
    case Err(p) => Err(p)
    case Ok(r) => Finish(r)
  }

  lemma {:induction false} FindShift(s: string, rest: string, sep: char, from: nat, at: nat, k: nat)
    requires from <= at <= |s| && rest == s[from..] && at == from + k
    ensures Find(s, sep, at) == from + Find(rest, sep, k)
    decreases |s| - at
  {
    if at < |s| {
      assert s[at] == rest[k];
      if s[at] != sep { FindShift(s, rest, sep, from, at + 1, k + 1); }
    }
  }

  lemma SplitOff(rest: string, sep: char, k: nat, head: string, tail: string)
    requires k == Find(rest, sep, 0) < |rest| && head == rest[..k] && tail == rest[k + 1..]
    ensures Split(rest, sep) == [head] + Split(tail, sep)
  {}

  lemma SliceOf(line: string, rest: string, at: nat, next: nat, k: nat)
    requires at <= next < |line| && rest == line[at..] && next == at + k
    ensures line[at..next] == rest[..k] && line[next + 1..] == rest[k + 1..]
  {}

  method SplitTabs(line: string) returns (fields: seq<string>)
    ensures fields == Split(line, '\t')
  {
    fields := [];
    var at := 0;
    assert line[0..] == line;
    ghost var rest := line;
    while true
      invariant at <= |line| && rest == line[at..] && fields + Split(rest, '\t') == Split(line, '\t')
      decreases |line| - at
    {
      var next := Find(line, '\t', at);
      ghost var k := Find(rest, '\t', 0);
      FindShift(line, rest, '\t', at, at, 0);
      if next == |line| {
        fields := fields + [line[at..]];
        return;
      }
      var field := line[at..next];
      SliceOf(line, rest, at, next, k);
      SplitOff(rest, '\t', k, field, line[next + 1..]);
      rest := line[next + 1..];
      Regrouped(fields, field, Split(rest, '\t'));
      fields := fields + [field];
      at := next + 1;
    }
  }

  method ReadConfig(r: Reader, f: seq<string>) returns (out: Result<Reader>)
    requires f != [] && f[0] == "config"
    ensures out == ReadFields(r, f, 0)
  {
    var current := r;
    for i := 1 to |f|
      invariant ConfigFrom(r, f[1..]) == ConfigFrom(current, f[i..])
    {
      var field := ConfigField(current, f[i]);
      if field.Err? { return Err(field.problem); }
      current := field.value;
    }
    return Ok(Pinned(current));
  }

  /** One line of the loop. */
  method ReadNext(r: Reader, line: string, n: nat) returns (out: Result<Reader>)
    ensures out == ReadLine(r, line, n)
  {
    if line == "" || line[0] == '#' { return Ok(r); }
    var f := SplitTabs(line);
    if f[0] == "config" {
      out := ReadConfig(r, f);
      return;
    }
    return ReadFields(r, f, n);
  }

  /** One line read, and the rest from after its newline. */
  lemma ReadOn(r: Reader, text: string, at: nat, next: nat, after: nat, line: string, n: nat, m: nat)
    requires at < |text| && next == Find(text, '\n', at) && line == text[at..next] && m == n + 1
    requires after == if next == |text| then next else next + 1
    ensures at < after <= |text|
    ensures var read := ReadLine(r, line, m);
            ReadFrom(r, text, at, n) == if read.Err? then Err(read.problem) else ReadFrom(read.value, text, after, m)
  {}

  method ReadCase(text: string) returns (out: Result<Loaded>)
    ensures out == ReadText(text)
  {
    var r, at, n := UNREAD, 0, 0;
    while at < |text|
      invariant at <= |text| && ReadFrom(UNREAD, text, 0, 0) == ReadFrom(r, text, at, n)
      decreases |text| - at
    {
      var next := Find(text, '\n', at);
      var line, after, m := text[at..next], if next == |text| then next else next + 1, n + 1;
      ReadOn(r, text, at, next, after, line, n, m);
      var read := ReadNext(r, line, m);
      if read.Err? { return Err(read.problem); }
      r, at, n := read.value, after, m;
    }
    return Finish(r);
  }
}
