/** Reading back what WriteCase wrote, and exactly which plans come back. */
module CaseRoundTrip {
  import opened Text
  import opened Optional
  import opened Ops
  import opened Plans
  import opened CaseTitle
  import opened CaseFile

  // ---- Lines ---------------------------------------------------------------------------

  /** One line after another, the first being the n-th. */
  function ReadLines(r: Reader, lines: seq<string>, n: nat): Result<Reader>
    decreases |lines|
  {
    if lines == [] then Ok(r)
    else
      match ReadLine(r, lines[0], n)
      case Err(p) => Err(p)
      case Ok(r') => ReadLines(r', lines[1..], n + 1)
  }

  predicate NoNewline(lines: seq<string>) {
    forall l :: l in lines ==> '\n' !in l
  }

  lemma SliceTail(prefix: string, tail: string, k: nat)
    requires k <= |tail|
    ensures (prefix + tail)[|prefix|..|prefix| + k] == tail[..k]
    ensures (prefix + tail)[|prefix|..] == tail
  {}

  lemma FindIn(prefix: string, tail: string, sep: char)
    ensures Find(prefix + tail, sep, |prefix|) == |prefix| + Find(tail, sep, 0)
  {
    SliceTail(prefix, tail, 0);
    FindShift(prefix + tail, tail, sep, |prefix|, |prefix|, 0);
  }

  lemma Regroup(a: string, b: string, c: string, d: string)
    ensures a + (b + c + d) == (a + b + c) + d
    ensures (b + c + d)[..|b|] == b
  {}

  /** The first newline after `prefix` ends `line`. */
  lemma LineEnds(prefix: string, line: string, rest: string)
    requires '\n' !in line
    ensures Find(prefix + (line + ['\n'] + rest), '\n', |prefix|) == |prefix| + |line|
  {
    FindAt(line, '\n', rest);
    FindIn(prefix, line + ['\n'] + rest, '\n');
  }

  lemma LineText(prefix: string, line: string, rest: string)
    ensures (prefix + (line + ['\n'] + rest))[|prefix|..|prefix| + |line|] == line
  {
    SliceTail(prefix, line + ['\n'] + rest, |line|);
    Regroup(prefix, line, ['\n'], rest);
  }

  /** Reading the line that ends at `next` goes on after its newline. */
  lemma ReadAt(r: Reader, text: string, at: nat, next: nat, at': nat, line: string, n: nat, m: nat)
    requires at <= next < |text| && at' == next + 1 && m == n + 1
    requires next == Find(text, '\n', at) && line == text[at..next]
    ensures var read := ReadLine(r, line, m);
            ReadFrom(r, text, at, n) == if read.Err? then read else ReadFrom(read.value, text, at', m)
  {}

  lemma ReadFirst(r: Reader, prefix: string, prefix': string, line: string, rest: string, text: string,
                  at: nat, at': nat, n: nat, m: nat)
    requires '\n' !in line && text == prefix + (line + ['\n'] + rest) && prefix' == prefix + line + ['\n']
    requires at == |prefix| && at' == |prefix'| && m == n + 1
    ensures text == prefix' + rest
    ensures var read := ReadLine(r, line, m);
            ReadFrom(r, text, at, n) == if read.Err? then read else ReadFrom(read.value, text, at', m)
  {
    LineEnds(prefix, line, rest);
    LineText(prefix, line, rest);
    Regroup(prefix, line, ['\n'], rest);
    ReadAt(r, text, at, |prefix| + |line|, at', line, n, m);
  }

  lemma ReadCons(r: Reader, lines: seq<string>, m: nat, m': nat, line: string, rest: seq<string>)
    requires lines != [] && line == lines[0] && rest == lines[1..] && m' == m + 1
    ensures var read := ReadLine(r, line, m);
            ReadLines(r, lines, m) == if read.Err? then read else ReadLines(read.value, rest, m')
  {}

  lemma {:induction false} ReadTerminated(r: Reader, prefix: string, text: string, at: nat, lines: seq<string>, n: nat, m: nat)
    requires NoNewline(lines) && text == prefix + Terminated(lines) && at == |prefix| && m == n + 1
    ensures ReadFrom(r, text, at, n) == ReadLines(r, lines, m)
    decreases |lines|
  {
    if lines != [] {
      var l, rest := lines[0], lines[1..];
      var prefix', m' := prefix + l + ['\n'], m + 1;
      assert l in lines && forall l' :: l' in rest ==> l' in lines;
      ReadFirst(r, prefix, prefix', l, Terminated(rest), text, at, |prefix'|, n, m);
      ReadCons(r, lines, m, m', l, rest);
      if ReadLine(r, l, m).Ok? {
        ReadTerminated(ReadLine(r, l, m).value, prefix', text, |prefix'|, rest, m, m');
      }
    }
  }

  lemma {:induction false} ReadJoined(r: Reader, a: seq<string>, b: seq<string>, n: nat)
    ensures ReadLines(r, a + b, n) ==
            match ReadLines(r, a, n) case Err(p) => Err(p) case Ok(r') => ReadLines(r', b, n + |a|)
    decreases |a|
  {
    if a == [] {
      assert a + b == b;
    } else {
      assert (a + b)[1..] == a[1..] + b;
      if ReadLine(r, a[0], n).Ok? {
        ReadJoined(ReadLine(r, a[0], n).value, a[1..], b, n + 1);
      }
    }
  }

  // ---- Unbroken text -------------------------------------------------------------------------

  predicate Unbroken(s: string) {
    '\t' !in s && '\n' !in s
  }

  lemma UnbrokenJoined(a: string, b: string)
    requires Unbroken(a) && Unbroken(b)
    ensures Unbroken(a + b)
  {}

  lemma DecimalUnbroken(n: nat)
    ensures Unbroken(ToDecimal(n))
  {
    var s := ToDecimal(n);
    assert forall i :: 0 <= i < |s| ==> s[i] != '\t' && s[i] != '\n';
  }

  lemma SignedUnbroken(v: int)
    ensures Unbroken(ToSigned(v))
  {
    SignedAlphabet(v, '\t');
    SignedAlphabet(v, '\n');
  }

  lemma KindUnbroken(k: Kind)
    ensures Unbroken(KindName(k))
  {}

  lemma FaultUnbroken(f: FaultKind)
    ensures Unbroken(FaultName(f))
  {}

  lemma ModeUnbroken(m: Mode)
    ensures Unbroken(ModeName(m))
  {}

  lemma ProfilesUnbroken(p: Profile, f: FaultProfile)
    ensures Unbroken(ProfileName(p)) && Unbroken(FaultProfileName(f))
  {}

  predicate AllUnbroken(fields: seq<string>) {
    forall f :: f in fields ==> Unbroken(f)
  }

  lemma {:induction false} JoinUnbroken(fields: seq<string>)
    requires fields != [] && AllUnbroken(fields)
    ensures '\n' !in Join(fields, "\t")
    decreases |fields|
  {
    assert fields[0] in fields;
    if |fields| > 1 {
      assert forall f :: f in fields[1..] ==> f in fields;
      JoinUnbroken(fields[1..]);
    }
  }

  /** A record of unbroken fields is one line, and splits into those fields. */
  lemma RecordSplits(tag: string, fields: seq<string>)
    requires tag != "" && Unbroken(tag) && AllUnbroken(fields)
    ensures Split(Line(tag, fields), '\t') == [tag] + fields
    ensures '\n' !in Line(tag, fields) && Line(tag, fields) != "" && Line(tag, fields)[0] == tag[0]
  {
    var all := [tag] + fields;
    assert forall f :: f in all ==> f == tag || f in fields;
    SplitJoin(all, '\t');
    JoinUnbroken(all);
  }

  // ---- The config line ----------------------------------------------------------------------

  function Configured(r: Reader, c: Config, t: Toggles): Reader {
    r.(config := r.config.(seed := c.seed, mode := c.mode, profile := c.profile, faults := c.faults,
                           skipRecovery := c.skipRecovery, assertRecovery := c.assertRecovery),
       plan := r.plan.(toggles := t))
  }

  lemma BitUnbroken(b: bool)
    ensures Unbroken(Bit(b)) && |Bit(b)| == 1 && (Bit(b) == "1" <==> b) && (Bit(b)[0] == '1' <==> b)
  {}

  lemma TogglesUnbroken(t: Toggles)
    ensures Unbroken(TogglesField(t)) && |TogglesField(t)| == 3
    ensures var v := TogglesField(t); Toggles(v[0] == '1', v[1] == '1', v[2] == '1') == t
  {}

  lemma DrawnKeysUnbroken()
    ensures Unbroken("seed=") && Unbroken("mode=") && Unbroken("profile=") && Unbroken("faults=")
  {}

  lemma GateKeysUnbroken()
    ensures Unbroken("toggles=") && Unbroken("skip-recovery=") && Unbroken("assert-recovery=")
  {}

  lemma ConfigFieldsUnbroken(c: Config, t: Toggles)
    ensures AllUnbroken(ConfigFields(c, t))
  {
    DecimalUnbroken(c.seed);
    ModeUnbroken(c.mode);
    ProfilesUnbroken(c.profile, c.faults);
    TogglesUnbroken(t);
    BitUnbroken(c.skipRecovery);
    BitUnbroken(c.assertRecovery);
    SevenUnbroken(ToDecimal(c.seed), ModeName(c.mode), ProfileName(c.profile), FaultProfileName(c.faults),
                  TogglesField(t), Bit(c.skipRecovery), Bit(c.assertRecovery));
  }

  lemma SevenUnbroken(seed: string, mode: string, profile: string, faults: string, toggles: string, skip: string, gate: string)
    requires Unbroken(seed) && Unbroken(mode) && Unbroken(profile) && Unbroken(faults)
    requires Unbroken(toggles) && Unbroken(skip) && Unbroken(gate)
    ensures AllUnbroken(["seed=" + seed, "mode=" + mode, "profile=" + profile, "faults=" + faults,
                         "toggles=" + toggles, "skip-recovery=" + skip, "assert-recovery=" + gate])
  {
    DrawnKeysUnbroken();
    GateKeysUnbroken();
    UnbrokenJoined("seed=", seed);
    UnbrokenJoined("mode=", mode);
    UnbrokenJoined("profile=", profile);
    UnbrokenJoined("faults=", faults);
    UnbrokenJoined("toggles=", toggles);
    UnbrokenJoined("skip-recovery=", skip);
    UnbrokenJoined("assert-recovery=", gate);
  }

  /** A field is told apart from the other keys by its first two characters. */
  lemma KeyOf(key: string, value: string)
    requires |key| >= 2
    ensures key <= key + value && (key + value)[|key|..] == value
    ensures (key + value)[0] == key[0] && (key + value)[1] == key[1]
  {}

  lemma SeedField(r: Reader, n: U64)
    ensures ConfigField(r, "seed=" + ToDecimal(n)) == Ok(r.(config := r.config.(seed := n)))
  {
    KeyOf("seed=", ToDecimal(n));
    UnsignedRoundTrip(n);
  }

  lemma ModeField(r: Reader, m: Mode)
    ensures ConfigField(r, "mode=" + ModeName(m)) == Ok(r.(config := r.config.(mode := m)))
  {
    KeyOf("mode=", ModeName(m));
    ModeRoundTrip(m);
  }

  lemma ProfileField(r: Reader, p: Profile)
    ensures ConfigField(r, "profile=" + ProfileName(p)) == Ok(r.(config := r.config.(profile := p)))
  {
    KeyOf("profile=", ProfileName(p));
    ProfileRoundTrip(p);
  }

  lemma FaultsField(r: Reader, f: FaultProfile)
    ensures ConfigField(r, "faults=" + FaultProfileName(f)) == Ok(r.(config := r.config.(faults := f)))
  {
    KeyOf("faults=", FaultProfileName(f));
    FaultProfileRoundTrip(f);
  }

  lemma SkipField(r: Reader, b: bool)
    ensures ConfigField(r, "skip-recovery=" + Bit(b)) == Ok(r.(config := r.config.(skipRecovery := b)))
  {
    KeyOf("skip-recovery=", Bit(b));
    BitUnbroken(b);
  }

  lemma GateField(r: Reader, b: bool)
    ensures ConfigField(r, "assert-recovery=" + Bit(b)) == Ok(r.(config := r.config.(assertRecovery := b)))
  {
    KeyOf("assert-recovery=", Bit(b));
    BitUnbroken(b);
  }

  lemma SwitchesField(r: Reader, t: Toggles)
    ensures ConfigField(r, "toggles=" + TogglesField(t)) == Ok(r.(plan := r.plan.(toggles := t)))
  {
    KeyOf("toggles=", TogglesField(t));
    TogglesUnbroken(t);
  }

  lemma {:induction false} ConfigChain(rs: seq<Reader>, fields: seq<string>)
    requires |rs| == |fields| + 1
    requires forall i :: 0 <= i < |fields| ==> ConfigField(rs[i], fields[i]) == Ok(rs[i + 1])
    ensures ConfigFrom(rs[0], fields) == Ok(rs[|fields|])
    decreases |fields|
  {
    if fields != [] {
      assert ConfigField(rs[0], fields[0]) == Ok(rs[1]);
      forall i | 0 <= i < |fields[1..]| ensures ConfigField(rs[1..][i], fields[1..][i]) == Ok(rs[1..][i + 1]) {
        assert ConfigField(rs[i + 1], fields[i + 1]) == Ok(rs[i + 2]);
      }
      ConfigChain(rs[1..], fields[1..]);
    }
  }

  /** The four drawn settings, then the toggles and the two gates. */
  lemma DrawnRead(r: Reader, c: Config)
    ensures ConfigFrom(r, ["seed=" + ToDecimal(c.seed), "mode=" + ModeName(c.mode),
                           "profile=" + ProfileName(c.profile), "faults=" + FaultProfileName(c.faults)])
         == Ok(r.(config := r.config.(seed := c.seed, mode := c.mode, profile := c.profile, faults := c.faults)))
  {
    var r1 := r.(config := r.config.(seed := c.seed));
    var r2 := r1.(config := r1.config.(mode := c.mode));
    var r3 := r2.(config := r2.config.(profile := c.profile));
    var r4 := r3.(config := r3.config.(faults := c.faults));
    SeedField(r, c.seed);
    ModeField(r1, c.mode);
    ProfileField(r2, c.profile);
    FaultsField(r3, c.faults);
    ConfigChain([r, r1, r2, r3, r4],
      ["seed=" + ToDecimal(c.seed), "mode=" + ModeName(c.mode),
       "profile=" + ProfileName(c.profile), "faults=" + FaultProfileName(c.faults)]);
  }

  lemma GatesRead(r: Reader, c: Config, t: Toggles)
    ensures ConfigFrom(r, ["toggles=" + TogglesField(t), "skip-recovery=" + Bit(c.skipRecovery),
                           "assert-recovery=" + Bit(c.assertRecovery)])
         == Ok(r.(config := r.config.(skipRecovery := c.skipRecovery, assertRecovery := c.assertRecovery),
                  plan := r.plan.(toggles := t)))
  {
    var r1 := r.(plan := r.plan.(toggles := t));
    var r2 := r1.(config := r1.config.(skipRecovery := c.skipRecovery));
    var r3 := r2.(config := r2.config.(assertRecovery := c.assertRecovery));
    SwitchesField(r, t);
    SkipField(r1, c.skipRecovery);
    GateField(r2, c.assertRecovery);
    ConfigChain([r, r1, r2, r3],
      ["toggles=" + TogglesField(t), "skip-recovery=" + Bit(c.skipRecovery), "assert-recovery=" + Bit(c.assertRecovery)]);
  }

  lemma {:induction false} ConfigJoined(r: Reader, a: seq<string>, b: seq<string>, r': Reader)
    requires ConfigFrom(r, a) == Ok(r')
    ensures ConfigFrom(r, a + b) == ConfigFrom(r', b)
    decreases |a|
  {
    if a == [] {
      assert a + b == b;
    } else {
      assert (a + b)[1..] == a[1..] + b;
      ConfigJoined(ConfigField(r, a[0]).value, a[1..], b, r');
    }
  }

  lemma ConfigReads(r: Reader, c: Config, t: Toggles)
    ensures ConfigFrom(r, ConfigFields(c, t)) == Ok(Configured(r, c, t))
  {
    var drawn := ["seed=" + ToDecimal(c.seed), "mode=" + ModeName(c.mode),
                  "profile=" + ProfileName(c.profile), "faults=" + FaultProfileName(c.faults)];
    var gates := ["toggles=" + TogglesField(t), "skip-recovery=" + Bit(c.skipRecovery),
                  "assert-recovery=" + Bit(c.assertRecovery)];
    var r' := r.(config := r.config.(seed := c.seed, mode := c.mode, profile := c.profile, faults := c.faults));
    DrawnRead(r, c);
    ConfigJoined(r, drawn, gates, r');
    GatesRead(r', c, t);
    assert drawn + gates == ConfigFields(c, t);
  }

  lemma ConfigLineReads(r: Reader, c: Config, t: Toggles, n: nat)
    ensures ReadLine(r, Line("config", ConfigFields(c, t)), n) == Ok(Pinned(Configured(r, c, t)))
    ensures '\n' !in Line("config", ConfigFields(c, t))
  {
    var fields := ConfigFields(c, t);
    ConfigFieldsUnbroken(c, t);
    ConfigReads(r, c, t);
    ConfigTag(r, fields, Configured(r, c, t), n);
  }

  lemma ConfigTag(r: Reader, fields: seq<string>, r': Reader, n: nat)
    requires AllUnbroken(fields) && ConfigFrom(r, fields) == Ok(r')
    ensures ReadLine(r, Line("config", fields), n) == Ok(Pinned(r'))
    ensures '\n' !in Line("config", fields)
  {
    RecordSplits("config", fields);
    assert (["config"] + fields)[1..] == fields;
  }

  // ---- The op and fault lines -----------------------------------------------------------------

  /** No text field breaks the line or the record it is written into. */
  predicate Writable(op: Op) {
    Unbroken(op.table) && Unbroken(op.name) && Unbroken(op.sql)
  }

  predicate Fits(op: Op) {
    op.v != I64_MIN && op.predV != I64_MIN
  }

  lemma TwelveUnbroken(a: string, b: string, c: string, d: string, e: string, f: string,
                       g: string, h: string, i: string, j: string, k: string, l: string)
    requires Unbroken(a) && Unbroken(b) && Unbroken(c) && Unbroken(d) && Unbroken(e) && Unbroken(f)
    requires Unbroken(g) && Unbroken(h) && Unbroken(i) && Unbroken(j) && Unbroken(k) && Unbroken(l)
    ensures AllUnbroken([a, b, c, d, e, f, g, h, i, j, k, l])
  {}

  lemma OpFieldsUnbroken(op: Op)
    requires Writable(op)
    ensures AllUnbroken(OpFields(op))
  {
    KindUnbroken(op.kind);
    DecimalUnbroken(op.key);
    DecimalUnbroken(op.lo);
    DecimalUnbroken(op.hi);
    SignedUnbroken(op.v);
    SignedUnbroken(op.predV);
    BitUnbroken(op.btree);
    BitUnbroken(op.byPk);
    BitUnbroken(op.setName);
    TwelveUnbroken(KindName(op.kind), op.table, ToDecimal(op.key), ToDecimal(op.lo), ToDecimal(op.hi),
      ToSigned(op.v), ToSigned(op.predV), Bit(op.btree), Bit(op.byPk), Bit(op.setName), op.name, op.sql);
  }

  predicate Signs(text: string, v: I64) {
    Signed(text) == if v == I64_MIN then Overflows else Number(v)
  }

  /** The twelve fields of an op line say what `op` is. */
  predicate Describes(f: seq<string>, op: Op) {
    && |f| == 12 && ParseKind(f[0]) == Some(op.kind) && f[1] == op.table && f[10] == op.name && f[11] == op.sql
    && Unsigned(f[2]) == Some(op.key) && Unsigned(f[3]) == Some(op.lo) && Unsigned(f[4]) == Some(op.hi)
    && Signs(f[5], op.v) && Signs(f[6], op.predV)
    && (f[7] == "1" <==> op.btree) && (f[8] == "1" <==> op.byPk) && (f[9] == "1" <==> op.setName)
  }

  lemma OpFrom(f: seq<string>, op: Op, n: nat)
    requires Describes(f, op)
    ensures ReadOp(["op"] + f, n) == if Fits(op) then Ok(op) else Err(NumberOverflows(n))
  {}

  lemma DescribesBuilt(op: Op, k: string, key: string, lo: string, hi: string, v: string, p: string,
                       b: string, b': string, b'': string)
    requires ParseKind(k) == Some(op.kind)
    requires Unsigned(key) == Some(op.key) && Unsigned(lo) == Some(op.lo) && Unsigned(hi) == Some(op.hi)
    requires Signs(v, op.v) && Signs(p, op.predV)
    requires (b == "1" <==> op.btree) && (b' == "1" <==> op.byPk) && (b'' == "1" <==> op.setName)
    ensures Describes([k, op.table, key, lo, hi, v, p, b, b', b'', op.name, op.sql], op)
  {
    var f := [k, op.table, key, lo, hi, v, p, b, b', b'', op.name, op.sql];
    assert f[0] == k && f[1] == op.table && f[2] == key && f[3] == lo && f[4] == hi && f[5] == v;
    assert f[6] == p && f[7] == b && f[8] == b' && f[9] == b'' && f[10] == op.name && f[11] == op.sql;
  }

  lemma OpDescribed(op: Op)
    ensures Describes(OpFields(op), op)
  {
    KindRoundTrip(op.kind);
    UnsignedRoundTrip(op.key);
    UnsignedRoundTrip(op.lo);
    UnsignedRoundTrip(op.hi);
    SignedRoundTrip(op.v);
    SignedRoundTrip(op.predV);
    BitUnbroken(op.btree);
    BitUnbroken(op.byPk);
    BitUnbroken(op.setName);
    DescribesBuilt(op, KindName(op.kind), ToDecimal(op.key), ToDecimal(op.lo), ToDecimal(op.hi),
      ToSigned(op.v), ToSigned(op.predV), Bit(op.btree), Bit(op.byPk), Bit(op.setName));
  }

  lemma OpReads(op: Op, n: nat)
    ensures ReadOp(["op"] + OpFields(op), n) == if Fits(op) then Ok(op) else Err(NumberOverflows(n))
  {
    OpDescribed(op);
    OpFrom(OpFields(op), op, n);
  }

  function WithEntry(r: Reader, op: Op): Reader {
    r.(plan := r.plan.(entries := r.plan.entries + [Entry(op, r.pending)]), pending := [])
  }

  lemma OpTag(r: Reader, fields: seq<string>, n: nat)
    requires AllUnbroken(fields)
    ensures ReadLine(r, Line("op", fields), n) ==
            match ReadOp(["op"] + fields, n) case Err(p) => Err(p) case Ok(op) => Ok(WithEntry(r, op))
    ensures '\n' !in Line("op", fields)
  {
    RecordSplits("op", fields);
  }

  lemma OpLineReads(r: Reader, op: Op, n: nat)
    requires Writable(op)
    ensures ReadLine(r, OpLine(op), n) == if Fits(op) then Ok(WithEntry(r, op)) else Err(NumberOverflows(n))
    ensures '\n' !in OpLine(op)
  {
    OpFieldsUnbroken(op);
    OpReads(op, n);
    OpTag(r, OpFields(op), n);
  }

  lemma FaultLineReads(r: Reader, f: FaultKind, n: nat)
    ensures ReadLine(r, Line("fault", [FaultName(f)]), n) == Ok(r.(pending := r.pending + [f]))
    ensures '\n' !in Line("fault", [FaultName(f)])
  {
    FaultUnbroken(f);
    RecordSplits("fault", [FaultName(f)]);
    FaultRoundTrip(f);
  }

  lemma FirstRead(r: Reader, line: string, rest: seq<string>, n: nat, m: nat, r': Reader)
    requires ReadLine(r, line, n) == Ok(r') && m == n + 1
    ensures ReadLines(r, [line] + rest, n) == ReadLines(r', rest, m)
  {
    assert ([line] + rest)[1..] == rest;
  }

  lemma FaultLinesCons(faults: seq<FaultKind>)
    requires faults != []
    ensures FaultLines(faults) == [Line("fault", [FaultName(faults[0])])] + FaultLines(faults[1..])
  {}

  lemma {:induction false} FaultsRead(r: Reader, faults: seq<FaultKind>, n: nat)
    ensures ReadLines(r, FaultLines(faults), n) == Ok(r.(pending := r.pending + faults))
    ensures NoNewline(FaultLines(faults))
    decreases |faults|
  {
    if faults == [] {
      assert r.pending + faults == r.pending;
    } else {
      var r', m := r.(pending := r.pending + [faults[0]]), n + 1;
      FaultLineReads(r, faults[0], n);
      FaultsRead(r', faults[1..], m);
      FaultLinesCons(faults);
      FirstRead(r, Line("fault", [FaultName(faults[0])]), FaultLines(faults[1..]), n, m, r');
      assert r.pending + [faults[0]] + faults[1..] == r.pending + faults;
    }
  }

  // ---- Whole plans ------------------------------------------------------------------------------

  predicate AllWritable(entries: seq<Entry>) {
    forall e :: e in entries ==> Writable(e.op)
  }

  predicate AllFit(entries: seq<Entry>) {
    forall e :: e in entries ==> Fits(e.op)
  }

  function WithEntries(r: Reader, entries: seq<Entry>): Reader {
    r.(plan := r.plan.(entries := r.plan.entries + entries))
  }

  lemma LastLine(r: Reader, a: seq<string>, line: string, n: nat, r': Reader)
    requires ReadLines(r, a, n) == Ok(r')
    ensures ReadLines(r, a + [line], n) == ReadLine(r', line, n + |a|)
  {
    ReadJoined(r, a, [line], n);
    assert [line][1..] == [];
  }

  lemma NoNewlineJoined(a: seq<string>, b: seq<string>)
    requires NoNewline(a) && NoNewline(b)
    ensures NoNewline(a + b)
  {}

  lemma NoNewlineOne(line: string)
    requires '\n' !in line
    ensures NoNewline([line])
  {}

  lemma FaultsArm(r: Reader, faults: seq<FaultKind>, n: nat)
    requires r.pending == []
    ensures ReadLines(r, FaultLines(faults), n) == Ok(r.(pending := faults))
    ensures NoNewline(FaultLines(faults))
  {
    FaultsRead(r, faults, n);
    assert r.pending + faults == faults;
  }

  lemma EntryReads(r: Reader, e: Entry, n: nat)
    requires Writable(e.op) && r.pending == []
    ensures if Fits(e.op) then ReadLines(r, LinesOf(e), n) == Ok(WithEntries(r, [e]))
            else ReadLines(r, LinesOf(e), n).Err?
    ensures NoNewline(LinesOf(e))
  {
    var armed, m := r.(pending := e.faults), n + |FaultLines(e.faults)|;
    FaultsArm(r, e.faults, n);
    OpLineReads(armed, e.op, m);
    EntryReadsFrom(r, armed, FaultLines(e.faults), OpLine(e.op), e, n, m, ReadLine(armed, OpLine(e.op), m));
  }

  lemma EntryReadsFrom(r: Reader, armed: Reader, faults: seq<string>, line: string, e: Entry, n: nat, m: nat, read: Result<Reader>)
    requires ReadLines(r, faults, n) == Ok(armed) && armed == r.(pending := e.faults) && r.pending == []
    requires m == n + |faults| && read == ReadLine(armed, line, m)
    requires read == if Fits(e.op) then Ok(WithEntry(armed, e.op)) else Err(NumberOverflows(m))
    requires NoNewline(faults) && '\n' !in line
    ensures if Fits(e.op) then ReadLines(r, faults + [line], n) == Ok(WithEntries(r, [e]))
            else ReadLines(r, faults + [line], n).Err?
    ensures NoNewline(faults + [line])
  {
    LastLine(r, faults, line, n, armed);
    assert WithEntry(armed, e.op) == WithEntries(r, [e]);
    NoNewlineOne(line);
    NoNewlineJoined(faults, [line]);
  }

  /** The lines of a plan whose fields are unbroken read back as its entries, unless a
      signed value overflows. */
  lemma {:induction false} EntriesRead(r: Reader, entries: seq<Entry>, n: nat)
    requires AllWritable(entries) && r.pending == []
    ensures ReadsAs(r, entries, ReadLines(r, EntryLines(entries), n))
    ensures NoNewline(EntryLines(entries))
    decreases |entries|
  {
    if entries == [] {
      assert r.plan.entries + [] == r.plan.entries;
    } else {
      var front, last := entries[..|entries| - 1], entries[|entries| - 1];
      AllWritableSplit(entries);
      EntriesRead(r, front, n);
      EntryFollows(r, EntryLines(front), front, last, n);
      EntriesSnoc(entries, front, last);
    }
  }

  lemma EntriesSnoc(entries: seq<Entry>, front: seq<Entry>, last: Entry)
    requires entries != [] && front == entries[..|entries| - 1] && last == entries[|entries| - 1]
    ensures entries == front + [last] && EntryLines(entries) == EntryLines(front) + LinesOf(last)
  {}

  lemma EntryFollows(r: Reader, a: seq<string>, front: seq<Entry>, last: Entry, n: nat)
    requires r.pending == [] && Writable(last.op) && NoNewline(a) && ReadsAs(r, front, ReadLines(r, a, n))
    ensures ReadsAs(r, front + [last], ReadLines(r, a + LinesOf(last), n))
    ensures NoNewline(a + LinesOf(last))
  {
    var r', m := WithEntries(r, front), n + |a|;
    EntryReads(r', last, m);
    OneMoreEntry(r, r', a, LinesOf(last), front, last, n, m, ReadLines(r, a, n), ReadLines(r', LinesOf(last), m));
  }

  /** `read` is what comes of reading `entries` after `r`. */
  predicate ReadsAs(r: Reader, entries: seq<Entry>, read: Result<Reader>) {
    if AllFit(entries) then read == Ok(WithEntries(r, entries)) else read.Err?
  }

  lemma AllWritableSplit(entries: seq<Entry>)
    requires AllWritable(entries) && entries != []
    ensures AllWritable(entries[..|entries| - 1]) && Writable(entries[|entries| - 1].op)
  {
    assert entries[|entries| - 1] in entries;
  }

  lemma AllFitSplit(front: seq<Entry>, last: Entry)
    ensures AllFit(front + [last]) <==> AllFit(front) && Fits(last.op)
  {
    assert last in front + [last];
    assert forall e :: e in front ==> e in front + [last];
  }

  lemma OneMoreEntry(r: Reader, r': Reader, a: seq<string>, b: seq<string>, front: seq<Entry>, last: Entry,
                     n: nat, m: nat, read: Result<Reader>, more: Result<Reader>)
    requires r' == WithEntries(r, front) && m == n + |a|
    requires read == ReadLines(r, a, n) && more == ReadLines(r', b, m)
    requires ReadsAs(r, front, read)
    requires if Fits(last.op) then more == Ok(WithEntries(r', [last])) else more.Err?
    requires NoNewline(a) && NoNewline(b)
    ensures ReadsAs(r, front + [last], ReadLines(r, a + b, n))
    ensures NoNewline(a + b)
  {
    ReadJoined(r, a, b, n);
    NoNewlineJoined(a, b);
    AllFitSplit(front, last);
    WithOneMore(r, front, last);
  }

  lemma WithOneMore(r: Reader, front: seq<Entry>, last: Entry)
    ensures WithEntries(WithEntries(r, front), [last]) == WithEntries(r, front + [last])
  {
    assert r.plan.entries + front + [last] == r.plan.entries + (front + [last]);
  }

  // ---- The signature's lines ----------------------------------------------------------------------

  /** The lines a signature adds to its comment: all of them but the first. */
  function ExtraLines(signature: string): seq<string> {
    Split(signature, '\n')[1..]
  }

  /** A line that arms nothing and runs nothing: blank, a comment, or settings that parse. */
  predicate HarmlessLine(line: string) {
    line == "" || line[0] == '#' ||
    (Split(line, '\t')[0] == "config" && ConfigFrom(UNREAD, Split(line, '\t')[1..]).Ok?)
  }

  predicate AllHarmless(lines: seq<string>) {
    forall i :: 0 <= i < |lines| ==> HarmlessLine(lines[i])
  }

  predicate Harmless(signature: string) {
    AllHarmless(ExtraLines(signature))
  }

  lemma OneLineHarmless(signature: string)
    requires '\n' !in signature
    ensures ExtraLines(signature) == [] && Harmless(signature)
  {
    FindNone(signature, '\n');
  }

  lemma {:induction false} TerminatedSplit(s: string)
    ensures Terminated(Split(s, '\n')) == s + "\n"
    decreases |s|
  {
    var k := Find(s, '\n', 0);
    if k == |s| {
      assert Split(s, '\n') == [s] && Terminated([s][1..]) == "";
    } else {
      TerminatedSplit(s[k + 1..]);
      TerminatedHead(s[..k], Split(s[k + 1..], '\n'));
      assert s == s[..k] + "\n" + s[k + 1..];
    }
  }

  lemma TerminatedHead(line: string, rest: seq<string>)
    ensures Terminated([line] + rest) == line + "\n" + Terminated(rest)
  {
    assert ([line] + rest)[1..] == rest;
  }

  function SignatureLines(signature: string): seq<string> {
    ["# failure:" + Split(signature, '\n')[0]] + ExtraLines(signature)
  }

  /** The comment and its signature, in the lines a reader sees. */
  lemma SignatureText(signature: string)
    ensures Terminated(SignatureLines(signature)) == "# failure:" + signature + "\n"
  {
    var lines := Split(signature, '\n');
    TerminatedSplit(signature);
    assert lines == [lines[0]] + ExtraLines(signature);
    TerminatedHead(lines[0], ExtraLines(signature));
    TerminatedHead("# failure:" + lines[0], ExtraLines(signature));
    assert "# failure:" + lines[0] + "\n" + Terminated(ExtraLines(signature))
        == "# failure:" + (lines[0] + "\n" + Terminated(ExtraLines(signature)));
  }

  lemma {:induction false} ConfigOkAnywhere(r: Reader, r': Reader, fields: seq<string>)
    ensures ConfigFrom(r, fields).Ok? == ConfigFrom(r', fields).Ok?
    decreases |fields|
  {
    if fields != [] && ConfigField(r, fields[0]).Ok? {
      ConfigOkAnywhere(ConfigField(r, fields[0]).value, ConfigField(r', fields[0]).value, fields[1..]);
    }
  }

  /** Nothing is armed and nothing runs yet. */
  predicate Fresh(r: Reader) {
    r.pending == [] && r.plan.entries == []
  }

  lemma {:induction false} ConfigFresh(r: Reader, fields: seq<string>)
    requires Fresh(r)
    ensures var read := ConfigFrom(r, fields); read.Ok? ==> Fresh(read.value)
    decreases |fields|
  {
    if fields != [] && ConfigField(r, fields[0]).Ok? {
      ConfigFresh(ConfigField(r, fields[0]).value, fields[1..]);
    }
  }

  lemma {:induction false} HarmlessRead(r: Reader, lines: seq<string>, n: nat) returns (r': Reader)
    requires Fresh(r) && AllHarmless(lines)
    ensures Fresh(r') && ReadLines(r, lines, n) == Ok(r')
    decreases |lines|
  {
    if lines == [] {
      r' := r;
    } else {
      var line := lines[0];
      assert HarmlessLine(line);
      if line == "" || line[0] == '#' {
        r' := HarmlessRead(r, lines[1..], n + 1);
      } else {
        var fields := Split(line, '\t')[1..];
        ConfigOkAnywhere(r, UNREAD, fields);
        ConfigFresh(r, fields);
        r' := HarmlessRead(Pinned(ConfigFrom(r, fields).value), lines[1..], n + 1);
      }
    }
  }

  // ---- The whole file -----------------------------------------------------------------------------

  /** What stands above the config line, in lines. */
  function Above(signature: string): seq<string> {
    [TITLE] + SignatureLines(signature)
  }

  lemma FileText(c: Config, plan: Plan, signature: string, head: seq<string>, body: seq<string>)
    requires head == Above(signature) + [Line("config", ConfigFields(c, plan.toggles))]
    requires body == EntryLines(plan.entries)
    ensures Terminated(CaseLines(c, plan, signature)) == Terminated(head + body)
  {
    TerminatedJoined(HeadLines(c, plan.toggles, signature), body);
    TerminatedJoined(head, body);
    HeadText(signature, Line("config", ConfigFields(c, plan.toggles)));
  }

  lemma HeadText(signature: string, line: string)
    ensures Terminated([TITLE, "# failure:" + signature, line]) == Terminated(Above(signature) + [line])
  {
    TerminatedThree(TITLE, "# failure:" + signature, line);
    TerminatedOne(Above(signature), line);
    TerminatedHead(TITLE, SignatureLines(signature));
    SignatureText(signature);
    SameText(TITLE, "# failure:" + signature, line);
  }

  lemma SameText(a: string, b: string, c: string)
    ensures a + "\n" + (b + "\n") + c + "\n" == a + "\n" + b + "\n" + c + "\n"
  {}

  lemma CommentSkipped(r: Reader, text: string, n: nat)
    ensures ReadLine(r, "# failure:" + text, n) == Ok(r)
    ensures '\n' !in text ==> '\n' !in "# failure:" + text
  {
    assert ("# failure:" + text)[0] == '#';
  }

  lemma AboveNoNewline(signature: string)
    ensures NoNewline(Above(signature))
  {
    var lines := Split(signature, '\n');
    TitleLine();
    assert lines[0] in lines;
    CommentSkipped(UNREAD, lines[0], 0);
    assert forall l :: l in ExtraLines(signature) ==> l in lines;
  }

  /** Reading starts with the signature's extra lines: title and comment are skipped. */
  lemma AboveReads(r: Reader, signature: string)
    ensures ReadLines(r, Above(signature), 1) == ReadLines(r, ExtraLines(signature), 3)
  {
    var first := "# failure:" + Split(signature, '\n')[0];
    TitleLine();
    CommentSkipped(r, Split(signature, '\n')[0], 2);
    FirstRead(r, TITLE, SignatureLines(signature), 1, 2, r);
    FirstRead(r, first, ExtraLines(signature), 2, 3, r);
  }

  /** Whatever the settings above, the config line sets all of them. */
  lemma HeadReads(c: Config, t: Toggles, signature: string, line: string)
    requires Harmless(signature) && line == Line("config", ConfigFields(c, t))
    ensures ReadLines(UNREAD, Above(signature) + [line], 1) == Ok(Pinned(Configured(UNREAD, c, t)))
    ensures NoNewline(Above(signature) + [line])
  {
    AboveReads(UNREAD, signature);
    AboveNoNewline(signature);
    var r := HarmlessRead(UNREAD, ExtraLines(signature), 3);
    LastLine(UNREAD, Above(signature), line, 1, r);
    ConfigLineReads(r, c, t, 1 + |Above(signature)|);
    NoNewlineOne(line);
    NoNewlineJoined(Above(signature), [line]);
  }

  /** What a case file says of the run it came from. */
  function Reloaded(c: Config, plan: Plan): Loaded {
    Loaded(c.(toggles := Some(plan.toggles), iterations := 1), plan)
  }

  /** Below a harmless signature, a plan with unbroken fields reads back whole, unless it is
      empty or a signed value overflows, and then not at all. */
  lemma WrittenReads(c: Config, plan: Plan, signature: string)
    requires Harmless(signature) && AllWritable(plan.entries)
    ensures var read := ReadText(Terminated(CaseLines(c, plan, signature)));
            if plan.entries != [] && AllFit(plan.entries) then read == Ok(Reloaded(c, plan)) else read.Err?
  {
    var line, body := Line("config", ConfigFields(c, plan.toggles)), EntryLines(plan.entries);
    var head := Above(signature) + [line];
    FileText(c, plan, signature, head, body);
    HeadReads(c, plan.toggles, signature, line);
    EntriesFollow(c, plan, head);
  }

  lemma EntriesFollow(c: Config, plan: Plan, head: seq<string>)
    requires AllWritable(plan.entries) && NoNewline(head)
    requires ReadLines(UNREAD, head, 1) == Ok(Pinned(Configured(UNREAD, c, plan.toggles)))
    ensures var read := ReadText(Terminated(head + EntryLines(plan.entries)));
            if plan.entries != [] && AllFit(plan.entries) then read == Ok(Reloaded(c, plan)) else read.Err?
  {
    var r, n := Pinned(Configured(UNREAD, c, plan.toggles)), 1 + |head|;
    EntriesRead(r, plan.entries, n);
    BodyFollows(c, plan, r, head, EntryLines(plan.entries), ReadLines(r, EntryLines(plan.entries), n));
  }

  lemma FileReads(lines: seq<string>, read: Result<Reader>)
    requires NoNewline(lines) && read == ReadLines(UNREAD, lines, 1)
    ensures ReadFrom(UNREAD, Terminated(lines), 0, 0) == read
  {
    assert "" + Terminated(lines) == Terminated(lines);
    ReadTerminated(UNREAD, "", Terminated(lines), 0, lines, 0, 1);
  }

  lemma BodyFollows(c: Config, plan: Plan, r: Reader, head: seq<string>, body: seq<string>, read: Result<Reader>)
    requires r == Pinned(Configured(UNREAD, c, plan.toggles)) && ReadLines(UNREAD, head, 1) == Ok(r)
    requires read == ReadLines(r, body, 1 + |head|) && ReadsAs(r, plan.entries, read)
    requires NoNewline(head) && NoNewline(body)
    ensures var read := ReadText(Terminated(head + body));
            if plan.entries != [] && AllFit(plan.entries) then read == Ok(Reloaded(c, plan)) else read.Err?
  {
    NoNewlineJoined(head, body);
    FileReads(head + body, ReadLines(UNREAD, head + body, 1));
    ReadJoined(UNREAD, head, body, 1);
    assert [] + plan.entries == plan.entries;
  }

  // ---- Every op and fault line is in the plan ---------------------------------------------------------

  /** A line that arms a fault or runs an op. */
  predicate Adds(line: string) {
    line != "" && line[0] != '#' && Split(line, '\t')[0] != "config"
  }

  function Added(lines: seq<string>): nat
    decreases |lines|
  {
    if lines == [] then 0 else (if Adds(lines[0]) then 1 else 0) + Added(lines[1..])
  }

  function Load(entries: seq<Entry>): nat
    decreases |entries|
  {
    if entries == [] then 0 else Load(entries[..|entries| - 1]) + |entries[|entries| - 1].faults| + 1
  }

  function LoadOf(r: Reader): nat {
    Load(r.plan.entries) + |r.pending|
  }

  lemma LoadSnoc(entries: seq<Entry>, e: Entry)
    ensures Load(entries + [e]) == Load(entries) + |e.faults| + 1
  {
    assert (entries + [e])[..|entries|] == entries;
  }

  lemma {:induction false} ConfigKeepsPlan(r: Reader, fields: seq<string>)
    ensures var read := ConfigFrom(r, fields);
            read.Ok? ==> read.value.plan.entries == r.plan.entries && read.value.pending == r.pending
    decreases |fields|
  {
    if fields != [] && ConfigField(r, fields[0]).Ok? {
      ConfigKeepsPlan(ConfigField(r, fields[0]).value, fields[1..]);
    }
  }

  /** No line is read for nothing. */
  lemma LineLoads(r: Reader, line: string, n: nat)
    ensures var read := ReadLine(r, line, n);
            read.Ok? ==> LoadOf(read.value) == LoadOf(r) + (if Adds(line) then 1 else 0)
  {
    if line != "" && line[0] != '#' {
      FieldsLoad(r, Split(line, '\t'), n);
    }
  }

  lemma FieldsLoad(r: Reader, f: seq<string>, n: nat)
    requires f != []
    ensures var read := ReadFields(r, f, n);
            read.Ok? ==> LoadOf(read.value) == LoadOf(r) + (if f[0] != "config" then 1 else 0)
  {
    if f[0] == "config" {
      ConfigKeepsPlan(r, f[1..]);
    } else if f[0] == "op" && ReadOp(f, n).Ok? {
      LoadSnoc(r.plan.entries, Entry(ReadOp(f, n).value, r.pending));
    }
  }

  lemma {:induction false} LinesLoad(r: Reader, lines: seq<string>, n: nat)
    ensures var read := ReadLines(r, lines, n); read.Ok? ==> LoadOf(read.value) == LoadOf(r) + Added(lines)
    decreases |lines|
  {
    if lines != [] {
      LineLoads(r, lines[0], n);
      if ReadLine(r, lines[0], n).Ok? { LinesLoad(ReadLine(r, lines[0], n).value, lines[1..], n + 1); }
    }
  }

  lemma {:induction false} AddedJoined(a: seq<string>, b: seq<string>)
    ensures Added(a + b) == Added(a) + Added(b)
    decreases |a|
  {
    if a == [] {
      assert a + b == b;
    } else {
      assert (a + b)[1..] == a[1..] + b;
      AddedJoined(a[1..], b);
    }
  }

  lemma {:induction false} AllAdd(lines: seq<string>)
    requires forall l :: l in lines ==> Adds(l)
    ensures Added(lines) == |lines|
    decreases |lines|
  {
    if lines != [] {
      assert lines[0] in lines && forall l :: l in lines[1..] ==> l in lines;
      AllAdd(lines[1..]);
    }
  }

  lemma FaultLineAdds(f: FaultKind)
    ensures Adds(Line("fault", [FaultName(f)]))
  {
    FaultUnbroken(f);
    RecordSplits("fault", [FaultName(f)]);
  }

  lemma OpLineAdds(op: Op)
    requires Writable(op)
    ensures Adds(OpLine(op))
  {
    OpFieldsUnbroken(op);
    RecordSplits("op", OpFields(op));
  }

  lemma EntryAdds(e: Entry)
    requires Writable(e.op)
    ensures Added(LinesOf(e)) == |e.faults| + 1
  {
    forall l | l in FaultLines(e.faults) ensures Adds(l) {
      var i :| 0 <= i < |e.faults| && l == FaultLines(e.faults)[i];
      FaultLineAdds(e.faults[i]);
    }
    OpLineAdds(e.op);
    AllAdd(LinesOf(e));
  }

  lemma {:induction false} EntriesAdd(entries: seq<Entry>)
    requires AllWritable(entries)
    ensures Added(EntryLines(entries)) == Load(entries)
    decreases |entries|
  {
    if entries != [] {
      var front, last := entries[..|entries| - 1], entries[|entries| - 1];
      AllWritableSplit(entries);
      EntriesAdd(front);
      EntryAdds(last);
      AddedJoined(EntryLines(front), LinesOf(last));
    }
  }

  lemma {:induction false} NothingAddedHarmless(r: Reader, lines: seq<string>, n: nat)
    requires ReadLines(r, lines, n).Ok? && Added(lines) == 0
    ensures AllHarmless(lines)
    decreases |lines|
  {
    if lines != [] {
      var line := lines[0];
      NothingAddedHarmless(ReadLine(r, line, n).value, lines[1..], n + 1);
      if line != "" && line[0] != '#' { ConfigOkAnywhere(r, UNREAD, Split(line, '\t')[1..]); }
      assert HarmlessLine(line);
      forall i | 0 <= i < |lines| ensures HarmlessLine(lines[i]) {
        assert i > 0 ==> lines[i] == lines[1..][i - 1];
      }
    }
  }

  /** A file that gives its plan back read nothing but that plan: its signature added no
      op and no fault. */
  lemma ReloadedHarmless(c: Config, plan: Plan, signature: string)
    requires AllWritable(plan.entries)
    requires ReadText(Terminated(CaseLines(c, plan, signature))) == Ok(Reloaded(c, plan))
    ensures Harmless(signature)
  {
    var line, body := Line("config", ConfigFields(c, plan.toggles)), EntryLines(plan.entries);
    var head := Above(signature) + [line];
    FileText(c, plan, signature, head, body);
    AboveNoNewline(signature);
    ConfigLineReads(UNREAD, c, plan.toggles, 0);
    BodyNoNewline(plan.entries);
    NoNewlineOne(line);
    NoNewlineJoined(Above(signature), [line]);
    NoNewlineJoined(head, body);
    FileReads(head + body, ReadLines(UNREAD, head + body, 1));
    HeadAddsNothing(plan, signature, line, body, ReadLines(UNREAD, head + body, 1));
  }

  lemma BodyNoNewline(entries: seq<Entry>)
    requires AllWritable(entries)
    ensures NoNewline(EntryLines(entries))
  {
    EntriesRead(UNREAD, entries, 0);
  }

  lemma HeadAddsNothing(plan: Plan, signature: string, line: string, body: seq<string>, read: Result<Reader>)
    requires AllWritable(plan.entries) && body == EntryLines(plan.entries)
    requires read == ReadLines(UNREAD, Above(signature) + [line] + body, 1)
    requires read.Ok? && read.value.pending == [] && read.value.plan.entries == plan.entries
    ensures Harmless(signature)
  {
    var above := Above(signature);
    LinesLoad(UNREAD, above + [line] + body, 1);
    AddedJoined(above + [line], body);
    AddedJoined(above, [line]);
    EntriesAdd(plan.entries);
    assert Added(above) == 0;
    ReadJoined(UNREAD, above + [line], body, 1);
    ReadJoined(UNREAD, above, [line], 1);
    AboveReads(UNREAD, signature);
    AddedJoined([TITLE], SignatureLines(signature));
    AddedJoined(["# failure:" + Split(signature, '\n')[0]], ExtraLines(signature));
    NothingAddedHarmless(UNREAD, ExtraLines(signature), 3);
  }

  // ---- Signatures with an indented line -----------------------------------------------------------------

  /** The reader stops at a line that starts with a blank, whatever came before. */
  lemma {:induction false} IndentedStops(r: Reader, lines: seq<string>, n: nat, i: nat)
    requires i < |lines| && lines[i] != "" && lines[i][0] == ' '
    ensures ReadLines(r, lines, n).Err?
    decreases |lines|
  {
    if i == 0 {
      var f := Split(lines[0], '\t');
      IndentedTag(lines[0]);
      assert ReadFields(r, f, n).Err?;
    } else if ReadLine(r, lines[0], n).Ok? {
      IndentedStops(ReadLine(r, lines[0], n).value, lines[1..], n + 1, i - 1);
    }
  }

  lemma IndentedTag(line: string)
    requires line != "" && line[0] == ' '
    ensures var tag := Split(line, '\t')[0]; tag != "" && tag[0] == ' '
  {
    var k := Find(line, '\t', 0);
    assert k > 0 && line[..k][0] == ' ';
  }

  lemma SplitHead(head: string, tail: string)
    requires '\n' !in head
    ensures Split(head + ['\n'] + tail, '\n') == [head] + Split(tail, '\n')
  {
    var s := head + ['\n'] + tail;
    FindAt(head, '\n', tail);
    assert s[..|head|] == head && s[|head| + 1..] == tail;
  }

  lemma {:induction false} SplitJoined(a: string, b: string)
    ensures Split(a + ['\n'] + b, '\n') == Split(a, '\n') + Split(b, '\n')
    decreases |a|
  {
    var k := Find(a, '\n', 0);
    FindSkips(a, '\n', 0);
    assert a[0..k] == a[..k];
    if k == |a| {
      SplitHead(a, b);
    } else {
      var head, tail := a[..k], a[k + 1..];
      SplitJoined(tail, b);
      SplitHead(head, tail + ['\n'] + b);
      SplitOff(a, '\n', k, head, tail);
      Reassociate(a, k, head, tail, b);
      OneInFront(head, Split(tail, '\n'), Split(b, '\n'));
    }
  }

  lemma Reassociate(a: string, k: nat, head: string, tail: string, b: string)
    requires k < |a| && a[k] == '\n' && head == a[..k] && tail == a[k + 1..]
    ensures a + ['\n'] + b == head + ['\n'] + (tail + ['\n'] + b)
  {}

  lemma OneInFront(a: string, b: seq<string>, c: seq<string>)
    ensures [a] + (b + c) == [a] + b + c
  {}

  /** **A signature with an indented line makes a file nothing reads**, whatever the plan. */
  lemma IndentedUnreadable(c: Config, plan: Plan, a: string, b: string)
    requires b != "" && b[0] == ' '
    ensures ReadText(Terminated(CaseLines(c, plan, a + ['\n'] + b))).Err? && !Harmless(a + ['\n'] + b)
  {
    var signature := a + ['\n'] + b;
    var extra, i := ExtraLines(signature), |Split(a, '\n')| - 1;
    SplitJoined(a, b);
    assert extra[i] == Split(b, '\n')[0];
    IndentedFirst(b);
    IndentedTag(extra[i]);
    assert !HarmlessLine(extra[i]);
    IndentedStops(UNREAD, extra, 3, i);
    AboveReads(UNREAD, signature);
    FileStops(c, plan, signature);
  }

  lemma IndentedFirst(b: string)
    requires b != "" && b[0] == ' '
    ensures var line := Split(b, '\n')[0]; line != "" && line[0] == ' '
  {
    var k := Find(b, '\n', 0);
    assert k > 0 && b[..k][0] == ' ';
  }

  /** A line that stops the reader stops it whatever follows. */
  lemma {:induction false} ReadStops(r: Reader, prefix: string, text: string, at: nat, lines: seq<string>, tail: string,
                                     n: nat, m: nat)
    requires NoNewline(lines) && text == prefix + (Terminated(lines) + tail) && at == |prefix| && m == n + 1
    requires ReadLines(r, lines, m).Err?
    ensures ReadFrom(r, text, at, n).Err?
    decreases |lines|
  {
    var l, rest := lines[0], lines[1..];
    var prefix', m' := prefix + l + ['\n'], m + 1;
    assert l in lines && forall l' :: l' in rest ==> l' in lines;
    TailFollows(l, Terminated(rest), tail);
    ReadFirst(r, prefix, prefix', l, Terminated(rest) + tail, text, at, |prefix'|, n, m);
    ReadCons(r, lines, m, m', l, rest);
    if ReadLine(r, l, m).Ok? {
      ReadStops(ReadLine(r, l, m).value, prefix', text, |prefix'|, rest, tail, m, m');
    }
  }

  lemma TailFollows(line: string, rest: string, tail: string)
    ensures line + "\n" + rest + tail == line + ['\n'] + (rest + tail)
  {}

  lemma FileStops(c: Config, plan: Plan, signature: string)
    requires ReadLines(UNREAD, Above(signature), 1).Err?
    ensures ReadText(Terminated(CaseLines(c, plan, signature))).Err?
  {
    var line, body := Line("config", ConfigFields(c, plan.toggles)), EntryLines(plan.entries);
    var head := Above(signature) + [line];
    FileText(c, plan, signature, head, body);
    AboveNoNewline(signature);
    TextStops(Above(signature), line, head, body);
  }

  lemma HeadFirst(above: seq<string>, line: string, body: seq<string>)
    ensures above + [line] + body == above + ([line] + body)
  {}

  lemma TextStops(above: seq<string>, line: string, head: seq<string>, body: seq<string>)
    requires head == above + [line] && NoNewline(above) && ReadLines(UNREAD, above, 1).Err?
    ensures ReadText(Terminated(head + body)).Err?
  {
    HeadFirst(above, line, body);
    TerminatedJoined(above, [line] + body);
    var text, tail := Terminated(head + body), Terminated([line] + body);
    assert text == "" + (Terminated(above) + tail);
    ReadStops(UNREAD, "", text, 0, above, tail, 0, 1);
  }

  // ---- Nothing else comes back ---------------------------------------------------------------------

  lemma {:induction false} SplitWithin(s: string, sep: char)
    ensures forall f, c :: f in Split(s, sep) && c in f ==> c in s
    decreases |s|
  {
    var k := Find(s, sep, 0);
    if k < |s| {
      SplitWithin(s[k + 1..], sep);
      forall f, c | f in Split(s, sep) && c in f ensures c in s {
        assert f == s[..k] || f in Split(s[k + 1..], sep);
      }
    }
  }

  lemma ReadLineWritable(r: Reader, line: string, n: nat)
    requires '\n' !in line && AllWritable(r.plan.entries)
    ensures var read := ReadLine(r, line, n); read.Ok? ==> AllWritable(read.value.plan.entries)
  {
    if line != "" && line[0] != '#' {
      var f := Split(line, '\t');
      SplitWithin(line, '\t');
      assert AllUnbroken(f);
      FieldsWritable(r, f, n);
    }
  }

  lemma FieldsWritable(r: Reader, f: seq<string>, n: nat)
    requires f != [] && AllUnbroken(f) && AllWritable(r.plan.entries)
    ensures var read := ReadFields(r, f, n); read.Ok? ==> AllWritable(read.value.plan.entries)
  {
    if f[0] == "config" {
      ConfigWritable(r, f[1..]);
    } else if f[0] == "op" && ReadOp(f, n).Ok? {
      assert f[2] in f && f[11] in f && f[12] in f;
    }
  }

  lemma {:induction false} ConfigWritable(r: Reader, fields: seq<string>)
    ensures var read := ConfigFrom(r, fields); read.Ok? ==> read.value.plan.entries == r.plan.entries
    decreases |fields|
  {
    if fields != [] && ConfigField(r, fields[0]).Ok? {
      ConfigWritable(ConfigField(r, fields[0]).value, fields[1..]);
    }
  }

  lemma {:induction false} ReadWritable(r: Reader, text: string, at: nat, n: nat)
    requires at <= |text| && AllWritable(r.plan.entries)
    ensures var read := ReadFrom(r, text, at, n); read.Ok? ==> AllWritable(read.value.plan.entries)
    decreases |text| - at
  {
    if at < |text| {
      var next := Find(text, '\n', at);
      var step := ReadLine(r, text[at..next], n + 1);
      FindSkips(text, '\n', at);
      ReadLineWritable(r, text[at..next], n + 1);
      if step.Ok? {
        ReadWritable(step.value, text, if next == |text| then next else next + 1, n + 1);
      }
    }
  }

  /** **The round trip.** ReadCase gives back what WriteCase was given — the entries with
      their fault lists, the toggles, seed, mode, profiles and gates — exactly when the
      plan holds an op, no text field holds a tab or a newline, no signed value is
      INT64_MIN, and each line of the signature after its first is blank, a comment or
      settings that parse. */
  lemma RoundTrip(c: Config, plan: Plan, signature: string)
    ensures ReadText(Terminated(CaseLines(c, plan, signature))) == Ok(Reloaded(c, plan)) <==>
            plan.entries != [] && AllWritable(plan.entries) && AllFit(plan.entries) && Harmless(signature)
  {
    var text := Terminated(CaseLines(c, plan, signature));
    if !AllWritable(plan.entries) {
      ReadWritable(UNREAD, text, 0, 0);
    } else if Harmless(signature) {
      WrittenReads(c, plan, signature);
    } else if ReadText(text) == Ok(Reloaded(c, plan)) {
      ReloadedHarmless(c, plan, signature);
    }
  }
}
