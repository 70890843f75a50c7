/** sim/integrity.cpp: the tuple sweep, which keeps four running numbers instead of the
    pages it has seen, and the walk over a var-heap chain that may not end. What the walk
    calls the sweep with, and the pages of the store, are inputs. */
module Integrity {
  import opened Optional

  /** The largest id a keystone has room for. */
  const MAX_KEYSTONE_ID: nat := 0xFF_FFFF_FFFF

  /** A slot as the sweep meets it: dead, not decodable, decodable but without an id it
      can use, or a row with its keystone's reserved bits and its writer; `n` is the slot's
      number on its page. */
  datatype Slot =
    | Dead | Undecodable(n: nat) | WrongSize(n: nat) | BadKeystone(n: nat)
    | Live(n: nat, id: nat, reserved: nat, trx: nat)

  /** A page as the sweep meets it: the slots it is called with before it is called with
      another page's. */
  datatype Page = Page(id: nat, minKey: nat, slots: seq<Slot>)

  datatype Finding =
    | NotAbovePredecessors(page: nat)
    | RowUndecodable(page: nat, slot: nat) | RowWrongSize(page: nat, slot: nat) | NoKeystone(page: nat, slot: nat)
    | ReservedBits(page: nat, id: nat) | IdTooLarge(page: nat, slot: nat)
    | BelowMinKey(page: nat, id: nat)
    | TrxNeverIssued(page: nat, id: nat, trx: nat)
    | WalkFailed(page: nat)

  /** What a slot adds to the maximum of its page: a tuple without an id counts as zero. */
  function KeyOf(s: Slot): Option<nat> {
    match s
    case Dead | Undecodable(_) => None
    case WrongSize(_) | BadKeystone(_) => Some(0)
    case Live(_, id, _, _) => Some(id)
  }

  predicate Below(s: Slot, minKey: nat) {
    s.Live? && s.id < minKey
  }

  /** A transaction id the superblock, where it decoded, has not issued. */
  predicate NeverIssued(trx: nat, nextTrx: nat) {
    nextTrx != 0 && trx >= nextTrx
  }

  // ---- What is to be found -------------------------------------------------------------

  predicate Reaches(slots: seq<Slot>, key: nat) {
    exists k :: 0 <= k < |slots| && KeyOf(slots[k]).Some? && KeyOf(slots[k]).value >= key
  }

  /** Some page of these holds a key that reaches `key`. */
  predicate Overlapped(before: seq<Page>, key: nat) {
    exists i :: 0 <= i < |before| && Reaches(before[i].slots, key)
  }

  /** What one slot of a page is found guilty of. */
  function SlotFindings(page: nat, minKey: nat, s: Slot, nextTrx: nat): seq<Finding> {
    match s
    case Dead => []
    case Undecodable(n) => [RowUndecodable(page, n)]
    case WrongSize(n) => [RowWrongSize(page, n)]
    case BadKeystone(n) => [NoKeystone(page, n)]
    case Live(n, id, reserved, trx) =>
      (if reserved != 0 then [ReservedBits(page, id)] else [])
      + (if id > MAX_KEYSTONE_ID then [IdTooLarge(page, n)] else [])
      + (if id < minKey then [BelowMinKey(page, id)] else [])
      + (if NeverIssued(trx, nextTrx) then [TrxNeverIssued(page, id, trx)] else [])
  }

  function SlotsFindings(page: nat, minKey: nat, slots: seq<Slot>, nextTrx: nat): seq<Finding> {
    if slots == [] then []
    else SlotsFindings(page, minKey, slots[..|slots| - 1], nextTrx)
         + SlotFindings(page, minKey, slots[|slots| - 1], nextTrx)
  }

  ghost function Header(before: seq<Page>, page: nat, minKey: nat): seq<Finding> {
    if Overlapped(before, minKey) then [NotAbovePredecessors(page)] else []
  }

  /** A page is found guilty by its slots and by the pages before it; one none of whose
      slots was met is not met itself. */
  ghost function PageFindings(before: seq<Page>, p: Page, nextTrx: nat): seq<Finding> {
    if p.slots == [] then []
    else Header(before, p.id, p.minKey) + SlotsFindings(p.id, p.minKey, p.slots, nextTrx)
  }

  ghost function Findings(pages: seq<Page>, nextTrx: nat): seq<Finding> {
    if pages == [] then []
    else
      var m := |pages| - 1;
      Findings(pages[..m], nextTrx) + PageFindings(pages[..m], pages[m], nextTrx)
  }

  /** The pages the walk from `root` met, and whether it got to the end. */
  ghost function Swept(pages: seq<Page>, nextTrx: nat, walked: bool, root: nat): seq<Finding> {
    Findings(pages, nextTrx) + (if walked then [] else [WalkFailed(root)])
  }

  lemma SlotsMore(page: nat, minKey: nat, slots: seq<Slot>, s: Slot, nextTrx: nat)
    ensures SlotsFindings(page, minKey, slots + [s], nextTrx)
         == SlotsFindings(page, minKey, slots, nextTrx) + SlotFindings(page, minKey, s, nextTrx)
  {
    assert (slots + [s])[..|slots|] == slots;
  }

  lemma PagesMore(before: seq<Page>, p: Page, nextTrx: nat)
    ensures Findings(before + [p], nextTrx) == Findings(before, nextTrx) + PageFindings(before, p, nextTrx)
  {
    assert (before + [p])[..|before|] == before;
  }

  // ---- What the accumulators hold -----------------------------------------------------------

  /** `has` and `max` say which keys are reached: the one fact the sweep keeps of a page, ... */
  ghost predicate Sums(slots: seq<Slot>, has: bool, max: nat) {
    forall key: nat :: Reaches(slots, key) <==> has && max >= key
  }

  /** ... and of the pages before it. */
  ghost predicate SumsPages(before: seq<Page>, has: bool, max: nat) {
    forall key: nat :: Overlapped(before, key) <==> has && max >= key
  }

  lemma ReachesOneMore(slots: seq<Slot>, s: Slot, key: nat)
    ensures Reaches(slots + [s], key) <==> Reaches(slots, key) || (KeyOf(s).Some? && KeyOf(s).value >= key)
  {
    var longer := slots + [s];
    if Reaches(slots, key) {
      var i :| 0 <= i < |slots| && KeyOf(slots[i]).Some? && KeyOf(slots[i]).value >= key;
      assert longer[i] == slots[i];
    }
    assert longer[|slots|] == s;
  }

  function Max(a: nat, b: nat): nat {
    if a < b then b else a
  }

  lemma SumsSlot(slots: seq<Slot>, s: Slot, has: bool, max: nat)
    requires Sums(slots, has, max) && (!has ==> max == 0)
    ensures var key := KeyOf(s);
            if key.None? then Sums(slots + [s], has, max) else Sums(slots + [s], true, Max(max, key.value))
  {
    var slot, longer := KeyOf(s), slots + [s];
    forall key: nat
      ensures Reaches(longer, key) <==> if slot.None? then has && max >= key else Max(max, slot.value) >= key
    {
      ReachesOneMore(slots, s, key);
      assert Reaches(slots, key) <==> has && max >= key;
    }
  }

  lemma OverlapOneMore(before: seq<Page>, p: Page, key: nat)
    ensures Overlapped(before + [p], key) <==> Overlapped(before, key) || Reaches(p.slots, key)
  {
    var longer := before + [p];
    if Overlapped(before, key) {
      var i :| 0 <= i < |before| && Reaches(before[i].slots, key);
      assert longer[i] == before[i];
    }
    assert longer[|before|] == p;
  }

  lemma SumsPage(before: seq<Page>, p: Page, has: bool, max: nat, pageHas: bool, pageMax: nat)
    requires SumsPages(before, has, max) && Sums(p.slots, pageHas, pageMax) && (!has ==> max == 0)
    ensures SumsPages(before + [p], has || pageHas, if pageHas then Max(max, pageMax) else max)
  {
    var has', max', longer := has || pageHas, if pageHas then Max(max, pageMax) else max, before + [p];
    forall key: nat ensures Overlapped(longer, key) <==> has' && max' >= key {
      OverlapOneMore(before, p, key);
      assert Overlapped(before, key) <==> has && max >= key;
      assert Reaches(p.slots, key) <==> pageHas && pageMax >= key;
    }
  }

  // ---- The sweep -------------------------------------------------------------------------------

  /** The visitor's arguments: a page's id, its min_key, one of its slots. */
  datatype Call = Call(page: nat, minKey: nat, slot: Slot)

  /** The pages met: those before the current one, and that one. */
  datatype Met = Nothing | Met(before: seq<Page>, page: Page) {
    function Pages(): seq<Page> {
      if Nothing? then [] else before + [page]
    }
  }

  /** A page met again after another is met anew; one met again at once goes on. */
  function Joined(met: Met, c: Call): Met {
    if met.Met? && met.page.id == c.page then
      Met(met.before, met.page.(slots := met.page.slots + [c.slot]))
    else Met(met.Pages(), Page(c.page, c.minKey, [c.slot]))
  }

  function Grouped(calls: seq<Call>): Met {
    if calls == [] then Nothing else Joined(Grouped(calls[..|calls| - 1]), calls[|calls| - 1])
  }

  /** The sweep's running variables. */
  datatype Sweep = Sweep(
    found: seq<Finding>, current: Option<nat>, minKey: nat, prevMax: nat, havePrev: bool, max: nat, has: bool)

  ghost predicate Tracks(met: Met, nextTrx: nat, s: Sweep) {
    && (!s.havePrev ==> s.prevMax == 0) && (!s.has ==> s.max == 0)
    && match met
       case Nothing => s.found == [] && s.current.None? && !s.havePrev && !s.has
       case Met(before, p) =>
         && s.found == Findings(before, nextTrx) + PageFindings(before, p, nextTrx)
         && s.current == Some(p.id) && s.minKey == p.minKey && p.slots != []
         && SumsPages(before, s.havePrev, s.prevMax) && Sums(p.slots, s.has, s.max)
  }

  lemma Regrouped(a: seq<Finding>, b: seq<Finding>, c: seq<Finding>)
    ensures a + b + c == a + (b + c)
  {}

  /** The findings on a row, one after another. */
  method VisitRow(page: nat, minKey: nat, row: Slot, nextTrx: nat, found: seq<Finding>) returns (found': seq<Finding>)
    requires row.Live?
    ensures found' == found + SlotFindings(page, minKey, row, nextTrx)
  {
    var a, b, c, d: seq<Finding> := [], [], [], [];
    if row.reserved != 0 { a := [ReservedBits(page, row.id)]; }
    if row.id > MAX_KEYSTONE_ID { b := [IdTooLarge(page, row.n)]; }
    if row.id < minKey { c := [BelowMinKey(page, row.id)]; }
    if NeverIssued(row.trx, nextTrx) { d := [TrxNeverIssued(page, row.id, row.trx)]; }
    found' := found + a + b + c + d;
    Gathered(found, a, b, c, d);
  }

  lemma Gathered(found: seq<Finding>, a: seq<Finding>, b: seq<Finding>, c: seq<Finding>, d: seq<Finding>)
    ensures found + a + b + c + d == found + (a + b + c + d)
  {}

  /** One slot of the current page. */
  method VisitSlot(page: nat, minKey: nat, slot: Slot, nextTrx: nat, ghost before: seq<Slot>,
                   max: nat, has: bool, found: seq<Finding>)
    returns (max': nat, has': bool, found': seq<Finding>)
    requires Sums(before, has, max) && (!has ==> max == 0)
    ensures Sums(before + [slot], has', max') && (!has' ==> max' == 0)
    ensures found' == found + SlotFindings(page, minKey, slot, nextTrx)
  {
    max', has', found' := max, has, found;
    SumsSlot(before, slot, has, max);
    if slot.Dead? { return; }
    if slot.Undecodable? {
      found' := found + [RowUndecodable(page, slot.n)];
      return;
    }
    has' := true;
    if slot.WrongSize? {
      found' := found + [RowWrongSize(page, slot.n)];
      return;
    }
    if slot.BadKeystone? {
      found' := found + [NoKeystone(page, slot.n)];
      return;
    }
    max' := Max(max', slot.id);
    found' := VisitRow(page, minKey, slot, nextTrx, found);
  }

  /** The maximum over the pages before, once the current page is folded in. */
  lemma FoldedIn(met: Met, nextTrx: nat, s: Sweep, prevMax: nat, havePrev: bool)
    requires Tracks(met, nextTrx, s)
    requires prevMax == if s.has then Max(s.prevMax, s.max) else s.prevMax
    requires havePrev == (s.havePrev || s.has)
    ensures s.found == Findings(met.Pages(), nextTrx) && SumsPages(met.Pages(), havePrev, prevMax)
  {
    if met.Met? {
      PagesMore(met.before, met.page, nextTrx);
      SumsPage(met.before, met.page, s.havePrev, s.prevMax, s.has, s.max);
    }
  }

  /** A page that is not the current one: the page before it is folded into the maximum,
      and the header compared. */
  method OnNewPage(ghost met: Met, c: Call, nextTrx: nat, s: Sweep) returns (s': Sweep)
    requires Tracks(met, nextTrx, s)
    ensures s'.current == Some(c.page) && s'.minKey == c.minKey && !s'.has && s'.max == 0
    ensures (!s'.havePrev ==> s'.prevMax == 0) && SumsPages(met.Pages(), s'.havePrev, s'.prevMax)
    ensures s'.found == Findings(met.Pages(), nextTrx) + Header(met.Pages(), c.page, c.minKey)
  {
    var prevMax, havePrev := s.prevMax, s.havePrev;
    if s.current.Some? && s.has {
      prevMax := Max(prevMax, s.max);
      havePrev := true;
    }
    FoldedIn(met, nextTrx, s, prevMax, havePrev);
    var found := s.found;
    assert Overlapped(met.Pages(), c.minKey) <==> havePrev && prevMax >= c.minKey;
    if havePrev && prevMax >= c.minKey { found := found + [NotAbovePredecessors(c.page)]; }
    s' := Sweep(found, Some(c.page), c.minKey, prevMax, havePrev, 0, false);
  }

  lemma OneSlot(page: nat, minKey: nat, s: Slot, nextTrx: nat)
    ensures SlotsFindings(page, minKey, [s], nextTrx) == SlotFindings(page, minKey, s, nextTrx)
  {
    assert [s][..0] == [] && SlotsFindings(page, minKey, [], nextTrx) == [];
  }

  lemma FirstSlot(before: seq<Page>, p: Page, s: Slot, nextTrx: nat, found: seq<Finding>, header: seq<Finding>, slot: seq<Finding>)
    requires p.slots == [s] && header == Header(before, p.id, p.minKey) && found == Findings(before, nextTrx)
    requires slot == SlotFindings(p.id, p.minKey, s, nextTrx)
    ensures found + header + slot == found + PageFindings(before, p, nextTrx)
  {
    OneSlot(p.id, p.minKey, s, nextTrx);
    Regrouped(found, header, slot);
  }

  lemma NextSlot(before: seq<Page>, p: Page, s: Slot, nextTrx: nat, found: seq<Finding>)
    requires found == Findings(before, nextTrx) + PageFindings(before, p, nextTrx) && p.slots != []
    ensures found + SlotFindings(p.id, p.minKey, s, nextTrx)
         == Findings(before, nextTrx) + PageFindings(before, p.(slots := p.slots + [s]), nextTrx)
  {
    SlotsMore(p.id, p.minKey, p.slots, s, nextTrx);
    var slot := SlotFindings(p.id, p.minKey, s, nextTrx);
    Regrouped(Header(before, p.id, p.minKey), SlotsFindings(p.id, p.minKey, p.slots, nextTrx), slot);
    Regrouped(Findings(before, nextTrx), PageFindings(before, p, nextTrx), slot);
  }

  /** The first slot of a page that is not the current one. */
  method VisitNew(ghost met: Met, c: Call, nextTrx: nat, s: Sweep) returns (s': Sweep)
    requires Tracks(met, nextTrx, s) && s.current != Some(c.page)
    ensures Tracks(Met(met.Pages(), Page(c.page, c.minKey, [c.slot])), nextTrx, s')
  {
    s' := OnNewPage(met, c, nextTrx, s);
    FirstSlot(met.Pages(), Page(c.page, c.minKey, [c.slot]), c.slot, nextTrx, Findings(met.Pages(), nextTrx),
              Header(met.Pages(), c.page, c.minKey), SlotFindings(c.page, c.minKey, c.slot, nextTrx));
    assert [] + [c.slot] == [c.slot];
    var max, has, found := VisitSlot(c.page, c.minKey, c.slot, nextTrx, [], 0, false, s'.found);
    s' := s'.(max := max, has := has, found := found);
  }

  /** One more slot of the current page. */
  method VisitMore(ghost before: seq<Page>, ghost p: Page, slot: Slot, nextTrx: nat, s: Sweep) returns (s': Sweep)
    requires Tracks(Met(before, p), nextTrx, s)
    ensures Tracks(Met(before, p.(slots := p.slots + [slot])), nextTrx, s')
  {
    NextSlot(before, p, slot, nextTrx, s.found);
    var max, has, found := VisitSlot(s.current.value, s.minKey, slot, nextTrx, p.slots, s.max, s.has, s.found);
    s' := s.(max := max, has := has, found := found);
  }

  /** One call of the visitor. */
  method Visit(ghost met: Met, c: Call, nextTrx: nat, s: Sweep) returns (s': Sweep)
    requires Tracks(met, nextTrx, s)
    ensures Tracks(Joined(met, c), nextTrx, s')
  {
    if s.current != Some(c.page) {
      s' := VisitNew(met, c, nextTrx, s);
    } else {
      s' := VisitMore(met.before, met.page, c.slot, nextTrx, s);
    }
  }

  lemma GroupedMore(calls: seq<Call>, k: nat, m: nat)
    requires k < |calls| && m == k + 1
    ensures Grouped(calls[..m]) == Joined(Grouped(calls[..k]), calls[k])
  {
    assert calls[..m][..k] == calls[..k];
  }

  /** The calls of the walk, one after another. */
  method VisitAll(calls: seq<Call>, nextTrx: nat) returns (s: Sweep)
    ensures Tracks(Grouped(calls), nextTrx, s)
  {
    s := Sweep([], None, 0, 0, false, 0, false);
    ghost var met := Grouped([]);
    for k := 0 to |calls|
      invariant met == Grouped(calls[..k]) && Tracks(met, nextTrx, s)
    {
      GroupedMore(calls, k, k + 1);
      s := Visit(met, calls[k], nextTrx, s);
      met := Joined(met, calls[k]);
    }
    assert calls[..|calls|] == calls;
  }

  /** SweepTuples: one pass over whatever the walk calls it with, in any order and however
      often, and every finding of the pages as it met them. */
  method SweepTuples(calls: seq<Call>, nextTrx: nat, walked: bool, root: nat) returns (found: seq<Finding>)
    ensures found == Swept(Grouped(calls).Pages(), nextTrx, walked, root)
  {
    var s := VisitAll(calls, nextTrx);
    FoldedIn(Grouped(calls), nextTrx, s, if s.has then Max(s.prevMax, s.max) else s.prevMax, s.havePrev || s.has);
    found := s.found;
    if !walked { found := found + [WalkFailed(root)]; }
  }

  // ---- What a clean sweep means -------------------------------------------------------------------

  /** The ordering a chain must keep: ids at or above their page's min_key, and below the
      min_key of every later page that holds anything. */
  ghost predicate Ordered(pages: seq<Page>) {
    && (forall j, k :: 0 <= j < |pages| && 0 <= k < |pages[j].slots| ==> !Below(pages[j].slots[k], pages[j].minKey))
    && (forall i, j :: 0 <= i < j < |pages| && pages[j].slots != [] ==> !Reaches(pages[i].slots, pages[j].minKey))
  }

  ghost predicate PageOrdered(before: seq<Page>, p: Page) {
    && (forall k :: 0 <= k < |p.slots| ==> !Below(p.slots[k], p.minKey))
    && (p.slots != [] ==> !Overlapped(before, p.minKey))
  }

  lemma OrderedMore(before: seq<Page>, p: Page)
    ensures Ordered(before + [p]) <==> Ordered(before) && PageOrdered(before, p)
  {
    var pages, m := before + [p], |before|;
    assert pages[m] == p && forall i :: 0 <= i < m ==> pages[i] == before[i];
    if Ordered(pages) {
      forall k | 0 <= k < |p.slots| ensures !Below(p.slots[k], p.minKey) {
        assert !Below(pages[m].slots[k], pages[m].minKey);
      }
      forall i | 0 <= i < m && p.slots != [] ensures !Reaches(before[i].slots, p.minKey) {
        assert !Reaches(pages[i].slots, pages[m].minKey);
      }
    }
  }

  predicate ChainOrder(f: Finding) {
    f.NotAbovePredecessors? || f.BelowMinKey?
  }

  /** Nothing found at all, or nothing about the order of the chain. */
  predicate Clear(found: seq<Finding>, all: bool) {
    if all then found == [] else forall f :: f in found ==> !ChainOrder(f)
  }

  lemma ClearSum(a: seq<Finding>, b: seq<Finding>, all: bool)
    ensures Clear(a + b, all) <==> Clear(a, all) && Clear(b, all)
  {
    assert |a + b| == |a| + |b|;
    assert forall f :: f in a + b <==> f in a || f in b;
  }

  /** A slot that says nothing but a row's id and writer, both of which can be. */
  predicate Sound(s: Slot, nextTrx: nat) {
    s.Dead? || (s.Live? && s.reserved == 0 && s.id <= MAX_KEYSTONE_ID && !NeverIssued(s.trx, nextTrx))
  }

  lemma OneClear(f: Finding, all: bool)
    ensures Clear([f], all) <==> !all && !ChainOrder(f)
  {
    assert f in [f];
  }

  lemma SlotClear(page: nat, minKey: nat, s: Slot, nextTrx: nat, all: bool)
    ensures Clear(SlotFindings(page, minKey, s, nextTrx), all) == Fine(s, minKey, nextTrx, all)
  {
    match s
    case Dead =>
    case Undecodable(n) => OneClear(RowUndecodable(page, n), all);
    case WrongSize(n) => OneClear(RowWrongSize(page, n), all);
    case BadKeystone(n) => OneClear(NoKeystone(page, n), all);
    case Live(n, id, reserved, trx) =>
      var a := if reserved != 0 then [ReservedBits(page, id)] else [];
      var b := if id > MAX_KEYSTONE_ID then [IdTooLarge(page, n)] else [];
      var c := if id < minKey then [BelowMinKey(page, id)] else [];
      var d := if NeverIssued(trx, nextTrx) then [TrxNeverIssued(page, id, trx)] else [];
      ClearSum(a + b + c, d, all);
      ClearSum(a + b, c, all);
      ClearSum(a, b, all);
      OneClear(BelowMinKey(page, id), all);
  }

  predicate Fine(s: Slot, minKey: nat, nextTrx: nat, all: bool) {
    !Below(s, minKey) && (all ==> Sound(s, nextTrx))
  }

  predicate AllFine(slots: seq<Slot>, minKey: nat, nextTrx: nat, all: bool) {
    forall k :: 0 <= k < |slots| ==> Fine(slots[k], minKey, nextTrx, all)
  }

  lemma FineMore(slots: seq<Slot>, s: Slot, minKey: nat, nextTrx: nat, all: bool)
    ensures AllFine(slots + [s], minKey, nextTrx, all) <==>
            AllFine(slots, minKey, nextTrx, all) && Fine(s, minKey, nextTrx, all)
  {
    var longer := slots + [s];
    assert longer[|slots|] == s && forall k :: 0 <= k < |slots| ==> longer[k] == slots[k];
  }

  lemma OneMoreClear(found: seq<Finding>, slot: seq<Finding>, slots: seq<Slot>, s: Slot, minKey: nat, nextTrx: nat, all: bool)
    requires Clear(found, all) == AllFine(slots, minKey, nextTrx, all)
    requires Clear(slot, all) == Fine(s, minKey, nextTrx, all)
    ensures Clear(found + slot, all) == AllFine(slots + [s], minKey, nextTrx, all)
  {
    ClearSum(found, slot, all);
    FineMore(slots, s, minKey, nextTrx, all);
  }

  lemma SlotsClearMore(page: nat, minKey: nat, slots: seq<Slot>, s: Slot, nextTrx: nat, all: bool)
    requires Clear(SlotsFindings(page, minKey, slots, nextTrx), all) == AllFine(slots, minKey, nextTrx, all)
    ensures Clear(SlotsFindings(page, minKey, slots + [s], nextTrx), all) == AllFine(slots + [s], minKey, nextTrx, all)
  {
    SlotsMore(page, minKey, slots, s, nextTrx);
    SlotClear(page, minKey, s, nextTrx, all);
    OneMoreClear(SlotsFindings(page, minKey, slots, nextTrx), SlotFindings(page, minKey, s, nextTrx),
                 slots, s, minKey, nextTrx, all);
  }

  lemma {:induction false} SlotsClear(page: nat, minKey: nat, slots: seq<Slot>, nextTrx: nat, all: bool)
    ensures Clear(SlotsFindings(page, minKey, slots, nextTrx), all) == AllFine(slots, minKey, nextTrx, all)
  {
    if slots == [] {
      NoSlotsClear(page, minKey, nextTrx, all);
    } else {
      var front, last := slots[..|slots| - 1], slots[|slots| - 1];
      assert slots == front + [last];
      SlotsClear(page, minKey, front, nextTrx, all);
      SlotsClearMore(page, minKey, front, last, nextTrx, all);
    }
  }

  lemma NoSlotsClear(page: nat, minKey: nat, nextTrx: nat, all: bool)
    ensures Clear(SlotsFindings(page, minKey, [], nextTrx), all) && AllFine([], minKey, nextTrx, all)
  {
    assert SlotsFindings(page, minKey, [], nextTrx) == [];
  }

  predicate PageSound(p: Page, nextTrx: nat) {
    forall k :: 0 <= k < |p.slots| ==> Sound(p.slots[k], nextTrx)
  }

  lemma PageClear(before: seq<Page>, p: Page, nextTrx: nat, all: bool)
    ensures Clear(PageFindings(before, p, nextTrx), all) <==>
            PageOrdered(before, p) && (all ==> PageSound(p, nextTrx))
  {
    SlotsClear(p.id, p.minKey, p.slots, nextTrx, all);
    ClearSum(Header(before, p.id, p.minKey), SlotsFindings(p.id, p.minKey, p.slots, nextTrx), all);
    OneClear(NotAbovePredecessors(p.id), all);
  }

  predicate AllSound(pages: seq<Page>, nextTrx: nat) {
    forall j :: 0 <= j < |pages| ==> PageSound(pages[j], nextTrx)
  }

  lemma {:induction false} ChainClear(pages: seq<Page>, nextTrx: nat, all: bool)
    ensures Clear(Findings(pages, nextTrx), all) <==> Ordered(pages) && (all ==> AllSound(pages, nextTrx))
  {
    if pages != [] {
      var before, p := pages[..|pages| - 1], pages[|pages| - 1];
      assert pages == before + [p];
      ChainClear(before, nextTrx, all);
      ClearSum(Findings(before, nextTrx), PageFindings(before, p, nextTrx), all);
      PageClear(before, p, nextTrx, all);
      OrderedMore(before, p);
    }
  }

  /** **The accumulators are exact**: the sweep reports nothing about the order exactly when
      the quantified ordering holds over the whole chain, whatever else it reports; and
      nothing at all exactly when every slot is sound besides. */
  lemma CleanMeansOrdered(pages: seq<Page>, nextTrx: nat)
    ensures Clear(Findings(pages, nextTrx), false) <==> Ordered(pages)
    ensures Findings(pages, nextTrx) == [] <==> Ordered(pages) && AllSound(pages, nextTrx)
  {
    ChainClear(pages, nextTrx, false);
    ChainClear(pages, nextTrx, true);
  }

  predicate Holds(p: Page, id: nat) {
    exists k :: 0 <= k < |p.slots| && p.slots[k].Live? && p.slots[k].id == id
  }

  /** The chain invariant on ids alone. */
  ghost predicate OrderedIds(pages: seq<Page>) {
    && (forall j, id: nat :: 0 <= j < |pages| && Holds(pages[j], id) ==> pages[j].minKey <= id)
    && (forall i, j, id: nat :: 0 <= i < j < |pages| && pages[j].slots != [] && Holds(pages[i], id) ==> id < pages[j].minKey)
  }

  lemma HeldReaches(p: Page, id: nat, key: nat)
    requires Holds(p, id) && !Reaches(p.slots, key)
    ensures id < key
  {
    var k :| 0 <= k < |p.slots| && p.slots[k].Live? && p.slots[k].id == id;
    assert KeyOf(p.slots[k]) == Some(id);
  }

  lemma OrderedGivesIds(pages: seq<Page>)
    requires Ordered(pages)
    ensures OrderedIds(pages)
  {
    forall j, id: nat | 0 <= j < |pages| && Holds(pages[j], id) ensures pages[j].minKey <= id {
      var k :| 0 <= k < |pages[j].slots| && pages[j].slots[k].Live? && pages[j].slots[k].id == id;
      assert !Below(pages[j].slots[k], pages[j].minKey);
    }
    forall i, j, id: nat | 0 <= i < j < |pages| && pages[j].slots != [] && Holds(pages[i], id)
      ensures id < pages[j].minKey
    {
      HeldReaches(pages[i], id, pages[j].minKey);
    }
  }

  lemma IdsGiveOrdered(pages: seq<Page>, nextTrx: nat)
    requires AllSound(pages, nextTrx) && OrderedIds(pages)
    ensures Ordered(pages)
  {
    assert forall j, k :: 0 <= j < |pages| && 0 <= k < |pages[j].slots| ==> Sound(pages[j].slots[k], nextTrx);
    forall j, k | 0 <= j < |pages| && 0 <= k < |pages[j].slots|
      ensures !Below(pages[j].slots[k], pages[j].minKey)
    {
      if pages[j].slots[k].Live? { assert Holds(pages[j], pages[j].slots[k].id); }
    }
    forall i, j | 0 <= i < j < |pages| && pages[j].slots != []
      ensures !Reaches(pages[i].slots, pages[j].minKey)
    {
      forall k | 0 <= k < |pages[i].slots| && KeyOf(pages[i].slots[k]).Some?
        ensures KeyOf(pages[i].slots[k]).value < pages[j].minKey
      {
        assert Holds(pages[i], pages[i].slots[k].id);
      }
    }
  }

  /** **A clean sweep** says that the walk reached the end, that every slot is dead or a row
      of the right size with a keystone and a writer that can be, that every id is at least
      its page's min_key and that every id on an earlier page is below every later page's
      min_key; and conversely. */
  lemma CleanMeansSound(pages: seq<Page>, nextTrx: nat, walked: bool, root: nat)
    ensures Swept(pages, nextTrx, walked, root) == [] <==>
            walked && AllSound(pages, nextTrx) && OrderedIds(pages)
  {
    CleanMeansOrdered(pages, nextTrx);
    if Ordered(pages) { OrderedGivesIds(pages); }
    if AllSound(pages, nextTrx) && OrderedIds(pages) { IdsGiveOrdered(pages, nextTrx); }
    assert walked ==> Swept(pages, nextTrx, walked, root) == Findings(pages, nextTrx);
  }

  /** A page has one min_key however often it is met. */
  predicate OwnKeys(pages: seq<Page>) {
    forall i, j :: 0 <= i < j < |pages| && pages[i].id == pages[j].id ==> pages[i].minKey == pages[j].minKey
  }

  lemma NeverReturns(pages: seq<Page>, i: nat, j: nat, id: nat)
    requires OwnKeys(pages) && Ordered(pages) && i < j < |pages| && pages[i].id == pages[j].id && pages[j].slots != []
    ensures !Holds(pages[i], id)
  {
    OrderedGivesIds(pages);
  }

  /** A walk that comes back to a page that held a row is found out of order, wherever the
      page budget stops it. */
  lemma ReturnsAreFound(pages: seq<Page>, nextTrx: nat, i: nat, j: nat, id: nat)
    requires OwnKeys(pages) && i < j < |pages| && pages[i].id == pages[j].id
    requires Holds(pages[i], id) && pages[j].slots != []
    ensures !Clear(Findings(pages, nextTrx), false)
  {
    CleanMeansOrdered(pages, nextTrx);
    if Ordered(pages) { NeverReturns(pages, i, j, id); }
  }

  // ---- Each finding ---------------------------------------------------------------------------------------

  /** One slot's part in a finding on its page. */
  predicate Blames(f: Finding, page: nat, minKey: nat, s: Slot, nextTrx: nat) {
    match f
    case RowUndecodable(p, n) => p == page && s == Undecodable(n)
    case RowWrongSize(p, n) => p == page && s == WrongSize(n)
    case NoKeystone(p, n) => p == page && s == BadKeystone(n)
    case ReservedBits(p, id) => p == page && s.Live? && s.id == id && s.reserved != 0
    case IdTooLarge(p, n) => p == page && s.Live? && s.n == n && s.id >= 0x100_0000_0000
    case BelowMinKey(p, id) => p == page && s.Live? && s.id == id && id < minKey
    case TrxNeverIssued(p, id, trx) =>
      p == page && s.Live? && s.id == id && s.trx == trx && nextTrx != 0 && nextTrx <= trx
    case _ => false
  }

  /** A tuple that reaches a min_key: a row with that id or a higher one; one whose id could
      not be read stands for zero. */
  predicate Tops(s: Slot, minKey: nat) {
    (s.Live? && minKey <= s.id) || ((s.WrongSize? || s.BadKeystone?) && minKey == 0)
  }

  /** What makes a finding true of the pages as they were met. */
  ghost predicate Tells(pages: seq<Page>, nextTrx: nat, walked: bool, root: nat, f: Finding) {
    match f
    case WalkFailed(page) => !walked && page == root
    case NotAbovePredecessors(page) =>
      exists i, j, k :: 0 <= i < j < |pages| && 0 <= k < |pages[i].slots|
        && pages[j].id == page && pages[j].slots != [] && Tops(pages[i].slots[k], pages[j].minKey)
    case _ =>
      exists j, k :: 0 <= j < |pages| && 0 <= k < |pages[j].slots|
        && Blames(f, pages[j].id, pages[j].minKey, pages[j].slots[k], nextTrx)
  }

  lemma SlotBlamed(page: nat, minKey: nat, s: Slot, nextTrx: nat, f: Finding)
    ensures f in SlotFindings(page, minKey, s, nextTrx) <==> Blames(f, page, minKey, s, nextTrx)
  {}

  predicate BlamesOne(f: Finding, page: nat, minKey: nat, slots: seq<Slot>, nextTrx: nat) {
    exists k :: 0 <= k < |slots| && Blames(f, page, minKey, slots[k], nextTrx)
  }

  lemma BlamesMore(f: Finding, page: nat, minKey: nat, slots: seq<Slot>, s: Slot, nextTrx: nat)
    ensures BlamesOne(f, page, minKey, slots + [s], nextTrx) <==>
            BlamesOne(f, page, minKey, slots, nextTrx) || Blames(f, page, minKey, s, nextTrx)
  {
    var longer := slots + [s];
    assert longer[|slots|] == s && forall k :: 0 <= k < |slots| ==> longer[k] == slots[k];
  }

  lemma SlotBlamedToo(page: nat, minKey: nat, slots: seq<Slot>, s: Slot, nextTrx: nat, f: Finding)
    requires f in SlotsFindings(page, minKey, slots, nextTrx) <==> BlamesOne(f, page, minKey, slots, nextTrx)
    ensures f in SlotsFindings(page, minKey, slots + [s], nextTrx) <==> BlamesOne(f, page, minKey, slots + [s], nextTrx)
  {
    SlotsMore(page, minKey, slots, s, nextTrx);
    SlotBlamed(page, minKey, s, nextTrx, f);
    BlamesMore(f, page, minKey, slots, s, nextTrx);
  }

  lemma {:induction false} SlotsBlamed(page: nat, minKey: nat, slots: seq<Slot>, nextTrx: nat, f: Finding)
    ensures f in SlotsFindings(page, minKey, slots, nextTrx) <==> BlamesOne(f, page, minKey, slots, nextTrx)
  {
    if slots == [] {
      assert SlotsFindings(page, minKey, slots, nextTrx) == [];
    } else {
      var front, last := slots[..|slots| - 1], slots[|slots| - 1];
      assert slots == front + [last];
      SlotsBlamed(page, minKey, front, nextTrx, f);
      SlotBlamedToo(page, minKey, front, last, nextTrx, f);
    }
  }

  lemma TopsReaches(s: Slot, minKey: nat)
    ensures Tops(s, minKey) <==> KeyOf(s).Some? && KeyOf(s).value >= minKey
  {}

  lemma HeaderTops(before: seq<Page>, minKey: nat)
    ensures Overlapped(before, minKey) <==>
            exists i, k :: 0 <= i < |before| && 0 <= k < |before[i].slots| && Tops(before[i].slots[k], minKey)
  {
    forall i | 0 <= i < |before|
      ensures Reaches(before[i].slots, minKey) <==> exists k :: 0 <= k < |before[i].slots| && Tops(before[i].slots[k], minKey)
    {
      forall k | 0 <= k < |before[i].slots|
        ensures Tops(before[i].slots[k], minKey) <==> KeyOf(before[i].slots[k]).Some? && KeyOf(before[i].slots[k]).value >= minKey
      {
        TopsReaches(before[i].slots[k], minKey);
      }
    }
  }

  /** A finding on a page that the pages before it, or its own slots, make true. */
  ghost predicate TellsOf(before: seq<Page>, p: Page, nextTrx: nat, f: Finding) {
    if f.NotAbovePredecessors? then
      f.page == p.id && p.slots != []
      && exists i, k :: 0 <= i < |before| && 0 <= k < |before[i].slots| && Tops(before[i].slots[k], p.minKey)
    else BlamesOne(f, p.id, p.minKey, p.slots, nextTrx)
  }

  lemma PageBlamed(before: seq<Page>, p: Page, nextTrx: nat, f: Finding)
    ensures f in PageFindings(before, p, nextTrx) <==> TellsOf(before, p, nextTrx, f)
  {
    SlotsBlamed(p.id, p.minKey, p.slots, nextTrx, f);
    HeaderTops(before, p.minKey);
  }

  ghost predicate TellsAmong(pages: seq<Page>, nextTrx: nat, f: Finding) {
    exists j :: 0 <= j < |pages| && TellsOf(pages[..j], pages[j], nextTrx, f)
  }

  lemma TellsMore(before: seq<Page>, p: Page, nextTrx: nat, f: Finding)
    ensures TellsAmong(before + [p], nextTrx, f) <==> TellsAmong(before, nextTrx, f) || TellsOf(before, p, nextTrx, f)
  {
    var all := before + [p];
    assert all[..|before|] == before && all[|before|] == p;
    forall j | 0 <= j < |before| ensures all[..j] == before[..j] && all[j] == before[j] {}
  }

  lemma {:induction false} PagesBlamed(pages: seq<Page>, nextTrx: nat, f: Finding)
    ensures f in Findings(pages, nextTrx) <==> TellsAmong(pages, nextTrx, f)
  {
    if pages != [] {
      var front, last := pages[..|pages| - 1], pages[|pages| - 1];
      PagesBlamed(front, nextTrx, f);
      PageBlamed(front, last, nextTrx, f);
      TellsMore(front, last, nextTrx, f);
      PagesMore(front, last, nextTrx);
      assert pages == front + [last];
    }
  }

  lemma TellsByPage(pages: seq<Page>, nextTrx: nat, root: nat, f: Finding)
    requires !f.WalkFailed?
    ensures TellsAmong(pages, nextTrx, f) <==> Tells(pages, nextTrx, true, root, f)
  {
    if f.NotAbovePredecessors? {
      if Tells(pages, nextTrx, true, root, f) {
        var i, j, k :| 0 <= i < j < |pages| && 0 <= k < |pages[i].slots|
          && pages[j].id == f.page && pages[j].slots != [] && Tops(pages[i].slots[k], pages[j].minKey);
        assert pages[..j][i] == pages[i];
        assert TellsOf(pages[..j], pages[j], nextTrx, f);
      }
    } else if Tells(pages, nextTrx, true, root, f) {
      var j, k :| 0 <= j < |pages| && 0 <= k < |pages[j].slots|
        && Blames(f, pages[j].id, pages[j].minKey, pages[j].slots[k], nextTrx);
      assert TellsOf(pages[..j], pages[j], nextTrx, f);
    }
  }

  /** **Every finding is true and every truth is found**: a sweep reports a finding exactly
      when a slot of its page makes it true, or a tuple of a page met before, or the walk's end. */
  lemma FindingsExactly(pages: seq<Page>, nextTrx: nat, walked: bool, root: nat, f: Finding)
    ensures f in Swept(pages, nextTrx, walked, root) <==> Tells(pages, nextTrx, walked, root, f)
  {
    PagesBlamed(pages, nextTrx, f);
    if f.WalkFailed? {
      assert forall j :: 0 <= j < |pages| ==> !TellsOf(pages[..j], pages[j], nextTrx, f);
    } else {
      TellsByPage(pages, nextTrx, root, f);
    }
  }

  /** The slots of the pages met, with their pages, one after another. */
  function Spread(pages: seq<Page>): seq<Call> {
    if pages == [] then [] else Spread(pages[..|pages| - 1]) + CallsOf(pages[|pages| - 1])
  }

  function CallsOf(p: Page): seq<Call> {
    seq(|p.slots|, k requires 0 <= k < |p.slots| => Call(p.id, p.minKey, p.slots[k]))
  }

  lemma SpreadMore(pages: seq<Page>, p: Page)
    ensures Spread(pages + [p]) == Spread(pages) + CallsOf(p)
  {
    assert (pages + [p])[..|pages|] == pages;
  }

  /** Cut where the page changes. */
  predicate Pieces(pages: seq<Page>) {
    && (forall j :: 0 <= j < |pages| ==> pages[j].slots != [])
    && (forall j :: 0 < j < |pages| ==> pages[j].id != pages[j - 1].id)
  }

  lemma PiecesMore(pages: seq<Page>, p: Page)
    requires Pieces(pages) && p.slots != [] && (pages != [] ==> pages[|pages| - 1].id != p.id)
    ensures Pieces(pages + [p])
  {
    var all := pages + [p];
    assert all[|pages|] == p && forall j :: 0 <= j < |pages| ==> all[j] == pages[j];
  }

  /** The pages met are these calls, the current one that of the last call. */
  predicate MetBy(met: Met, calls: seq<Call>, last: Option<Call>) {
    match met
    case Nothing => calls == [] && last == None
    case Met(before, p) =>
      && calls == Spread(before) + CallsOf(p) && Pieces(before) && p.slots != []
      && (before != [] ==> before[|before| - 1].id != p.id)
      && last.Some? && last.value.page == p.id && last.value.minKey == p.minKey
  }

  lemma MetPages(met: Met, calls: seq<Call>, last: Option<Call>)
    requires MetBy(met, calls, last)
    ensures Spread(met.Pages()) == calls && Pieces(met.Pages())
    ensures met.Met? ==> met.Pages() != [] && met.Pages()[|met.Pages()| - 1] == met.page
  {
    if met.Met? {
      SpreadMore(met.before, met.page);
      PiecesMore(met.before, met.page);
    }
  }

  lemma OneMoreCall(met: Met, calls: seq<Call>, last: Option<Call>, c: Call)
    requires MetBy(met, calls, last)
    requires last.Some? && last.value.page == c.page ==> last.value.minKey == c.minKey
    ensures MetBy(Joined(met, c), calls + [c], Some(c))
  {
    if met.Met? && met.page.id == c.page {
      var longer := met.page.(slots := met.page.slots + [c.slot]);
      assert CallsOf(longer) == CallsOf(met.page) + [c];
      assert Spread(met.before) + (CallsOf(met.page) + [c]) == calls + [c];
    } else {
      MetPages(met, calls, last);
      assert CallsOf(Page(c.page, c.minKey, [c.slot])) == [c];
    }
  }

  lemma {:induction false} GroupedMet(calls: seq<Call>)
    requires forall i, j :: 0 <= i < j < |calls| && calls[i].page == calls[j].page ==> calls[i].minKey == calls[j].minKey
    ensures MetBy(Grouped(calls), calls, if calls == [] then None else Some(calls[|calls| - 1]))
  {
    if calls != [] {
      var front, c := calls[..|calls| - 1], calls[|calls| - 1];
      GroupedMet(front);
      OneMoreCall(Grouped(front), front, if front == [] then None else Some(front[|front| - 1]), c);
      assert calls == front + [c];
    }
  }

  /** The pages met are the calls, cut where the page changes: where a page has one min_key,
      nothing is lost, added or moved, and no page follows itself. */
  lemma GroupedSpreads(calls: seq<Call>)
    requires forall i, j :: 0 <= i < j < |calls| && calls[i].page == calls[j].page ==> calls[i].minKey == calls[j].minKey
    ensures Spread(Grouped(calls).Pages()) == calls && Pieces(Grouped(calls).Pages())
  {
    GroupedMet(calls);
    MetPages(Grouped(calls), calls, if calls == [] then None else Some(calls[|calls| - 1]));
  }

  // ---- Range pruning -----------------------------------------------------------------------------------

  /** The ids of a page within a range, in slot order. */
  function InRange(slots: seq<Slot>, lo: nat, hi: nat): seq<nat> {
    if slots == [] then []
    else (if slots[0].Live? && lo <= slots[0].id <= hi then [slots[0].id] else []) + InRange(slots[1..], lo, hi)
  }

  /** A page min_keys alone rule out: it starts above the range, or a later page starts at
      or below the range's start. */
  ghost predicate Skipped(pages: seq<Page>, j: nat, lo: nat, hi: nat)
    requires j < |pages|
  {
    pages[j].minKey > hi || exists k :: j < k < |pages| && pages[k].slots != [] && pages[k].minKey <= lo
  }

  ghost function Scan(pages: seq<Page>, lo: nat, hi: nat, prune: bool, n: nat): seq<nat>
    requires n <= |pages|
  {
    if n == 0 then []
    else Scan(pages, lo, hi, prune, n - 1)
         + (if prune && Skipped(pages, n - 1, lo, hi) then [] else InRange(pages[n - 1].slots, lo, hi))
  }

  lemma {:induction false} NoneInRange(slots: seq<Slot>, lo: nat, hi: nat)
    requires forall k :: 0 <= k < |slots| && slots[k].Live? ==> !(lo <= slots[k].id <= hi)
    ensures InRange(slots, lo, hi) == []
    decreases |slots|
  {
    if slots != [] { NoneInRange(slots[1..], lo, hi); }
  }

  lemma SkippedHoldsNothing(pages: seq<Page>, j: nat, lo: nat, hi: nat)
    requires Ordered(pages) && j < |pages| && Skipped(pages, j, lo, hi)
    ensures InRange(pages[j].slots, lo, hi) == []
  {
    var slots := pages[j].slots;
    forall k | 0 <= k < |slots| && slots[k].Live? ensures !(lo <= slots[k].id <= hi) {
      assert !Below(slots[k], pages[j].minKey);
      if pages[j].minKey <= hi {
        var later :| j < later < |pages| && pages[later].slots != [] && pages[later].minKey <= lo;
        assert !Reaches(slots, pages[later].minKey);
        assert KeyOf(slots[k]) == Some(slots[k].id);
      }
    }
    NoneInRange(slots, lo, hi);
  }

  lemma {:induction false} PrunedPrefix(pages: seq<Page>, lo: nat, hi: nat, n: nat)
    requires Ordered(pages) && n <= |pages|
    ensures Scan(pages, lo, hi, true, n) == Scan(pages, lo, hi, false, n)
    decreases n
  {
    if n > 0 {
      PrunedPrefix(pages, lo, hi, n - 1);
      if Skipped(pages, n - 1, lo, hi) { SkippedHoldsNothing(pages, n - 1, lo, hi); }
    }
  }

  /** On a chain the sweep finds in order, whatever else it finds, a range scan that skips
      pages by min_key returns what a full scan returns. */
  lemma PruningLosesNothing(pages: seq<Page>, nextTrx: nat, lo: nat, hi: nat)
    requires Clear(Findings(pages, nextTrx), false)
    ensures Scan(pages, lo, hi, true, |pages|) == Scan(pages, lo, hi, false, |pages|)
  {
    CleanMeansOrdered(pages, nextTrx);
    PrunedPrefix(pages, lo, hi, |pages|);
  }

  // ---- The var-heap walk ----------------------------------------------------------------------------------

  /** A readable page of the store: whether it is of the var-heap type, and its successor. */
  datatype HeapPage = HeapPage(varHeap: bool, next: Option<nat>)

  datatype VarFinding = Cycles(page: nat) | Unreadable(page: nat) | WrongType(page: nat)

  /** The page after the first k of `path`; an unreadable page has no successor. */
  function LinkAt(store: map<nat, HeapPage>, head: Option<nat>, path: seq<nat>, k: nat): Option<nat>
    requires k <= |path|
  {
    if k == 0 then head
    else if path[k - 1] in store then store[path[k - 1]].next else None
  }

  function Follows(store: map<nat, HeapPage>, head: Option<nat>, path: seq<nat>): Option<nat> {
    LinkAt(store, head, path, |path|)
  }

  /** `path` is where the links lead, from the head on. */
  predicate IsPath(store: map<nat, HeapPage>, head: Option<nat>, path: seq<nat>) {
    forall k {:trigger LinkAt(store, head, path, k)} :: 0 <= k < |path| ==> LinkAt(store, head, path, k) == Some(path[k])
  }

  predicate Distinct(path: seq<nat>) {
    forall i, j :: 0 <= i < j < |path| ==> path[i] != path[j]
  }

  ghost predicate OnChain(store: map<nat, HeapPage>, head: Option<nat>, p: nat) {
    exists path :: IsPath(store, head, path) && p in path
  }

  /** The links lead back to a page already met. */
  ghost predicate Cyclic(store: map<nat, HeapPage>, head: Option<nat>) {
    exists path :: IsPath(store, head, path) && !Distinct(path)
  }

  lemma PathGrows(store: map<nat, HeapPage>, head: Option<nat>, path: seq<nat>, p: nat)
    requires IsPath(store, head, path) && Follows(store, head, path) == Some(p)
    ensures IsPath(store, head, path + [p])
  {
    var longer := path + [p];
    forall k | 0 <= k < |longer| ensures LinkAt(store, head, longer, k) == Some(longer[k]) {
      assert LinkAt(store, head, longer, k) == LinkAt(store, head, path, k);
    }
  }

  /** Two walks from one head agree as far as both go; past the end of a chain none goes. */
  lemma {:induction false} PathsAgree(store: map<nat, HeapPage>, head: Option<nat>, path: seq<nat>, other: seq<nat>, k: nat)
    requires IsPath(store, head, path) && Follows(store, head, path).None?
    requires IsPath(store, head, other) && k <= |other|
    ensures k <= |path| && forall i :: 0 <= i < k ==> other[i] == path[i]
  {
    if k > 0 {
      PathsAgree(store, head, path, other, k - 1);
      assert LinkAt(store, head, other, k - 1) == Some(other[k - 1]);
      assert LinkAt(store, head, other, k - 1) == LinkAt(store, head, path, k - 1);
    }
  }

  /** A set of pages closed under links holds every page the links lead to. */
  lemma {:induction false} ClosedHolds(store: map<nat, HeapPage>, head: Option<nat>, chain: set<nat>, path: seq<nat>, k: nat)
    requires head.Some? ==> head.value in chain
    requires forall p :: p in chain && p in store && store[p].next.Some? ==> store[p].next.value in chain
    requires IsPath(store, head, path) && k < |path|
    ensures path[k] in chain
  {
    assert LinkAt(store, head, path, k) == Some(path[k]);
    if k > 0 {
      ClosedHolds(store, head, chain, path, k - 1);
    }
  }

  /** The walk so far: distinct readable pages, and of them the wrongly typed reported. */
  ghost predicate Walking(store: map<nat, HeapPage>, head: Option<nat>, path: seq<nat>, chain: set<nat>, found: seq<VarFinding>) {
    && IsPath(store, head, path) && Visits(path, chain) && chain <= store.Keys
    && OnlyWrongTypes(store, chain, found)
  }

  ghost predicate OnlyWrongTypes(store: map<nat, HeapPage>, chain: set<nat>, found: seq<VarFinding>)
    requires chain <= store.Keys
  {
    forall f :: f in found <==> f.WrongType? && f.page in chain && !store[f.page].varHeap
  }

  /** `path` visits the pages of `chain`, each once. */
  ghost predicate Visits(path: seq<nat>, chain: set<nat>) {
    Distinct(path) && forall p :: p in chain <==> p in path
  }

  lemma VisitsOneMore(path: seq<nat>, chain: set<nat>, p: nat)
    requires Visits(path, chain) && p !in chain
    ensures Visits(path + [p], chain + {p})
  {
    assert forall i :: 0 <= i < |path| ==> path[i] in path;
    assert forall q :: q in path + [p] <==> q in path || q == p;
  }

  lemma TypesOneMore(store: map<nat, HeapPage>, chain: set<nat>, found: seq<VarFinding>, p: nat)
    requires chain <= store.Keys && OnlyWrongTypes(store, chain, found) && p in store && p !in chain
    ensures OnlyWrongTypes(store, chain + {p}, if store[p].varHeap then found else found + [WrongType(p)])
  {}

  lemma WalkingOneMore(store: map<nat, HeapPage>, head: Option<nat>, path: seq<nat>, chain: set<nat>, found: seq<VarFinding>, p: nat)
    requires Walking(store, head, path, chain, found)
    requires Follows(store, head, path) == Some(p) && p !in chain && p in store
    ensures Walking(store, head, path + [p], chain + {p}, if store[p].varHeap then found else found + [WrongType(p)])
  {
    PathGrows(store, head, path, p);
    VisitsOneMore(path, chain, p);
    TypesOneMore(store, chain, found, p);
  }

  /** What the walk reports of a chain: exactly its pages, whether it cycles, and which of
      its pages are unreadable or of the wrong type. */
  ghost predicate Reported(store: map<nat, HeapPage>, head: Option<nat>, chain: set<nat>, found: seq<VarFinding>) {
    (forall p :: p in chain <==> OnChain(store, head, p)) && FoundIn(store, chain, found, Cyclic(store, head))
  }

  ghost predicate FoundIn(store: map<nat, HeapPage>, chain: set<nat>, found: seq<VarFinding>, cyclic: bool) {
    && ((exists p :: Cycles(p) in found) <==> cyclic)
    && (forall p :: Unreadable(p) in found <==> p in chain && p !in store)
    && (forall p :: WrongType(p) in found <==> p in chain && p in store && !store[p].varHeap)
  }

  ghost predicate Closed(store: map<nat, HeapPage>, head: Option<nat>, chain: set<nat>) {
    && (head.Some? ==> head.value in chain)
    && (forall p :: p in chain && p in store && store[p].next.Some? ==> store[p].next.value in chain)
  }

  lemma ChainExactly(store: map<nat, HeapPage>, head: Option<nat>, path: seq<nat>, chain: set<nat>)
    requires IsPath(store, head, path) && Closed(store, head, chain) && Visits(path, chain)
    ensures forall p :: p in chain <==> OnChain(store, head, p)
  {
    forall p | OnChain(store, head, p) ensures p in chain {
      var other :| IsPath(store, head, other) && p in other;
      var k :| 0 <= k < |other| && other[k] == p;
      ClosedHolds(store, head, chain, other, k);
    }
  }

  lemma EndedIsAcyclic(store: map<nat, HeapPage>, head: Option<nat>, path: seq<nat>)
    requires IsPath(store, head, path) && Distinct(path) && Follows(store, head, path).None?
    ensures !Cyclic(store, head)
  {
    forall other | IsPath(store, head, other) ensures Distinct(other) {
      PathsAgree(store, head, path, other, |other|);
    }
  }

  lemma WalkedClosed(store: map<nat, HeapPage>, head: Option<nat>, path: seq<nat>, chain: set<nat>)
    requires IsPath(store, head, path) && Visits(path, chain)
    requires Follows(store, head, path).Some? ==> Follows(store, head, path).value in chain
    ensures Closed(store, head, chain)
  {
    if path != [] {
      assert LinkAt(store, head, path, 0) == Some(path[0]);
      assert path[0] in path;
    }
    forall p | p in chain && p in store && store[p].next.Some? ensures store[p].next.value in chain {
      var k :| 0 <= k < |path| && path[k] == p;
      if k + 1 < |path| {
        assert LinkAt(store, head, path, k + 1) == Some(path[k + 1]);
        assert path[k + 1] in path;
      } else {
        assert path[|path| - 1] == p;
      }
    }
  }

  /** The walk of SweepVarHeap: it ends on every store, and reports the chain exactly. */
  method SweepVarHeap(store: map<nat, HeapPage>, head: Option<nat>) returns (chain: set<nat>, found: seq<VarFinding>)
    ensures Reported(store, head, chain, found)
  {
    chain, found := {}, [];
    var at := head;
    ghost var path: seq<nat> := [];
    while at.Some?
      invariant Walking(store, head, path, chain, found) && at == Follows(store, head, path)
      decreases store.Keys - chain
    {
      var p := at.value;
      if p in chain {
        CycleReported(store, head, path, chain, found, p);
        found := found + [Cycles(p)];
        return;
      }
      if p !in store {
        UnreadableReported(store, head, path, chain, found, p);
        chain, found := chain + {p}, found + [Unreadable(p)];
        return;
      }
      WalkingOneMore(store, head, path, chain, found, p);
      path, chain := path + [p], chain + {p};
      if !store[p].varHeap { found := found + [WrongType(p)]; }
      at := store[p].next;
    }
    EndReported(store, head, path, chain, found);
  }

  lemma EndReported(store: map<nat, HeapPage>, head: Option<nat>, path: seq<nat>, chain: set<nat>, found: seq<VarFinding>)
    requires Walking(store, head, path, chain, found) && Follows(store, head, path).None?
    ensures Reported(store, head, chain, found)
  {
    WalkedClosed(store, head, path, chain);
    ChainExactly(store, head, path, chain);
    EndedIsAcyclic(store, head, path);
  }

  lemma CycleFound(store: map<nat, HeapPage>, chain: set<nat>, found: seq<VarFinding>, p: nat)
    requires chain <= store.Keys && OnlyWrongTypes(store, chain, found)
    ensures FoundIn(store, chain, found + [Cycles(p)], true)
  {
    assert Cycles(p) in found + [Cycles(p)];
  }

  lemma PathCycles(store: map<nat, HeapPage>, head: Option<nat>, path: seq<nat>, p: nat)
    requires IsPath(store, head, path) && Follows(store, head, path) == Some(p) && p in path
    ensures Cyclic(store, head)
  {
    PathGrows(store, head, path, p);
    var k :| 0 <= k < |path| && path[k] == p;
    assert (path + [p])[k] == (path + [p])[|path|];
  }

  lemma CycleReported(store: map<nat, HeapPage>, head: Option<nat>, path: seq<nat>, chain: set<nat>,
                      found: seq<VarFinding>, p: nat)
    requires Walking(store, head, path, chain, found) && Follows(store, head, path) == Some(p) && p in chain
    ensures Reported(store, head, chain, found + [Cycles(p)])
  {
    WalkedClosed(store, head, path, chain);
    ChainExactly(store, head, path, chain);
    PathCycles(store, head, path, p);
    CycleFound(store, chain, found, p);
  }

  lemma UnreadableFound(store: map<nat, HeapPage>, chain: set<nat>, found: seq<VarFinding>, p: nat)
    requires chain <= store.Keys && OnlyWrongTypes(store, chain, found) && p !in store
    ensures FoundIn(store, chain + {p}, found + [Unreadable(p)], false)
  {
    assert Unreadable(p) in found + [Unreadable(p)];
  }

  lemma UnreadableEnds(store: map<nat, HeapPage>, head: Option<nat>, path: seq<nat>, chain: set<nat>, p: nat)
    requires IsPath(store, head, path) && Visits(path, chain)
    requires Follows(store, head, path) == Some(p) && p !in chain && p !in store
    ensures !Cyclic(store, head) && forall q :: q in chain + {p} <==> OnChain(store, head, q)
  {
    PathGrows(store, head, path, p);
    VisitsOneMore(path, chain, p);
    var longer, all := path + [p], chain + {p};
    assert longer[|longer| - 1] == p && Follows(store, head, longer).None?;
    WalkedClosed(store, head, longer, all);
    ChainExactly(store, head, longer, all);
    EndedIsAcyclic(store, head, longer);
  }

  lemma UnreadableReported(store: map<nat, HeapPage>, head: Option<nat>, path: seq<nat>, chain: set<nat>,
                           found: seq<VarFinding>, p: nat)
    requires Walking(store, head, path, chain, found) && Follows(store, head, path) == Some(p)
    requires p !in chain && p !in store
    ensures Reported(store, head, chain + {p}, found + [Unreadable(p)])
  {
    UnreadableEnds(store, head, path, chain, p);
    UnreadableFound(store, chain, found, p);
  }
}
