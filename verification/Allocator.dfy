/** bench/keystone_alloc_bench.cpp's BumpAheadAllocator: ids reserved a chunk at a time in
    a catalog row and handed out from memory, over a store that may fail and crash. */
module Allocator {
  import opened Text
  import opened Numbers
  import opened Optional

  /** The row's next_id as the running process sees it, and in the last synced image. */
  datatype Disk = Disk(memory: U64, durable: U64)

  /** The row could not be read or decoded; it could not be overwritten; the sync failed,
      the row having reached the image or not. */
  datatype Io = Fine | ReadFails | OverwriteFails | SyncFails(persisted: bool)

  datatype Bump = Bump(cursor: U64, ceiling: U64, reservations: nat)

  const IDLE: Bump := Bump(0, 0, 0)

  datatype Setup = Setup(chunk: U64, durablePerChunk: bool)

  function Add(a: U64, b: U64): U64 {
    (a + b) % U64_LIMIT
  }

  datatype Reserved = Reserved(disk: Disk, bump: Bump, ok: bool)

  /** ReserveChunk. The interval is taken before the row is overwritten. */
  function Reserve(s: Setup, d: Disk, b: Bump, io: Io): Reserved {
    if io.ReadFails? then Reserved(d, b, false)
    else
      var b' := b.(cursor := d.memory, ceiling := Add(d.memory, s.chunk));
      if io.OverwriteFails? then Reserved(d, b', false)
      else
        var b'', d' := b'.(reservations := b.reservations + 1), d.(memory := b'.ceiling);
        if !s.durablePerChunk then Reserved(d', b'', true)
        else if io.SyncFails? then Reserved(if io.persisted then d'.(durable := d'.memory) else d', b'', false)
        else Reserved(d'.(durable := d'.memory), b'', true)
  }

  datatype Asked = Asked(disk: Disk, bump: Bump, id: Option<U64>)

  function NextAsked(s: Setup, d: Disk, b: Bump, io: Io): Asked {
    var r := if b.cursor >= b.ceiling then Reserve(s, d, b, io) else Reserved(d, b, true);
    if !r.ok then Asked(r.disk, r.bump, None)
    else Asked(r.disk, r.bump.(cursor := Add(r.bump.cursor, 1)), Some(r.bump.cursor))
  }

  /** When an id is answered, and which: the next of the chunk in memory, or the counter's. */
  lemma NextAnswers(s: Setup, d: Disk, b: Bump, io: Io)
    ensures var a := NextAsked(s, d, b, io);
            && (a.id.Some? <==> b.cursor < b.ceiling || io.Fine? || (io.SyncFails? && !s.durablePerChunk))
            && (a.id.Some? ==> a.id.value == if b.cursor < b.ceiling then b.cursor else d.memory)
  {}

  // ---- The objects ---------------------------------------------------------------------

  class Store {
    var memory: U64
    var durable: U64

    function Value(): Disk
      reads this
    {
      Disk(memory, durable)
    }

    constructor ()
      ensures Value() == Disk(0, 0)
    {
      memory, durable := 0, 0;
    }

    method Sync(io: Io) returns (ok: bool)
      modifies this`durable
      ensures ok == !io.SyncFails?
      ensures durable == if ok || io.persisted then memory else old(durable)
    {
      if !io.SyncFails? || io.persisted { durable := memory; }
      return !io.SyncFails?;
    }
  }

  class BumpAheadAllocator {
    const store: Store
    const setup: Setup
    var cursor: U64
    var ceiling: U64
    var reservations: nat

    function Value(): Bump
      reads this
    {
      Bump(cursor, ceiling, reservations)
    }

    constructor (store: Store, setup: Setup)
      ensures Value() == IDLE && this.store == store && this.setup == setup
    {
      this.store, this.setup := store, setup;
      cursor, ceiling, reservations := 0, 0, 0;
    }

    method ReserveChunk(io: Io) returns (ok: bool)
      modifies this, store
      ensures Reserved(store.Value(), Value(), ok) == Reserve(setup, old(store.Value()), old(Value()), io)
    {
      if io.ReadFails? { return false; }
      cursor := store.memory;
      ceiling := Add(cursor, setup.chunk);
      if io.OverwriteFails? { return false; }
      store.memory := ceiling;
      reservations := reservations + 1;
      if setup.durablePerChunk {
        ok := store.Sync(io);
        return;
      }
      return true;
    }

    method Next(io: Io) returns (id: Option<U64>)
      modifies this, store
      ensures Asked(store.Value(), Value(), id) == NextAsked(setup, old(store.Value()), old(Value()), io)
    {
      if cursor >= ceiling {
        var ok := ReserveChunk(io);
        if !ok { return None; }
      }
      id := Some(cursor);
      cursor := Add(cursor, 1);
    }
  }

  // ---- Runs ---------------------------------------------------------------------------------

  /** A live allocator and how many ids it has handed out. */
  datatype Holder = Holder(bump: Bump, served: nat)

  datatype Machine = Machine(disk: Disk, holders: map<nat, Holder>, issued: seq<U64>)

  /** `keep`: whether the allocator is asked again after an error. */
  datatype Event = Create(k: nat) | Ask(k: nat, io: Io, keep: bool) | Sync(io: Io) | Crash

  const START: Machine := Machine(Disk(0, 0), map[], [])

  /** The errors after which the callers of this run may keep an allocator. */
  type Kept = set<Io>

  /** An id is asked only of a live allocator, and the 64-bit counter has room for the
      chunk a reservation takes. */
  predicate Can(s: Setup, kept: Kept, m: Machine, e: Event) {
    match e
    case Create(k) => k !in m.holders
    case Ask(k, io, keep) =>
      k in m.holders && (keep ==> io in kept) && (m.holders[k].bump.cursor >= m.holders[k].bump.ceiling ==> m.disk.memory + s.chunk < U64_LIMIT)
    case Sync(_) => true
    case Crash => true
  }

  /** An allocator goes with the process, and at an error unless it is kept. */
  function After(s: Setup, m: Machine, e: Event): Machine
    requires e.Ask? ==> e.k in m.holders
  {
    match e
    case Create(k) => m.(holders := m.holders[k := Holder(IDLE, 0)])
    case Ask(k, io, keep) =>
      var a := NextAsked(s, m.disk, m.holders[k].bump, io);
      if a.id.None? then
        m.(disk := a.disk,
           holders := if keep then m.holders[k := m.holders[k].(bump := a.bump)] else m.holders - {k})
      else Machine(a.disk, m.holders[k := Holder(a.bump, m.holders[k].served + 1)], m.issued + [a.id.value])
    case Sync(io) => if io.SyncFails? && !io.persisted then m else m.(disk := m.disk.(durable := m.disk.memory))
    case Crash => m.(disk := m.disk.(memory := m.disk.durable), holders := map[])
  }

  ghost predicate IsRun(s: Setup, kept: Kept, ms: seq<Machine>, es: seq<Event>) {
    && |ms| == |es| + 1
    && forall i :: 0 <= i < |es| ==> Can(s, kept, ms[i], es[i]) && ms[i + 1] == After(s, ms[i], es[i])
  }

  predicate Distinct(ids: seq<U64>) {
    forall i, j :: 0 <= i < j < |ids| ==> ids[i] != ids[j]
  }

  /** Reserved and not yet handed out. */
  predicate Owns(b: Bump, id: U64) {
    b.cursor <= id < b.ceiling
  }

  /** An allocator's whole chunks, less what it still owns, are what it served. */
  predicate Balanced(s: Setup, h: Holder) {
    var b := h.bump;
    && b.cursor <= b.ceiling && b.ceiling - b.cursor <= s.chunk
    && h.served + (b.ceiling - b.cursor) == b.reservations * s.chunk
  }

  /** Everything issued or owned lies below the durable next_id; nothing owned is issued
      or owned twice. */
  ghost predicate Inv(s: Setup, m: Machine) {
    && m.disk.durable <= m.disk.memory
    && Distinct(m.issued) && (forall i :: 0 <= i < |m.issued| ==> m.issued[i] < m.disk.durable)
    && (forall k :: k in m.holders ==> OwnsFresh(m, m.holders[k].bump) && Balanced(s, m.holders[k]))
    && (forall k, k' :: k in m.holders && k' in m.holders && k != k' ==> Apart(m.holders[k].bump, m.holders[k'].bump))
  }

  ghost predicate OwnsFresh(m: Machine, b: Bump) {
    (b.cursor < b.ceiling ==> b.ceiling <= m.disk.durable)
    && forall i :: 0 <= i < |m.issued| ==> !Owns(b, m.issued[i])
  }

  predicate Apart(a: Bump, b: Bump) {
    a.cursor >= a.ceiling || b.cursor >= b.ceiling || a.ceiling <= b.cursor || b.ceiling <= a.cursor
  }

  lemma IssuedGrows(m: Machine, disk: Disk, id: U64)
    requires Distinct(m.issued) && (forall i :: 0 <= i < |m.issued| ==> m.issued[i] < disk.durable && m.issued[i] != id)
    requires id < disk.durable
    ensures Distinct(m.issued + [id]) && forall i :: 0 <= i < |m.issued + [id]| ==> (m.issued + [id])[i] < disk.durable
  {}

  lemma HeldNext(s: Setup, d: Disk, b: Bump, io: Io)
    requires b.cursor < b.ceiling
    ensures NextAsked(s, d, b, io) == Asked(d, b.(cursor := b.cursor + 1), Some(b.cursor))
  {}

  /** The next id comes from the chunk in memory, whatever the disk would answer. */
  lemma AskHeldKeeps(s: Setup, m: Machine, e: Event)
    requires Inv(s, m) && e.Ask? && e.k in m.holders && m.holders[e.k].bump.cursor < m.holders[e.k].bump.ceiling
    ensures Inv(s, After(s, m, e))
  {
    var k, b := e.k, m.holders[e.k].bump;
    var m' := After(s, m, e);
    HeldNext(s, m.disk, b, e.io);
    assert m' == Machine(m.disk, m.holders[k := Holder(b.(cursor := b.cursor + 1), m.holders[k].served + 1)], m.issued + [b.cursor]);
    forall i | 0 <= i < |m.issued| ensures m.issued[i] != b.cursor { assert !Owns(b, m.issued[i]); }
    IssuedGrows(m, m.disk, b.cursor);
    forall k' | k' in m'.holders ensures OwnsFresh(m', m'.holders[k'].bump) {
      assert OwnsFresh(m, m.holders[k'].bump);
      FreshOneMore(m, m', if k' == k then m'.holders[k].bump else m.holders[k'].bump, m.holders[k'].bump, b.cursor);
    }
  }

  lemma FreshOneMore(m: Machine, m': Machine, c': Bump, c: Bump, id: U64)
    requires OwnsFresh(m, c) && m'.disk == m.disk && m'.issued == m.issued + [id] && !Owns(c', id)
    requires c'.ceiling == c.ceiling && c.cursor <= c'.cursor
    ensures OwnsFresh(m', c')
  {}

  /** The next id opens a chunk reserved and synced first. */
  lemma AskReservedKeeps(s: Setup, m: Machine, e: Event)
    requires Inv(s, m) && s.durablePerChunk && s.chunk > 0 && e.Ask? && e.k in m.holders && e.io == Fine
    requires m.holders[e.k].bump.cursor >= m.holders[e.k].bump.ceiling && m.disk.memory + s.chunk < U64_LIMIT
    ensures Inv(s, After(s, m, e))
  {
    var k, h, base := e.k, m.holders[e.k], m.disk.memory;
    assert Balanced(s, h);
    BalancedReserve(s, h, base);
    var h' := Holder(Bump(base + 1, base + s.chunk, h.bump.reservations + 1), h.served + 1);
    assert After(s, m, e) == Machine(Disk(base + s.chunk, base + s.chunk), m.holders[k := h'], m.issued + [base]);
    ReservedKeeps(s, m, After(s, m, e), k, h', base);
  }

  lemma ReservedKeeps(s: Setup, m: Machine, m': Machine, k: nat, h': Holder, base: nat)
    requires Inv(s, m) && s.chunk > 0 && m.disk.memory == base && base + s.chunk < U64_LIMIT
    requires Balanced(s, h') && h'.bump.cursor == base + 1 && h'.bump.ceiling == base + s.chunk
    requires m' == Machine(Disk(base + s.chunk, base + s.chunk), m.holders[k := h'], m.issued + [base])
    ensures Inv(s, m')
  {
    IssuedGrows(m, m'.disk, base);
    forall k' | k' in m'.holders && k' != k
      ensures OwnsFresh(m', m'.holders[k'].bump) && Apart(m'.holders[k'].bump, h'.bump)
    {
      assert OwnsFresh(m, m.holders[k'].bump);
      ChunkApart(m, m', m.holders[k'].bump, base, s.chunk);
    }
  }

  /** A chunk cut at the counter is apart from everything owned before. */
  lemma ChunkApart(m: Machine, m': Machine, b: Bump, base: nat, chunk: nat)
    requires OwnsFresh(m, b) && m.disk.durable <= base && m'.disk.durable == base + chunk < U64_LIMIT
    requires m'.issued == m.issued + [base]
    ensures OwnsFresh(m', b) && (b.cursor >= b.ceiling || b.ceiling <= base)
  {}

  lemma BalancedReserve(s: Setup, h: Holder, base: U64)
    requires s.chunk > 0 && Balanced(s, h) && h.bump.cursor >= h.bump.ceiling && base + s.chunk < U64_LIMIT
    ensures Balanced(s, Holder(Bump(base + 1, base + s.chunk, h.bump.reservations + 1), h.served + 1))
    ensures Balanced(s, Holder(Bump(base, base + s.chunk, h.bump.reservations + 1), h.served))
  {}

  /** A failed reservation issues nothing, whatever of it reached the disk; the allocator
      is discarded, or the read failed and it holds what it held. */
  lemma AskFailedKeeps(s: Setup, m: Machine, e: Event)
    requires Inv(s, m) && s.durablePerChunk && e.Ask? && e.k in m.holders && e.io != Fine
    requires e.keep ==> e.io.ReadFails?
    requires m.holders[e.k].bump.cursor >= m.holders[e.k].bump.ceiling && m.disk.memory + s.chunk < U64_LIMIT
    ensures Inv(s, After(s, m, e))
  {
    var m' := After(s, m, e);
    assert m'.issued == m.issued && m.disk.durable <= m'.disk.durable <= m'.disk.memory;
    forall k' | k' in m'.holders ensures OwnsFresh(m', m'.holders[k'].bump) {
      assert m'.holders[k'] == m.holders[k'];
      assert OwnsFresh(m, m.holders[k'].bump);
    }
  }

  /** A sync that reported an error and reached the image all the same: the allocator may
      be kept, for it owns the chunk it reserved. */
  lemma AskPersistedKeeps(s: Setup, m: Machine, e: Event)
    requires Inv(s, m) && s.durablePerChunk && s.chunk > 0
    requires e.Ask? && e.keep && e.k in m.holders && e.io == SyncFails(true)
    requires m.holders[e.k].bump.cursor >= m.holders[e.k].bump.ceiling && m.disk.memory + s.chunk < U64_LIMIT
    ensures Inv(s, After(s, m, e))
  {
    var k, h, base := e.k, m.holders[e.k], m.disk.memory;
    var m' := After(s, m, e);
    assert Balanced(s, h);
    assert m'.holders[k] == Holder(Bump(base, base + s.chunk, h.bump.reservations + 1), h.served);
    assert m'.disk == Disk(base + s.chunk, base + s.chunk) && m'.issued == m.issued;
    forall k' | k' in m'.holders ensures OwnsFresh(m', m'.holders[k'].bump) {
      if k' != k { assert OwnsFresh(m, m.holders[k'].bump); }
    }
    BalancedReserve(s, h, base);
  }

  /** Nothing is kept over a reservation that did not reach the image. */
  predicate KeptWithCare(kept: Kept) {
    OverwriteFails !in kept && SyncFails(false) !in kept
  }

  lemma AskKeeps(s: Setup, kept: Kept, m: Machine, e: Event)
    requires Inv(s, m) && Can(s, kept, m, e) && s.durablePerChunk && s.chunk > 0 && KeptWithCare(kept) && e.Ask?
    ensures Inv(s, After(s, m, e))
  {
    if m.holders[e.k].bump.cursor < m.holders[e.k].bump.ceiling { AskHeldKeeps(s, m, e); }
    else if e.io == Fine { AskReservedKeeps(s, m, e); }
    else if e.keep && e.io.SyncFails? { AskPersistedKeeps(s, m, e); }
    else { AskFailedKeeps(s, m, e); }
  }

  lemma StepKeeps(s: Setup, kept: Kept, m: Machine, e: Event)
    requires Inv(s, m) && Can(s, kept, m, e) && s.durablePerChunk && s.chunk > 0 && KeptWithCare(kept)
    ensures Inv(s, After(s, m, e))
  {
    match e
    case Ask(_, _, _) => AskKeeps(s, kept, m, e);
    case Create(k) => CreateKeeps(s, m, k);
    case Sync(io) => SyncKeeps(s, m, io);
    case Crash =>
  }

  lemma CreateKeeps(s: Setup, m: Machine, k: nat)
    requires Inv(s, m) && k !in m.holders
    ensures Inv(s, After(s, m, Create(k)))
  {
    var m' := After(s, m, Create(k));
    forall k' | k' in m'.holders ensures OwnsFresh(m', m'.holders[k'].bump) {
      if k' != k { assert OwnsFresh(m, m.holders[k'].bump); }
    }
  }

  lemma SyncKeeps(s: Setup, m: Machine, io: Io)
    requires Inv(s, m)
    ensures Inv(s, After(s, m, Sync(io)))
  {
    var m' := After(s, m, Sync(io));
    assert m'.holders == m.holders && m'.issued == m.issued && m.disk.durable <= m'.disk.durable <= m'.disk.memory;
    forall k' | k' in m'.holders ensures OwnsFresh(m', m'.holders[k'].bump) {
      assert OwnsFresh(m, m.holders[k'].bump);
    }
  }

  lemma {:induction false} RunKeeps(s: Setup, kept: Kept, ms: seq<Machine>, es: seq<Event>, i: nat)
    requires IsRun(s, kept, ms, es) && ms[0] == START && i < |ms|
    requires s.durablePerChunk && s.chunk > 0 && KeptWithCare(kept)
    ensures Inv(s, ms[i])
  {
    if i > 0 {
      RunKeeps(s, kept, ms, es, i - 1);
      StepKeeps(s, kept, ms[i - 1], es[i - 1]);
    }
  }

  lemma CeilUnique(n: nat, d: nat, r: nat, slack: nat)
    requires d > 0 && n + slack == r * d && (slack < d || r == 0)
    ensures r == CeilDiv(n, d)
  {
    if r == 0 {
      assert n == 0;
    } else {
      assert n + d - 1 == r * d + (d - 1 - slack);
      Remainder(r, d, d - 1 - slack);
    }
  }

  /** A chunk reserved by a sync that reported an error, none of it served yet. */
  predicate HoldsWholeChunk(s: Setup, b: Bump) {
    b.cursor + s.chunk == b.ceiling
  }

  lemma ReservedExactly(s: Setup, h: Holder)
    requires s.chunk > 0 && Balanced(s, h)
    ensures h.bump.reservations == CeilDiv(h.served, s.chunk) + (if HoldsWholeChunk(s, h.bump) then 1 else 0)
  {
    var r, slack := h.bump.reservations, h.bump.ceiling - h.bump.cursor;
    if slack == s.chunk {
      assert r > 0 && h.served == (r - 1) * s.chunk;
      CeilUnique(h.served, s.chunk, r - 1, 0);
    } else {
      CeilUnique(h.served, s.chunk, r, slack);
    }
  }

  /** **Issue once.** Over every run of any number of allocators, failures, crashes to the
      last synced image and re-creations, no id is issued twice, and every allocator alive
      has reserved exactly ceil(n / chunk) times for the n ids it served, and once more if
      it was kept over a sync that reported an error and has served none of that chunk. */
  lemma IssuedOnce(s: Setup, kept: Kept, ms: seq<Machine>, es: seq<Event>)
    requires IsRun(s, kept, ms, es) && ms[0] == START
    requires s.durablePerChunk && s.chunk > 0 && KeptWithCare(kept)
    ensures var m := ms[|es|];
            && Distinct(m.issued)
            && forall k :: k in m.holders ==> var h := m.holders[k];
                 h.bump.reservations == CeilDiv(h.served, s.chunk) + (if HoldsWholeChunk(s, h.bump) then 1 else 0)
  {
    RunKeeps(s, kept, ms, es, |es|);
    var m := ms[|es|];
    forall k | k in m.holders
      ensures var h := m.holders[k];
              h.bump.reservations == CeilDiv(h.served, s.chunk) + (if HoldsWholeChunk(s, h.bump) then 1 else 0)
    {
      ReservedExactly(s, m.holders[k]);
    }
  }

  // ---- What each condition is for --------------------------------------------------------------

  /** An ask whose allocator goes at an error. */
  function Plain(k: nat, io: Io): Event {
    Ask(k, io, false)
  }

  /** Without the sync a crash forgets the reservation, and every chunk is issued again. */
  lemma UnsyncedReissues(s: Setup, kept: Kept) returns (ms: seq<Machine>, es: seq<Event>)
    requires !s.durablePerChunk && s.chunk < U64_LIMIT - 1
    ensures IsRun(s, kept, ms, es) && ms[0] == START && |es| == 5 && ms[5].issued == [0, 0]
  {
    var m1 := After(s, START, Create(0));
    var m2 := After(s, m1, Plain(0, Fine));
    var m3 := After(s, m2, Crash);
    var m4 := After(s, m3, Create(0));
    var m5 := After(s, m4, Plain(0, Fine));
    ms, es := [START, m1, m2, m3, m4, m5], [Create(0), Plain(0, Fine), Crash, Create(0), Plain(0, Fine)];
  }

  /** A chunk of zero reserves nothing: two allocators take the same id. */
  lemma EmptyChunkReissues(s: Setup, kept: Kept) returns (ms: seq<Machine>, es: seq<Event>)
    requires s.chunk == 0
    ensures IsRun(s, kept, ms, es) && ms[0] == START && |es| == 4 && ms[4].issued == [0, 0]
  {
    var m1 := After(s, START, Create(0));
    var m2 := After(s, m1, Create(1));
    var m3 := After(s, m2, Plain(0, Fine));
    var m4 := After(s, m3, Plain(1, Fine));
    ms, es := [START, m1, m2, m3, m4], [Create(0), Create(1), Plain(0, Fine), Plain(1, Fine)];
  }

  /** An allocator kept after a failed overwrite hands out ids nobody reserved: another
      one reserves them. */
  lemma KeptOverwriteReissues(s: Setup, kept: Kept) returns (ms: seq<Machine>, es: seq<Event>)
    requires 0 < s.chunk < U64_LIMIT - 1 && s.durablePerChunk && OverwriteFails in kept
    ensures IsRun(s, kept, ms, es) && ms[0] == START && |es| == 5 && ms[5].issued == [0, 0]
  {
    var m1 := After(s, START, Create(0));
    var m2 := After(s, m1, Create(1));
    var m3 := After(s, m2, Ask(0, OverwriteFails, true));
    assert m3.disk == m2.disk && m3.holders[0].bump == Bump(0, s.chunk, 0);
    var m4 := After(s, m3, Plain(0, Fine));
    var m5 := After(s, m4, Plain(1, Fine));
    ms := [START, m1, m2, m3, m4, m5];
    es := [Create(0), Create(1), Ask(0, OverwriteFails, true), Plain(0, Fine), Plain(1, Fine)];
  }

  /** ... and one kept after a sync that did not reach the image, ids a crash forgets. */
  lemma KeptSyncReissues(s: Setup, kept: Kept) returns (ms: seq<Machine>, es: seq<Event>)
    requires 0 < s.chunk < U64_LIMIT - 1 && s.durablePerChunk && SyncFails(false) in kept
    ensures IsRun(s, kept, ms, es) && ms[0] == START && |es| == 6 && ms[6].issued == [0, 0]
  {
    var m1 := After(s, START, Create(0));
    var m2 := After(s, m1, Ask(0, SyncFails(false), true));
    assert m2.disk == Disk(s.chunk, 0) && m2.holders[0].bump == Bump(0, s.chunk, 1);
    var m3 := After(s, m2, Plain(0, Fine));
    var m4 := After(s, m3, Crash);
    var m5 := After(s, m4, Create(0));
    var m6 := After(s, m5, Plain(0, Fine));
    ms := [START, m1, m2, m3, m4, m5, m6];
    es := [Create(0), Ask(0, SyncFails(false), true), Plain(0, Fine), Crash, Create(0), Plain(0, Fine)];
  }

  ghost predicate IssuesOnce(s: Setup, kept: Kept) {
    forall ms: seq<Machine>, es :: IsRun(s, kept, ms, es) && ms[0] == START ==> Distinct(ms[|es|].issued)
  }

  lemma ReissueSeen(s: Setup, kept: Kept, ms: seq<Machine>, es: seq<Event>)
    requires IsRun(s, kept, ms, es) && ms[0] == START && ms[|es|].issued == [0, 0]
    ensures !IssuesOnce(s, kept)
  {
    assert ms[|es|].issued[0] == ms[|es|].issued[1];
    assert !Distinct(ms[|es|].issued);
  }

  /** Ids are unique over every run exactly when each positive chunk is synced as it is
      reserved, and no allocator is kept over a failed overwrite or over a failed sync that
      did not reach the image. Keeping one over a failed read, or over a sync that failed
      late, is harmless. */
  lemma IssuesOnceExactly(s: Setup, kept: Kept)
    requires s.chunk < U64_LIMIT - 1
    ensures IssuesOnce(s, kept) <==> s.durablePerChunk && s.chunk > 0 && KeptWithCare(kept)
  {
    if s.durablePerChunk && s.chunk > 0 && KeptWithCare(kept) {
      forall ms: seq<Machine>, es | IsRun(s, kept, ms, es) && ms[0] == START ensures Distinct(ms[|es|].issued) {
        IssuedOnce(s, kept, ms, es);
      }
    } else {
      var ms, es;
      if !s.durablePerChunk { ms, es := UnsyncedReissues(s, kept); }
      else if s.chunk == 0 { ms, es := EmptyChunkReissues(s, kept); }
      else if OverwriteFails in kept { ms, es := KeptOverwriteReissues(s, kept); }
      else { ms, es := KeptSyncReissues(s, kept); }
      ReissueSeen(s, kept, ms, es);
    }
  }

  // ---- Policies a caller can write ----------------------------------------------------------------

  /** What a caller of Next is told: the call that failed, not whether a failed sync reached
      the image. */
  datatype Told = ReadFailed | OverwriteFailed | SyncFailed

  /** The errors after which a caller keeps an allocator, if it does after what it is told. */
  function KeptBy(survived: set<Told>): Kept {
    (if ReadFailed in survived then {ReadFails} else {})
    + (if OverwriteFailed in survived then {OverwriteFails} else {})
    + (if SyncFailed in survived then {SyncFails(true), SyncFails(false)} else {})
  }

  /** A caller may survive failed reads, and neither failed overwrites nor failed syncs. */
  lemma SafePolicies(s: Setup, survived: set<Told>)
    requires s.chunk < U64_LIMIT - 1
    ensures IssuesOnce(s, KeptBy(survived)) <==> s.durablePerChunk && s.chunk > 0 && survived <= {ReadFailed}
  {
    IssuesOnceExactly(s, KeptBy(survived));
    if OverwriteFailed !in survived && SyncFailed !in survived {
      forall told | told in survived ensures told == ReadFailed {}
    }
  }
}
