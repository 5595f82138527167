/**
  The state of a migration in flight: the kernel state together with the src and dst arrays.
*/
module Txn {
  import opened Kernel
  import opened KernelSteps

  datatype Select = SelectSystem | SelectDevicePrivate

  datatype Vma = Vma(start: Addr, end: Addr, anonymous: bool, readable: bool, writable: bool, unsupported: bool)

  const MIGRATE_ONLY := Mpfn(None, true, false)

  // ----- counting slots

  function MigrateSet(s: seq<Mpfn>): set<nat> {
    set i: nat | i < |s| && s[i].migrate
  }

  // Valid entries whose MIGRATE bit was cleared: what migrate_device_unmap must restore
  function PendingSet(s: seq<Mpfn>): set<nat> {
    set i: nat | i < |s| && s[i].page.Some? && !s[i].migrate
  }

  function SuccessSet(s: seq<Mpfn>): set<nat> {
    set i: nat | i < |s| && s[i].page.Some? && s[i].migrate
  }

  // ----- invariants

  ghost predicate LruHeld(pages: map<Pid, Page>) {
    forall p | p in pages && pages[p].lru == Isolated :: pages[p].lock.SrcSlot? && pages[p].kind.System?
  }

  // A mirror entry for an address in flight belongs to the slot of that address; with no base
  // address (eviction) there is none.
  ghost predicate MirrorHome(w: World, base: Option<Addr>) {
    forall a | a in w.mirror && w.At(a).Migration? :: AtHome(w, base, a)
  }

  predicate AtHome(w: World, base: Option<Addr>, a: Addr)
    requires w.At(a).Migration?
  {
    base.Some? && base.value <= a && HoldsLock(w, w.At(a).page, SrcSlot(a - base.value))
  }

  // The address of a slot holds a migration entry for the slot's page
  ghost predicate SlotPtes(w: World, s: seq<Mpfn>, base: Option<Addr>) {
    base.Some? ==> forall i {:trigger s[i]} | 0 <= i < |s| && s[i].page.Some? ::
      w.At(base.value + i) == Migration(s[i].page.value, s[i].write)
  }

  ghost predicate Held(w: World, mem: Mem, s: seq<Mpfn>, d: seq<Mpfn>, base: Option<Addr>) {
    w.Inv(mem) && Slots(w, s, d) && LruHeld(w.pages) && SlotPtes(w, s, base)
  }

  ghost predicate InFlight(w: World, mem: Mem, s: seq<Mpfn>, d: seq<Mpfn>, base: Option<Addr>) {
    Held(w, mem, s, d, base) && w.MirrorOk() && MirrorHome(w, base)
  }

  // No migration in flight
  ghost predicate Quiet(w: World, mem: Mem) {
    && w.Inv(mem) && w.MirrorOk()
    && (forall p | p in w.pages :: !w.pages[p].lock.Ours() && w.pages[p].lru != Isolated)
  }

  lemma QuietParts(w: World, mem: Mem)
    requires Quiet(w, mem)
    ensures w.Inv(mem)
  {}

  lemma QuietStart(w: World, mem: Mem, base: Option<Addr>)
    requires Quiet(w, mem)
    ensures InFlight(w, mem, [], [], base)
    ensures forall a :: !w.At(a).Migration?
  {
    forall a ensures !w.At(a).Migration? {
      if a in w.pt { assert PteOk(w.pt[a], w.pages); }
    }
  }

  // A page that nobody maps or pins, taken off the LRU: its contents can be copied
  predicate Frozen(w: World, p: Pid) {
    && p in w.pages && w.Mappers(p) == {}
    && (w.pages[p].kind.System? ==> w.pages[p].pins == 0 && w.pages[p].lru == Isolated)
  }

  // A page nobody maps or pins
  predicate Unused(w: World, q: Pid) {
    q in w.pages && w.Mappers(q) == {} && (w.pages[q].kind.System? ==> w.pages[q].pins == 0)
  }

  // Before the metadata is moved
  ghost predicate AllReady(w: World, s: seq<Mpfn>, d: seq<Mpfn>) {
    |s| == |d| && forall i | 0 <= i < |d| :: DstReady(w, s[i], d[i])
  }

  predicate DstReady(w: World, m: Mpfn, n: Mpfn) {
    n.page.Some? ==>
      var q := n.page.value;
      && m.migrate && Unused(w, q) && w.pages[q].mapping == NoMapping
      && w.Data(q) == (if m.page.Some? then w.Data(m.page.value) else ZERO_DATA)
  }

  // After the metadata is moved: what finalize relies on
  predicate Finalizable(w: World, m: Mpfn, n: Mpfn) {
    m.page.Some? ==>
      && Frozen(w, m.page.value)
      && (n.page.Some? ==> Unused(w, n.page.value) && (m.migrate ==> w.Data(n.page.value) == w.Data(m.page.value)))
  }

  ghost predicate AllFinalizable(w: World, s: seq<Mpfn>, d: seq<Mpfn>) {
    |s| == |d| && forall i | 0 <= i < |d| :: Finalizable(w, s[i], d[i])
  }

  // A slot whose page finalize replaces
  predicate Success(m: Mpfn, n: Mpfn) {
    m.page.Some? && m.migrate && n.page.Some?
  }

  // Both entries refer to the same page
  predicate RefersTo(e: Pte, e': Pte) {
    e.Refers() && e'.Refers() && e.page == e'.page
  }

  // ----- mirror frames

  // Every address refers to the same page with the same permission
  ghost predicate SameView(w: World, w': World) {
    forall a: Addr :: SameRef(w.At(a), w'.At(a))
  }

  // No page changes its kind, and outside references to device pages are never touched
  ghost predicate PinsKept(w: World, w': World) {
    forall p | p in w.pages :: PinKept(w, w', p)
  }

  predicate PinKept(w: World, w': World, p: Pid) {
    && p in w.pages && p in w'.pages && w'.pages[p].kind == w.pages[p].kind
    && (w.pages[p].kind.Device? && w.pages[p].pins > 0 ==> w'.pages[p].pins == w.pages[p].pins)
  }

  lemma PinsTrans(w: World, w1: World, w2: World)
    requires PinsKept(w, w1) && PinsKept(w1, w2)
    ensures PinsKept(w, w2)
  {
    forall p | p in w.pages ensures PinKept(w, w2, p) {
      assert PinKept(w, w1, p);
      assert PinKept(w1, w2, p);
    }
  }

  ghost predicate MirrorShrinks(w: World, w': World) {
    forall a | a in w'.mirror :: a in w.mirror && w'.mirror[a] == w.mirror[a]
  }

  lemma EntrySame(w: World, w': World, a: Addr, e: Entry)
    requires w.EntryOk(a, e) && SameStorage(w.pages, w'.pages) && SameRef(w.At(a), w'.At(a))
    ensures w'.EntryOk(a, e)
  {
    if w.At(a).Refers() {
      assert SameBits(w.pages[w.At(a).page], w'.pages[w.At(a).page]);
    }
  }

  lemma MirrorSame(w: World, w': World)
    requires w.MirrorOk() && SameStorage(w.pages, w'.pages) && SameRefs(w.pt, w'.pt)
    requires MirrorShrinks(w, w')
    ensures w'.MirrorOk()
  {
    forall a | a in w'.mirror ensures w'.EntryOk(a, w'.mirror[a]) {
      assert w.EntryOk(a, w.mirror[a]);
      assert a in w.pt;
      assert SameRef(w.pt[a], w'.pt[a]);
      EntrySame(w, w', a, w.mirror[a]);
    }
  }

  // ----- steps of a migration in flight

  // A page of a slot changes, but not its lock nor its contents
  lemma PageKeepsInFlight(w: World, mem: Mem, s: seq<Mpfn>, d: seq<Mpfn>, base: Option<Addr>, p: Pid, g: Page)
    requires InFlight(w, mem, s, d, base) && p in w.pages && w.SetPage(p, g).Inv(mem)
    requires g.lock == w.pages[p].lock && SameBits(w.pages[p], g) && (g.lru == Isolated ==> g.lock.SrcSlot? && g.kind.System?)
    ensures InFlight(w.SetPage(p, g), mem, s, d, base)
  {
    hide World.Inv, Slots, World.MirrorOk;
    SlotsSame(w, w.SetPage(p, g), s, d);
    MirrorSame(w, w.SetPage(p, g));
  }

  lemma LruKeepsInFlight(w: World, mem: Mem, s: seq<Mpfn>, d: seq<Mpfn>, base: Option<Addr>, p: Pid, l: Lru)
    requires InFlight(w, mem, s, d, base) && p in w.pages && w.pages[p].lock.SrcSlot? && w.pages[p].kind.System?
    ensures InFlight(w.SetLru(p, l), mem, s, d, base)
  {
    LruKeeps(w, mem, p, l);
    PageKeepsInFlight(w, mem, s, d, base, p, w.pages[p].(lru := l));
  }

  lemma LruKeeps(w: World, mem: Mem, p: Pid, l: Lru)
    requires w.Inv(mem) && p in w.pages
    ensures w.SetLru(p, l).Inv(mem)
  {
    assert w.BalancedAt(p);
    SetPageKeeps(w, mem, p, w.pages[p].(lru := l));
  }

  lemma TryKeepsInFlight(w: World, mem: Mem, s: seq<Mpfn>, d: seq<Mpfn>, base: Option<Addr>, p: Pid, keep: set<Addr>)
    requires InFlight(w, mem, s, d, base) && p in w.pages && w.pages[p].lock.SrcSlot?
    ensures InFlight(w.TryToMigrate(p, keep), mem, s, d, base)
  {
    hide World.Inv, Slots, World.MirrorOk, MirrorHome, SlotPtes, LruHeld, World.TryToMigrate, SameRefs, SameStorage,
         MirrorShrinks, SameLocks;
    TryToMigrateSame(w, p, keep);
    TryFrame(w, p, keep);
    TryMirrorHome(w, base, p, keep);
    TryPtes(w, s, base, p, keep);
    TryToMigrateKeeps(w, mem, p, keep);
    SlotsSame(w, w.TryToMigrate(p, keep), s, d);
    MirrorSame(w, w.TryToMigrate(p, keep));
  }

  lemma TryFrame(w: World, p: Pid, keep: set<Addr>)
    requires p in w.pages && LruHeld(w.pages)
    ensures var w' := w.TryToMigrate(p, keep);
            MirrorShrinks(w, w') && SameLocks(w.pages, w'.pages) && LruHeld(w'.pages)
  {}

  lemma TryMirrorHome(w: World, base: Option<Addr>, p: Pid, keep: set<Addr>)
    requires MirrorHome(w, base) && p in w.pages
    ensures MirrorHome(w.TryToMigrate(p, keep), base)
  {
    var w' := w.TryToMigrate(p, keep);
    forall a | a in w'.mirror && w'.At(a).Migration? ensures AtHome(w', base, a) {
      assert a !in w.Mappers(p);
      assert AtHome(w, base, a);
    }
  }

  lemma TryPtes(w: World, s: seq<Mpfn>, base: Option<Addr>, p: Pid, keep: set<Addr>)
    requires SlotPtes(w, s, base) && p in w.pages
    ensures SlotPtes(w.TryToMigrate(p, keep), s, base)
  {}

  lemma FlagKeepsInFlight(w: World, mem: Mem, s: seq<Mpfn>, d: seq<Mpfn>, base: Option<Addr>, i: nat, migrate: bool)
    requires InFlight(w, mem, s, d, base) && i < |s|
    ensures InFlight(w, mem, s[i := s[i].(migrate := migrate)], d, base)
  {
    SlotsFlags(w, s, d, i, s[i].(migrate := migrate));
  }

  // remove_migration_ptes back to the same page, unlock, put: the slot is empty again
  function RestorePage(w: World, p: Pid): World
    requires w.Live(p)
  {
    Release(w.RemoveMigrationPtes(p, p), p)
  }

  lemma RestoreKeepsInFlight(w: World, mem: Mem, s: seq<Mpfn>, d: seq<Mpfn>, base: Option<Addr>, i: nat, p: Pid)
    requires InFlight(w, mem, s, d, base) && i < |s| && s[i].page == Some(p)
    requires HoldsLock(w, p, SrcSlot(i)) && w.pages[p].lru != Isolated
    ensures w.Live(p)
    ensures InFlight(RestorePage(w, p), mem, s[i := EMPTY], d, base)
  {
    RestoreUnpack(w, mem, s, d, i, p);
    hide World.Inv, Slots, World.MirrorOk, MirrorHome, SlotPtes, LruHeld, RestorePage, SameRefs, SameStorage,
         MirrorShrinks, SameLocks;
    RestoreSame(w, p);
    RestoreHome(w, base, p);
    RestorePtes(w, s, base, i, p);
    SlotsDropSrc(w, RestorePage(w, p), s, d, i);
    MirrorSame(w, RestorePage(w, p));
  }

  lemma RestoreUnpack(w: World, mem: Mem, s: seq<Mpfn>, d: seq<Mpfn>, i: nat, p: Pid)
    requires w.Inv(mem) && Slots(w, s, d) && LruHeld(w.pages)
    requires HoldsLock(w, p, SrcSlot(i)) && w.pages[p].lru != Isolated
    ensures w.Live(p) && RestorePage(w, p).Inv(mem) && LruHeld(RestorePage(w, p).pages)
    ensures forall j {:trigger s[j]} | 0 <= j < |s| && s[j].page.Some? :: HoldsLock(w, s[j].page.value, SrcSlot(j))
  {
    RestoreInv(w, mem, p);
    RestoreLru(w, mem, p);
  }

  lemma RestoreLru(w: World, mem: Mem, p: Pid)
    requires w.Inv(mem) && LruHeld(w.pages) && w.Live(p) && w.pages[p].lru != Isolated
    ensures LruHeld(RestorePage(w, p).pages)
  {
    RestoreSame(w, p);
    hide RestorePage, World.Inv;
    var pages' := RestorePage(w, p).pages;
    forall q | q in pages' && pages'[q].lru == Isolated ensures pages'[q].lock.SrcSlot? && pages'[q].kind.System? {
      assert q in w.pages - {p} && SameBits(w.pages[q], pages'[q]);
    }
  }

  lemma RestoreInv(w: World, mem: Mem, p: Pid)
    requires w.Inv(mem) && p in w.pages && w.pages[p].lock.SrcSlot?
    ensures w.Live(p) && RestorePage(w, p).Inv(mem)
  {
    assert w.BalancedAt(p);
    RemoveKeeps(w, mem, p, p);
    RemoveMigAddrs(w, p, p);
    hide World.Inv;
    ReleaseKeeps(w.RemoveMigrationPtes(p, p), mem, p);
  }

  // What Release changes: p, and its backing page when the last reference to a device page goes
  lemma ReleaseFrame(w: World, p: Pid)
    requires w.Live(p) && (w.pages[p].kind.Device? ==> BackingOk(p, w.pages))
    ensures var w' := Release(w, p);
            && w'.pt == w.pt && w'.mirror == w.mirror && SameStorage(w.pages, w'.pages)
            && w'.pages[p].lock == Unlocked && w'.pages[p].refs == w.pages[p].refs - 1
            && w'.pages[p].pins == w.pages[p].pins
            && (forall q | q in w.pages && q != p :: w'.pages[q].lock == w.pages[q].lock && w'.pages[q].lru == w.pages[q].lru)
            && (forall q | q in w.pages && q != p && (w.pages[p].kind.System? || q != w.pages[p].backing)
                  :: w'.pages[q] == w.pages[q])
            && w'.pages[p].lru == if w.pages[p].refs == 1 then OffLru else w.pages[p].lru
  {}

  lemma RestoreSame(w: World, p: Pid)
    requires w.Live(p) && Backed(w.pages)
    ensures var w' := RestorePage(w, p);
            && SameRefs(w.pt, w'.pt) && SameStorage(w.pages, w'.pages) && MirrorShrinks(w, w') && w'.mirror == w.mirror
            && w'.pages.Keys == w.pages.Keys && w'.pages[p].lock == Unlocked
            && SameLocks(w.pages - {p}, w'.pages - {p})
            && (forall q | q in w.pages && q != p :: w'.pages[q].lru == w.pages[q].lru)
            && (w.pages[p].lru != Isolated ==> w'.pages[p].lru != Isolated)
  {
    var w1 := w.RemoveMigrationPtes(p, p);
    assert LiveDevice(p, w.pages) ==> BackingOk(p, w.pages);
    RemoveFrame(w, p);
    hide World.RemoveMigrationPtes, Backed;
    ReleaseFrame(w1, p);
    hide Release;
    forall q | q in w.pages ensures SameBits(w.pages[q], RestorePage(w, p).pages[q]) {
      assert SameBits(w.pages[q], w1.pages[q]) && SameBits(w1.pages[q], RestorePage(w, p).pages[q]);
    }
  }

  lemma RemoveFrame(w: World, p: Pid)
    requires w.Live(p)
    ensures var w' := w.RemoveMigrationPtes(p, p);
            && SameRefs(w.pt, w'.pt) && SameStorage(w.pages, w'.pages) && w'.mirror == w.mirror && w'.Live(p)
            && (forall q | q in w.pages && q != p :: w'.pages[q] == w.pages[q])
            && w'.pages[p].lru == w.pages[p].lru && w'.pages[p].kind == w.pages[p].kind
            && w'.pages[p].backing == w.pages[p].backing
            && (LiveDevice(p, w.pages) && BackingOk(p, w.pages) ==> BackingOk(p, w'.pages))
  {}

  lemma ReleasePins(w: World, p: Pid)
    requires w.Live(p) && (w.pages[p].kind.Device? ==> BackingOk(p, w.pages))
    ensures PinsKept(w, Release(w, p))
  {
    ReleaseFrame(w, p);
    hide Release;
    forall q | q in w.pages ensures PinKept(w, Release(w, p), q) {
      assert SameBits(w.pages[q], Release(w, p).pages[q]);
    }
  }

  lemma RemovePins(w: World, p: Pid, q: Pid)
    requires q in w.pages
    ensures PinsKept(w, w.RemoveMigrationPtes(p, q))
  {}

  lemma RestorePins(w: World, p: Pid)
    requires w.Live(p) && Backed(w.pages)
    ensures PinsKept(w, RestorePage(w, p))
  {
    assert LiveDevice(p, w.pages) ==> BackingOk(p, w.pages);
    RemoveFrame(w, p);
    RemovePins(w, p, p);
    hide World.RemoveMigrationPtes, PinsKept, Release;
    ReleasePins(w.RemoveMigrationPtes(p, p), p);
    PinsTrans(w, w.RemoveMigrationPtes(p, p), RestorePage(w, p));
  }

  lemma RestoreHome(w: World, base: Option<Addr>, p: Pid)
    requires MirrorHome(w, base) && w.Live(p)
    requires RestorePage(w, p).mirror == w.mirror && RestorePage(w, p).pages.Keys == w.pages.Keys
    requires SameLocks(w.pages - {p}, RestorePage(w, p).pages - {p})
    ensures MirrorHome(RestorePage(w, p), base)
  {
    var w' := RestorePage(w, p);
    forall a | a in w'.mirror && w'.At(a).Migration? ensures AtHome(w', base, a) {
      RestoreAt(w, p, a);
      assert AtHome(w, base, a);
      assert w.At(a).page in w.pages - {p};
    }
  }

  lemma RestoreAt(w: World, p: Pid, a: Addr)
    requires w.Live(p)
    ensures RestorePage(w, p).At(a) == if w.At(a).Migrates(p) then w.MapTo(p, w.At(a).write) else w.At(a)
  {}

  lemma RestorePtes(w: World, s: seq<Mpfn>, base: Option<Addr>, i: nat, p: Pid)
    requires SlotPtes(w, s, base) && i < |s| && HoldsLock(w, p, SrcSlot(i)) && w.Live(p)
    requires forall j {:trigger s[j]} | 0 <= j < |s| && s[j].page.Some? :: HoldsLock(w, s[j].page.value, SrcSlot(j))
    ensures SlotPtes(RestorePage(w, p), s[i := EMPTY], base)
  {
    forall a: Addr { RestoreAt(w, p, a); }
    hide RestorePage;
    if base.Some? {
      forall j | 0 <= j < |s| && s[i := EMPTY][j].page.Some?
        ensures RestorePage(w, p).At(base.value + j) == Migration(s[j].page.value, s[j].write)
      {
        assert HoldsLock(w, s[j].page.value, SrcSlot(j));
        assert w.At(base.value + j) == Migration(s[j].page.value, s[j].write);
      }
    }
  }
}
