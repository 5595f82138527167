/**
  What each step of a migration does to the invariants of the kernel state.  The methods of the
  migration call these lemmas once per statement group.
*/
module KernelSteps {
  import opened Kernel

  type Mem = map<Addr, PageData>

  // ----- frames, one for each part of the invariant

  predicate SameRef(e: Pte, e': Pte) {
    if e.Refers() then e'.Refers() && e'.page == e.page && e'.write == e.write else e' == e
  }

  ghost predicate SameRefs(pt: map<Addr, Pte>, pt': map<Addr, Pte>) {
    pt'.Keys == pt.Keys && forall a | a in pt :: SameRef(pt[a], pt'[a])
  }

  predicate SameBits(g: Page, g': Page) {
    g'.kind == g.kind && g'.backing == g.backing && g'.data == g.data
  }

  ghost predicate SameStorage(pages: map<Pid, Page>, pages': map<Pid, Page>) {
    pages'.Keys == pages.Keys && forall p | p in pages :: SameBits(pages[p], pages'[p])
  }

  lemma DataSame(w: World, w': World, p: Pid)
    requires SameStorage(w.pages, w'.pages)
    ensures w'.Data(p) == w.Data(p)
  {
    if p in w.pages {
      assert SameBits(w.pages[p], w'.pages[p]);
      var b := w.BackingOf(p);
      assert b in w.pages ==> SameBits(w.pages[b], w'.pages[b]);
    }
  }

  lemma FlatSame(w: World, w': World, mem: Mem)
    requires w.Flat(mem) && SameRefs(w.pt, w'.pt) && SameStorage(w.pages, w'.pages)
    ensures w'.Flat(mem)
  {
    forall a: Addr ensures w'.Read(a) == w.Read(a) {
      if a in w.pt {
        assert SameRef(w.pt[a], w'.pt[a]);
        if w.pt[a].Refers() { DataSame(w, w', w.pt[a].page); }
      }
    }
  }

  lemma ExclusiveSame(pt: map<Addr, Pte>, pt': map<Addr, Pte>)
    requires Exclusive(pt) && SameRefs(pt, pt')
    ensures Exclusive(pt')
  {
    forall a, b | a in pt' && b in pt' && a != b && pt'[a].Refers() && pt'[b].Refers() && pt'[a].page == pt'[b].page
      ensures !pt'[a].write
    {
      assert SameRef(pt[a], pt'[a]) && SameRef(pt[b], pt'[b]);
    }
  }

  // A change of one page that keeps what Backed looks at
  predicate BackedFrame(g: Page, g': Page) {
    && g'.kind == g.kind && g'.backing == g.backing
    && (g.kind.Device? ==> (g'.refs > 0) == (g.refs > 0))
    && (g.refs == 1 && g.pins == 1 ==> g'.refs == 1 && g'.pins == 1)
  }

  lemma BackedSame(pages: map<Pid, Page>, p: Pid, g: Page)
    requires Backed(pages) && p in pages && BackedFrame(pages[p], g)
    ensures Backed(pages[p := g])
  {
    var pages' := pages[p := g];
    forall q | LiveDevice(q, pages') ensures LiveDevice(q, pages) && BackingOk(q, pages') {
      assert LiveDevice(q, pages) && BackingOk(q, pages);
    }
  }

  lemma KindsPage(pt: map<Addr, Pte>, pages: map<Pid, Page>, p: Pid, g: Page)
    requires Kinds(pt, pages) && p in pages && g.kind == pages[p].kind
    requires pages[p].lock.SrcSlot? ==> g.lock.SrcSlot? || (forall a | a in pt :: !pt[a].Migrates(p))
    ensures Kinds(pt, pages[p := g])
  {
    forall a | a in pt ensures PteOk(pt[a], pages[p := g]) {
      assert PteOk(pt[a], pages);
      assert !pt[a].Migrates(p) || pt[a].Migrates(p);
    }
  }

  // Balance is kept when one page's books still close and no other page's mappers changed.
  lemma BalancedOne(w: World, w': World, p: Pid)
    requires w.Balanced() && p in w.pages && p in w'.pages && w'.pages == w.pages[p := w'.pages[p]]
    requires forall q | q != p :: w'.Mappers(q) == w.Mappers(q)
    requires w'.BalancedAt(p)
    ensures w'.Balanced()
  {
    forall q | q in w'.pages ensures w'.BalancedAt(q) {
      if q != p { assert w.BalancedAt(q); }
    }
  }

  // A mapped page is live, and its contents are stored in a live page.
  lemma MappedLive(w: World, a: Addr)
    requires w.Balanced() && Kinds(w.pt, w.pages)
    requires w.At(a).Refers()
    ensures w.Live(w.At(a).page)
  {
    var p := w.At(a).page;
    assert PteOk(w.pt[a], w.pages);
    assert w.BalancedAt(p);
    if w.At(a).Maps(p) {
      assert a in w.Mappers(p);
    }
  }

  lemma StoredLive(w: World, a: Addr)
    requires w.Balanced() && Kinds(w.pt, w.pages) && Backed(w.pages)
    requires w.At(a).Refers()
    ensures w.Live(w.At(a).page) && w.Live(w.BackingOf(w.At(a).page))
  {
    MappedLive(w, a);
    assert LiveDevice(w.At(a).page, w.pages) ==> BackingOk(w.At(a).page, w.pages);
  }

  // ----- changing one struct page and no page table entry

  predicate PageChangeOk(w: World, p: Pid, g: Page)
    requires p in w.pages
  {
    && BackedFrame(w.pages[p], g)
    && (g.data == w.pages[p].data || w.pages[p].refs == 0)
    && g.refs == |w.Mappers(p)| + g.pins + g.CacheRefs() + g.HeldRefs()
    && (w.pages[p].lock.SrcSlot? ==> g.lock.SrcSlot? || w.MigAddrs(p) == {})
  }

  lemma SetPageKeepsFlat(w: World, mem: Mem, p: Pid, g: Page)
    requires Kinds(w.pt, w.pages) && w.Balanced() && Backed(w.pages) && w.Flat(mem)
    requires p in w.pages && PageChangeOk(w, p, g)
    ensures w.SetPage(p, g).Flat(mem)
  {
    var w' := w.SetPage(p, g);
    if g.data == w.pages[p].data {
      assert SameBits(w.pages[p], g);
      FlatSame(w, w', mem);
    } else {
      forall a: Addr ensures w'.Read(a) == w.Read(a) {
        if w.At(a).Refers() { StoredLive(w, a); }
      }
    }
  }

  lemma SetPageKeeps(w: World, mem: Mem, p: Pid, g: Page)
    requires w.Inv(mem) && p in w.pages && PageChangeOk(w, p, g)
    ensures w.SetPage(p, g).Inv(mem)
  {
    var w' := w.SetPage(p, g);
    BackedSame(w.pages, p, g);
    SetPageKeepsFlat(w, mem, p, g);
    forall a | a in w.pt && w.MigAddrs(p) == {} ensures !w.pt[a].Migrates(p) {
      assert a !in w.MigAddrs(p);
    }
    KindsPage(w.pt, w.pages, p, g);
    forall q ensures w'.Mappers(q) == w.Mappers(q) {}
    BalancedOne(w, w', p);
  }

  // ----- collect: the entry at `a` becomes a migration entry and a slot locks its page

  function Install(w: World, a: Addr, p: Pid, write: bool, slot: nat): World
    requires p in w.pages
  {
    w.SetLock(p, SrcSlot(slot)).SetPte(a, Migration(p, write))
  }

  lemma InstallKeeps(w: World, mem: Mem, a: Addr, p: Pid, write: bool, slot: nat)
    requires w.Inv(mem)
    requires a in w.pt && w.pt[a].Maps(p) && w.pt[a].write == write
    requires p in w.pages && w.pages[p].lock == Unlocked
    ensures w.Live(p) && Install(w, a, p, write, slot).Inv(mem)
  {
    var w' := Install(w, a, p, write, slot);
    MappedLive(w, a);
    BackedSame(w.pages, p, w'.pages[p]);
    InstallKeepsBalance(w, a, p, write, slot);
    InstallKeepsKinds(w, a, p, write, slot);
    FlatSame(w, w', mem);
    ExclusiveSame(w.pt, w'.pt);
  }

  lemma InstallKeepsBalance(w: World, a: Addr, p: Pid, write: bool, slot: nat)
    requires w.Balanced()
    requires a in w.pt && w.pt[a].Maps(p)
    requires p in w.pages && w.pages[p].lock == Unlocked
    ensures Install(w, a, p, write, slot).Balanced()
  {
    var w' := Install(w, a, p, write, slot);
    assert w'.Mappers(p) == w.Mappers(p) - {a};
    assert a in w.Mappers(p);
    assert w.BalancedAt(p);
    forall q | q != p ensures w'.Mappers(q) == w.Mappers(q) {}
    BalancedOne(w, w', p);
  }

  lemma InstallKeepsKinds(w: World, a: Addr, p: Pid, write: bool, slot: nat)
    requires Kinds(w.pt, w.pages) && a in w.pt && p in w.pages
    ensures var w' := Install(w, a, p, write, slot); Kinds(w'.pt, w'.pages)
  {
    var w' := Install(w, a, p, write, slot);
    KindsPage(w.pt, w.pages, p, w'.pages[p]);
    forall b | b in w'.pt ensures PteOk(w'.pt[b], w'.pages) { assert PteOk(w.pt[b], w'.pages); }
  }

  // ----- unmap

  lemma TryToMigrateMappers(w: World, p: Pid, keep: set<Addr>)
    requires p in w.pages
    ensures w.TryToMigrate(p, keep).Mappers(p) == w.Mappers(p) * keep
    ensures forall q | q != p :: w.TryToMigrate(p, keep).Mappers(q) == w.Mappers(q)
  {
    var w' := w.TryToMigrate(p, keep);
    forall q | q != p ensures w'.Mappers(q) == w.Mappers(q) {
      forall a ensures a in w'.Mappers(q) <==> a in w.Mappers(q) {}
    }
  }

  lemma TryToMigrateRefs(w: World, p: Pid, keep: set<Addr>)
    requires p in w.pages && w.pages[p].lock.SrcSlot? && w.BalancedAt(p)
    ensures w.TryToMigrate(p, keep).pages[p].refs > 0
    ensures w.TryToMigrate(p, keep).pages[p].refs + |w.Mappers(p) - keep| == w.pages[p].refs
    ensures |w.Mappers(p)| == |w.Mappers(p) - keep| + |w.Mappers(p) * keep|
  {
    assert w.Mappers(p) == (w.Mappers(p) - keep) + w.Mappers(p) * keep;
  }

  lemma TryToMigrateKeepsBalance(w: World, p: Pid, keep: set<Addr>)
    requires w.Balanced() && p in w.pages && w.pages[p].lock.SrcSlot?
    ensures w.TryToMigrate(p, keep).Balanced()
  {
    var w' := w.TryToMigrate(p, keep);
    assert w.BalancedAt(p);
    TryToMigrateRefs(w, p, keep);
    TryToMigrateMappers(w, p, keep);
    BalancedOne(w, w', p);
  }

  lemma TryToMigrateKeepsKinds(w: World, p: Pid, keep: set<Addr>)
    requires Kinds(w.pt, w.pages) && p in w.pages && w.pages[p].lock.SrcSlot?
    ensures var w' := w.TryToMigrate(p, keep); Kinds(w'.pt, w'.pages)
  {
    var w' := w.TryToMigrate(p, keep);
    KindsPage(w.pt, w.pages, p, w'.pages[p]);
    forall b | b in w'.pt ensures PteOk(w'.pt[b], w'.pages) { assert PteOk(w.pt[b], w'.pages); }
  }

  lemma TryToMigrateKeeps(w: World, mem: Mem, p: Pid, keep: set<Addr>)
    requires w.Inv(mem) && p in w.pages && w.pages[p].lock.SrcSlot?
    ensures w.TryToMigrate(p, keep).Inv(mem)
  {
    var w' := w.TryToMigrate(p, keep);
    assert w.BalancedAt(p);
    TryToMigrateRefs(w, p, keep);
    BackedSame(w.pages, p, w'.pages[p]);
    TryToMigrateKeepsFrames(w, mem, p, keep);
    TryToMigrateKeepsBalance(w, p, keep);
    TryToMigrateKeepsKinds(w, p, keep);
  }

  lemma TryToMigrateKeepsFrames(w: World, mem: Mem, p: Pid, keep: set<Addr>)
    requires w.Flat(mem) && Exclusive(w.pt) && p in w.pages
    ensures w.TryToMigrate(p, keep).Flat(mem) && Exclusive(w.TryToMigrate(p, keep).pt)
  {
    TryToMigrateSame(w, p, keep);
    hide Exclusive, World.Flat, World.TryToMigrate;
    FlatSame(w, w.TryToMigrate(p, keep), mem);
    ExclusiveSame(w.pt, w.TryToMigrate(p, keep).pt);
  }

  lemma TryToMigrateSame(w: World, p: Pid, keep: set<Addr>)
    requires p in w.pages
    ensures SameRefs(w.pt, w.TryToMigrate(p, keep).pt) && SameStorage(w.pages, w.TryToMigrate(p, keep).pages)
  {
    hide Notified;
    var w' := w.TryToMigrate(p, keep);
    forall a | a in w.pt ensures SameRef(w.pt[a], w'.pt[a]) {}
    hide World.Mappers;
    forall q | q in w.pages ensures SameBits(w.pages[q], w'.pages[q]) {}
  }

  // ----- remove_migration_ptes, to the same page or to its replacement

  lemma RemoveMappers(w: World, p: Pid, q: Pid)
    requires p in w.pages && q in w.pages
    ensures w.RemoveMigrationPtes(p, q).Mappers(q) == w.Mappers(q) + w.MigAddrs(p)
    ensures forall r | r != q :: w.RemoveMigrationPtes(p, q).Mappers(r) == w.Mappers(r)
  {
    var w' := w.RemoveMigrationPtes(p, q);
    forall r | r != q ensures w'.Mappers(r) == w.Mappers(r) {
      forall a ensures a in w'.Mappers(r) <==> a in w.Mappers(r) {}
    }
  }

  lemma RemoveMigAddrs(w: World, p: Pid, q: Pid)
    requires p in w.pages && q in w.pages
    ensures w.RemoveMigrationPtes(p, q).MigAddrs(p) == {}
    ensures forall r | r != p :: w.RemoveMigrationPtes(p, q).MigAddrs(r) == w.MigAddrs(r)
  {
    var w' := w.RemoveMigrationPtes(p, q);
    forall r | r != p ensures w'.MigAddrs(r) == w.MigAddrs(r) {
      forall a ensures a in w'.MigAddrs(r) <==> a in w.MigAddrs(r) {}
    }
  }

  lemma RemoveKeepsBalance(w: World, p: Pid, q: Pid)
    requires w.Balanced() && p in w.pages && q in w.pages
    ensures w.RemoveMigrationPtes(p, q).Balanced()
  {
    var w' := w.RemoveMigrationPtes(p, q);
    RemoveMappers(w, p, q);
    assert w.Mappers(q) !! w.MigAddrs(p);
    assert w.BalancedAt(q);
    BalancedOne(w, w', q);
  }

  // q can take over the migration entries of p
  predicate Replaceable(w: World, p: Pid, q: Pid) {
    && p in w.pages && q in w.pages && w.Data(q) == w.Data(p)
    && w.pages[q].lock.Ours()
    && (q != p ==> w.pages[q].lock.DstSlot? && w.Mappers(q) == {})
  }

  lemma Unreferred(w: World, q: Pid, a: Addr)
    requires Kinds(w.pt, w.pages) && q in w.pages && !w.pages[q].lock.SrcSlot? && w.Mappers(q) == {}
    requires a in w.pt && w.pt[a].Refers()
    ensures w.pt[a].page != q
  {
    assert PteOk(w.pt[a], w.pages);
    assert a !in w.Mappers(q);
  }

  lemma RemoveKeepsExclusive(w: World, p: Pid, q: Pid)
    requires Kinds(w.pt, w.pages) && Exclusive(w.pt) && Replaceable(w, p, q)
    ensures Exclusive(w.RemoveMigrationPtes(p, q).pt)
  {
    var w' := w.RemoveMigrationPtes(p, q);
    if q == p {
      ExclusiveSame(w.pt, w'.pt);
    } else {
      forall a | a in w.pt && w.pt[a].Refers() ensures w.pt[a].page != q { Unreferred(w, q, a); }
    }
  }

  lemma RemoveKeepsFlat(w: World, mem: Mem, p: Pid, q: Pid)
    requires w.Flat(mem) && Replaceable(w, p, q)
    ensures w.RemoveMigrationPtes(p, q).Flat(mem)
  {
    var w' := w.RemoveMigrationPtes(p, q);
    assert SameBits(w.pages[q], w'.pages[q]);
    assert SameStorage(w.pages, w'.pages);
    DataSame(w, w', q);
    forall a: Addr ensures w'.Read(a) == w.Read(a) {
      if w.At(a).Refers() { DataSame(w, w', w.At(a).page); }
    }
  }

  lemma RemoveKeepsKinds(w: World, p: Pid, q: Pid)
    requires Kinds(w.pt, w.pages) && p in w.pages && q in w.pages
    ensures var w' := w.RemoveMigrationPtes(p, q); Kinds(w'.pt, w'.pages)
  {
    var w' := w.RemoveMigrationPtes(p, q);
    KindsPage(w.pt, w.pages, q, w'.pages[q]);
    forall b | b in w'.pt ensures PteOk(w'.pt[b], w'.pages) { assert PteOk(w.pt[b], w'.pages); }
  }

  lemma RemoveKeeps(w: World, mem: Mem, p: Pid, q: Pid)
    requires w.Inv(mem) && Replaceable(w, p, q)
    ensures w.RemoveMigrationPtes(p, q).Inv(mem)
  {
    assert w.BalancedAt(q);
    BackedSame(w.pages, q, w.RemoveMigrationPtes(p, q).pages[q]);
    RemoveKeepsBalance(w, p, q);
    RemoveKeepsExclusive(w, p, q);
    RemoveKeepsFlat(w, mem, p, q);
    RemoveKeepsKinds(w, p, q);
  }

  // ----- unlock a page of a slot and drop the slot's reference

  function Release(w: World, p: Pid): World
    requires w.Live(p)
  {
    w.SetLock(p, Unlocked).PutPage(p)
  }

  // The last reference to a device page: it is freed together with its backing page.
  lemma FreeDeviceKeeps(w: World, mem: Mem, p: Pid)
    requires w.Inv(mem) && p in w.pages && w.pages[p].lock.Ours() && w.MigAddrs(p) == {}
    requires w.pages[p].refs == 1 && w.pages[p].kind.Device?
    ensures Release(w, p).Inv(mem)
  {
    var b := w.pages[p].backing;
    assert LiveDevice(p, w.pages) && BackingOk(p, w.pages);
    var g := w.pages[p].(refs := 0, lock := Unlocked, lru := OffLru);
    var w1 := w.SetPage(p, g);
    ReleaseIsFree(w, p, g);
    FreeDeviceDrop(w, mem, p, g);
    FreeBackingKeeps(w1, mem, b);
  }

  lemma ReleaseIsFree(w: World, p: Pid, g: Page)
    requires p in w.pages && w.pages[p].refs == 1 && w.pages[p].kind.Device? && BackingOk(p, w.pages)
    requires g == w.pages[p].(refs := 0, lock := Unlocked, lru := OffLru)
    ensures var b := w.pages[p].backing;
            var w1 := w.SetPage(p, g);
            Release(w, p) == w1.SetPage(b, w1.pages[b].(refs := 0, pins := 0))
  {
    var b := w.pages[p].backing;
    var w1 := w.SetPage(p, g);
    assert w.SetLock(p, Unlocked).SetPage(p, g) == w1;
  }

  lemma FreeDeviceDrop(w: World, mem: Mem, p: Pid, g: Page)
    requires w.Inv(mem) && p in w.pages && w.pages[p].lock.Ours() && w.MigAddrs(p) == {}
    requires w.pages[p].refs == 1 && w.pages[p].kind.Device?
    requires g == w.pages[p].(refs := 0, lock := Unlocked, lru := OffLru)
    ensures w.SetPage(p, g).Inv(mem)
    ensures NotBacking(w.pages[p].backing, w.SetPage(p, g).pages)
  {
    var w' := w.SetPage(p, g);
    assert w.BalancedAt(p);
    forall q ensures w'.Mappers(q) == w.Mappers(q) {}
    BalancedOne(w, w', p);
    assert SameBits(w.pages[p], g);
    FlatSame(w, w', mem);
    forall a | a in w.pt ensures !w.pt[a].Migrates(p) { assert a !in w.MigAddrs(p); }
    KindsPage(w.pt, w.pages, p, g);
    BackedDrop(w.pages, p, g);
  }

  ghost predicate NotBacking(b: Pid, pages: map<Pid, Page>) {
    forall d | LiveDevice(d, pages) :: pages[d].backing != b
  }

  lemma BackedDrop(pages: map<Pid, Page>, p: Pid, g: Page)
    requires Backed(pages) && LiveDevice(p, pages) && g.kind == pages[p].kind && g.refs == 0
    ensures Backed(pages[p := g]) && NotBacking(pages[p].backing, pages[p := g])
  {
    var pages' := pages[p := g];
    forall q | LiveDevice(q, pages')
      ensures LiveDevice(q, pages) && BackingOk(q, pages') && pages'[q].backing != pages[p].backing
    {
      assert LiveDevice(q, pages) && BackingOk(q, pages);
    }
  }

  lemma FreeBackingKeeps(w: World, mem: Mem, b: Pid)
    requires w.Inv(mem) && b in w.pages && w.pages[b].kind.System? && w.pages[b].refs == 1 && w.pages[b].pins == 1
    requires NotBacking(b, w.pages)
    ensures w.SetPage(b, w.pages[b].(refs := 0, pins := 0)).Inv(mem)
  {
    var f := w.pages[b].(refs := 0, pins := 0);
    var w' := w.SetPage(b, f);
    assert w.BalancedAt(b);
    forall q ensures w'.Mappers(q) == w.Mappers(q) {}
    BalancedOne(w, w', b);
    assert SameBits(w.pages[b], f);
    FlatSame(w, w', mem);
    KindsPage(w.pt, w.pages, b, f);
    forall r | LiveDevice(r, w'.pages) ensures LiveDevice(r, w.pages) && BackingOk(r, w'.pages) {
      assert LiveDevice(r, w.pages) && BackingOk(r, w.pages);
    }
  }

  lemma DroppedOk(w: World, p: Pid)
    requires p in w.pages && w.BalancedAt(p) && w.pages[p].lock.Ours() && w.MigAddrs(p) == {}
    requires w.pages[p].refs > 1 || w.pages[p].kind.System?
    ensures PageChangeOk(w, p, w.pages[p].Dropped()) && Release(w, p) == w.SetPage(p, w.pages[p].Dropped())
  {}

  lemma ReleaseKeeps(w: World, mem: Mem, p: Pid)
    requires w.Inv(mem) && p in w.pages && w.pages[p].lock.Ours() && w.MigAddrs(p) == {}
    ensures w.Live(p) && Release(w, p).Inv(mem)
  {
    assert w.BalancedAt(p);
    if w.pages[p].refs == 1 && w.pages[p].kind.Device? {
      FreeDeviceKeeps(w, mem, p);
    } else {
      DroppedOk(w, p);
      SetPageKeeps(w, mem, p, w.pages[p].Dropped());
    }
  }

  // ----- a destination page for slot h

  lemma FreeUnmapped(w: World, q: Pid)
    requires w.Balanced() && w.Free(q)
    ensures w.Mappers(q) == {} && w.pages[q].pins == 0 && w.pages[q].CacheRefs() == 0 && !w.pages[q].lock.Ours()
  {
    assert w.BalancedAt(q);
  }

  // alloc_page followed by lock_page and a copy (or a clear)
  function AllocSystem(w: World, q: Pid, h: Holder, data: PageData): World
    requires w.Free(q)
  {
    w.SetPage(q, w.pages[q].(refs := 1, lock := h, mapping := NoMapping, lru := OffLru, data := data))
  }

  lemma AllocSystemKeeps(w: World, mem: Mem, q: Pid, h: Holder, data: PageData)
    requires w.Inv(mem) && w.Free(q) && w.pages[q].kind.System? && h.DstSlot?
    ensures AllocSystem(w, q, h, data).Inv(mem)
    ensures AllocSystem(w, q, h, data).Mappers(q) == {}
    ensures AllocSystem(w, q, h, data).Data(q) == data
  {
    FreeUnmapped(w, q);
    assert AllocSystem(w, q, h, data).Mappers(q) == w.Mappers(q);
    SetPageKeeps(w, mem, q, AllocSystem(w, q, h, data).pages[q]);
  }

  // dmirror_devmem_alloc_page: device page q, locked and with one reference, backed by rp
  function AllocDevice(w: World, q: Pid, rp: Pid, h: Holder, data: PageData): World
    requires w.Free(q) && w.Free(rp) && q != rp
  {
    w.SetPage(rp, w.pages[rp].(refs := 1, pins := 1, mapping := NoMapping, lru := OffLru, data := data))
     .SetPage(q, w.pages[q].(refs := 1, lock := h, mapping := NoMapping, lru := OffLru, backing := rp))
  }

  lemma AllocDeviceKeeps(w: World, mem: Mem, q: Pid, rp: Pid, h: Holder, data: PageData)
    requires w.Inv(mem) && w.Free(q) && w.pages[q].kind.Device? && w.Free(rp) && w.pages[rp].kind.System?
    requires h.DstSlot?
    ensures AllocDevice(w, q, rp, h, data).Inv(mem)
    ensures AllocDevice(w, q, rp, h, data).Mappers(q) == {}
    ensures AllocDevice(w, q, rp, h, data).Data(q) == data
  {
    FreeUnmapped(w, q);
    FreeUnmapped(w, rp);
    var g := w.pages[rp].(refs := 1, pins := 1, mapping := NoMapping, lru := OffLru, data := data);
    var w1 := w.SetPage(rp, g);
    SetPageKeeps(w, mem, rp, g);
    forall d | LiveDevice(d, w1.pages) ensures w1.pages[d].backing != rp {
      assert LiveDevice(d, w.pages) && BackingOk(d, w.pages);
    }
    assert w1.Mappers(q) == w.Mappers(q);
    BirthKeeps(w1, mem, q, w.pages[q].(refs := 1, lock := h, mapping := NoMapping, lru := OffLru, backing := rp));
    assert AllocDevice(w, q, rp, h, data).Mappers(q) == w.Mappers(q);
  }

  // A free device page comes to life with a backing page nobody else uses.
  lemma BirthKeeps(w: World, mem: Mem, q: Pid, g: Page)
    requires w.Inv(mem) && w.Free(q) && w.pages[q].kind.Device?
    requires g.refs == 1 && g.pins == 0 && g.CacheRefs() == 0 && g.lock.DstSlot? && g.kind == w.pages[q].kind
    requires g.backing in w.pages && w.pages[g.backing].kind.System?
    requires w.pages[g.backing].refs == 1 && w.pages[g.backing].pins == 1 && NotBacking(g.backing, w.pages)
    ensures w.SetPage(q, g).Inv(mem)
  {
    var w' := w.SetPage(q, g);
    FreeUnmapped(w, q);
    forall r ensures w'.Mappers(r) == w.Mappers(r) {}
    BalancedOne(w, w', q);
    KindsPage(w.pt, w.pages, q, g);
    BirthKeepsFlat(w, mem, q, g);
    BirthKeepsBacked(w.pages, q, g);
  }

  lemma BirthKeepsFlat(w: World, mem: Mem, q: Pid, g: Page)
    requires Kinds(w.pt, w.pages) && w.Balanced() && Backed(w.pages) && w.Flat(mem) && w.Free(q)
    requires w.pages[q].kind.Device? && g.kind == w.pages[q].kind
    ensures w.SetPage(q, g).Flat(mem)
  {
    var w' := w.SetPage(q, g);
    forall a: Addr ensures w'.Read(a) == w.Read(a) {
      if w.At(a).Refers() { StoredLive(w, a); }
    }
  }

  lemma BirthKeepsBacked(pages: map<Pid, Page>, q: Pid, g: Page)
    requires Backed(pages) && q in pages && pages[q].refs == 0 && pages[q].kind.Device? && g.kind == pages[q].kind
    requires g.backing in pages && pages[g.backing].kind.System?
    requires pages[g.backing].refs == 1 && pages[g.backing].pins == 1 && NotBacking(g.backing, pages)
    ensures Backed(pages[q := g])
  {
    var pages' := pages[q := g];
    forall d | LiveDevice(d, pages') && d != q ensures LiveDevice(d, pages) && BackingOk(d, pages') {
      assert LiveDevice(d, pages) && BackingOk(d, pages);
    }
  }

  // ----- migrate_folio: page->mapping and its references move from p to q

  function MoveMapping(w: World, p: Pid, q: Pid): World
    requires p in w.pages && q in w.pages
  {
    w.SetPage(p, w.pages[p].SetMapping(NoMapping)).SetPage(q, w.pages[q].SetMapping(w.pages[p].mapping))
  }

  lemma SetMappingKeeps(w: World, mem: Mem, p: Pid, m: Mapping)
    requires w.Inv(mem) && p in w.pages && w.pages[p].lock.Ours()
    ensures w.SetPage(p, w.pages[p].SetMapping(m)).Inv(mem)
  {
    assert w.BalancedAt(p);
    SetPageKeeps(w, mem, p, w.pages[p].SetMapping(m));
  }

  lemma MoveMappingKeeps(w: World, mem: Mem, p: Pid, q: Pid)
    requires w.Inv(mem) && p in w.pages && q in w.pages && p != q
    requires w.pages[p].lock.Ours() && w.pages[q].lock.Ours()
    ensures MoveMapping(w, p, q).Inv(mem)
  {
    SetMappingKeeps(w, mem, p, NoMapping);
    SetMappingKeeps(w.SetPage(p, w.pages[p].SetMapping(NoMapping)), mem, q, w.pages[p].mapping);
  }

  // Only pages of src slots have migration entries.
  lemma MigAddrsOfDst(w: World, q: Pid)
    requires Kinds(w.pt, w.pages) && (q in w.pages ==> !w.pages[q].lock.SrcSlot?)
    ensures w.MigAddrs(q) == {}
  {
    forall a | a in w.pt ensures !w.pt[a].Migrates(q) { assert PteOk(w.pt[a], w.pages); }
  }

  // ----- migrate_vma_insert_page: q becomes the page of an empty or zero-page address

  function Insert(w: World, a: Addr, q: Pid, write: bool): World
    requires q in w.pages
  {
    var g := w.pages[q];
    w.SetPage(q, g.(refs := g.refs + 1, mapping := Anon, lru := if g.kind.Device? then g.lru else OnLru))
     .SetPte(a, w.MapTo(q, write))
  }

  lemma InsertKeeps(w: World, mem: Mem, a: Addr, q: Pid, write: bool)
    requires w.Inv(mem) && q in w.pages && w.Mappers(q) == {} && w.Data(q) == ZERO_DATA
    requires w.pages[q].lock.DstSlot? && w.pages[q].mapping == NoMapping
    requires w.At(a).NoPte? || w.At(a).ZeroPte?
    ensures Insert(w, a, q, write).Inv(mem)
  {
    var w' := Insert(w, a, q, write);
    assert w.BalancedAt(q);
    BackedSame(w.pages, q, w'.pages[q]);
    InsertKeepsBalance(w, a, q, write);
    KindsPage(w.pt, w.pages, q, w'.pages[q]);
    forall b | b in w'.pt ensures PteOk(w'.pt[b], w'.pages) { assert b != a ==> PteOk(w.pt[b], w'.pages); }
    forall b | b in w.pt && w.pt[b].Refers() ensures w.pt[b].page != q { Unreferred(w, q, b); }
    InsertKeepsFlat(w, mem, a, q, write);
  }

  lemma InsertKeepsBalance(w: World, a: Addr, q: Pid, write: bool)
    requires w.Balanced() && q in w.pages && w.Mappers(q) == {} && w.pages[q].mapping == NoMapping
    requires !w.At(a).Refers()
    ensures Insert(w, a, q, write).Balanced()
  {
    var w' := Insert(w, a, q, write);
    assert w.BalancedAt(q);
    assert w'.Mappers(q) == {a};
    forall r | r != q ensures w'.Mappers(r) == w.Mappers(r) {}
    BalancedOne(w, w', q);
  }

  lemma InsertKeepsFlat(w: World, mem: Mem, a: Addr, q: Pid, write: bool)
    requires w.Flat(mem) && q in w.pages && w.Data(q) == ZERO_DATA
    requires w.At(a).NoPte? || w.At(a).ZeroPte?
    ensures Insert(w, a, q, write).Flat(mem)
  {
    var w' := Insert(w, a, q, write);
    assert SameBits(w.pages[q], w'.pages[q]);
    assert SameStorage(w.pages, w'.pages);
    DataSame(w, w', q);
    forall b: Addr ensures w'.Read(b) == w.Read(b) {
      if w.At(b).Refers() { DataSame(w, w', w.At(b).page); }
    }
  }

  // ----- which locks the slots hold

  ghost predicate SameLocks(pages: map<Pid, Page>, pages': map<Pid, Page>) {
    && pages'.Keys == pages.Keys
    && forall p | p in pages ::
         pages'[p].lock == pages[p].lock || (!pages'[p].lock.Ours() && !pages[p].lock.Ours())
  }

  lemma SlotsSame(w: World, w': World, s: seq<Mpfn>, d: seq<Mpfn>)
    requires Slots(w, s, d) && SameLocks(w.pages, w'.pages)
    ensures Slots(w', s, d)
  {}

  lemma SlotsAppend(w: World, w': World, s: seq<Mpfn>, d: seq<Mpfn>, p: Pid, write: bool)
    requires Slots(w, s, d) && p in w.pages && !w.pages[p].lock.Ours()
    requires w'.pages == w.pages[p := w.pages[p].(lock := SrcSlot(|s|))]
    ensures Slots(w', s + [Mpfn(Some(p), true, write)], d + [EMPTY])
  {}

  lemma SlotsAppendNone(w: World, s: seq<Mpfn>, d: seq<Mpfn>, m: Mpfn)
    requires Slots(w, s, d) && m.page == None
    ensures Slots(w, s + [m], d + [EMPTY])
  {}

  // Only the flags of a slot change
  lemma SlotsFlags(w: World, s: seq<Mpfn>, d: seq<Mpfn>, i: nat, m: Mpfn)
    requires Slots(w, s, d) && i < |s| && m.page == s[i].page
    ensures Slots(w, s[i := m], d)
  {}

  // A src slot gives its page back
  lemma SlotsDropSrc(w: World, w': World, s: seq<Mpfn>, d: seq<Mpfn>, i: nat)
    requires Slots(w, s, d) && i < |s| && s[i].page.Some?
    requires w'.pages.Keys == w.pages.Keys && w'.pages[s[i].page.value].lock == Unlocked
    requires SameLocks(w.pages - {s[i].page.value}, w'.pages - {s[i].page.value})
    ensures Slots(w', s[i := EMPTY], d)
  {
    forall p | p in w'.pages && w'.pages[p].lock.Ours() ensures SlotOf(w'.pages[p].lock, p, s[i := EMPTY], d) {
      assert p in w.pages - {s[i].page.value};
    }
    forall j | 0 <= j < |s| && s[i := EMPTY][j].page.Some?
      ensures HoldsLock(w', s[j].page.value, SrcSlot(j))
    {
      assert HoldsLock(w, s[j].page.value, SrcSlot(j)) && HoldsLock(w, s[i].page.value, SrcSlot(i));
      assert s[j].page.value in w.pages - {s[i].page.value};
    }
    forall j | 0 <= j < |s| && d[j].page.Some? ensures HoldsLock(w', d[j].page.value, DstSlot(j)) {
      assert HoldsLock(w, d[j].page.value, DstSlot(j)) && HoldsLock(w, s[i].page.value, SrcSlot(i));
      assert d[j].page.value in w.pages - {s[i].page.value};
    }
  }

  // A dst slot takes a fresh page
  lemma SlotsTakeDst(w: World, w': World, s: seq<Mpfn>, d: seq<Mpfn>, i: nat, q: Pid, write: bool)
    requires Slots(w, s, d) && i < |s| && d[i].page == None
    requires q in w.pages && !w.pages[q].lock.Ours()
    requires w'.pages.Keys == w.pages.Keys && w'.pages[q].lock == DstSlot(i)
    requires SameLocks(w.pages - {q}, w'.pages - {q})
    ensures Slots(w', s, d[i := Mpfn(Some(q), false, write)])
  {
    var d' := d[i := Mpfn(Some(q), false, write)];
    forall p | p in w'.pages && w'.pages[p].lock.Ours() ensures SlotOf(w'.pages[p].lock, p, s, d') {
      assert p != q ==> p in w.pages - {q};
    }
    forall j | 0 <= j < |s| && s[j].page.Some? ensures HoldsLock(w', s[j].page.value, SrcSlot(j)) {
      assert HoldsLock(w, s[j].page.value, SrcSlot(j));
      assert s[j].page.value in w.pages - {q};
    }
    forall j | 0 <= j < |s| && d'[j].page.Some? ensures HoldsLock(w', d'[j].page.value, DstSlot(j)) {
      if j != i {
        assert HoldsLock(w, d[j].page.value, DstSlot(j));
        assert d[j].page.value in w.pages - {q};
      }
    }
  }
}
