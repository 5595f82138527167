/**
  get_page and put_page by somebody else.  The last reference to a device page frees it together
  with its backing page (hmm.c, dmirror_devmem_free).
*/
module PageRefs {
  import opened Kernel
  import opened KernelSteps
  import opened Txn
  import opened Accounts

  function AddPin(w: World, p: Pid): World
    requires p in w.pages
  {
    w.SetPage(p, w.pages[p].(refs := w.pages[p].refs + 1, pins := w.pages[p].pins + 1))
  }

  function DropPin(w: World, p: Pid): World
    requires w.Live(p) && w.pages[p].pins > 0
  {
    var g := w.pages[p];
    w.SetPage(p, g.(refs := g.refs - 1, pins := g.pins - 1, lru := if g.refs == 1 then OffLru else g.lru))
  }

  lemma AddPinKeeps(w: World, mem: Mem, p: Pid)
    requires w.Inv(mem) && w.Live(p) && NotBacking(p, w.pages)
    ensures AddPin(w, p).Inv(mem)
  {
    assert w.BalancedAt(p);
    PinFrame(w, mem, p, AddPin(w, p).pages[p]);
  }

  lemma DropPinKeeps(w: World, mem: Mem, p: Pid)
    requires w.Inv(mem) && w.Live(p) && w.pages[p].pins > 0 && NotBacking(p, w.pages)
    requires w.pages[p].kind.System? || w.pages[p].refs > 1
    ensures DropPin(w, p).Inv(mem)
  {
    assert w.BalancedAt(p);
    PinFrame(w, mem, p, DropPin(w, p).pages[p]);
  }

  // The books of one page that backs no device page change
  lemma PinFrame(w: World, mem: Mem, p: Pid, g: Page)
    requires w.Inv(mem) && p in w.pages && NotBacking(p, w.pages)
    requires SameBits(w.pages[p], g) && (w.pages[p].lock.SrcSlot? ==> g.lock.SrcSlot?)
    requires g.refs == |w.Mappers(p)| + g.pins + g.CacheRefs() + g.HeldRefs()
    requires w.pages[p].kind.Device? ==> (g.refs > 0) == (w.pages[p].refs > 0)
    ensures w.SetPage(p, g).Inv(mem)
  {
    var w' := w.SetPage(p, g);
    hide Exclusive;
    forall q ensures w'.Mappers(q) == w.Mappers(q) {}
    BalancedOne(w, w', p);
    FlatSame(w, w', mem);
    KindsPage(w.pt, w.pages, p, g);
    BackedOther(w.pages, p, g);
  }

  lemma BackedOther(pages: map<Pid, Page>, p: Pid, g: Page)
    requires Backed(pages) && p in pages && NotBacking(p, pages) && g.kind == pages[p].kind
    requires g.backing == pages[p].backing
    requires g.kind.Device? ==> (g.refs > 0) == (pages[p].refs > 0)
    ensures Backed(pages[p := g])
  {
    var pages' := pages[p := g];
    forall d | LiveDevice(d, pages') ensures LiveDevice(d, pages) && BackingOk(d, pages') {
      assert LiveDevice(d, pages) && BackingOk(d, pages) && pages[d].backing != p;
    }
  }

  lemma DeviceNotBacking(w: World, mem: Mem, p: Pid)
    requires w.Inv(mem) && p in w.pages && w.pages[p].kind.Device?
    ensures NotBacking(p, w.pages)
  {
    forall d | LiveDevice(d, w.pages) ensures w.pages[d].backing != p { assert BackingOk(d, w.pages); }
  }

  // put_page of a reference to a device page
  function PutPinned(w: World, p: Pid): World
    requires w.Live(p) && w.pages[p].pins > 0
  {
    var g := w.pages[p].(pins := w.pages[p].pins - 1);
    if g.refs > 1 then w.SetPage(p, g.(refs := g.refs - 1))
    else Release(w.SetPage(p, g), p)
  }

  lemma PutPinnedInv(w: World, mem: Mem, p: Pid)
    requires w.Inv(mem) && p in w.pages && w.pages[p].kind.Device? && w.pages[p].pins > 0
    ensures w.Live(p) && PutPinned(w, p).Inv(mem)
  {
    assert w.BalancedAt(p);
    DeviceNotBacking(w, mem, p);
    if w.pages[p].refs > 1 {
      DropPinKeeps(w, mem, p);
      assert DropPin(w, p) == PutPinned(w, p);
    } else {
      LastPut(w, mem, p);
    }
  }

  lemma SetTwice(w: World, p: Pid, g: Page, g': Page)
    ensures w.SetPage(p, g).SetPage(p, g') == w.SetPage(p, g')
  {}

  // Release forgets lock and LRU state of a page it frees.
  lemma ReleaseSame(w: World, p: Pid, g: Page, g': Page)
    requires p in w.pages && BackingOk(p, w.pages) && g.kind.Device? && g.refs == 1 && g.backing == w.pages[p].backing
    requires w.pages[p].kind.Device? && g' == g.(lock := g'.lock)
    ensures Release(w.SetPage(p, g), p) == Release(w.SetPage(p, g'), p)
  {
    var h := g.(refs := 0, lock := Unlocked, lru := OffLru);
    ReleaseIsFree(w.SetPage(p, g), p, h);
    ReleaseIsFree(w.SetPage(p, g'), p, h);
    SetTwice(w, p, g, h);
    SetTwice(w, p, g', h);
    hide Release;
  }

  // As if the last reference were a slot's
  lemma LastPin(w: World, mem: Mem, p: Pid, g: Page)
    requires w.Inv(mem) && p in w.pages && w.pages[p].kind.Device? && w.pages[p].pins > 0 && w.pages[p].refs == 1
    requires g == w.pages[p].(pins := 0, lock := SrcSlot(0))
    ensures w.SetPage(p, g).Inv(mem) && w.SetPage(p, g).MigAddrs(p) == {} && w.pages[p].pins == 1
    ensures BackingOk(p, w.pages)
  {
    assert w.BalancedAt(p) && LiveDevice(p, w.pages);
    DeviceNotBacking(w, mem, p);
    PinFrame(w, mem, p, g);
    NoMigrations(w, mem, p, g);
  }

  lemma LastPut(w: World, mem: Mem, p: Pid)
    requires w.Inv(mem) && p in w.pages && w.pages[p].kind.Device? && w.pages[p].pins > 0 && w.pages[p].refs == 1
    ensures w.Live(p) && PutPinned(w, p).Inv(mem)
  {
    hide World.Inv, Release, World.MigAddrs;
    var g := w.pages[p].(pins := 0, lock := SrcSlot(0));
    LastPin(w, mem, p, g);
    ReleaseSame(w, p, w.pages[p].(pins := 0), g);
    ReleaseKeeps(w.SetPage(p, g), mem, p);
  }

  lemma NoMigrations(w: World, mem: Mem, p: Pid, g: Page)
    requires w.Inv(mem) && p in w.pages && !w.pages[p].lock.Ours()
    ensures w.SetPage(p, g).MigAddrs(p) == {}
  {
    forall a | a in w.pt ensures !w.pt[a].Migrates(p) { assert PteOk(w.pt[a], w.pages); }
  }

  lemma PinDown(w: World, mem: Mem, p: Pid)
    requires w.Inv(mem) && w.Live(p) && w.pages[p].kind.Device? && w.pages[p].pins > 0
    ensures var w' := PutPinned(w, p);
            && w'.pages.Keys == w.pages.Keys
            && forall r | r in w.pages :: OutsidePins(w'.pages, r) == OutsidePins(w.pages, r) - if r == p then 1 else 0
  {
    hide World.Inv, NotBacking, Backed, PutPinned, OutsidePins, SameBackers, PinsExact;
    var w1 := Unheld(w, p);
    UnheldBacked(w, mem, p);
    UnheldBackers(w, p);
    PinsShift(w, w1, p, -1);
    UnheldPut(w, mem, p);
    PinsSum(w, w1, PutPinned(w, p), p);
  }

  // One reference less of somebody else
  function Unheld(w: World, p: Pid): World
    requires p in w.pages && w.pages[p].pins > 0
  {
    w.SetPage(p, w.pages[p].(pins := w.pages[p].pins - 1))
  }

  lemma PinsSum(w: World, w1: World, w2: World, p: Pid)
    requires w1.pages.Keys == w.pages.Keys && PinsExact(w1, w2)
    requires forall r | r in w.pages :: OutsidePins(w1.pages, r) == OutsidePins(w.pages, r) + if r == p then -1 else 0
    ensures w2.pages.Keys == w.pages.Keys
    ensures forall r | r in w.pages :: OutsidePins(w2.pages, r) == OutsidePins(w.pages, r) - if r == p then 1 else 0
  {
    hide OutsidePins;
  }

  lemma UnheldBackers(w: World, p: Pid)
    requires p in w.pages && w.pages[p].pins > 0
    ensures SameBackers(w.pages, Unheld(w, p).pages) && Unheld(w, p).pages.Keys == w.pages.Keys
    ensures forall r | r in w.pages :: Unheld(w, p).pages[r].pins == w.pages[r].pins + if r == p then -1 else 0
  {}

  lemma UnheldBacked(w: World, mem: Mem, p: Pid)
    requires w.Inv(mem) && w.Live(p) && w.pages[p].kind.Device? && w.pages[p].pins > 0
    ensures NotBacking(p, w.pages) && Backed(Unheld(w, p).pages) && BackingOk(p, Unheld(w, p).pages)
  {
    DeviceNotBacking(w, mem, p);
    assert LiveDevice(p, w.pages);
    BackedUnpinned(w.pages, p, Unheld(w, p).pages[p]);
  }

  lemma UnheldPut(w: World, mem: Mem, p: Pid)
    requires w.Live(p) && w.pages[p].kind.Device? && w.pages[p].pins > 0
    requires Backed(Unheld(w, p).pages) && BackingOk(p, Unheld(w, p).pages)
    ensures PinsExact(Unheld(w, p), PutPinned(w, p))
  {
    var w1, w' := Unheld(w, p), PutPinned(w, p);
    hide Backed, PinsExact, NotBacking, Release;
    if w.pages[p].refs > 1 {
      forall d ensures (LiveDevice(d, w'.pages) <==> LiveDevice(d, w1.pages))
                       && (LiveDevice(d, w1.pages) ==> w'.pages[d].backing == w1.pages[d].backing) {}
      PinsOf(w1, w');
    } else {
      FreeExact(w1, p);
    }
  }

  lemma BackedUnpinned(pages: map<Pid, Page>, p: Pid, g: Page)
    requires Backed(pages) && LiveDevice(p, pages) && NotBacking(p, pages) && g == pages[p].(pins := g.pins)
    ensures Backed(pages[p := g]) && BackingOk(p, pages[p := g])
  {
    var pages' := pages[p := g];
    forall d | LiveDevice(d, pages') ensures LiveDevice(d, pages) && BackingOk(d, pages') {
      assert LiveDevice(d, pages) && BackingOk(d, pages);
    }
  }
}
