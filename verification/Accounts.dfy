/**
  Who holds a page.  The references of a page are its mappings, those of page->mapping, those of a
  migration slot, the one a device page holds on its backing page, and those of somebody else:
  get_user_pages users and faulting threads.  A migration may not touch the last kind at all.
*/
module Accounts {
  import opened Kernel
  import opened KernelSteps
  import opened Txn
  import opened MachineState

  // References that belong to somebody else: the one of a device page on its backing page is not
  ghost function OutsidePins(pages: map<Pid, Page>, p: Pid): nat
    requires p in pages
  {
    if NotBacking(p, pages) then pages[p].pins else 0
  }

  // No reference of somebody else is dropped or added.
  ghost predicate PinsExact(w: World, w': World) {
    w'.pages.Keys == w.pages.Keys
    && forall p {:trigger OutsidePins(w'.pages, p)} | p in w.pages :: OutsidePins(w'.pages, p) == OutsidePins(w.pages, p)
  }

  // From one state and history to a later one: the references of others to each page changed by
  // those taken and dropped in between, and by nothing else.
  ghost predicate Ledger(w: World, h: seq<Event>, w': World, h': seq<Event>) {
    w'.pages.Keys == w.pages.Keys && forall p {:trigger OutsidePins(w'.pages, p)} | p in w.pages ::
      OutsidePins(w'.pages, p) - Net(h', p) == OutsidePins(w.pages, p) - Net(h, p)
  }

  lemma LedgerTrans(w: World, h: seq<Event>, w1: World, h1: seq<Event>, w2: World, h2: seq<Event>)
    requires Ledger(w, h, w1, h1) && Ledger(w1, h1, w2, h2)
    ensures Ledger(w, h, w2, h2)
  {
    hide OutsidePins;
  }

  lemma LedgerSelf(w: World, h: seq<Event>)
    ensures Ledger(w, h, w, h)
  {}

  lemma LedgerPages(w: World, h: seq<Event>, w1: World, h1: seq<Event>, w2: World)
    requires Ledger(w, h, w1, h1) && w2.pages == w1.pages
    ensures Ledger(w, h, w2, h1)
  {
    hide OutsidePins;
  }

  // A stage of a migration takes and drops none of them.
  lemma LedgerExact(w: World, h: seq<Event>, w1: World, h1: seq<Event>, w2: World)
    requires Ledger(w, h, w1, h1) && PinsExact(w1, w2)
    ensures Ledger(w, h, w2, h1)
  {
    hide OutsidePins;
  }

  // In use, other than as backing page or as the new page of a slot
  ghost predicate InUse(w: World, p: Pid) {
    w.Live(p) && NotBacking(p, w.pages) && !w.pages[p].lock.DstSlot?
  }

  // The list a page belongs on; an isolated page was taken from the LRU
  function HomeLru(l: Lru): Lru {
    if l == Isolated then OnLru else l
  }

  // Only the reference count, the migration's own lock and the isolation change.
  predicate PageCarried(g: Page, g': Page) {
    && g' == g.(refs := g'.refs, lock := g'.lock, lru := g'.lru)
    && (g'.lock == Theirs <==> g.lock == Theirs) && HomeLru(g'.lru) == HomeLru(g.lru)
  }

  // What every stage before the move keeps: pages in use stay in use
  ghost predicate Carried(w: World, w': World) {
    PinsExact(w, w') && forall p {:trigger CarriedAt(w, w', p)} | InUse(w, p) :: CarriedAt(w, w', p)
  }

  ghost predicate CarriedAt(w: World, w': World, p: Pid) {
    InUse(w, p) && InUse(w', p) && PageCarried(w.pages[p], w'.pages[p])
  }

  lemma PinsExactTrans(w: World, w1: World, w2: World)
    requires PinsExact(w, w1) && PinsExact(w1, w2)
    ensures PinsExact(w, w2)
  {
    hide OutsidePins;
  }

  lemma CarriedTrans(w: World, w1: World, w2: World)
    requires Carried(w, w1) && Carried(w1, w2)
    ensures Carried(w, w2)
  {
    hide InUse, OutsidePins;
    forall p | InUse(w, p) ensures CarriedAt(w, w2, p) {
      assert CarriedAt(w, w1, p) && CarriedAt(w1, w2, p);
    }
  }

  lemma CarriedSelf(w: World)
    ensures Carried(w, w)
  {}

  lemma CarriedPages(w: World, w': World)
    requires w'.pages == w.pages
    ensures Carried(w, w')
  {}

  // ----- steps that leave the device pages and their backing pages alone

  ghost predicate SameBackers(pages: map<Pid, Page>, pages': map<Pid, Page>) {
    forall d :: (LiveDevice(d, pages') <==> LiveDevice(d, pages))
                && (LiveDevice(d, pages) ==> pages'[d].backing == pages[d].backing)
  }

  lemma BackersTrans(pages: map<Pid, Page>, pages1: map<Pid, Page>, pages2: map<Pid, Page>)
    requires SameBackers(pages, pages1) && SameBackers(pages1, pages2)
    ensures SameBackers(pages, pages2)
  {}

  lemma SameBacking(pages: map<Pid, Page>, pages': map<Pid, Page>, p: Pid)
    requires SameBackers(pages, pages')
    ensures NotBacking(p, pages') <==> NotBacking(p, pages)
  {
    if NotBacking(p, pages) {
      forall d | LiveDevice(d, pages') ensures pages'[d].backing != p { assert LiveDevice(d, pages); }
    } else {
      var d :| LiveDevice(d, pages) && pages[d].backing == p;
      assert LiveDevice(d, pages') && pages'[d].backing == p;
    }
  }

  lemma PinsOf(w: World, w': World)
    requires w'.pages.Keys == w.pages.Keys && SameBackers(w.pages, w'.pages)
    requires forall p | p in w.pages :: w'.pages[p].pins == w.pages[p].pins
    ensures PinsExact(w, w')
  {
    hide NotBacking, SameBackers;
    forall p | p in w.pages ensures OutsidePins(w'.pages, p) == OutsidePins(w.pages, p) {
      SameBacking(w.pages, w'.pages, p);
    }
  }

  lemma CarriedOf(w: World, w': World)
    requires w'.pages.Keys == w.pages.Keys && SameBackers(w.pages, w'.pages)
    requires forall p | p in w.pages :: w'.pages[p].pins == w.pages[p].pins
    requires forall p | InUse(w, p) :: w'.Live(p) && !w'.pages[p].lock.DstSlot? && PageCarried(w.pages[p], w'.pages[p])
    ensures Carried(w, w')
  {
    PinsOf(w, w');
    hide PageCarried, PinsExact, NotBacking, SameBackers;
    forall p | InUse(w, p) ensures CarriedAt(w, w', p) {
      SameBacking(w.pages, w'.pages, p);
    }
  }

  // Somebody takes or drops references to a page p that backs nothing.
  lemma PinsShift(w: World, w': World, p: Pid, n: int)
    requires w'.pages.Keys == w.pages.Keys && SameBackers(w.pages, w'.pages) && (n != 0 ==> NotBacking(p, w.pages))
    requires forall r | r in w.pages :: w'.pages[r].pins == w.pages[r].pins + if r == p then n else 0
    ensures forall r | r in w.pages :: OutsidePins(w'.pages, r) == OutsidePins(w.pages, r) + if r == p then n else 0
  {
    hide NotBacking, SameBackers;
    forall r | r in w.pages ensures OutsidePins(w'.pages, r) == OutsidePins(w.pages, r) + if r == p then n else 0 {
      SameBacking(w.pages, w'.pages, r);
    }
  }

  // One page changes its count, its lock or its isolation, and stays in use.
  lemma CarriedOne(w: World, w': World, p: Pid)
    requires w.Live(p) && w'.Live(p) && w'.pages == w.pages[p := w'.pages[p]]
    requires PageCarried(w.pages[p], w'.pages[p]) && !w'.pages[p].lock.DstSlot?
    ensures Carried(w, w')
  {
    forall d ensures (LiveDevice(d, w'.pages) <==> LiveDevice(d, w.pages))
                     && (LiveDevice(d, w.pages) ==> w'.pages[d].backing == w.pages[d].backing) {}
    hide NotBacking;
    CarriedOf(w, w');
  }

  // ----- pages that come to life

  lemma FreshSystemCarried(w: World, q: Pid, h: Holder, data: PageData)
    requires w.Free(q) && w.pages[q].kind.System?
    ensures Carried(w, AllocSystem(w, q, h, data))
  {
    var w' := AllocSystem(w, q, h, data);
    forall d ensures (LiveDevice(d, w'.pages) <==> LiveDevice(d, w.pages))
                     && (LiveDevice(d, w.pages) ==> w'.pages[d].backing == w.pages[d].backing) {}
    hide NotBacking;
    CarriedOf(w, w');
  }

  // The backing page is not a reference of somebody else, before or after.
  lemma FreshDeviceCarried(w: World, mem: Mem, q: Pid, rp: Pid, h: Holder, data: PageData)
    requires w.Inv(mem) && w.Free(q) && w.Free(rp) && w.pages[q].kind.Device? && w.pages[rp].kind.System?
    ensures Carried(w, AllocDevice(w, q, rp, h, data))
  {
    var w' := AllocDevice(w, q, rp, h, data);
    FreeUnmapped(w, q);
    FreeUnmapped(w, rp);
    hide World.Inv;
    forall p | p in w.pages ensures NotBacking(p, w'.pages) <==> NotBacking(p, w.pages) && p != rp {
      BirthBacking(w, q, rp, h, data, p);
    }
    BirthPages(w, q, rp, h, data);
    hide NotBacking, AllocDevice;
    assert PinsExact(w, w');
    hide OutsidePins;
    forall p | InUse(w, p) ensures CarriedAt(w, w', p) {}
  }

  lemma BirthPages(w: World, q: Pid, rp: Pid, h: Holder, data: PageData)
    requires w.Free(q) && w.Free(rp) && q != rp
    ensures var w' := AllocDevice(w, q, rp, h, data);
            && w'.pages.Keys == w.pages.Keys && w'.pages[q].pins == w.pages[q].pins
            && forall p | p in w.pages && p != q && p != rp :: w'.pages[p] == w.pages[p]
  {}

  lemma BirthBacking(w: World, q: Pid, rp: Pid, h: Holder, data: PageData, p: Pid)
    requires w.Free(q) && w.Free(rp) && w.pages[q].kind.Device? && w.pages[rp].kind.System? && p in w.pages
    ensures var w' := AllocDevice(w, q, rp, h, data);
            NotBacking(p, w'.pages) <==> NotBacking(p, w.pages) && p != rp
  {
    var w' := AllocDevice(w, q, rp, h, data);
    assert LiveDevice(q, w'.pages) && w'.pages[q].backing == rp;
    forall d | d != q ensures (LiveDevice(d, w'.pages) <==> LiveDevice(d, w.pages))
                              && (LiveDevice(d, w.pages) ==> w'.pages[d].backing == w.pages[d].backing) {}
    if NotBacking(p, w.pages) && p != rp {
      forall d | LiveDevice(d, w'.pages) ensures w'.pages[d].backing != p {}
    }
    if NotBacking(p, w'.pages) {
      forall d | LiveDevice(d, w.pages) ensures w.pages[d].backing != p { assert LiveDevice(d, w'.pages); }
    }
  }

  // ----- pages that are put

  // A page that backs nothing loses references, its lock and its isolation; one that is freed
  // stays free.
  predicate PageEnds(g: Page, g': Page) {
    && g' == g.(refs := g'.refs, lock := g'.lock, lru := g'.lru) && (g.refs == 0 ==> g' == g)
    && (g'.lock == g.lock || (g'.lock == Unlocked && g.lock.Ours()))
    && (g'.refs > 0 && !g.lock.DstSlot? ==> HomeLru(g'.lru) == HomeLru(g.lru))
  }

  ghost predicate Ended(w: World, w': World) {
    PinsExact(w, w') && forall p {:trigger EndedAt(w, w', p)} | p in w.pages && NotBacking(p, w.pages) :: EndedAt(w, w', p)
  }

  ghost predicate EndedAt(w: World, w': World, p: Pid) {
    p in w.pages && p in w'.pages && NotBacking(p, w'.pages) && PageEnds(w.pages[p], w'.pages[p])
  }

  lemma EndedTrans(w: World, w1: World, w2: World)
    requires Ended(w, w1) && Ended(w1, w2)
    ensures Ended(w, w2)
  {
    PinsExactTrans(w, w1, w2);
    hide NotBacking, PinsExact;
    forall p | p in w.pages && NotBacking(p, w.pages) ensures EndedAt(w, w2, p) {
      assert EndedAt(w, w1, p);
      assert EndedAt(w1, w2, p);
    }
  }

  lemma EndedSelf(w: World)
    ensures Ended(w, w)
  {}

  lemma EndedOne(w: World, w': World, p: Pid)
    requires w.Live(p) && p in w'.pages && w'.pages == w.pages[p := w'.pages[p]]
    requires w.pages[p].kind.Device? ==> w'.Live(p)
    requires PageEnds(w.pages[p], w'.pages[p])
    ensures Ended(w, w')
  {
    forall d ensures (LiveDevice(d, w'.pages) <==> LiveDevice(d, w.pages))
                     && (LiveDevice(d, w.pages) ==> w'.pages[d].backing == w.pages[d].backing) {}
    PinsOf(w, w');
    hide PinsExact, NotBacking, SameBackers;
    forall r | r in w.pages && NotBacking(r, w.pages) ensures EndedAt(w, w', r) {
      SameBacking(w.pages, w'.pages, r);
    }
  }

  // unlock and put_page; a device page that is freed gives its backing page back
  lemma ReleaseEnds(w: World, p: Pid)
    requires w.Live(p) && Backed(w.pages) && w.pages[p].lock.Ours()
    ensures Ended(w, Release(w, p))
  {
    var w' := Release(w, p);
    if w.pages[p].kind.System? || w.pages[p].refs > 1 {
      assert w'.pages == w.pages[p := w'.pages[p]];
      EndedOne(w, w', p);
    } else {
      assert LiveDevice(p, w.pages) && BackingOk(p, w.pages);
      FreeEnds(w, p);
    }
  }

  lemma FreeEnds(w: World, p: Pid)
    requires w.Live(p) && Backed(w.pages) && w.pages[p].kind.Device? && w.pages[p].refs == 1 && BackingOk(p, w.pages)
    requires w.pages[p].lock.Ours()
    ensures Ended(w, Release(w, p))
  {
    FreeExact(w, p);
    FreedPages(w, p);
    hide Release, Backed, NotBacking, PinsExact;
    BackerIs(w, p);
    forall r | r in w.pages && NotBacking(r, w.pages) ensures EndedAt(w, Release(w, p), r) {}
  }

  // A device page that is freed: its backing page was its own.
  lemma FreeExact(w: World, p: Pid)
    requires w.Live(p) && Backed(w.pages) && w.pages[p].kind.Device? && w.pages[p].refs == 1 && BackingOk(p, w.pages)
    ensures PinsExact(w, Release(w, p))
    ensures forall r | r in w.pages && NotBacking(r, w.pages) :: NotBacking(r, Release(w, p).pages)
  {
    var w' := Release(w, p);
    FreedPages(w, p);
    hide Release, Backed;
    forall r | r in w.pages ensures NotBacking(r, w'.pages) <==> NotBacking(r, w.pages) || r == w.pages[p].backing {
      FreeBacking(w, w', p, r);
    }
    BackerIs(w, p);
    hide NotBacking;
    forall r | r in w.pages ensures OutsidePins(w'.pages, r) == OutsidePins(w.pages, r) {}
    hide OutsidePins;
  }

  lemma FreedPages(w: World, p: Pid)
    requires w.Live(p) && w.pages[p].kind.Device? && w.pages[p].refs == 1 && BackingOk(p, w.pages)
    ensures var b := w.pages[p].backing;
            Release(w, p).pages == w.pages[p := w.pages[p].(refs := 0, lock := Unlocked, lru := OffLru)]
                                          [b := w.pages[b].(refs := 0, pins := 0)]
  {
    ReleaseIsFree(w, p, w.pages[p].(refs := 0, lock := Unlocked, lru := OffLru));
  }

  lemma BackerIs(w: World, p: Pid)
    requires LiveDevice(p, w.pages)
    ensures !NotBacking(w.pages[p].backing, w.pages)
  {}

  lemma FreeBacking(w: World, w': World, p: Pid, r: Pid)
    requires Backed(w.pages) && LiveDevice(p, w.pages) && BackingOk(p, w.pages) && r in w.pages
    requires var b := w.pages[p].backing;
             w'.pages == w.pages[p := w.pages[p].(refs := 0, lock := Unlocked, lru := OffLru)]
                                [b := w.pages[b].(refs := 0, pins := 0)]
    ensures NotBacking(r, w'.pages) <==> NotBacking(r, w.pages) || r == w.pages[p].backing
  {
    var b := w.pages[p].backing;
    forall d ensures LiveDevice(d, w'.pages) <==> LiveDevice(d, w.pages) && d != p {}
    if NotBacking(r, w.pages) || r == b {
      forall d | LiveDevice(d, w'.pages) ensures w'.pages[d].backing != r { assert LiveDevice(d, w.pages); }
    }
    if NotBacking(r, w'.pages) && r != b {
      forall d | LiveDevice(d, w.pages) ensures w.pages[d].backing != r { assert d != p ==> LiveDevice(d, w'.pages); }
    }
  }

  // remove_migration_ptes gives the page that is mapped its references.
  lemma RemoveEnds(w: World, p: Pid, q: Pid)
    requires w.Live(q)
    ensures Ended(w, w.RemoveMigrationPtes(p, q))
  {
    EndedOne(w, w.RemoveMigrationPtes(p, q), q);
  }

  lemma LruEnds(w: World, p: Pid)
    requires w.Live(p) && w.pages[p].kind.System? && (w.pages[p].lru != OffLru || w.pages[p].lock.DstSlot?)
    ensures Ended(w, w.SetLru(p, OnLru))
  {
    EndedOne(w, w.SetLru(p, OnLru), p);
  }
}
