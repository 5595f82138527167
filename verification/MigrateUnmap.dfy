/**
  mm/migrate_device.c, second stage: take the locked pages off the LRU, replace their remaining
  mappings by migration entries, and give back the pages that are in use or pinned.
*/
module MigrateUnmap {
  import opened Kernel
  import opened KernelSteps
  import opened Txn
  import opened Accounts
  import opened MachineState
  import opened MigrateCollect

  // What the kernel does with slot i: does isolate_lru_page succeed, and which mappings
  // does try_to_migrate fail to replace
  datatype UnmapFate = UnmapFate(isolates: bool, keep: set<Addr>)

  // migrate_vma_check_page: the reference counts as the source compares them
  function CheckPage(w: World, p: Pid, faultPage: Option<Pid>): bool
    requires p in w.pages
  {
    var page := w.pages[p];
    if page.compound then false
    else
      var extra := 1 + (if faultPage == Some(p) then 1 else 0)
                     + (if page.kind.Device? then 1 else 0)
                     + page.CacheRefs();
      !(page.refs as int - extra > |w.Mappers(p)|)
  }

  // How many outside references the check lets through
  function PinsAllowed(page: Page, p: Pid, faultPage: Option<Pid>): nat {
    (if faultPage == Some(p) then 1 else 0) + (if page.kind.Device? then 1 else 0)
  }

  // A device page with one outside reference passes the check; a system page with one does not.
  lemma CheckPageExact(w: World, p: Pid, faultPage: Option<Pid>)
    requires p in w.pages && w.BalancedAt(p) && w.pages[p].lock.Ours()
    ensures CheckPage(w, p, faultPage) <==> !w.pages[p].compound && w.pages[p].pins <= PinsAllowed(w.pages[p], p, faultPage)
  {}

  // The pages the unmap stage keeps, in terms of the state before it
  predicate Unmappable(w: World, p: Pid, faultPage: Option<Pid>, fate: UnmapFate) {
    && p in w.pages
    && (w.pages[p].kind.System? ==> fate.isolates && w.pages[p].lru == OnLru)
    && w.Mappers(p) * fate.keep == {}
    && Unpinned(w.pages[p], p, faultPage)
  }

  // The state after one turn of the first loop
  function UnmapOne(w: World, p: Pid, faultPage: Option<Pid>, fate: UnmapFate): World
    requires p in w.pages
  {
    if w.pages[p].kind.System? && !(fate.isolates && w.pages[p].lru == OnLru) then w
    else
      var w1 := if w.pages[p].kind.System? then w.SetLru(p, Isolated) else w;
      var w2 := TryIfMapped(w1, p, fate.keep);
      if w.pages[p].kind.System? && !Unmappable(w, p, faultPage, fate) then w2.SetLru(p, OnLru) else w2
  }

  lemma GetPutLru(w: World, p: Pid, l: Lru)
    requires w.Live(p)
    ensures w.GetPage(p).SetLru(p, l).PutPage(p) == w.SetLru(p, l)
  {
    assert w.GetPage(p).SetLru(p, l).PutPage(p).pages == w.SetLru(p, l).pages;
  }

  lemma TryCounts(w: World, p: Pid, faultPage: Option<Pid>, keep: set<Addr>)
    requires p in w.pages && w.BalancedAt(p) && w.pages[p].lock.SrcSlot?
    ensures var w' := w.TryToMigrate(p, keep);
            w'.BalancedAt(p) && w'.Mappers(p) == w.Mappers(p) * keep
  {
    TryToMigrateRefs(w, p, keep);
    TryToMigrateMappers(w, p, keep);
  }

  function TryIfMapped(w: World, p: Pid, keep: set<Addr>): World
    requires p in w.pages
  {
    if w.Mappers(p) != {} then w.TryToMigrate(p, keep) else w
  }

  predicate Unpinned(page: Page, p: Pid, faultPage: Option<Pid>) {
    !page.compound && page.pins <= PinsAllowed(page, p, faultPage)
  }

  lemma TryIfMappedCounts(w: World, p: Pid, faultPage: Option<Pid>, keep: set<Addr>)
    requires p in w.pages && w.BalancedAt(p) && w.pages[p].lock.SrcSlot?
    ensures var w' := TryIfMapped(w, p, keep);
            && w'.Live(p) && w'.Mappers(p) == w.Mappers(p) * keep
            && w'.pages[p] == w.pages[p].(refs := w'.pages[p].refs)
            && (CheckPage(w', p, faultPage) <==> Unpinned(w.pages[p], p, faultPage))
  {
    if w.Mappers(p) != {} { TryCounts(w, p, faultPage, keep); }
    CheckPageExact(TryIfMapped(w, p, keep), p, faultPage);
  }

  // One turn of the first loop, on the page of one slot
  method UnmapPage(m: Machine, p: Pid, faultPage: Option<Pid>, fate: UnmapFate) returns (ok: bool)
    requires m.w.Live(p) && m.w.BalancedAt(p) && m.w.pages[p].lock.SrcSlot?
    modifies m`w
    ensures m.w == UnmapOne(old(m.w), p, faultPage, fate)
    ensures ok <==> Unmappable(old(m.w), p, faultPage, fate)
  {
    ghost var w0 := m.w;
    var system := m.w.pages[p].kind.System?;
    if system {
      if !(fate.isolates && m.w.pages[p].lru == OnLru) {
        return false;
      }
      // isolate_lru_page takes a reference; the one from collect is dropped
      GetPutLru(w0, p, Isolated);
      m.w := m.w.GetPage(p).SetLru(p, Isolated);
      m.w := m.w.PutPage(p);
      assert m.w.Mappers(p) == w0.Mappers(p);
    }
    ghost var w1 := m.w;
    assert w1.BalancedAt(p) && Unpinned(w1.pages[p], p, faultPage) == Unpinned(w0.pages[p], p, faultPage);
    TryIfMappedCounts(w1, p, faultPage, fate.keep);
    if m.w.Mappers(p) != {} {
      m.w := m.w.TryToMigrate(p, fate.keep);
    }
    hide World.TryToMigrate, World.Mappers, CheckPage;
    ok := m.w.Mappers(p) == {} && CheckPage(m.w, p, faultPage);
    if !ok && system {
      GetPutLru(m.w, p, OnLru);
      m.w := m.w.GetPage(p);
      m.w := m.w.SetLru(p, OnLru).PutPage(p);
    }
  }

  // ----- what one turn keeps

  lemma UnmapOneInFlight(w: World, mem: Mem, s: seq<Mpfn>, d: seq<Mpfn>, base: Option<Addr>, p: Pid,
                         faultPage: Option<Pid>, fate: UnmapFate)
    requires InFlight(w, mem, s, d, base) && p in w.pages && w.pages[p].lock.SrcSlot?
    ensures InFlight(UnmapOne(w, p, faultPage, fate), mem, s, d, base)
  {
    hide InFlight, World.TryToMigrate, World.Mappers, Unmappable;
    if w.pages[p].kind.System? && !(fate.isolates && w.pages[p].lru == OnLru) { return; }
    var w1 := if w.pages[p].kind.System? then w.SetLru(p, Isolated) else w;
    if w.pages[p].kind.System? { LruKeepsInFlight(w, mem, s, d, base, p, Isolated); }
    var w2 := TryIfMapped(w1, p, fate.keep);
    TryLock(w1, p, fate.keep);
    if w1.Mappers(p) != {} { TryKeepsInFlight(w1, mem, s, d, base, p, fate.keep); }
    if w.pages[p].kind.System? && !Unmappable(w, p, faultPage, fate) { LruKeepsInFlight(w2, mem, s, d, base, p, OnLru); }
  }

  lemma TryLock(w: World, p: Pid, keep: set<Addr>)
    requires p in w.pages
    ensures var w' := TryIfMapped(w, p, keep);
            && p in w'.pages && w'.pages == w.pages[p := w'.pages[p]]
            && w'.pages[p].lock == w.pages[p].lock && w'.pages[p].kind == w.pages[p].kind
            && w'.pages[p].pins == w.pages[p].pins && w'.pages[p].lru == w.pages[p].lru
            && w'.pages[p].mapping == w.pages[p].mapping && w'.pages[p] == w.pages[p].(refs := w'.pages[p].refs)
            && MirrorShrinks(w, w')
  {}

  // What happens to page p and to the other pages
  lemma UnmapOneFrame(w: World, p: Pid, faultPage: Option<Pid>, fate: UnmapFate)
    requires p in w.pages && w.pages[p].lru != Isolated
    ensures var w' := UnmapOne(w, p, faultPage, fate);
            && p in w'.pages && w'.pages == w.pages[p := w'.pages[p]]
            && (if Unmappable(w, p, faultPage, fate)
                then w.pages[p].kind.System? ==> w'.pages[p].lru == Isolated
                else w'.pages[p].lru != Isolated)
            && w'.pages[p].kind == w.pages[p].kind && w'.pages[p].lock == w.pages[p].lock
            && w'.pages[p].pins == w.pages[p].pins && w'.pages[p].mapping == w.pages[p].mapping && MirrorShrinks(w, w')
            && PageCarried(w.pages[p], w'.pages[p])
  {
    hide TryIfMapped, World.Mappers, Unpinned, MirrorShrinks;
    if w.pages[p].kind.System? {
      if fate.isolates && w.pages[p].lru == OnLru {
        TryLock(w.SetLru(p, Isolated), p, fate.keep);
        var w2 := TryIfMapped(w.SetLru(p, Isolated), p, fate.keep);
        assert w2.pages == w.pages[p := w2.pages[p]];
        ShrinkLru(w, p, fate.keep);
      } else {
        ShrinkSame(w);
      }
    } else {
      TryLock(w, p, fate.keep);
    }
  }

  lemma ShrinkSame(w: World)
    ensures MirrorShrinks(w, w)
  {}

  lemma ShrinkLru(w: World, p: Pid, keep: set<Addr>)
    requires p in w.pages
    ensures var w2 := TryIfMapped(w.SetLru(p, Isolated), p, keep);
            p in w2.pages && MirrorShrinks(w, w2) && MirrorShrinks(w, w2.SetLru(p, OnLru))
  {}

  lemma UnmapOneMappers(w: World, p: Pid, faultPage: Option<Pid>, fate: UnmapFate)
    requires p in w.pages
    ensures forall q | q != p :: UnmapOne(w, p, faultPage, fate).Mappers(q) == w.Mappers(q)
    ensures Unmappable(w, p, faultPage, fate) ==> UnmapOne(w, p, faultPage, fate).Mappers(p) == {}
  {
    var w1 := if w.pages[p].kind.System? then w.SetLru(p, Isolated) else w;
    var w2 := TryIfMapped(w1, p, fate.keep);
    assert w1.pt == w.pt && UnmapOne(w, p, faultPage, fate).pt in {w.pt, w2.pt};
    MappersOfPt(w, w1);
    TryToMigrateMappers(w1, p, fate.keep);
    if UnmapOne(w, p, faultPage, fate).pt == w2.pt { MappersOfPt(w2, UnmapOne(w, p, faultPage, fate)); }
    if UnmapOne(w, p, faultPage, fate).pt == w.pt { MappersOfPt(w, UnmapOne(w, p, faultPage, fate)); }
  }

  lemma MappersOfPt(w: World, w': World)
    requires w'.pt == w.pt
    ensures forall q :: w'.Mappers(q) == w.Mappers(q)
  {}

  lemma UnmapOneView(w: World, p: Pid, faultPage: Option<Pid>, fate: UnmapFate)
    requires p in w.pages
    ensures SameView(w, UnmapOne(w, p, faultPage, fate))
  {
    hide Notified, CheckPage;
  }

  // ----- the two loops

  // A slot the first loop has dealt with
  ghost predicate Tried(w0: World, w: World, m0: Mpfn, m: Mpfn, faultPage: Option<Pid>, fate: UnmapFate) {
    && m.page == m0.page && m.write == m0.write
    && match m0.page
       case None => m == m0
       case Some(p) =>
         && m.migrate == Unmappable(w0, p, faultPage, fate)
         && SameMeta(w0, w, p) && (if m.migrate then Frozen(w, p) else w.pages[p].lru != Isolated)
  }

  // Unmapping changes neither who else holds a page nor what it belongs to.
  predicate SameMeta(w: World, w': World, p: Pid) {
    && p in w.pages && p in w'.pages
    && w'.pages[p].pins == w.pages[p].pins && w'.pages[p].mapping == w.pages[p].mapping
  }

  // A slot the first loop has not reached
  ghost predicate Waiting(w0: World, w: World, m0: Mpfn, m: Mpfn) {
    m == m0 && (m.page.Some? ==> Unchanged(w0, w, m.page.value))
  }

  predicate Unchanged(w: World, w': World, p: Pid) {
    p in w.pages && p in w'.pages && w'.pages[p] == w.pages[p] && w'.Mappers(p) == w.Mappers(p)
  }

  // A slot the second loop has dealt with: migrating, or empty again
  ghost predicate Settled(w0: World, w: World, m0: Mpfn, m: Mpfn, faultPage: Option<Pid>, fate: UnmapFate) {
    match m0.page
    case None => m == m0
    case Some(p) =>
      if Unmappable(w0, p, faultPage, fate)
      then m == Mpfn(Some(p), true, m0.write) && Frozen(w, p) && SameMeta(w0, w, p)
      else m == EMPTY
  }

  ghost predicate Phase1(w0: World, w: World, s0: seq<Mpfn>, s: seq<Mpfn>, i: nat,
                         faultPage: Option<Pid>, fates: nat -> UnmapFate) {
    && |s| == |s0|
    && (forall j {:trigger s[j]} | 0 <= j < |s| ::
          if j < i then Tried(w0, w, s0[j], s[j], faultPage, fates(j)) else Waiting(w0, w, s0[j], s[j]))
  }

  ghost predicate Phase2(w0: World, w: World, s0: seq<Mpfn>, s: seq<Mpfn>, i: nat,
                         faultPage: Option<Pid>, fates: nat -> UnmapFate) {
    && |s| == |s0|
    && (forall j {:trigger s[j]} | 0 <= j < |s| ::
          if j < i then Settled(w0, w, s0[j], s[j], faultPage, fates(j))
          else Tried(w0, w, s0[j], s[j], faultPage, fates(j)))
  }

  // What collect (or migrate_device_range) leaves behind
  ghost predicate Fresh(w: World, s: seq<Mpfn>) {
    forall i {:trigger s[i]} | 0 <= i < |s| && s[i].page.Some? ::
      s[i].migrate && s[i].page.value in w.pages && w.pages[s[i].page.value].lru != Isolated
  }

  lemma OtherSlot(w: World, s: seq<Mpfn>, d: seq<Mpfn>, i: nat, j: nat)
    requires Slots(w, s, d) && i < |s| && j < |s| && i != j && s[i].page.Some? && s[j].page.Some?
    ensures s[i].page != s[j].page
  {
    assert HoldsLock(w, s[i].page.value, SrcSlot(i)) && HoldsLock(w, s[j].page.value, SrcSlot(j));
  }

  // First loop, a slot with a page
  lemma Phase1Page(w0: World, w: World, w': World, mem: Mem, s0: seq<Mpfn>, s: seq<Mpfn>, d: seq<Mpfn>, i: nat, p: Pid,
                   faultPage: Option<Pid>, fates: nat -> UnmapFate, s': seq<Mpfn>)
    requires Phase1(w0, w, s0, s, i, faultPage, fates) && i < |s| && s[i].page == Some(p)
    requires Slots(w, s, d) && Fresh(w0, s0)
    requires faultPage.Some? ==> faultPage.value in w0.pages && w0.pages[faultPage.value].kind.Device?
    requires w' == UnmapOne(w, p, faultPage, fates(i))
    requires s' == s[i := s[i].(migrate := Unmappable(w, p, faultPage, fates(i)))]
    ensures Phase1(w0, w', s0, s', i + 1, faultPage, fates)
  {
    assert Waiting(w0, w, s0[i], s[i]);
    UnmapOneFrame(w, p, faultPage, fates(i));
    UnmapOneMappers(w, p, faultPage, fates(i));
    hide UnmapOne, Slots;
    forall j | 0 <= j < |s'|
      ensures if j < i + 1 then Tried(w0, w', s0[j], s'[j], faultPage, fates(j)) else Waiting(w0, w', s0[j], s'[j])
    {
      if j != i {
        assert s'[j] == s[j];
        assert if j < i then Tried(w0, w, s0[j], s[j], faultPage, fates(j)) else Waiting(w0, w, s0[j], s[j]);
        if s[j].page.Some? { OtherSlot(w, s, d, i, j); }
      }
    }
  }

  // First loop, a slot without a page
  lemma Phase1None(w0: World, w: World, s0: seq<Mpfn>, s: seq<Mpfn>, i: nat, faultPage: Option<Pid>,
                   fates: nat -> UnmapFate)
    requires Phase1(w0, w, s0, s, i, faultPage, fates) && i < |s| && s[i].page == None
    ensures Phase1(w0, w, s0, s, i + 1, faultPage, fates)
  {
    assert Waiting(w0, w, s0[i], s[i]);
  }

  // What restoring one page does to the pages of other slots
  lemma RestoreOthers(w: World, mem: Mem, p: Pid, q: Pid)
    requires w.Inv(mem) && p in w.pages && w.pages[p].lock.SrcSlot? && q in w.pages && q != p && w.pages[q].lock.Ours()
    ensures w.Live(p) && Unchanged(w, RestorePage(w, p), q)
  {
    assert w.BalancedAt(p) && w.BalancedAt(q);
    var w1 := w.RemoveMigrationPtes(p, p);
    if w.pages[p].kind.Device? {
      assert LiveDevice(p, w.pages) && BackingOk(p, w.pages);
    }
    RemoveFrame(w, p);
    RemoveMappers(w, p, p);
    ReleaseFrame(w1, p);
    MappersOfPt(w1, Release(w1, p));
  }

  lemma Phase2Page(w0: World, w: World, mem: Mem, s0: seq<Mpfn>, s: seq<Mpfn>, d: seq<Mpfn>, i: nat, p: Pid,
                   faultPage: Option<Pid>, fates: nat -> UnmapFate)
    requires Phase2(w0, w, s0, s, i, faultPage, fates) && i < |s| && s[i].page == Some(p) && !s[i].migrate
    requires w.Inv(mem) && Slots(w, s, d)
    ensures w.Live(p) && Phase2(w0, RestorePage(w, p), s0, s[i := EMPTY], i + 1, faultPage, fates)
  {
    assert HoldsLock(w, p, SrcSlot(i)) && Tried(w0, w, s0[i], s[i], faultPage, fates(i));
    RestoreInv(w, mem, p);
    var w', s' := RestorePage(w, p), s[i := EMPTY];
    hide RestorePage, World.Inv;
    forall j | 0 <= j < |s'|
      ensures if j < i + 1 then Settled(w0, w', s0[j], s'[j], faultPage, fates(j))
              else Tried(w0, w', s0[j], s'[j], faultPage, fates(j))
    {
      if j != i {
        assert s'[j] == s[j];
        assert if j < i then Settled(w0, w, s0[j], s[j], faultPage, fates(j))
               else Tried(w0, w, s0[j], s[j], faultPage, fates(j));
        if s[j].page.Some? {
          OtherSlot(w, s, d, i, j);
          assert HoldsLock(w, s[j].page.value, SrcSlot(j));
          RestoreOthers(w, mem, p, s[j].page.value);
        }
      }
    }
  }

  lemma Phase2Skip(w0: World, w: World, s0: seq<Mpfn>, s: seq<Mpfn>, i: nat, faultPage: Option<Pid>,
                   fates: nat -> UnmapFate)
    requires Phase2(w0, w, s0, s, i, faultPage, fates) && i < |s| && (s[i].page == None || s[i].migrate)
    ensures Phase2(w0, w, s0, s, i + 1, faultPage, fates)
  {
    assert Tried(w0, w, s0[i], s[i], faultPage, fates(i));
  }

  // The second loop may stop as soon as nothing is pending.
  lemma Phase2Done(w0: World, w: World, s0: seq<Mpfn>, s: seq<Mpfn>, i: nat, faultPage: Option<Pid>,
                   fates: nat -> UnmapFate)
    requires Phase2(w0, w, s0, s, i, faultPage, fates) && i <= |s| && (i == |s| || PendingSet(s) == {})
    ensures Phase2(w0, w, s0, s, |s|, faultPage, fates)
  {
    forall j | 0 <= j < |s| ensures Settled(w0, w, s0[j], s[j], faultPage, fates(j)) {
      assert j !in PendingSet(s) || i == |s|;
      assert if j < i then Settled(w0, w, s0[j], s[j], faultPage, fates(j))
             else Tried(w0, w, s0[j], s[j], faultPage, fates(j));
    }
  }

  // ----- counts

  lemma PendingUpdate(s: seq<Mpfn>, i: nat, m: Mpfn)
    requires i < |s|
    ensures |PendingSet(s[i := m])| + (if s[i].page.Some? && !s[i].migrate then 1 else 0)
         == |PendingSet(s)| + (if m.page.Some? && !m.migrate then 1 else 0)
  {
    var rest := PendingSet(s) - {i};
    assert PendingSet(s) == if s[i].page.Some? && !s[i].migrate then rest + {i} else rest;
    assert PendingSet(s[i := m]) == if m.page.Some? && !m.migrate then rest + {i} else rest;
  }

  lemma PendingNone(w: World, s: seq<Mpfn>)
    requires Fresh(w, s)
    ensures PendingSet(s) == {}
  {}

  // What migrate_device_unmap leaves behind
  ghost predicate UnmapDone(w0: World, w: World, mem: Mem, s0: seq<Mpfn>, s: seq<Mpfn>, d: seq<Mpfn>,
                            base: Option<Addr>,
                            faultPage: Option<Pid>, fates: nat -> UnmapFate) {
    && InFlight(w, mem, s, d, base)
    && Phase2(w0, w, s0, s, |s|, faultPage, fates)
    && SameView(w0, w) && MirrorShrinks(w0, w) && PinsKept(w0, w) && FreeKept(w0, w) && UsedKept(w0, w) && Carried(w0, w)
  }

  // There are the same pages, and free pages stay free
  ghost predicate FreeKept(w: World, w': World) {
    w'.pages.Keys == w.pages.Keys && forall p | w.Free(p) :: w'.Free(p) && w'.pages[p].kind == w.pages[p].kind
  }

  // Pages in use stay in use
  ghost predicate UsedKept(w: World, w': World) {
    forall p | w.Live(p) :: w'.Live(p)
  }

  lemma FreeTrans(w: World, w1: World, w2: World)
    requires FreeKept(w, w1) && FreeKept(w1, w2)
    ensures FreeKept(w, w2)
  {}

  lemma UsedTrans(w: World, w1: World, w2: World)
    requires UsedKept(w, w1) && UsedKept(w1, w2)
    ensures UsedKept(w, w2)
  {}

  lemma UnmapOneFree(w: World, p: Pid, faultPage: Option<Pid>, fate: UnmapFate)
    requires w.Live(p) && w.pages[p].lru != Isolated && w.pages[p].lock.SrcSlot?
    requires p in UnmapOne(w, p, faultPage, fate).pages && UnmapOne(w, p, faultPage, fate).BalancedAt(p)
    ensures var w' := UnmapOne(w, p, faultPage, fate); FreeKept(w, w') && UsedKept(w, w') && Carried(w, w')
  {
    UnmapOneFrame(w, p, faultPage, fate);
    hide UnmapOne, Unmappable;
    CarriedOne(w, UnmapOne(w, p, faultPage, fate), p);
    hide Carried;
  }

  lemma InFlightBalance(w: World, mem: Mem, s: seq<Mpfn>, d: seq<Mpfn>, base: Option<Addr>, p: Pid)
    requires InFlight(w, mem, s, d, base) && p in w.pages
    ensures w.BalancedAt(p)
  {}

  lemma RestoreFree(w: World, mem: Mem, p: Pid)
    requires w.Inv(mem) && w.Live(p)
    ensures FreeKept(w, RestorePage(w, p))
  {
    hide World.Balanced, Exclusive, World.Flat;
    if w.pages[p].kind.Device? { assert LiveDevice(p, w.pages) && BackingOk(p, w.pages); }
    RemoveFrame(w, p);
    ReleaseFrame(w.RemoveMigrationPtes(p, p), p);
    RestoreSame(w, p);
    hide RestorePage, Release, World.RemoveMigrationPtes;
  }

  // The pages of a range given by device pfns were in use before they were taken.
  ghost predicate AllShared(w: World, s: seq<Mpfn>, base: Option<Addr>) {
    base == None ==> forall i {:trigger s[i]} | 0 <= i < |s| && s[i].page.Some? ::
      s[i].page.value in w.pages && w.pages[s[i].page.value].refs > 1
  }

  // A page that is restored is in use: an address waits for it, or somebody else held it before.
  lemma RestoreUsed(w0: World, w: World, mem: Mem, p: Pid)
    requires w.Inv(mem) && w.Live(p) && w.pages[p].lock.SrcSlot?
    requires (exists a: Addr :: w.At(a).Migrates(p))
          || (SameView(w0, w) && SameMeta(w0, w, p) && w0.BalancedAt(p) && w0.pages[p].lock.Ours() && w0.pages[p].refs > 1)
    ensures RestorePage(w, p).Live(p)
  {
    RestoreInv(w, mem, p);
    var w' := RestorePage(w, p);
    if a: Addr :| w.At(a).Migrates(p) {
      WaitedFor(w, p, a);
    } else if w0.Mappers(p) != {} {
      var a :| a in w0.Mappers(p);
      assert SameRef(w0.At(a), w.At(a));
      RestoreAt(w, p, a);
      hide RestorePage;
      assert w'.BalancedAt(p) && a in w'.Mappers(p);
    }
  }

  lemma WaitedFor(w: World, p: Pid, a: Addr)
    requires w.Live(p) && w.At(a).Migrates(p)
    ensures RestorePage(w, p).Live(p)
  {
    assert a in w.MigAddrs(p);
    assert |w.MigAddrs(p)| > 0;
    hide World.MigAddrs;
  }

  lemma RestoreCarried(w: World, p: Pid)
    requires w.Live(p) && w.pages[p].lock.SrcSlot? && RestorePage(w, p).Live(p)
    ensures Carried(w, RestorePage(w, p)) && UsedKept(w, RestorePage(w, p))
  {
    var w' := RestorePage(w, p);
    assert w'.pages == w.pages[p := w'.pages[p]];
    CarriedOne(w, w', p);
    hide Carried;
  }

  lemma ViewTrans(w0: World, w1: World, w2: World)
    requires SameView(w0, w1) && SameView(w1, w2) && MirrorShrinks(w0, w1) && MirrorShrinks(w1, w2)
    ensures SameView(w0, w2) && MirrorShrinks(w0, w2)
  {
    forall a: Addr ensures SameRef(w0.At(a), w2.At(a)) {
      assert SameRef(w0.At(a), w1.At(a)) && SameRef(w1.At(a), w2.At(a));
    }
  }

  ghost predicate Progress(w0: World, w: World, mem: Mem, s: seq<Mpfn>, d: seq<Mpfn>, base: Option<Addr>) {
    && InFlight(w, mem, s, d, base) && SameView(w0, w) && MirrorShrinks(w0, w) && PinsKept(w0, w) && FreeKept(w0, w)
    && UsedKept(w0, w) && Carried(w0, w)
  }

  lemma UnmapOnePins(w: World, p: Pid, faultPage: Option<Pid>, fate: UnmapFate)
    requires p in w.pages && w.pages[p].lru != Isolated
    ensures PinsKept(w, UnmapOne(w, p, faultPage, fate))
  {
    UnmapOneFrame(w, p, faultPage, fate);
    hide UnmapOne, Unmappable, MirrorShrinks;
  }

  // A turn of the first loop on the arrays' values
  lemma Turn1(w0: World, w: World, w': World, mem: Mem, s0: seq<Mpfn>, s: seq<Mpfn>, d: seq<Mpfn>, base: Option<Addr>,
              i: nat,
              faultPage: Option<Pid>, fates: nat -> UnmapFate, p: Pid, ok: bool)
    requires Progress(w0, w, mem, s, d, base) && Phase1(w0, w, s0, s, i, faultPage, fates) && Fresh(w0, s0)
    requires faultPage.Some? ==> faultPage.value in w0.pages && w0.pages[faultPage.value].kind.Device?
    requires i < |s| && s[i].page == Some(p)
    requires p in w.pages && w' == UnmapOne(w, p, faultPage, fates(i)) && ok == Unmappable(w, p, faultPage, fates(i))
    ensures var s' := s[i := s[i].(migrate := ok)];
            Progress(w0, w', mem, s', d, base) && Phase1(w0, w', s0, s', i + 1, faultPage, fates)
  {
    Phase1Page(w0, w, w', mem, s0, s, d, i, p, faultPage, fates, s[i := s[i].(migrate := ok)]);
    SlotLocked(w, s, d, i, p);
    assert Waiting(w0, w, s0[i], s[i]);
    assert w.pages[p].lru != Isolated;
    assert w.BalancedAt(p);
    hide InFlight, UnmapOne, Phase1, Unmappable, SameView, MirrorShrinks, PinsKept, FreeKept, UsedKept, Carried;
    UnmapOneInFlight(w, mem, s, d, base, p, faultPage, fates(i));
    UnmapOneFrame(w, p, faultPage, fates(i));
    InFlightBalance(w', mem, s, d, base, p);
    UnmapOneFree(w, p, faultPage, fates(i));
    FreeTrans(w0, w, w');
    UsedTrans(w0, w, w');
    CarriedTrans(w0, w, w');
    FlagKeepsInFlight(w', mem, s, d, base, i, ok);
    UnmapOneView(w, p, faultPage, fates(i));
    UnmapOneFrame(w, p, faultPage, fates(i));
    ViewTrans(w0, w, w');
    UnmapOnePins(w, p, faultPage, fates(i));
    PinsTrans(w0, w, w');
  }

  lemma SlotAddr(w: World, mem: Mem, s: seq<Mpfn>, d: seq<Mpfn>, base: Option<Addr>, i: nat, p: Pid)
    requires InFlight(w, mem, s, d, base) && i < |s| && s[i].page == Some(p)
    ensures base.Some? ==> w.At(base.value + i).Migrates(p)
  {}

  lemma SlotLocked(w: World, s: seq<Mpfn>, d: seq<Mpfn>, i: nat, p: Pid)
    requires Slots(w, s, d) && i < |s| && s[i].page == Some(p)
    ensures HoldsLock(w, p, SrcSlot(i))
  {}

  // A turn of the second loop
  lemma Turn2(w0: World, w: World, mem: Mem, s0: seq<Mpfn>, s: seq<Mpfn>, d: seq<Mpfn>, base: Option<Addr>, i: nat,
              faultPage: Option<Pid>, fates: nat -> UnmapFate, p: Pid)
    requires Progress(w0, w, mem, s, d, base) && Phase2(w0, w, s0, s, i, faultPage, fates)
    requires i < |s| && s[i].page == Some(p) && !s[i].migrate && AllShared(w0, s0, base) && Held(w0, mem, s0, d, base)
    ensures w.Live(p) && w.Inv(mem) && HoldsLock(w, p, SrcSlot(i))
    ensures var w', s' := RestorePage(w, p), s[i := EMPTY];
            Progress(w0, w', mem, s', d, base) && Phase2(w0, w', s0, s', i + 1, faultPage, fates)
  {
    SlotLocked(w, s, d, i, p);
    assert Tried(w0, w, s0[i], s[i], faultPage, fates(i));
    Phase2Page(w0, w, mem, s0, s, d, i, p, faultPage, fates);
    RestoreKeepsInFlight(w, mem, s, d, base, i, p);
    RestoreView(w, mem, p);
    RestorePins(w, p);
    RestoreFree(w, mem, p);
    SlotAddr(w, mem, s, d, base, i, p);
    SlotShared(w0, w, mem, s0, s, d, base, i, p, faultPage, fates);
    RestoreUsed(w0, w, mem, p);
    RestoreCarried(w, p);
    hide InFlight, RestorePage, Phase2, SameView, MirrorShrinks, PinsKept, FreeKept, UsedKept, Carried, Held;
    FreeTrans(w0, w, RestorePage(w, p));
    UsedTrans(w0, w, RestorePage(w, p));
    CarriedTrans(w0, w, RestorePage(w, p));
    ViewTrans(w0, w, RestorePage(w, p));
    PinsTrans(w0, w, RestorePage(w, p));
  }

  lemma SlotShared(w0: World, w: World, mem: Mem, s0: seq<Mpfn>, s: seq<Mpfn>, d: seq<Mpfn>, base: Option<Addr>, i: nat,
                   p: Pid, faultPage: Option<Pid>, fates: nat -> UnmapFate)
    requires Phase2(w0, w, s0, s, i, faultPage, fates) && i < |s| && s[i].page == Some(p)
    requires AllShared(w0, s0, base) && Held(w0, mem, s0, d, base)
    ensures base == None ==> SameMeta(w0, w, p) && w0.BalancedAt(p) && w0.pages[p].lock.Ours() && w0.pages[p].refs > 1
  {
    assert Tried(w0, w, s0[i], s[i], faultPage, fates(i));
    assert HoldsLock(w0, p, SrcSlot(i));
  }

  lemma RestoreView(w: World, mem: Mem, p: Pid)
    requires w.Inv(mem) && w.Live(p)
    ensures SameView(w, RestorePage(w, p)) && MirrorShrinks(w, RestorePage(w, p))
  {
    hide World.Balanced, Exclusive, World.Flat;
    RestoreSame(w, p);
    forall a: Addr ensures SameRef(w.At(a), RestorePage(w, p).At(a)) {
      RestoreAt(w, p, a);
      if a in w.pt { assert PteOk(w.pt[a], w.pages); }
    }
  }

  lemma MigrateUpdate(s: seq<Mpfn>, i: nat, m: Mpfn)
    requires i < |s|
    ensures |MigrateSet(s[i := m])| + (if s[i].migrate then 1 else 0) == |MigrateSet(s)| + (if m.migrate then 1 else 0)
  {
    var rest := MigrateSet(s) - {i};
    assert MigrateSet(s) == if s[i].migrate then rest + {i} else rest;
    assert MigrateSet(s[i := m]) == if m.migrate then rest + {i} else rest;
  }

  // How many of the first i slots still migrate
  function Migrating(s: seq<Mpfn>, i: nat): nat {
    |MigrateSet(if i <= |s| then s[..i] else s)|
  }

  lemma MigratePrefix(s: seq<Mpfn>, i: nat)
    requires i < |s|
    ensures Migrating(s, i + 1) == Migrating(s, i) + if s[i].migrate then 1 else 0
  {
    assert s[..i + 1] == s[..i] + [s[i]];
    MigrateSetAppend(s[..i], s[i]);
  }

  lemma Phase1Start(w0: World, s0: seq<Mpfn>, mem: Mem, d: seq<Mpfn>, base: Option<Addr>, faultPage: Option<Pid>,
                    fates: nat -> UnmapFate)
    requires InFlight(w0, mem, s0, d, base)
    ensures Held(w0, mem, s0, d, base) && Progress(w0, w0, mem, s0, d, base)
    ensures Phase1(w0, w0, s0, s0, 0, faultPage, fates)
  {
    forall j | 0 <= j < |s0| ensures Waiting(w0, w0, s0[j], s0[j]) {
      assert s0[j].page.Some? ==> HoldsLock(w0, s0[j].page.value, SrcSlot(j));
    }
  }

  lemma Phase1End(w0: World, w: World, s0: seq<Mpfn>, s: seq<Mpfn>, faultPage: Option<Pid>, fates: nat -> UnmapFate)
    requires Phase1(w0, w, s0, s, |s|, faultPage, fates)
    ensures Phase2(w0, w, s0, s, 0, faultPage, fates)
  {}

  // The page of the slot the loop stands at
  lemma SlotStands(w0: World, w: World, mem: Mem, s0: seq<Mpfn>, s: seq<Mpfn>, d: seq<Mpfn>, base: Option<Addr>, i: nat,
                  faultPage: Option<Pid>, fates: nat -> UnmapFate)
    requires Progress(w0, w, mem, s, d, base) && Phase1(w0, w, s0, s, i, faultPage, fates) && Fresh(w0, s0)
    requires i < |s| && s[i].page.Some?
    ensures var p := s[i].page.value;
            s[i].migrate && p in w.pages && w.Live(p) && w.BalancedAt(p) && w.pages[p].lock.SrcSlot?
  {
    var p := s[i].page.value;
    assert Waiting(w0, w, s0[i], s[i]) && HoldsLock(w, p, SrcSlot(i));
    assert w.BalancedAt(p);
  }

  // One slot of the first loop
  method UnmapSlot(m: Machine, src: array<Mpfn>, ghost w0: World, ghost s0: seq<Mpfn>, ghost d: seq<Mpfn>, npages: nat,
                   i: nat, faultPage: Option<Pid>, ghost base: Option<Addr>, fates: nat -> UnmapFate)
    requires i < npages <= src.Length
    requires Progress(w0, m.w, m.mem, src[..npages], d, base) && Phase1(w0, m.w, s0, src[..npages], i, faultPage, fates)
    requires Fresh(w0, s0) && src[i].page.Some?
    requires faultPage.Some? ==> faultPage.value in w0.pages && w0.pages[faultPage.value].kind.Device?
    modifies m`w, src
    ensures Progress(w0, m.w, m.mem, src[..npages], d, base)
    ensures Phase1(w0, m.w, s0, src[..npages], i + 1, faultPage, fates)
    ensures old(src[i]).migrate && src[i].page == old(src[i]).page
    ensures src[..npages] == old(src[..npages])[i := src[i]] && src[npages..] == old(src[npages..])
    ensures src[..npages][..i] == old(src[..npages][..i])
  {
    hide Progress, Phase1, Fresh, Unmappable, UnmapOne, World.Mappers;
    ghost var w, s := m.w, src[..npages];
    SlotStands(w0, w, m.mem, s0, s, d, base, i, faultPage, fates);
    var p := src[i].page.value;
    var ok := UnmapPage(m, p, faultPage, fates(i));
    src[i] := src[i].(migrate := ok);
    assert src[..npages] == s[i := s[i].(migrate := ok)];
    assert src[npages..] == old(src[npages..]);
    Turn1(w0, w, m.w, m.mem, s0, s, d, base, i, faultPage, fates, p, ok);
  }

  // One slot of the second loop
  method RestoreSlot(m: Machine, src: array<Mpfn>, ghost w0: World, ghost s0: seq<Mpfn>, ghost d: seq<Mpfn>,
                     npages: nat,
                     i: nat, faultPage: Option<Pid>, ghost base: Option<Addr>, fates: nat -> UnmapFate)
    requires i < npages <= src.Length
    requires Progress(w0, m.w, m.mem, src[..npages], d, base) && Phase2(w0, m.w, s0, src[..npages], i, faultPage, fates)
    requires src[i].page.Some? && !src[i].migrate && AllShared(w0, s0, base) && Held(w0, m.mem, s0, d, base)
    modifies m`w, src
    ensures Progress(w0, m.w, m.mem, src[..npages], d, base)
    ensures Phase2(w0, m.w, s0, src[..npages], i + 1, faultPage, fates)
    ensures src[..npages] == old(src[..npages])[i := EMPTY] && src[npages..] == old(src[npages..])
  {
    hide Progress, Phase2, World.RemoveMigrationPtes, World.Inv, Held, AllShared;
    ghost var w, s := m.w, src[..npages];
    var p := src[i].page.value;
    Turn2(w0, w, m.mem, s0, s, d, base, i, faultPage, fates, p);
    RemoveHolds(w, m.mem, p);
    m.w := m.w.RemoveMigrationPtes(p, p);
    src[i] := EMPTY;
    m.w := m.w.SetLock(p, Unlocked);
    m.w := m.w.PutPage(p);
    assert src[..npages] == s[i := EMPTY];
  }

  lemma RemoveHolds(w: World, mem: Mem, p: Pid)
    requires w.Inv(mem) && w.Live(p)
    ensures w.RemoveMigrationPtes(p, p).Live(p)
  {}

  method MigrateDeviceUnmap(m: Machine, src: array<Mpfn>, ghost d: seq<Mpfn>, npages: nat, faultPage: Option<Pid>,
                            ghost base: Option<Addr>, fates: nat -> UnmapFate)
    returns (unmapped: nat)
    requires npages <= src.Length && InFlight(m.w, m.mem, src[..npages], d, base) && Fresh(m.w, src[..npages])
    requires faultPage.Some? ==> faultPage.value in m.w.pages && m.w.pages[faultPage.value].kind.Device?
    requires AllShared(m.w, src[..npages], base)
    modifies m`w, src
    ensures UnmapDone(old(m.w), m.w, m.mem, old(src[..npages]), src[..npages], d, base, faultPage, fates)
    ensures unmapped == |MigrateSet(src[..npages])|
    ensures src[npages..] == old(src[npages..])
  {
    ghost var w0, s0 := m.w, src[..npages];
    hide Progress, Phase1, Phase2, SameView, MirrorShrinks, UnmapDone, AllShared, Held;
    Phase1Start(w0, s0, m.mem, d, base, faultPage, fates);
    var restore: nat;
    restore, unmapped := UnmapLoop(m, src, w0, s0, d, npages, faultPage, base, fates);
    Phase1End(w0, m.w, s0, src[..npages], faultPage, fates);
    RestoreLoop(m, src, w0, s0, d, npages, faultPage, base, fates, restore);
    UnmapDoneHolds(w0, m.w, m.mem, s0, src[..npages], d, base, faultPage, fates);
  }

  method UnmapTurn(m: Machine, src: array<Mpfn>, ghost w0: World, ghost s0: seq<Mpfn>, ghost d: seq<Mpfn>, npages: nat,
                   i: nat, faultPage: Option<Pid>, ghost base: Option<Addr>, fates: nat -> UnmapFate)
    requires i < npages <= src.Length && Fresh(w0, s0)
    requires Progress(w0, m.w, m.mem, src[..npages], d, base) && Phase1(w0, m.w, s0, src[..npages], i, faultPage, fates)
    requires faultPage.Some? ==> faultPage.value in w0.pages && w0.pages[faultPage.value].kind.Device?
    modifies m`w, src
    ensures Progress(w0, m.w, m.mem, src[..npages], d, base)
    ensures Phase1(w0, m.w, s0, src[..npages], i + 1, faultPage, fates)
    ensures |PendingSet(src[..npages])|
         == old(|PendingSet(src[..npages])|) + (if src[i].page.Some? && !src[i].migrate then 1 else 0)
    ensures Migrating(src[..npages], i + 1)
         == old(Migrating(src[..npages], i)) + (if src[i].migrate then 1 else 0)
    ensures src[npages..] == old(src[npages..])
  {
    hide Progress, Phase1, Fresh, PendingSet, MigrateSet;
    ghost var s := src[..npages];
    if src[i].page == None {
      Phase1None(w0, m.w, s0, s, i, faultPage, fates);
    } else {
      UnmapSlot(m, src, w0, s0, d, npages, i, faultPage, base, fates);
      PendingUpdate(s, i, src[i]);
    }
    MigratePrefix(src[..npages], i);
  }

  // The first loop
  method UnmapLoop(m: Machine, src: array<Mpfn>, ghost w0: World, ghost s0: seq<Mpfn>, ghost d: seq<Mpfn>, npages: nat,
                   faultPage: Option<Pid>, ghost base: Option<Addr>, fates: nat -> UnmapFate)
    returns (restore: nat, unmapped: nat)
    requires npages <= src.Length && Fresh(w0, s0) && src[..npages] == s0
    requires Progress(w0, m.w, m.mem, src[..npages], d, base) && Phase1(w0, m.w, s0, src[..npages], 0, faultPage, fates)
    requires faultPage.Some? ==> faultPage.value in w0.pages && w0.pages[faultPage.value].kind.Device?
    modifies m`w, src
    ensures Progress(w0, m.w, m.mem, src[..npages], d, base)
    ensures Phase1(w0, m.w, s0, src[..npages], npages, faultPage, fates)
    ensures restore == |PendingSet(src[..npages])| && unmapped == |MigrateSet(src[..npages])|
    ensures src[npages..] == old(src[npages..])
  {
    PendingNone(w0, s0);
    hide Progress, Phase1, Fresh, PendingSet;
    restore, unmapped := 0, 0;
    var i := 0;
    while i < npages
      invariant 0 <= i <= npages && src[npages..] == old(src[npages..])
      invariant Progress(w0, m.w, m.mem, src[..npages], d, base)
      invariant Phase1(w0, m.w, s0, src[..npages], i, faultPage, fates)
      invariant restore == |PendingSet(src[..npages])| && unmapped == Migrating(src[..npages], i)
    {
      hide MigrateSet;
      UnmapTurn(m, src, w0, s0, d, npages, i, faultPage, base, fates);
      if src[i].migrate {
        unmapped := unmapped + 1;
      } else if src[i].page.Some? {
        restore := restore + 1;
      }
      i := i + 1;
    }
    assert src[..npages][..npages] == src[..npages];
  }

  // The second loop: it stops early once nothing is left to restore
  method RestoreLoop(m: Machine, src: array<Mpfn>, ghost w0: World, ghost s0: seq<Mpfn>, ghost d: seq<Mpfn>,
                     npages: nat,
                     faultPage: Option<Pid>, ghost base: Option<Addr>, fates: nat -> UnmapFate, pending: nat)
    requires npages <= src.Length && pending == |PendingSet(src[..npages])|
    requires AllShared(w0, s0, base) && Held(w0, m.mem, s0, d, base)
    requires Progress(w0, m.w, m.mem, src[..npages], d, base) && Phase2(w0, m.w, s0, src[..npages], 0, faultPage, fates)
    modifies m`w, src
    ensures Progress(w0, m.w, m.mem, src[..npages], d, base)
    ensures Phase2(w0, m.w, s0, src[..npages], npages, faultPage, fates)
    ensures |MigrateSet(src[..npages])| == old(|MigrateSet(src[..npages])|)
    ensures src[npages..] == old(src[npages..])
  {
    hide Progress, Phase2, MigrateSet, Held, AllShared;
    var restore, i := pending, 0;
    while i < npages && restore > 0
      invariant 0 <= i <= npages && src[npages..] == old(src[npages..])
      invariant Progress(w0, m.w, m.mem, src[..npages], d, base)
      invariant Phase2(w0, m.w, s0, src[..npages], i, faultPage, fates)
      invariant restore == |PendingSet(src[..npages])|
      invariant |MigrateSet(src[..npages])| == old(|MigrateSet(src[..npages])|)
    {
      hide PendingSet;
      ghost var s := src[..npages];
      if src[i].page == None || src[i].migrate {
        Phase2Skip(w0, m.w, s0, s, i, faultPage, fates);
      } else {
        RestoreSlot(m, src, w0, s0, d, npages, i, faultPage, base, fates);
        restore := restore - 1;
        PendingUpdate(s, i, EMPTY);
        MigrateUpdate(s, i, EMPTY);
      }
      i := i + 1;
    }
    Phase2Done(w0, m.w, s0, src[..npages], i, faultPage, fates);
  }

  lemma UnmapDoneHolds(w0: World, w: World, mem: Mem, s0: seq<Mpfn>, s: seq<Mpfn>, d: seq<Mpfn>, base: Option<Addr>,
                       faultPage: Option<Pid>, fates: nat -> UnmapFate)
    requires Progress(w0, w, mem, s, d, base) && Phase2(w0, w, s0, s, |s|, faultPage, fates)
    ensures UnmapDone(w0, w, mem, s0, s, d, base, faultPage, fates)
  {}
}
