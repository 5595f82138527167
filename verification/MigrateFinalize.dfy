/**
  mm/migrate_device.c, last stage: point the migration entries at the new page, or back at the
  old one, then unlock and drop both.
*/
module MigrateFinalize {
  import opened Kernel
  import opened KernelSteps
  import opened Txn
  import opened Accounts
  import opened MachineState
  import opened MigrateCollect
  import opened MigrateUnmap

  // unlock, then put_page for a device page or putback_lru_page for a system page
  function PutBack(w: World, p: Pid): World
    requires w.Live(p)
  {
    Release(if w.pages[p].kind.Device? then w else w.SetLru(p, OnLru), p)
  }

  // The pages of one slot
  function SlotPages(m: Mpfn, n: Mpfn): set<Pid> {
    (if m.page.Some? then {m.page.value} else {}) + (if n.page.Some? then {n.page.value} else {})
  }

  // Pages outside X keep what the other slots rely on
  ghost predicate Outside(w: World, w': World, X: set<Pid>) {
    && SameStorage(w.pages, w'.pages) && w'.mirror == w.mirror
    && (forall r | r in w.pages && r !in X :: OutsideAt(w, w', r))
  }

  predicate OutsideAt(w: World, w': World, r: Pid)
    requires r in w.pages && r in w'.pages
  {
    if w.pages[r].lock.Ours() then Unchanged(w, w', r)
    else w'.pages[r].lock == w.pages[r].lock && (w'.pages[r].lru == Isolated ==> w.pages[r].lru == Isolated)
  }

  lemma OutsideTrans(w: World, w1: World, w2: World, X: set<Pid>)
    requires Outside(w, w1, X) && Outside(w1, w2, X)
    ensures Outside(w, w2, X)
  {
    forall p | p in w.pages ensures SameBits(w.pages[p], w2.pages[p]) {
      assert SameBits(w.pages[p], w1.pages[p]) && SameBits(w1.pages[p], w2.pages[p]);
    }
    forall r | r in w.pages && r !in X ensures OutsideAt(w, w2, r) {
      assert OutsideAt(w, w1, r) && OutsideAt(w1, w2, r);
    }
  }

  lemma HeldLive(w: World, mem: Mem, p: Pid)
    requires w.Inv(mem) && p in w.pages && w.pages[p].lock.Ours()
    ensures w.Live(p)
  {
    assert w.BalancedAt(p);
  }

  // ----- one page put back

  lemma PutBackInv(w: World, mem: Mem, p: Pid)
    requires w.Inv(mem) && p in w.pages && w.pages[p].lock.Ours() && w.MigAddrs(p) == {}
    ensures w.Live(p) && PutBack(w, p).Inv(mem)
  {
    assert w.BalancedAt(p);
    if w.pages[p].kind.System? {
      LruKeeps(w, mem, p, OnLru);
      assert w.SetLru(p, OnLru).MigAddrs(p) == w.MigAddrs(p);
      ReleaseKeeps(w.SetLru(p, OnLru), mem, p);
    } else {
      ReleaseKeeps(w, mem, p);
    }
  }

  lemma PutBackFrame(w: World, mem: Mem, p: Pid, X: set<Pid>)
    requires w.Inv(mem) && w.Live(p) && w.pages[p].lock.Ours() && p in X
    requires w.pages[p].kind.Device? ==> w.pages[p].lru != Isolated
    ensures var w' := PutBack(w, p);
            && Outside(w, w', X) && w'.pt == w.pt && w'.pages.Keys == w.pages.Keys
            && w'.pages[p].lock == Unlocked && w'.pages[p].lru != Isolated
            && w'.pages[p].refs == w.pages[p].refs - 1
            && (forall q | q in w.pages && q != p :: OutsideAt(w, w', q))
  {
    var w1 := if w.pages[p].kind.Device? then w else w.SetLru(p, OnLru);
    if w.pages[p].kind.Device? {
      assert LiveDevice(p, w.pages) && BackingOk(p, w.pages);
      assert w.BalancedAt(w.pages[p].backing);
    }
    ReleaseFrame(w1, p);
    PutBackSame(w, p);
    hide World.Inv;
    forall q | q in w.pages && q != p ensures OutsideAt(w, PutBack(w, p), q) {}
  }

  lemma PutBackSame(w: World, p: Pid)
    requires w.Live(p) && (w.pages[p].kind.Device? ==> BackingOk(p, w.pages))
    ensures SameStorage(w.pages, PutBack(w, p).pages) && PutBack(w, p).pt == w.pt
    ensures forall q :: PutBack(w, p).Mappers(q) == w.Mappers(q)
  {
    var w1 := if w.pages[p].kind.Device? then w else w.SetLru(p, OnLru);
    ReleaseFrame(w1, p);
    forall q | q in w.pages ensures SameBits(w.pages[q], PutBack(w, p).pages[q]) {
      assert SameBits(w1.pages[q], PutBack(w, p).pages[q]);
    }
    MappersOfPt(w, PutBack(w, p));
  }

  lemma RemoveOutside(w: World, p: Pid, q: Pid, X: set<Pid>)
    requires p in w.pages && q in X && q in w.pages
    ensures Outside(w, w.RemoveMigrationPtes(p, q), X)
  {
    RemoveMappers(w, p, q);
  }

  // ----- one slot finalized

  function FinalizeOne(w: World, m: Mpfn, n: Mpfn): World
    requires m.page.Some? ==> w.Live(m.page.value)
    requires n.page.Some? ==> w.Live(n.page.value) && n.page != m.page
  {
    match (m.page, n.page)
    case (None, None) => w
    case (None, Some(q)) => Release(w, q)
    case (Some(p), None) => PutBack(w.RemoveMigrationPtes(p, p), p)
    case (Some(p), Some(q)) =>
      if m.migrate then ReplaceBoth(w, p, q)
      else DropAndRestore(w, p, q)
  }

  function ReplaceBoth(w: World, p: Pid, q: Pid): World
    requires w.Live(p) && w.Live(q) && p != q
  {
    var w1 := w.RemoveMigrationPtes(p, q);
    var w2 := PutBack(w1, p);
    if w2.Live(q) then PutBack(w2, q) else w2
  }

  function DropAndRestore(w: World, p: Pid, q: Pid): World
    requires w.Live(p) && w.Live(q) && p != q
  {
    var w1 := Release(w, q);
    if w1.Live(p) then PutBack(w1.RemoveMigrationPtes(p, p), p) else w1
  }

  // Everything a finalized slot guarantees, for the rest of the migration to build on
  ghost predicate OneDone(w: World, w': World, mem: Mem, X: set<Pid>) {
    && w'.Inv(mem) && Outside(w, w', X)
    && (forall p | p in X :: p in w'.pages && w'.pages[p].lock == Unlocked && w'.pages[p].lru != Isolated)
  }

  lemma ReleaseDst(w: World, mem: Mem, q: Pid, X: set<Pid>)
    requires w.Inv(mem) && LruHeld(w.pages) && q in w.pages && w.pages[q].lock.DstSlot? && q in X
    ensures w.Live(q) && Release(w, q).Inv(mem) && Outside(w, Release(w, q), X)
    ensures Release(w, q).pages.Keys == w.pages.Keys
    ensures Release(w, q).pt == w.pt && Release(w, q).pages[q].lock == Unlocked
    ensures Release(w, q).pages[q].lru != Isolated
    ensures forall p | p in w.pages && p != q :: OutsideAt(w, Release(w, q), p)
  {
    MigAddrsOfDst(w, q);
    ReleaseKeeps(w, mem, q);
    if w.pages[q].kind.Device? {
      PutBackFrame(w, mem, q, X);
    } else {
      ReleaseFrame(w, q);
      MappersOfPt(w, Release(w, q));
      hide World.Inv;
      forall r | r in w.pages && r != q ensures OutsideAt(w, Release(w, q), r) {}
    }
  }

  // The entries go back to p; p is unlocked and put
  lemma RestoreDone(w: World, mem: Mem, p: Pid, X: set<Pid>)
    requires w.Inv(mem) && LruHeld(w.pages) && p in w.pages && w.pages[p].lock.SrcSlot? && p in X
    ensures w.Live(p)
    ensures var w' := PutBack(w.RemoveMigrationPtes(p, p), p);
            && w'.Inv(mem) && Outside(w, w', X) && w'.pages.Keys == w.pages.Keys
            && w'.pages[p].lock == Unlocked && w'.pages[p].lru != Isolated
            && w'.pt == w.RemoveMigrationPtes(p, p).pt
            && (forall q | q in w.pages && q != p :: OutsideAt(w, w', q))
  {
    hide World.Inv, PutBack;
    HeldLive(w, mem, p);
    var w1 := w.RemoveMigrationPtes(p, p);
    RemoveKeeps(w, mem, p, p);
    RemoveMigAddrs(w, p, p);
    RemoveOutside(w, p, p, {p});
    assert w1.Live(p) && w1.pages[p].lock == w.pages[p].lock;
    assert w1.pages[p].lru == w.pages[p].lru && w1.pages[p].kind == w.pages[p].kind;
    hide World.RemoveMigrationPtes;
    PutBackInv(w1, mem, p);
    PutBackFrame(w1, mem, p, {p});
    OutsideTrans(w, w1, PutBack(w1, p), {p});
    OutsideGrow(w, PutBack(w1, p), {p}, X);
  }

  lemma OutsideGrow(w: World, w': World, X: set<Pid>, Y: set<Pid>)
    requires Outside(w, w', X) && X <= Y
    ensures Outside(w, w', Y)
  {}

  lemma DropAndRestoreDone(w: World, mem: Mem, p: Pid, q: Pid)
    requires w.Inv(mem) && LruHeld(w.pages) && p in w.pages && w.pages[p].lock.SrcSlot?
    requires q in w.pages && w.pages[q].lock.DstSlot?
    ensures w.Live(p) && w.Live(q)
    ensures OneDone(w, DropAndRestore(w, p, q), mem, {p, q})
    ensures DropAndRestore(w, p, q).pt == w.RemoveMigrationPtes(p, p).pt
  {
    hide World.Inv, PutBack, Release, LruHeld, World.Mappers, World.RemoveMigrationPtes, Outside;
    HeldLive(w, mem, p);
    HeldLive(w, mem, q);
    var w1 := Release(w, q);
    ReleaseDst(w, mem, q, {p, q});
    assert OutsideAt(w, w1, p);
    DroppedLru(w, w1, {p, q}, p);
    RestoreDone(w1, mem, p, {p, q});
    OutsideTrans(w, w1, DropAndRestore(w, p, q), {p, q});
    RemoveSamePt(w, w1, p);
    assert q in w1.pages && OutsideAt(w1, DropAndRestore(w, p, q), q);
  }

  lemma DroppedLru(w: World, w': World, X: set<Pid>, p: Pid)
    requires LruHeld(w.pages) && Outside(w, w', X) && p in X && p in w.pages && Unchanged(w, w', p)
    requires forall q | q in X && q != p :: q in w'.pages && w'.pages[q].lru != Isolated
    ensures LruHeld(w'.pages)
  {
    forall r | r in w'.pages && w'.pages[r].lru == Isolated
      ensures w'.pages[r].lock.SrcSlot? && w'.pages[r].kind.System?
    {
      assert SameBits(w.pages[r], w'.pages[r]);
      assert r !in X ==> OutsideAt(w, w', r);
    }
  }

  lemma RemoveSamePt(w: World, w': World, p: Pid)
    requires p in w.pages && p in w'.pages && w'.pt == w.pt && w'.pages[p].kind == w.pages[p].kind
    ensures w'.RemoveMigrationPtes(p, p).pt == w.RemoveMigrationPtes(p, p).pt
  {}

  lemma ReplaceBothDone(w: World, mem: Mem, p: Pid, q: Pid)
    requires w.Inv(mem) && LruHeld(w.pages) && p in w.pages && w.pages[p].lock.SrcSlot?
    requires q in w.pages && w.pages[q].lock.DstSlot? && w.Mappers(q) == {} && w.Data(q) == w.Data(p)
    ensures w.Live(p) && w.Live(q)
    ensures OneDone(w, ReplaceBoth(w, p, q), mem, {p, q})
    ensures ReplaceBoth(w, p, q).pt == w.RemoveMigrationPtes(p, q).pt
  {
    hide World.Inv, PutBack, Outside;
    HeldLive(w, mem, p);
    HeldLive(w, mem, q);
    var w1 := w.RemoveMigrationPtes(p, q);
    RemoveKeeps(w, mem, p, q);
    RemoveMigAddrs(w, p, q);
    MigAddrsNone(w, mem, q);
    RemoveOutside(w, p, q, {p, q});
    assert w1.pages[p] == w.pages[p] && w1.pages[q] == w.pages[q].(refs := w1.pages[q].refs);
    hide World.RemoveMigrationPtes, World.Mappers;
    PutBackInv(w1, mem, p);
    PutBackFrame(w1, mem, p, {p, q});
    var w2 := PutBack(w1, p);
    assert OutsideAt(w1, w2, q);
    MigAddrsNone(w2, mem, q);
    PutBackLast(w2, mem, q, p);
    OutsideTrans(w, w1, w2, {p, q});
    OutsideTrans(w, w2, ReplaceBoth(w, p, q), {p, q});
  }

  lemma MigAddrsNone(w: World, mem: Mem, q: Pid)
    requires w.Inv(mem) && q in w.pages && w.pages[q].lock.DstSlot?
    ensures w.MigAddrs(q) == {}
  {
    MigAddrsOfDst(w, q);
  }

  lemma PutBackLast(w: World, mem: Mem, q: Pid, p: Pid)
    requires w.Inv(mem) && q in w.pages && w.pages[q].lock.DstSlot? && w.MigAddrs(q) == {} && p in w.pages && p != q
    requires w.pages[p].lock == Unlocked && w.pages[p].lru != Isolated
    requires w.pages[q].kind.Device? ==> w.pages[q].lru != Isolated
    ensures w.Live(q) && OneDone(w, PutBack(w, q), mem, {p, q}) && PutBack(w, q).pt == w.pt
  {
    hide World.Inv, PutBack, Outside;
    HeldLive(w, mem, q);
    PutBackInv(w, mem, q);
    PutBackFrame(w, mem, q, {p, q});
    assert OutsideAt(w, PutBack(w, q), p);
  }

  lemma PutBackPins(w: World, p: Pid)
    requires w.Live(p) && (w.pages[p].kind.Device? ==> BackingOk(p, w.pages))
    ensures PinsKept(w, PutBack(w, p))
  {
    ReleasePins(if w.pages[p].kind.Device? then w else w.SetLru(p, OnLru), p);
  }

  // putback_lru_page takes an isolated page back to the LRU, and a new one there.
  lemma PutBackEnds(w: World, mem: Mem, p: Pid)
    requires w.Inv(mem) && w.Live(p) && w.pages[p].lock.Ours()
    requires w.pages[p].kind.System? ==> w.pages[p].lru == Isolated || w.pages[p].lock.DstSlot?
    ensures Ended(w, PutBack(w, p))
  {
    if w.pages[p].kind.Device? {
      ReleaseEnds(w, p);
    } else {
      LruKeeps(w, mem, p, OnLru);
      hide World.Inv, Ended, Release;
      LruEnds(w, p);
      InvBacked(w.SetLru(p, OnLru), mem);
      ReleaseEnds(w.SetLru(p, OnLru), p);
      EndedTrans(w, w.SetLru(p, OnLru), PutBack(w, p));
    }
  }

  lemma InvBacked(w: World, mem: Mem)
    requires w.Inv(mem)
    ensures Backed(w.pages)
  {}

  lemma BackingStays(w: World, mem: Mem, p: Pid)
    requires w.Inv(mem) && w.Live(p)
    ensures w.pages[p].kind.Device? ==> BackingOk(p, w.pages)
  {
    assert LiveDevice(p, w.pages) ==> BackingOk(p, w.pages);
  }

  // ----- a slot within the whole migration

  // The page a slot's address ends up with
  function Target(m: Mpfn, n: Mpfn): Pid
    requires m.page.Some?
  {
    if Success(m, n) then n.page.value else m.page.value
  }

  // Before finalize, the mirror entry of an address that moves already names the new page.
  predicate FinOk(w: World, s: seq<Mpfn>, d: seq<Mpfn>, a: Addr, e: Entry) {
    var pte := w.At(a);
    if pte.Migration? && MovingSlot(w, s, d, pte.page)
    then w.FrameOk(d[w.pages[pte.page].lock.i].page.value, pte.write, e)
    else w.EntryOk(a, e)
  }

  predicate MovingSlot(w: World, s: seq<Mpfn>, d: seq<Mpfn>, p: Pid) {
    && p in w.pages && w.pages[p].lock.SrcSlot?
    && w.pages[p].lock.i < |s| && w.pages[p].lock.i < |d| && Success(s[w.pages[p].lock.i], d[w.pages[p].lock.i])
  }

  ghost predicate MirrorFin(w: World, s: seq<Mpfn>, d: seq<Mpfn>) {
    forall a | a in w.mirror :: FinOk(w, s, d, a, w.mirror[a])
  }

  ghost predicate FinState(w: World, mem: Mem, s: seq<Mpfn>, d: seq<Mpfn>) {
    w.Inv(mem) && Slots(w, s, d) && LruHeld(w.pages) && AllFinalizable(w, s, d) && MirrorFin(w, s, d)
  }

  // What finalizing slot i does to the page table
  ghost predicate SlotView(w: World, w': World, m: Mpfn, n: Mpfn) {
    forall a: Addr :: w'.At(a) ==
      if m.page.Some? && w.At(a).Migrates(m.page.value) then w.MapTo(Target(m, n), w.At(a).write) else w.At(a)
  }

  lemma FinalizeOneDone(w: World, mem: Mem, s: seq<Mpfn>, d: seq<Mpfn>, i: nat)
    requires w.Inv(mem) && Slots(w, s, d) && LruHeld(w.pages) && i < |s| && Finalizable(w, s[i], d[i])
    ensures s[i].page.Some? ==> HoldsLock(w, s[i].page.value, SrcSlot(i)) && w.Live(s[i].page.value)
    ensures d[i].page.Some? ==> HoldsLock(w, d[i].page.value, DstSlot(i)) && w.Live(d[i].page.value) && d[i].page != s[i].page
    ensures OneDone(w, FinalizeOne(w, s[i], d[i]), mem, SlotPages(s[i], d[i]))
    ensures s[i].page.Some? ==>
      FinalizeOne(w, s[i], d[i]).pt == w.RemoveMigrationPtes(s[i].page.value, Target(s[i], d[i])).pt
    ensures s[i].page == None ==> FinalizeOne(w, s[i], d[i]).pt == w.pt
  {
    SlotHolds(w, s, d, i);
    hide Slots, World.Inv, LruHeld, World.RemoveMigrationPtes, PutBack, Release, ReplaceBoth, DropAndRestore, Outside,
         OneDone;
    if s[i].page.Some? { HeldLive(w, mem, s[i].page.value); }
    if d[i].page.Some? { HeldLive(w, mem, d[i].page.value); }
    if s[i].page.Some? && d[i].page.Some? {
      PairDone(w, mem, s[i], d[i], s[i].page.value, d[i].page.value);
    } else {
      SingleDone(w, mem, s[i], d[i]);
    }
  }

  lemma SingleDone(w: World, mem: Mem, m: Mpfn, n: Mpfn)
    requires w.Inv(mem) && LruHeld(w.pages) && (m.page == None || n.page == None)
    requires m.page.Some? ==> w.Live(m.page.value) && w.pages[m.page.value].lock.SrcSlot?
    requires n.page.Some? ==> w.Live(n.page.value) && w.pages[n.page.value].lock.DstSlot?
    ensures OneDone(w, FinalizeOne(w, m, n), mem, SlotPages(m, n))
    ensures m.page.Some? ==> FinalizeOne(w, m, n).pt == w.RemoveMigrationPtes(m.page.value, Target(m, n)).pt
    ensures m.page == None ==> FinalizeOne(w, m, n).pt == w.pt
  {
    hide World.Inv, LruHeld, World.RemoveMigrationPtes, PutBack, Release, Outside;
    var X := SlotPages(m, n);
    match (m.page, n.page) {
      case (None, None) => OutsideSelf(w, X);
      case (None, Some(q)) => ReleaseDst(w, mem, q, X);
      case (Some(p), None) => RestoreDone(w, mem, p, X);
    }
  }

  lemma PairDone(w: World, mem: Mem, m: Mpfn, n: Mpfn, p: Pid, q: Pid)
    requires w.Inv(mem) && LruHeld(w.pages) && m.page == Some(p) && n.page == Some(q) && p != q
    requires w.Live(p) && w.pages[p].lock.SrcSlot? && w.Live(q) && w.pages[q].lock.DstSlot?
    requires Finalizable(w, m, n)
    ensures OneDone(w, FinalizeOne(w, m, n), mem, SlotPages(m, n))
    ensures FinalizeOne(w, m, n).pt == w.RemoveMigrationPtes(p, Target(m, n)).pt
  {
    hide World.Inv, LruHeld, World.RemoveMigrationPtes, ReplaceBoth, DropAndRestore, OneDone;
    assert SlotPages(m, n) == {p, q};
    if m.migrate { ReplaceBothDone(w, mem, p, q); } else { DropAndRestoreDone(w, mem, p, q); }
  }

  lemma SlotHolds(w: World, s: seq<Mpfn>, d: seq<Mpfn>, i: nat)
    requires Slots(w, s, d) && i < |s|
    ensures s[i].page.Some? ==> HoldsLock(w, s[i].page.value, SrcSlot(i))
    ensures d[i].page.Some? ==> HoldsLock(w, d[i].page.value, DstSlot(i)) && d[i].page != s[i].page
  {}

  lemma OutsideSelf(w: World, X: set<Pid>)
    ensures Outside(w, w, X)
  {}

  lemma ViewOfPt(w: World, w': World, m: Mpfn, n: Mpfn)
    requires m.page.Some? ==> Target(m, n) in w.pages && w'.pt == w.RemoveMigrationPtes(m.page.value, Target(m, n)).pt
    requires m.page == None ==> w'.pt == w.pt
    ensures SlotView(w, w', m, n)
  {}

  lemma SlotsClear(w: World, w': World, mem: Mem, s: seq<Mpfn>, d: seq<Mpfn>, i: nat)
    requires Slots(w, s, d) && LruHeld(w.pages) && i < |s|
    requires OneDone(w, w', mem, SlotPages(s[i], d[i]))
    ensures Slots(w', s[i := EMPTY], d[i := EMPTY]) && LruHeld(w'.pages)
  {
    forall p | p in w'.pages {
      ClearPage(w, w', mem, s, d, i, p);
    }
    forall j | 0 <= j < |s| && j != i {
      ClearSlot(w, w', mem, s, d, i, j);
    }
    hide OneDone, World.Inv;
  }

  lemma ClearPage(w: World, w': World, mem: Mem, s: seq<Mpfn>, d: seq<Mpfn>, i: nat, p: Pid)
    requires Slots(w, s, d) && LruHeld(w.pages) && i < |s| && p in w'.pages
    requires OneDone(w, w', mem, SlotPages(s[i], d[i]))
    ensures w'.pages[p].lock.Ours() ==> SlotOf(w'.pages[p].lock, p, s[i := EMPTY], d[i := EMPTY])
    ensures w'.pages[p].lru == Isolated ==> w'.pages[p].lock.SrcSlot? && w'.pages[p].kind.System?
  {
    hide World.Inv;
    assert p in w.pages && SameBits(w.pages[p], w'.pages[p]);
    if p !in SlotPages(s[i], d[i]) {
      assert OutsideAt(w, w', p);
      if w.pages[p].lock.Ours() {
        assert SlotOf(w.pages[p].lock, p, s, d);
      }
    }
  }

  lemma ClearSlot(w: World, w': World, mem: Mem, s: seq<Mpfn>, d: seq<Mpfn>, i: nat, j: nat)
    requires Slots(w, s, d) && i < |s| && j < |s| && j != i
    requires OneDone(w, w', mem, SlotPages(s[i], d[i]))
    ensures s[j].page.Some? ==> HoldsLock(w', s[j].page.value, SrcSlot(j))
    ensures d[j].page.Some? ==> HoldsLock(w', d[j].page.value, DstSlot(j))
  {
    hide World.Inv;
    SlotHolds(w, s, d, i);
    SlotHolds(w, s, d, j);
    if s[j].page.Some? { assert OutsideAt(w, w', s[j].page.value); }
    if d[j].page.Some? { assert OutsideAt(w, w', d[j].page.value); }
  }

  lemma FinalizableStays(w: World, w': World, mem: Mem, s: seq<Mpfn>, d: seq<Mpfn>, i: nat)
    requires Slots(w, s, d) && AllFinalizable(w, s, d) && i < |s|
    requires Outside(w, w', SlotPages(s[i], d[i]))
    ensures AllFinalizable(w', s[i := EMPTY], d[i := EMPTY])
  {
    forall j | 0 <= j < |d| && j != i ensures Finalizable(w', s[j], d[j]) {
      assert Finalizable(w, s[j], d[j]);
      SlotHolds(w, s, d, i);
      SlotHolds(w, s, d, j);
      if s[j].page.Some? {
        assert OutsideAt(w, w', s[j].page.value);
        DataSame(w, w', s[j].page.value);
      }
      if d[j].page.Some? {
        assert OutsideAt(w, w', d[j].page.value);
        DataSame(w, w', d[j].page.value);
      }
    }
  }

  lemma FrameSame(w: World, w': World, p: Pid, write: bool, e: Entry)
    requires w.FrameOk(p, write, e) && SameStorage(w.pages, w'.pages)
    ensures w'.FrameOk(p, write, e)
  {
    assert SameBits(w.pages[p], w'.pages[p]);
  }

  lemma FinOkStays(w: World, w': World, mem: Mem, s: seq<Mpfn>, d: seq<Mpfn>, i: nat, a: Addr, e: Entry)
    requires w.Inv(mem) && Slots(w, s, d) && i < |s| && FinOk(w, s, d, a, e)
    requires Outside(w, w', SlotPages(s[i], d[i])) && SlotView(w, w', s[i], d[i])
    ensures FinOk(w', s[i := EMPTY], d[i := EMPTY], a, e)
  {
    var pte := w.At(a);
    if pte.Refers() { assert PteOk(w.pt[a], w.pages); }
    hide World.Inv;
    if pte.Migration? {
      assert SlotOf(w.pages[pte.page].lock, pte.page, s, d);
      if w.pages[pte.page].lock.i == i {
        FinOkOwn(w, w', s, d, i, a, e);
      } else {
        FinOkOther(w, w', s, d, i, w.pages[pte.page].lock.i, a, e);
      }
    } else if pte.Refers() {
      FrameSame(w, w', pte.page, pte.write, e);
    }
  }

  lemma FinOkOwn(w: World, w': World, s: seq<Mpfn>, d: seq<Mpfn>, i: nat, a: Addr, e: Entry)
    requires Slots(w, s, d) && i < |s| && FinOk(w, s, d, a, e)
    requires Outside(w, w', SlotPages(s[i], d[i])) && SlotView(w, w', s[i], d[i])
    requires w.At(a).Migration? && HoldsLock(w, w.At(a).page, SrcSlot(i)) && s[i].page == Some(w.At(a).page)
    ensures FinOk(w', s[i := EMPTY], d[i := EMPTY], a, e)
  {
    SlotHolds(w, s, d, i);
    hide Slots;
    var t := Target(s[i], d[i]);
    assert w'.At(a) == w.MapTo(t, w.At(a).write);
    assert SameBits(w.pages[t], w'.pages[t]);
    FrameSame(w, w', t, w.At(a).write, e);
  }

  lemma FinOkOther(w: World, w': World, s: seq<Mpfn>, d: seq<Mpfn>, i: nat, j: nat, a: Addr, e: Entry)
    requires Slots(w, s, d) && i < |s| && j < |s| && j != i && FinOk(w, s, d, a, e)
    requires Outside(w, w', SlotPages(s[i], d[i])) && SlotView(w, w', s[i], d[i])
    requires w.At(a).Migration? && HoldsLock(w, w.At(a).page, SrcSlot(j)) && s[j].page == Some(w.At(a).page)
    ensures FinOk(w', s[i := EMPTY], d[i := EMPTY], a, e)
  {
    SlotHolds(w, s, d, i);
    SlotHolds(w, s, d, j);
    hide Slots;
    assert OutsideAt(w, w', w.At(a).page);
    assert w'.At(a) == w.At(a);
    FrameSame(w, w', if Success(s[j], d[j]) then d[j].page.value else w.At(a).page, w.At(a).write, e);
  }

  lemma FinalizeStep(w: World, mem: Mem, s: seq<Mpfn>, d: seq<Mpfn>, i: nat)
    requires FinState(w, mem, s, d) && i < |s|
    ensures s[i].page.Some? ==> w.Live(s[i].page.value)
    ensures d[i].page.Some? ==> w.Live(d[i].page.value) && d[i].page != s[i].page
    ensures FinState(FinalizeOne(w, s[i], d[i]), mem, s[i := EMPTY], d[i := EMPTY])
    ensures SlotView(w, FinalizeOne(w, s[i], d[i]), s[i], d[i])
    ensures FinalizeOne(w, s[i], d[i]).mirror == w.mirror && SameStorage(w.pages, FinalizeOne(w, s[i], d[i]).pages)
  {
    assert Finalizable(w, s[i], d[i]);
    FinalizeOneDone(w, mem, s, d, i);
    var w' := FinalizeOne(w, s[i], d[i]);
    hide FinalizeOne, World.Inv, Slots, LruHeld, AllFinalizable, SlotView, World.RemoveMigrationPtes;
    ViewOfPt(w, w', s[i], d[i]);
    SlotsClear(w, w', mem, s, d, i);
    FinalizableStays(w, w', mem, s, d, i);
    forall a | a in w'.mirror ensures FinOk(w', s[i := EMPTY], d[i := EMPTY], a, w'.mirror[a]) {
      assert FinOk(w, s, d, a, w.mirror[a]);
      FinOkStays(w, w', mem, s, d, i, a, w.mirror[a]);
    }
  }

  // ----- the loop

  // The slots the loop has not reached; the others are done with
  function Rest(s: seq<Mpfn>, k: nat): (r: seq<Mpfn>)
    ensures |r| == |s|
  {
    seq(|s|, i requires 0 <= i < |s| => if i < k then EMPTY else s[i])
  }

  lemma RestStep(s: seq<Mpfn>, k: nat)
    requires k < |s|
    ensures Rest(s, k)[k] == s[k] && Rest(s, k + 1) == Rest(s, k)[k := EMPTY]
  {}

  // The page table after finalize, given the one before: a migration entry of slot i maps the new
  // page if the slot succeeded and the old page if not, with the permission it had; all other
  // entries are untouched.
  ghost predicate Finalized(w: World, w': World, s: seq<Mpfn>, d: seq<Mpfn>, k: nat) {
    |s| == |d| && forall a: Addr :: w'.At(a) == FinalPte(w, s, d, k, w.At(a))
  }

  function FinalPte(w: World, s: seq<Mpfn>, d: seq<Mpfn>, k: nat, e: Pte): Pte
    requires |s| == |d|
  {
    if e.Migration? && e.page in w.pages && w.pages[e.page].lock.SrcSlot? then
      var i := w.pages[e.page].lock.i;
      if i < k && i < |s| && s[i].On(e.page) then w.MapTo(Target(s[i], d[i]), e.write) else e
    else e
  }

  lemma FinalizedStep(w: World, w1: World, w2: World, s: seq<Mpfn>, d: seq<Mpfn>, k: nat)
    requires Finalized(w, w1, s, d, k) && k < |s| && SlotView(w1, w2, s[k], d[k])
    requires SameStorage(w.pages, w1.pages)
    requires s[k].page.Some? ==> HoldsLock(w, s[k].page.value, SrcSlot(k))
    ensures Finalized(w, w2, s, d, k + 1)
  {
    forall a: Addr ensures w2.At(a) == FinalPte(w, s, d, k + 1, w.At(a)) {
      assert w1.At(a) == FinalPte(w, s, d, k, w.At(a));
      if s[k].page.Some? {
        var t := Target(s[k], d[k]);
        assert t in w.pages ==> SameBits(w.pages[t], w1.pages[t]);
      }
    }
  }

  lemma PutBackInSteps(w: World, p: Pid)
    requires w.Live(p) && w.pages[p].kind.System?
    ensures w.SetLock(p, Unlocked).SetLru(p, OnLru).PutPage(p) == PutBack(w, p)
  {
    assert w.SetLock(p, Unlocked).SetLru(p, OnLru) == w.SetLru(p, OnLru).SetLock(p, Unlocked);
  }

  // folio_unlock, then put_page or putback_lru_page
  method UnlockAndPut(m: Machine, p: Pid)
    requires m.w.Live(p)
    modifies m`w
    ensures m.w == PutBack(old(m.w), p)
  {
    if m.w.pages[p].kind.System? { PutBackInSteps(m.w, p); }
    m.w := m.w.SetLock(p, Unlocked);
    if m.w.pages[p].kind.Device? {
      m.w := m.w.PutPage(p);
    } else {
      m.w := m.w.SetLru(p, OnLru).PutPage(p);
    }
  }

  // Every put_page of the turn finds a live page
  predicate PutsAllowed(w: World, m: Mpfn, n: Mpfn) {
    && (m.page.Some? ==> w.Live(m.page.value))
    && (n.page.Some? ==> w.Live(n.page.value) && n.page != m.page)
    && (m.page.Some? && n.page.Some? ==>
          if m.migrate then PutBack(w.RemoveMigrationPtes(m.page.value, n.page.value), m.page.value).Live(n.page.value)
          else Release(w, n.page.value).Live(m.page.value))
  }

  lemma FinalizePins(w: World, mem: Mem, m: Mpfn, n: Mpfn)
    requires w.Inv(mem) && LruHeld(w.pages) && PutsAllowed(w, m, n) && Finalizable(w, m, n)
    requires m.page.Some? ==> w.pages[m.page.value].lock.SrcSlot?
    requires n.page.Some? ==> w.pages[n.page.value].lock.DstSlot?
    ensures PinsKept(w, FinalizeOne(w, m, n)) && Ended(w, FinalizeOne(w, m, n))
  {
    FrozenLru(w, m, n);
    hide World.Inv, PutBack, Release, World.RemoveMigrationPtes, PinsKept, Outside, LruHeld, Ended;
    match (m.page, n.page) {
      case (None, None) => PinsSelf(w);
      case (None, Some(q)) => ReleaseOnePins(w, mem, q);
      case (Some(p), None) => RestoreOnePins(w, mem, p);
      case (Some(p), Some(q)) =>
        if m.migrate { ReplacePins(w, mem, p, q); } else { DropPins(w, mem, p, q); }
    }
  }

  lemma FrozenLru(w: World, m: Mpfn, n: Mpfn)
    requires Finalizable(w, m, n) && LruHeld(w.pages)
    ensures m.page.Some? ==>
      m.page.value in w.pages && (w.pages[m.page.value].kind.System? <==> w.pages[m.page.value].lru == Isolated)
  {}

  lemma PinsSelf(w: World)
    ensures PinsKept(w, w) && Ended(w, w)
  {}

  lemma ReleaseOnePins(w: World, mem: Mem, q: Pid)
    requires w.Inv(mem) && w.Live(q) && w.pages[q].lock.Ours()
    ensures PinsKept(w, Release(w, q)) && Ended(w, Release(w, q))
  {
    BackingStays(w, mem, q);
    ReleasePins(w, q);
    ReleaseEnds(w, q);
  }

  lemma RestoreOnePins(w: World, mem: Mem, p: Pid)
    requires w.Inv(mem) && w.Live(p) && w.pages[p].lock.SrcSlot?
    requires w.pages[p].kind.System? ==> w.pages[p].lru == Isolated
    ensures w.RemoveMigrationPtes(p, p).Live(p)
    ensures var w' := PutBack(w.RemoveMigrationPtes(p, p), p); PinsKept(w, w') && Ended(w, w')
  {
    BackingStays(w, mem, p);
    RemoveFrame(w, p);
    RemovePins(w, p, p);
    RemoveKeeps(w, mem, p, p);
    hide World.Inv, PinsKept, PutBack, Ended;
    RemoveEnds(w, p, p);
    var w1 := w.RemoveMigrationPtes(p, p);
    assert w1.pages[p].lock == w.pages[p].lock;
    hide World.RemoveMigrationPtes;
    PutBackPins(w1, p);
    PinsTrans(w, w1, PutBack(w1, p));
    PutBackEnds(w1, mem, p);
    EndedTrans(w, w1, PutBack(w1, p));
  }

  lemma DropPins(w: World, mem: Mem, p: Pid, q: Pid)
    requires w.Inv(mem) && LruHeld(w.pages) && w.Live(p) && w.Live(q) && p != q && Release(w, q).Live(p)
    requires w.pages[p].lock.SrcSlot? && w.pages[q].lock.DstSlot?
    requires w.pages[p].kind.System? ==> w.pages[p].lru == Isolated
    ensures PinsKept(w, DropAndRestore(w, p, q)) && Ended(w, DropAndRestore(w, p, q))
  {
    hide World.Inv, PutBack, Release, World.RemoveMigrationPtes, PinsKept, Outside, LruHeld, Ended;
    ReleaseOnePins(w, mem, q);
    ReleaseDst(w, mem, q, {q});
    assert OutsideAt(w, Release(w, q), p);
    RestoreOnePins(Release(w, q), mem, p);
    PinsTrans(w, Release(w, q), DropAndRestore(w, p, q));
    EndedTrans(w, Release(w, q), DropAndRestore(w, p, q));
  }

  lemma ReplacePins(w: World, mem: Mem, p: Pid, q: Pid)
    requires w.Inv(mem) && w.Live(p) && w.Live(q) && p != q && w.pages[p].lock.SrcSlot? && w.pages[q].lock.DstSlot?
    requires w.Mappers(q) == {} && w.Data(q) == w.Data(p)
    requires w.pages[p].kind.System? <==> w.pages[p].lru == Isolated
    requires PutBack(w.RemoveMigrationPtes(p, q), p).Live(q)
    ensures PinsKept(w, ReplaceBoth(w, p, q)) && Ended(w, ReplaceBoth(w, p, q))
  {
    hide World.Inv, PutBack, PinsKept, Outside, LruHeld, Ended;
    var w1 := w.RemoveMigrationPtes(p, q);
    RemovePins(w, p, q);
    RemoveKeeps(w, mem, p, q);
    RemoveMigAddrs(w, p, q);
    RemoveEnds(w, p, q);
    assert w1.pages[p] == w.pages[p] && w1.pages[q] == w.pages[q].(refs := w1.pages[q].refs);
    hide World.RemoveMigrationPtes, World.Mappers;
    BackingStays(w1, mem, p);
    PutBackPins(w1, p);
    PutBackInv(w1, mem, p);
    PutBackFrame(w1, mem, p, {p});
    var w2 := PutBack(w1, p);
    assert OutsideAt(w1, w2, q);
    BackingStays(w2, mem, q);
    PutBackPins(w2, q);
    PinsTrans(w, w1, w2);
    PinsTrans(w, w2, PutBack(w2, q));
    PutBackEnds(w1, mem, p);
    PutBackEnds(w2, mem, q);
    EndedTrans(w, w1, w2);
    EndedTrans(w, w2, PutBack(w2, q));
  }

  // One turn of the loop
  method FinalizeSlot(m: Machine, n: Mpfn, n': Mpfn)
    requires PutsAllowed(m.w, n, n')
    modifies m`w
    ensures m.w == FinalizeOne(old(m.w), n, n')
  {
    if n.page == None {
      if n'.page.Some? {
        m.w := m.w.SetLock(n'.page.value, Unlocked);
        m.w := m.w.PutPage(n'.page.value);
      }
      return;
    }
    var page := n.page.value;
    var newpage := page;
    if n'.page.Some? {
      newpage := n'.page.value;
    }
    if !n.migrate || n'.page == None {
      if n'.page.Some? {
        m.w := m.w.SetLock(newpage, Unlocked);
        m.w := m.w.PutPage(newpage);
      }
      newpage := page;
    }
    hide PutBack;
    m.w := m.w.RemoveMigrationPtes(page, newpage);
    UnlockAndPut(m, page);
    if newpage != page {
      UnlockAndPut(m, newpage);
    }
  }

  // Both pages of a slot are still live when the source puts the second one.
  lemma PairLive(w: World, mem: Mem, s: seq<Mpfn>, d: seq<Mpfn>, i: nat)
    requires w.Inv(mem) && Slots(w, s, d) && LruHeld(w.pages) && i < |s| && Finalizable(w, s[i], d[i])
    requires s[i].page.Some? && d[i].page.Some?
    ensures var p, q := s[i].page.value, d[i].page.value;
            && w.Live(p) && w.Live(q) && p != q
            && (if s[i].migrate then w.RemoveMigrationPtes(p, q).Live(p)
            && PutBack(w.RemoveMigrationPtes(p, q), p).Live(q)
                else Release(w, q).Live(p))
  {
    SlotHolds(w, s, d, i);
    var p, q := s[i].page.value, d[i].page.value;
    hide Slots, World.Inv, PutBack, Release, Outside;
    HeldLive(w, mem, p);
    HeldLive(w, mem, q);
    if s[i].migrate {
      var w1 := w.RemoveMigrationPtes(p, q);
      RemoveKeeps(w, mem, p, q);
      RemoveMigAddrs(w, p, q);
      assert w1.pages[p] == w.pages[p];
      PutBackInv(w1, mem, p);
      PutBackFrame(w1, mem, p, {p});
      assert OutsideAt(w1, PutBack(w1, p), q);
      HeldLive(PutBack(w1, p), mem, q);
    } else {
      ReleaseDst(w, mem, q, {q});
      assert OutsideAt(w, Release(w, q), p);
    }
  }

  ghost predicate FinProgress(w0: World, w: World, mem: Mem, s: seq<Mpfn>, d: seq<Mpfn>, k: nat) {
    && |s| == |d| && FinState(w, mem, Rest(s, k), Rest(d, k))
    && Finalized(w0, w, s, d, k) && w.mirror == w0.mirror && SameStorage(w0.pages, w.pages) && PinsKept(w0, w)
    && Ended(w0, w)
    && (forall i {:trigger s[i]} | 0 <= i < |s| && s[i].page.Some? :: HoldsLock(w0, s[i].page.value, SrcSlot(i)))
  }

  lemma FinStart(w: World, mem: Mem, s: seq<Mpfn>, d: seq<Mpfn>)
    requires FinState(w, mem, s, d)
    ensures FinProgress(w, w, mem, s, d, 0)
  {
    EndedSelf(w);
    hide Ended;
    assert Rest(s, 0) == s && Rest(d, 0) == d;
  }

  lemma FinTurn(w0: World, w: World, mem: Mem, s: seq<Mpfn>, d: seq<Mpfn>, k: nat)
    requires FinProgress(w0, w, mem, s, d, k) && k < |s|
    ensures PutsAllowed(w, s[k], d[k])
    ensures FinProgress(w0, FinalizeOne(w, s[k], d[k]), mem, s, d, k + 1)
  {
    hide Ended, PinsKept;
    RestStep(s, k);
    RestStep(d, k);
    FinalizeStep(w, mem, Rest(s, k), Rest(d, k), k);
    assert Finalizable(w, Rest(s, k)[k], Rest(d, k)[k]);
    if s[k].page.Some? && d[k].page.Some? { PairLive(w, mem, Rest(s, k), Rest(d, k), k); }
    FinTurnPins(w0, w, mem, Rest(s, k), Rest(d, k), k);
    FinTurnRest(w0, w, FinalizeOne(w, s[k], d[k]), s, d, k);
  }

  lemma FinTurnPins(w0: World, w: World, mem: Mem, s: seq<Mpfn>, d: seq<Mpfn>, k: nat)
    requires FinState(w, mem, s, d) && k < |s| && PinsKept(w0, w) && Ended(w0, w) && PutsAllowed(w, s[k], d[k])
    ensures PinsKept(w0, FinalizeOne(w, s[k], d[k])) && Ended(w0, FinalizeOne(w, s[k], d[k]))
  {
    SlotHolds(w, s, d, k);
    assert Finalizable(w, s[k], d[k]);
    hide FinState, PutsAllowed, Finalizable, FinalizeOne, PinsKept, Ended;
    FinUnpack(w, mem, s, d);
    FinalizePins(w, mem, s[k], d[k]);
    PinsTrans(w0, w, FinalizeOne(w, s[k], d[k]));
    EndedTrans(w0, w, FinalizeOne(w, s[k], d[k]));
  }

  lemma FinUnpack(w: World, mem: Mem, s: seq<Mpfn>, d: seq<Mpfn>)
    requires FinState(w, mem, s, d)
    ensures w.Inv(mem) && LruHeld(w.pages)
  {}

  lemma FinTurnRest(w0: World, w: World, w': World, s: seq<Mpfn>, d: seq<Mpfn>, k: nat)
    requires k < |s| == |d| && Finalized(w0, w, s, d, k) && SameStorage(w0.pages, w.pages)
    requires SlotView(w, w', s[k], d[k]) && SameStorage(w.pages, w'.pages)
    requires s[k].page.Some? ==> HoldsLock(w0, s[k].page.value, SrcSlot(k))
    ensures Finalized(w0, w', s, d, k + 1) && SameStorage(w0.pages, w'.pages)
  {
    FinalizedStep(w0, w, w', s, d, k);
    forall p | p in w0.pages ensures SameBits(w0.pages[p], w'.pages[p]) {
      assert SameBits(w0.pages[p], w.pages[p]) && SameBits(w.pages[p], w'.pages[p]);
    }
  }

  // With every slot done no lock, no isolated page and no migration entry is left.
  lemma FinEnd(w0: World, w: World, mem: Mem, s: seq<Mpfn>, d: seq<Mpfn>)
    requires FinProgress(w0, w, mem, s, d, |s|)
    ensures Quiet(w, mem) && Finalized(w0, w, s, d, |s|) && w.mirror == w0.mirror && PinsKept(w0, w) && Ended(w0, w)
  {
    hide Ended, PinsKept;
    var s', d' := Rest(s, |s|), Rest(d, |d|);
    assert Rest(d, |s|) == d';
    forall p | p in w.pages ensures !w.pages[p].lock.Ours() && w.pages[p].lru != Isolated {
      assert w.pages[p].lock.Ours() ==> SlotOf(w.pages[p].lock, p, s', d');
    }
    forall a | a in w.mirror ensures w.EntryOk(a, w.mirror[a]) {
      assert FinOk(w, s', d', a, w.mirror[a]);
    }
  }

  method FinalizeTurn(m: Machine, ghost w0: World, n: Mpfn, n': Mpfn, ghost s: seq<Mpfn>, ghost d: seq<Mpfn>,
                      ghost k: nat)
    requires FinProgress(w0, m.w, m.mem, s, d, k) && k < |s| && n == s[k] && n' == d[k]
    modifies m`w
    ensures FinProgress(w0, m.w, m.mem, s, d, k + 1)
  {
    hide FinProgress, FinalizeOne;
    FinLength(w0, m.w, m.mem, s, d, k);
    FinTurn(w0, m.w, m.mem, s, d, k);
    FinalizeSlot(m, n, n');
  }

  lemma FinLength(w0: World, w: World, mem: Mem, s: seq<Mpfn>, d: seq<Mpfn>, k: nat)
    requires FinProgress(w0, w, mem, s, d, k)
    ensures |s| == |d|
  {}

  method MigrateDeviceFinalize(m: Machine, src: array<Mpfn>, dst: array<Mpfn>, npages: nat)
    requires npages <= src.Length && npages <= dst.Length
    requires FinState(m.w, m.mem, src[..npages], dst[..npages])
    modifies m`w
    ensures Quiet(m.w, m.mem)
    ensures Finalized(old(m.w), m.w, src[..npages], dst[..npages], npages)
    ensures m.w.mirror == old(m.w.mirror) && PinsKept(old(m.w), m.w) && Ended(old(m.w), m.w)
  {
    hide Ended, FinState, FinProgress, FinalizeOne, World.RemoveMigrationPtes, PutBack, Release, Quiet, Finalized,
         PinsKept;
    ghost var w0, s, d := m.w, src[..npages], dst[..npages];
    FinStart(w0, m.mem, s, d);
    var i := 0;
    while i < npages
      invariant 0 <= i <= npages && FinProgress(w0, m.w, m.mem, s, d, i)
    {
      FinalizeTurn(m, w0, src[i], dst[i], s, d, i);
      i := i + 1;
    }
    FinEnd(w0, m.w, m.mem, s, d);
  }
}
