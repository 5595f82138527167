/**
  hmm.c: migrations that the kernel starts.  dmirror_devmem_fault brings back a page that the CPU
  touched; dmirror_device_evict_chunk empties a range of device memory.
*/
module DeviceCommands {
  import opened Kernel
  import opened KernelSteps
  import opened Txn
  import opened Accounts
  import opened PageRefs
  import opened MachineState
  import opened MigrateCollect
  import opened MigrateUnmap
  import opened MigrateFinalize
  import opened MigratePages
  import opened MigrateSetup
  import opened Driver
  import opened Outcome
  import opened Environment
  import opened Exactness
  import opened SlotResults
  import opened Conservation
  import opened Commands

  // ----- the reference a CPU fault holds on the device page

  lemma FaultPin(w: World, mem: Mem, p: Pid)
    requires Quiet(w, mem) && LiveDevice(p, w.pages)
    ensures Quiet(AddPin(w, p), mem)
  {
    DeviceNotBacking(w, mem, p);
    AddPinKeeps(w, mem, p);
    SamePagesQuiet(w, AddPin(w, p), p);
  }

  // Pages that only change their books keep the mirror coherent
  lemma SamePagesQuiet(w: World, w': World, p: Pid)
    requires w.MirrorOk() && w'.pt == w.pt && w'.mirror == w.mirror && SameStorage(w.pages, w'.pages)
    ensures w'.MirrorOk()
  {
    forall a | a in w'.mirror ensures w'.EntryOk(a, w'.mirror[a]) {
      assert w.EntryOk(a, w.mirror[a]);
      if w.At(a).Refers() && w.At(a).page in w.pages { assert SameBits(w.pages[w.At(a).page], w'.pages[w.At(a).page]); }
    }
  }

  lemma PutPinnedKeeps(w: World, mem: Mem, p: Pid)
    requires Quiet(w, mem) && p in w.pages && w.pages[p].kind.Device? && w.pages[p].pins > 0
    ensures w.Live(p) && Quiet(PutPinned(w, p), mem) && PutPinned(w, p).pt == w.pt && PutPinned(w, p).mirror == w.mirror
  {
    PutPinnedInv(w, mem, p);
    PutPinnedFrame(w, mem, p);
    SamePagesQuiet(w, PutPinned(w, p), p);
  }

  lemma PinBack(w: World, p: Pid)
    requires w.Live(p)
    ensures PutPinned(AddPin(w, p), p) == w
  {
    SetTwice(w, p, AddPin(w, p).pages[p], w.pages[p]);
    assert w.pages[p := w.pages[p]] == w.pages;
  }

  ghost predicate NoneHeld(pages: map<Pid, Page>) {
    forall q | q in pages :: !pages[q].lock.Ours() && pages[q].lru != Isolated
  }

  lemma PutPinnedFrame(w: World, mem: Mem, p: Pid)
    requires Quiet(w, mem) && w.Live(p) && w.pages[p].kind.Device? && w.pages[p].pins > 0
    ensures var w' := PutPinned(w, p);
            w'.pt == w.pt && w'.mirror == w.mirror && SameStorage(w.pages, w'.pages) && NoneHeld(w'.pages)
  {
    assert LiveDevice(p, w.pages) && BackingOk(p, w.pages);
    assert NoneHeld(w.pages);
    hide World.Inv, World.MirrorOk, Quiet, NoneHeld, SameStorage, Release;
    var g := w.pages[p].(pins := w.pages[p].pins - 1);
    if w.pages[p].refs == 1 {
      SetFrame(w, p, g);
      ReleaseHeld(w.SetPage(p, g), p);
      StorageTrans(w.pages, w.SetPage(p, g).pages, PutPinned(w, p).pages);
    } else {
      SetFrame(w, p, g.(refs := g.refs - 1));
    }
  }

  lemma SetFrame(w: World, p: Pid, g: Page)
    requires p in w.pages && SameBits(w.pages[p], g) && g.lock == w.pages[p].lock && g.lru == w.pages[p].lru
    requires NoneHeld(w.pages)
    ensures SameStorage(w.pages, w.SetPage(p, g).pages) && NoneHeld(w.SetPage(p, g).pages)
  {}

  lemma ReleaseHeld(w: World, p: Pid)
    requires w.Live(p) && (w.pages[p].kind.Device? ==> BackingOk(p, w.pages)) && NoneHeld(w.pages)
    ensures var w' := Release(w, p);
            w'.pt == w.pt && w'.mirror == w.mirror && SameStorage(w.pages, w'.pages) && NoneHeld(w'.pages)
  {
    ReleaseFrame(w, p);
    hide Release;
  }

  lemma StorageTrans(a: map<Pid, Page>, b: map<Pid, Page>, c: map<Pid, Page>)
    requires SameStorage(a, b) && SameStorage(b, c)
    ensures SameStorage(a, c)
  {
    forall p | p in a ensures SameBits(a[p], c[p]) { assert SameBits(a[p], b[p]) && SameBits(b[p], c[p]); }
  }

  lemma DevicePte(w: World, mem: Mem, a: Addr)
    requires Quiet(w, mem) && w.At(a).DevicePrivate?
    ensures LiveDevice(w.At(a).page, w.pages)
  {
    assert PteOk(w.pt[a], w.pages);
    MappedLive(w, a);
  }

  // ----- dmirror_devmem_fault, from do_swap_page

  // false stands for VM_FAULT_SIGBUS
  method CpuFault(m: Machine, a: Addr, vma: Vma, owner: nat, fate: ChunkFate) returns (ok: bool, ghost moves: map<Pid,
                  Pid>)
    requires Quiet(m.w, m.mem) && m.Recorded() && m.w.At(a).DevicePrivate?
    modifies m
    ensures Quiet(m.w, m.mem) && m.Recorded() && old(m.history) <= m.history
    ensures Ledger(old(m.w), old(m.history), m.w, m.history)
    ensures (ok <==> ArgsOk(vma, a, a + 1)) && (!ok ==> m.w == old(m.w) && m.history == old(m.history))
    ensures ok && fate.Undisturbed() ==>
      && m.history == old(m.history)
      && AllOrNothing(old(m.w), m.w, moves, Some(Place(a, vma)), 1)
      && moves.Keys <= {old(m.w.At(a)).page} && (m.w.At(a).Present? <==> old(m.w.At(a)).page in moves)
      && (m.w.At(a).Present? <==> FaultMoves(old(m.w), a, owner, fate))
      && m.w.At(a) == (if FaultMoves(old(m.w), a, owner, fate) then Present(fate.source(0).value.q, old(m.w.At(a)).write)
                       else old(m.w.At(a)))
      && (FaultCopies(old(m.w), a, owner, fate) ==> a !in m.w.mirror)
      && BooksExact(old(m.w), m.w, moves)
  {
    hide Quiet, AllOrNothing, World.Inv, LiveDevice, SystemMove, SystemSlots, Moves, JobExact, FaultMoves,
         FaultCopies, Ledger, SlotsEnd, BooksExact, PutPinned;
    var p := m.w.At(a).page;
    DevicePte(m.w, m.mem, a);
    FaultPin(m.w, m.mem, p);
    LivePage(m.w, p);
    ghost var w0, h0, mem0 := m.w, m.history, m.mem;
    m.w := AddPin(m.w, p);
    ghost var w1 := m.w;
    var src, dst := new Mpfn[1](_ => EMPTY), new Mpfn[1](_ => EMPTY);
    var cpages;
    ok, cpages := ChunkToSystem(m, vma, a, a + 1, owner, Some(p), src, dst, fate);
    ghost var w2, mem2 := m.w, m.mem;
    assert PinKept(w1, w2, p);
    PutPinnedKeeps(m.w, m.mem, p);
    m.w := PutPinned(m.w, p);
    FaultLedger(w0, w1, w2, m.w, mem0, mem2, h0, m.history, p);
    moves := Moves(src[..1], dst[..1]);
    PinBack(w0, p);
    if ok && fate.Undisturbed() {
      SamePt(w0, w1, w2, m.w, moves, Some(Place(a, vma)), 1);
      OneMoved(w1, w2, moves, a, p);
      FaultBooks(w0, w1, w2, m.w, mem0, mem2, moves, p);
      FaultExact(w0, w1, w2, a, p, vma, owner, fate, src[..1], dst[..1]);
      FaultEntry(w0, m.w, moves, a, vma);
    }
  }

  lemma FaultEntry(w0: World, w: World, moves: map<Pid, Pid>, a: Addr, vma: Vma)
    requires AllOrNothing(w0, w, moves, Some(Place(a, vma)), 1) && w0.At(a).DevicePrivate?
    requires w.At(a).Present? <==> w0.At(a).page in moves
    ensures w.At(a) == if w0.At(a).page in moves then Present(moves[w0.At(a).page], w0.At(a).write) else w0.At(a)
  {
    assert PteMoved(moves, Some(Place(a, vma)), 1, a, w0.At(a), w.At(a));
  }

  // The reference that the fault took is the one it drops.
  lemma FaultLedger(w0: World, w1: World, w2: World, w3: World, mem0: Mem, mem2: Mem, h0: seq<Event>, h: seq<Event>,
                    p: Pid)
    requires Quiet(w0, mem0) && p in w0.pages && w0.pages[p].kind.Device? && w0.Live(p) && w1 == AddPin(w0, p)
    requires Ledger(w1, h0, w2, h) && Quiet(w2, mem2) && p in w2.pages && w2.pages[p].kind.Device?
    requires w2.pages[p].pins > 0
    requires w2.Live(p) && w3 == PutPinned(w2, p)
    ensures Ledger(w0, h0, w3, h)
  {
    QuietParts(w2, mem2);
    hide Quiet, World.Inv, OutsidePins, NotBacking, AddPin, PutPinned;
    PinUp(w0, mem0, p);
    PinDown(w2, mem2, p);
  }

  lemma PinUp(w: World, mem: Mem, p: Pid)
    requires Quiet(w, mem) && w.Live(p) && w.pages[p].kind.Device?
    ensures var w' := AddPin(w, p);
            && w'.pages.Keys == w.pages.Keys
            && forall r | r in w.pages :: OutsidePins(w'.pages, r) == OutsidePins(w.pages, r) + if r == p then 1 else 0
  {
    DeviceNotBacking(w, mem, p);
    hide Quiet, NotBacking;
    var w' := AddPin(w, p);
    forall d ensures (LiveDevice(d, w'.pages) <==> LiveDevice(d, w.pages))
                     && (LiveDevice(d, w.pages) ==> w'.pages[d].backing == w.pages[d].backing) {}
    PinsShift(w, w', p, 1);
  }

  // With the fault's reference gone a page that moved is free, and every other page is as before.
  lemma FaultBooks(w0: World, w1: World, w2: World, w3: World, mem0: Mem, mem2: Mem, moves: map<Pid, Pid>, p: Pid)
    requires Quiet(w0, mem0) && p in w0.pages && w0.pages[p].kind.Device? && w0.Live(p) && w1 == AddPin(w0, p)
    requires BooksExact(w1, w2, moves) && Quiet(w2, mem2) && p in w2.pages && w2.pages[p].kind.Device?
    requires w2.pages[p].pins > 0
    requires w2.Live(p) && w3 == PutPinned(w2, p) && moves.Keys <= {p}
    ensures BooksExact(w0, w3, moves)
  {
    DeviceNotBacking(w0, mem0, p);
    hide Quiet, NotBacking, PutPinned, World.Mappers, HandedOver, AddPin, Known;
    PinnedKnown(w0, w1, p);
    UsedKnown(w0, p);
    BooksAt(w1, w2, moves, p);
    forall r | Known(w0, r) ensures BookedAt(w0, w3, moves, r) {
      BooksAt(w1, w2, moves, r);
      if r == p {
        FaultOwn(w0, w1, w2, w3, mem0, mem2, moves, p);
      } else {
        KnownApart(w1, p, r);
        FaultOther(w0, w1, w2, w3, mem2, moves, p, r);
      }
    }
    BooksKeys(w1, w2, moves);
    PutFrame(w2, mem2, p);
    AddPinKeys(w0, p);
  }

  lemma AddPinKeys(w: World, p: Pid)
    requires p in w.pages
    ensures AddPin(w, p).pages.Keys == w.pages.Keys
  {}

  lemma UsedKnown(w: World, p: Pid)
    requires w.Live(p) && NotBacking(p, w.pages)
    ensures Known(w, p)
  {}

  lemma BooksAt(w: World, w': World, moves: map<Pid, Pid>, p: Pid)
    requires BooksExact(w, w', moves) && Known(w, p)
    ensures BookedAt(w, w', moves, p)
  {}

  lemma BooksKeys(w: World, w': World, moves: map<Pid, Pid>)
    requires BooksExact(w, w', moves)
    ensures w'.pages.Keys == w.pages.Keys
  {}

  lemma KnownApart(w: World, p: Pid, r: Pid)
    requires Known(w, p) && Known(w, r) && w.pages[p].kind.Device?
    ensures w.pages[p].backing != r
  {
    assert LiveDevice(p, w.pages);
  }

  // The faulting page itself
  lemma FaultOwn(w0: World, w1: World, w2: World, w3: World, mem0: Mem, mem2: Mem, moves: map<Pid, Pid>, p: Pid)
    requires p in w0.pages && w0.pages[p].kind.Device? && w0.Live(p) && w1 == AddPin(w0, p)
    requires BookedAt(w1, w2, moves, p)
    requires Quiet(w2, mem2) && p in w2.pages && w2.pages[p].kind.Device? && w2.pages[p].pins > 0 && w2.Live(p)
    requires w3 == PutPinned(w2, p)
    ensures BookedAt(w0, w3, moves, p)
  {
    hide Quiet, PutPinned, HandedOver, World.Mappers;
    PutFrame(w2, mem2, p);
    if p in moves {
      BackingKnown(w2, mem2, p);
      FaultHanded(w0, w1, w2, w3, p, moves[p]);
    } else {
      AddPinPage(w0, p);
    }
  }

  lemma AddPinPage(w: World, p: Pid)
    requires p in w.pages
    ensures AddPin(w, p).pages[p] == w.pages[p].(refs := w.pages[p].refs + 1, pins := w.pages[p].pins + 1)
  {}

  lemma BackingKnown(w: World, mem: Mem, p: Pid)
    requires Quiet(w, mem) && w.Live(p) && w.pages[p].kind.Device?
    ensures BackingOk(p, w.pages)
  {
    assert LiveDevice(p, w.pages);
  }

  lemma FaultHanded(w0: World, w1: World, w2: World, w3: World, p: Pid, q: Pid)
    requires p in w0.pages && w1 == AddPin(w0, p) && p in w2.pages && p in w3.pages && w2.pages[p].pins > 0
    requires HandedOver(w1, w2, p, q) && BackingOk(p, w2.pages)
    requires w3.pages.Keys == w2.pages.Keys
    requires w3.pages[p].refs == w2.pages[p].refs - 1 && w3.pages[p].mapping == w2.pages[p].mapping
    requires w3.pages[p].backing == w2.pages[p].backing
    requires forall r | r in w2.pages && r != p && r != w2.pages[p].backing :: w3.pages[r] == w2.pages[r]
    ensures HandedOver(w0, w3, p, q)
  {
    AddPinPage(w0, p);
    MappersOfPt(w0, w1);
    hide World.Mappers;
  }

  lemma FaultOther(w0: World, w1: World, w2: World, w3: World, mem2: Mem, moves: map<Pid, Pid>, p: Pid, r: Pid)
    requires p in w0.pages && w1 == AddPin(w0, p) && BookedAt(w1, w2, moves, r) && BookedAt(w1, w2, moves, p)
    requires r != p && moves.Keys <= {p} && w1.pages[p].backing != r
    requires Quiet(w2, mem2) && w2.Live(p) && w2.pages[p].kind.Device? && w2.pages[p].pins > 0 && w3 == PutPinned(w2, p)
    ensures BookedAt(w0, w3, moves, r)
  {
    PutFrame(w2, mem2, p);
    hide Quiet, PutPinned;
  }

  lemma PinnedKnown(w: World, w': World, p: Pid)
    requires p in w.pages && w.Live(p) && w' == AddPin(w, p)
    ensures forall r :: Known(w', r) <==> Known(w, r)
  {
    forall d ensures (LiveDevice(d, w'.pages) <==> LiveDevice(d, w.pages))
                     && (LiveDevice(d, w.pages) ==> w'.pages[d].backing == w.pages[d].backing) {}
    hide NotBacking;
    forall r ensures Known(w', r) <==> Known(w, r) { SameBacking(w.pages, w'.pages, r); }
  }

  lemma UnheldOk(w: World, mem: Mem, p: Pid)
    requires Quiet(w, mem) && w.Live(p) && w.pages[p].kind.Device? && w.pages[p].pins > 0
    ensures BackingOk(p, w.pages) && BackingOk(p, Unheld(w, p).pages)
  {
    assert LiveDevice(p, w.pages);
    UnheldBacked(w, mem, p);
  }

  lemma PutForms(w: World, p: Pid)
    requires w.Live(p) && w.pages[p].pins > 0
    ensures Unheld(w, p) == w.SetPage(p, w.pages[p].(pins := w.pages[p].pins - 1))
    ensures w.pages[p].refs > 1 ==>
      PutPinned(w, p) == w.SetPage(p, w.pages[p].(refs := w.pages[p].refs - 1, pins := w.pages[p].pins - 1))
    ensures w.pages[p].refs == 1 ==> PutPinned(w, p) == Release(Unheld(w, p), p)
  {
    hide Release;
  }

  lemma PutFrame(w: World, mem: Mem, p: Pid)
    requires Quiet(w, mem) && w.Live(p) && w.pages[p].kind.Device? && w.pages[p].pins > 0
    ensures var w' := PutPinned(w, p);
            && w'.pages.Keys == w.pages.Keys && p in w'.pages
            && w'.pages[p].refs == w.pages[p].refs - 1 && w'.pages[p].mapping == w.pages[p].mapping
            && w'.pages[p].backing == w.pages[p].backing
            && (w.pages[p].refs > 1 ==> w'.pages[p] == w.pages[p].(refs := w.pages[p].refs - 1, pins := w.pages[p].pins - 1))
            && (forall r | r in w.pages && r != p && r != w.pages[p].backing :: w'.pages[r] == w.pages[r])
  {
    hide Quiet, NotBacking, Backed, Release, PutPinned, Unheld;
    UnheldOk(w, mem, p);
    PutForms(w, p);
    if w.pages[p].refs == 1 {
      FreedPages(Unheld(w, p), p);
    }
  }

  // The page at a can come back: it belongs to this device, nobody has locked it or holds a further
  // reference, its other mappings can be replaced, and there is a free page to move it to.
  ghost predicate FaultMoves(w: World, a: Addr, owner: nat, fate: ChunkFate) {
    FaultCopies(w, a, owner, fate) && w.pages[w.At(a).page].pins == 0 && fate.pages(0).moves
  }

  // It gets as far as the copy, which erases the mirror entry; one reference of others does not
  // prevent that.
  ghost predicate FaultCopies(w: World, a: Addr, owner: nat, fate: ChunkFate) {
    && w.At(a).DevicePrivate? && w.At(a).page in w.pages
    && var p, page := w.At(a).page, w.pages[w.At(a).page];
    && page.kind == Device(owner) && page.mapping != NoMapping && !page.compound
    && page.lock == Unlocked && page.pins <= 1
    && KindAt(ChooseWalk(w, a, 1, fate.setup.walk), 0).Ptes? && !fate.setup.shareFails(a)
    && w.Mappers(p) * fate.setup.unmap(0).keep <= {a}
    && SystemSource(w, fate.source(0))
  }

  lemma FaultExact(w0: World, w1: World, w2: World, a: Addr, p: Pid, vma: Vma, owner: nat, fate: ChunkFate,
                   s: seq<Mpfn>,
                   d: seq<Mpfn>)
    requires w0.At(a).DevicePrivate? && w0.At(a).page == p && w0.Live(p) && w0.pages[p].kind.Device?
    requires w1 == AddPin(w0, p)
    requires JobExact(w1, w2, Job(a, 1, Want(vma, SelectDevicePrivate, owner), Some(p), fate), s, d)
    ensures |s| == |d| == 1 && (p in Moves(s, d) <==> FaultMoves(w0, a, owner, fate))
    ensures p in Moves(s, d) ==> fate.source(0).Some? && Moves(s, d)[p] == fate.source(0).value.q
    ensures FaultCopies(w0, a, owner, fate) ==> d[0].page.Some?
  {
    var job := Job(a, 1, Want(vma, SelectDevicePrivate, owner), Some(p), fate);
    WalkChosen(w0, w1, a, 1, fate.setup.walk);
    MappersOfPt(w0, w1);
    hide Moves, ChooseWalk, World.Mappers;
    assert SlotExact(w1, w2, job, s, d, 0);
    FaultGiven(w0, w1, job, a, p, d);
    if p in Moves(s, d) {
      var i: nat :| i < job.n && job.Offers(w1, i).page == Some(p);
    }
  }

  lemma FaultGiven(w0: World, w1: World, job: Job, a: Addr, p: Pid, d: seq<Mpfn>)
    requires w0.At(a).DevicePrivate? && w0.At(a).page == p && w0.Live(p) && w0.pages[p].kind.Device?
    requires w1 == AddPin(w0, p)
    requires job.start == a && job.n == 1 && job.want.select == SelectDevicePrivate && job.faultPage == Some(p)
    requires |d| == 1
    requires w1.Mappers(p) == w0.Mappers(p)
    requires ChooseWalk(w1, a, 1, job.fate.setup.walk) == ChooseWalk(w0, a, 1, job.fate.setup.walk)
    ensures FaultMoves(w0, a, job.want.owner, job.fate) <==>
      && job.Offers(w1, 0).page == Some(p) && Given(w1, job, d, 0)
      && MoveAllowed(w1, p, job.fate.source(0).value.q, Some(p), job.fate.pages(0))
    ensures FaultCopies(w0, a, job.want.owner, job.fate) <==> job.Offers(w1, 0).page == Some(p) && Given(w1, job, d, 0)
  {
    hide World.Mappers, ChooseWalk;
  }

  lemma WalkChosen(w: World, w': World, start: Addr, len: nat, walk: seq<Piece>)
    requires w'.pt == w.pt
    ensures ChooseWalk(w', start, len, walk) == ChooseWalk(w, start, len, walk)
  {
    if WalkFits(w, start, walk) { WalkSame(w, w', start, walk); }
    if WalkFits(w', start, walk) { WalkSame(w', w, start, walk); }
  }

  lemma LivePage(w: World, p: Pid)
    requires LiveDevice(p, w.pages)
    ensures w.Live(p) && w.pages[p].kind.Device?
  {}

  lemma OneMoved(w: World, w': World, moves: map<Pid, Pid>, a: Addr, p: Pid)
    requires SystemMove(w, w', moves, a, 1) && w.At(a).Refers() && w.At(a).page == p && IsDevicePage(w, Some(p))
    ensures moves.Keys <= {p} && (w'.At(a).Present? <==> p in moves)
  {
    forall r | r in moves ensures r == p { assert FoundIn(w, r, a, 1); }
  }

  lemma SamePt(w0: World, w1: World, w2: World, w3: World, moves: map<Pid, Pid>, place: Option<Place>, n: nat)
    requires AllOrNothing(w1, w2, moves, place, n) && w1.pt == w0.pt && w3.pt == w2.pt
    ensures AllOrNothing(w0, w3, moves, place, n)
  {
    forall a: Addr ensures PteMoved(moves, place, n, a, w0.At(a), w3.At(a)) {
      assert PteMoved(moves, place, n, a, w1.At(a), w2.At(a));
    }
    forall p | p in moves ensures Unreferenced(w0, moves[p]) {
      assert Unreferenced(w1, moves[p]);
      forall a: Addr ensures w0.At(a).Refers() ==> w0.At(a).page != moves[p] { assert w1.At(a) == w0.At(a); }
    }
  }

  // ----- migrate_device_range

  // get_page_unless_zero and trylock_page, for slot i
  function RangeTake(w: World, p: Pid, i: nat): World
    requires p in w.pages
  {
    w.SetPage(p, w.pages[p].(refs := w.pages[p].refs + 1, lock := SrcSlot(i)))
  }

  predicate Takeable(w: World, p: Pid) {
    w.Live(p) && w.pages[p].lock == Unlocked
  }

  // What the loop has put into src: every page of the range that is in use and unlocked
  predicate RangeSlot(w0: World, p: Pid, m: Mpfn) {
    m == if Takeable(w0, p) then Mpfn(Some(p), true, false) else EMPTY
  }

  ghost predicate RangeState(w0: World, w: World, mem: Mem, s: seq<Mpfn>, start: Pid) {
    && InFlight(w, mem, s, NoDst(|s|), None) && SameView(w0, w) && w.mirror == w0.mirror && w.pt == w0.pt
    && w.pages.Keys == w0.pages.Keys && Carried(w0, w) && AllShared(w, s, None)
    && (forall i {:trigger s[i]} | 0 <= i < |s| :: RangeSlot(w0, start + i, s[i]))
    && (forall p | p in w0.pages :: p in w.pages && SameBut(w0.pages[p], w.pages[p]))
    && (forall p | p in w0.pages && (p < start || start + |s| <= p) :: w.pages[p] == w0.pages[p])
  }

  predicate SameBut(g: Page, g': Page) {
    g' == g.(refs := g'.refs, lock := g'.lock) && (g.refs == 0 <==> g'.refs == 0)
  }

  function NoDst(n: nat): (r: seq<Mpfn>)
    ensures |r| == n
  {
    seq(n, i => EMPTY)
  }

  predicate DeviceRange(w: World, start: Pid, npages: nat) {
    forall p | start <= p < start + npages :: p in w.pages && w.pages[p].kind.Device?
  }

  lemma RangeTakeInv(w: World, mem: Mem, p: Pid, i: nat)
    requires w.Inv(mem) && Takeable(w, p) && w.pages[p].kind.Device?
    ensures RangeTake(w, p, i).Inv(mem)
  {
    assert w.BalancedAt(p);
    DeviceNotBacking(w, mem, p);
    PinFrame(w, mem, p, RangeTake(w, p, i).pages[p]);
  }

  lemma RangeTakeInFlight(w: World, mem: Mem, s: seq<Mpfn>, p: Pid)
    requires InFlight(w, mem, s, NoDst(|s|), None) && Takeable(w, p) && w.pages[p].kind.Device?
    requires w.pages[p].lru != Isolated
    ensures InFlight(RangeTake(w, p, |s|), mem, s + [Mpfn(Some(p), true, false)], NoDst(|s| + 1), None)
  {
    var w' := RangeTake(w, p, |s|);
    assert NoDst(|s| + 1) == NoDst(|s|) + [EMPTY];
    RangeRest(w, s, p);
    hide World.Inv, Slots, World.MirrorOk, MirrorHome, LruHeld, SlotPtes, Takeable, RangeTake;
    RangeTakeInv(w, mem, p, |s|);
    RangeSlots(w, w', s, p);
  }

  lemma RangeRest(w: World, s: seq<Mpfn>, p: Pid)
    requires w.MirrorOk() && MirrorHome(w, None) && LruHeld(w.pages) && Takeable(w, p) && w.pages[p].lru != Isolated
    ensures var w' := RangeTake(w, p, |s|);
            w'.MirrorOk() && MirrorHome(w', None) && LruHeld(w'.pages) && SlotPtes(w', s + [Mpfn(Some(p), true, false)], None)
  {
    SamePagesQuiet(w, RangeTake(w, p, |s|), p);
    hide World.MirrorOk;
    forall a ensures a in w.mirror ==> !w.At(a).Migration? {
      assert a in w.mirror && w.At(a).Migration? ==> AtHome(w, None, a);
    }
  }

  lemma RangeSlots(w: World, w': World, s: seq<Mpfn>, p: Pid)
    requires Slots(w, s, NoDst(|s|)) && Takeable(w, p) && w' == RangeTake(w, p, |s|)
    ensures Slots(w', s + [Mpfn(Some(p), true, false)], NoDst(|s|) + [EMPTY])
  {
    var w1 := w.SetPage(p, w.pages[p].(refs := w.pages[p].refs + 1));
    SlotsSame(w, w1, s, NoDst(|s|));
    SlotsAppend(w1, w', s, NoDst(|s|), p, false);
  }

  lemma RangeSkip(w0: World, w: World, mem: Mem, s: seq<Mpfn>, start: Pid)
    requires RangeState(w0, w, mem, s, start) && !Takeable(w, start + |s|) && start + |s| in w0.pages
    ensures RangeState(w0, w, mem, s + [EMPTY], start)
  {
    hide World.Inv, World.MirrorOk, SameView, Carried;
    assert NoDst(|s| + 1) == NoDst(|s|) + [EMPTY];
    SlotsAppendNone(w, s, NoDst(|s|), EMPTY);
    hide Slots;
  }

  lemma RangeTurn(w0: World, w: World, mem: Mem, s: seq<Mpfn>, start: Pid)
    requires RangeState(w0, w, mem, s, start) && Takeable(w, start + |s|) && start + |s| in w0.pages
    requires w0.pages[start + |s|].kind.Device? && w0.pages[start + |s|].lru != Isolated
    ensures RangeState(w0, RangeTake(w, start + |s|, |s|), mem, s + [Mpfn(Some(start + |s|), true, false)], start)
  {
    var p := start + |s|;
    hide InFlight, Carried, SameView;
    RangeTakeInFlight(w, mem, s, p);
    RangeView(w0, w, RangeTake(w, p, |s|));
    CarriedOne(w, RangeTake(w, p, |s|), p);
    CarriedTrans(w0, w, RangeTake(w, p, |s|));
  }

  lemma RangeView(w0: World, w: World, w': World)
    requires SameView(w0, w) && w'.pt == w.pt
    ensures SameView(w0, w')
  {
    forall a: Addr ensures SameRef(w0.At(a), w'.At(a)) { assert SameRef(w0.At(a), w.At(a)); }
  }

  lemma RangeStart(w: World, mem: Mem, start: Pid)
    requires Quiet(w, mem)
    ensures RangeState(w, w, mem, [], start)
  {
    hide Carried;
    QuietStart(w, mem, None);
    CarriedSelf(w);
  }

  // The slot for one pfn
  method RangePage(m: Machine, p: Pid, i: nat, ghost w0: World, ghost s: seq<Mpfn>, ghost start: Pid, ghost npages: nat)
    returns (mpfn: Mpfn)
    requires RangeState(w0, m.w, m.mem, s, start) && Quiet(w0, m.mem) && DeviceRange(w0, start, npages)
    requires i == |s| < npages && p == start + i
    modifies m`w
    ensures RangeState(w0, m.w, m.mem, s + [mpfn], start)
  {
    hide Quiet, RangeState, DeviceRange, Takeable, RangeTake;
    RangeKnown(w0, m.w, m.mem, s, start, npages);
    if Takeable(m.w, p) {
      RangeTurn(w0, m.w, m.mem, s, start);
      m.w := RangeTake(m.w, p, i);
      mpfn := Mpfn(Some(p), true, false);
    } else {
      RangeSkip(w0, m.w, m.mem, s, start);
      mpfn := EMPTY;
    }
  }

  method MigrateDeviceRange(m: Machine, src: array<Mpfn>, start: Pid, npages: nat, fates: nat -> UnmapFate)
    requires npages == src.Length && Quiet(m.w, m.mem) && DeviceRange(m.w, start, npages)
    modifies m`w, src
    ensures PagesState(m.w, m.mem, None, src[..], NoDst(npages), 0) && SameView(old(m.w), m.w)
    ensures PinsKept(old(m.w), m.w)
    ensures RangeExact(old(m.w), m.w, src[..], start, fates)
  {
    ghost var w0 := m.w;
    RangeStart(w0, m.mem, start);
    hide Quiet, RangeState, SameView, PinsKept, PagesState, DeviceRange, NoDst, InFlight, Fresh, UnmapDone,
         RangeExact, Phase2, FreeKept, UsedKept, Carried, AllShared;
    var i := 0;
    assert src[..0] == [];
    while i < npages
      invariant 0 <= i <= npages && RangeState(w0, m.w, m.mem, src[..i], start)
    {
      ghost var s := src[..i];
      var mpfn := RangePage(m, start + i, i, w0, s, start, npages);
      src[i] := mpfn;
      assert src[..i + 1] == s + [mpfn];
      i := i + 1;
    }
    ghost var w1, s1 := m.w, src[..npages];
    RangeFresh(w0, w1, m.mem, s1, start);
    var unmapped := MigrateDeviceUnmap(m, src, NoDst(npages), npages, None, None, fates);
    RangeJoin(w0, w1, m.w, m.mem, s1, src[..npages], start, fates);
    DonePhase(w1, m.w, m.mem, s1, src[..npages], NoDst(npages), None, None, fates);
    RangeExactHolds(w0, w1, m.w, m.mem, s1, src[..npages], start, fates);
    assert src[..npages] == src[..];
  }

  lemma RangeKnown(w0: World, w: World, mem: Mem, s: seq<Mpfn>, start: Pid, npages: nat)
    requires RangeState(w0, w, mem, s, start) && Quiet(w0, mem) && DeviceRange(w0, start, npages) && |s| < npages
    ensures var p := start + |s|;
            p in w0.pages && p in w.pages && w0.pages[p].kind.Device? && w0.pages[p].lru != Isolated
  {}

  lemma RangeFresh(w0: World, w: World, mem: Mem, s: seq<Mpfn>, start: Pid)
    requires RangeState(w0, w, mem, s, start) && Quiet(w0, mem)
    ensures InFlight(w, mem, s, NoDst(|s|), None) && Fresh(w, s) && AllShared(w, s, None)
  {
    hide Carried, World.Inv, World.MirrorOk, SameView;
    forall i | 0 <= i < |s| && s[i].page.Some?
      ensures s[i].migrate && s[i].page.value in w.pages && w.pages[s[i].page.value].lru != Isolated
    {
      assert RangeSlot(w0, start + i, s[i]);
      assert SameBut(w0.pages[start + i], w.pages[start + i]);
    }
  }

  lemma RangeKept(w0: World, w: World, mem: Mem, s: seq<Mpfn>, start: Pid)
    requires RangeState(w0, w, mem, s, start)
    ensures PinsKept(w0, w) && SameView(w0, w) && MirrorShrinks(w0, w) && Carried(w0, w)
  {
    hide InFlight, SameView, Carried, AllShared;
    forall p | p in w0.pages ensures PinKept(w0, w, p) { assert SameBut(w0.pages[p], w.pages[p]); }
  }

  lemma RangeJoin(w0: World, w1: World, w: World, mem: Mem, s1: seq<Mpfn>, s: seq<Mpfn>, start: Pid,
                  fates: nat -> UnmapFate)
    requires RangeState(w0, w1, mem, s1, start) && |s| == |s1|
    requires UnmapDone(w1, w, mem, s1, s, NoDst(|s1|), None, None, fates)
    ensures PagesState(w, mem, None, s, NoDst(|s|), 0) && SameView(w0, w) && PinsKept(w0, w)
  {
    hide Held, MirrorHome, World.EntryOk, SameView, MirrorShrinks, Phase2, PinsKept, RangeState, Carried, SlotReady;
    RangeKept(w0, w1, mem, s1, start);
    ViewTrans(w0, w1, w);
    PinsTrans(w0, w1, w);
    forall j | 0 <= j < |s| ensures SlotReady(w, s[j], EMPTY) {
      RangeSettled(w0, w1, w, mem, s1, s, start, fates, j);
      RangeReady(w0, w1, w, start + j, s1[j], s[j], fates(j));
    }
  }

  lemma RangeSettled(w0: World, w1: World, w: World, mem: Mem, s1: seq<Mpfn>, s: seq<Mpfn>, start: Pid,
                     fates: nat -> UnmapFate, j: nat)
    requires RangeState(w0, w1, mem, s1, start) && |s| == |s1| && j < |s|
    requires UnmapDone(w1, w, mem, s1, s, NoDst(|s1|), None, None, fates)
    ensures RangeSlot(w0, start + j, s1[j]) && Settled(w1, w, s1[j], s[j], None, fates(j))
  {
    hide RangeSlot, Settled, InFlight, SameView, MirrorShrinks, PinsKept, Carried, FreeKept, UsedKept, AllShared;
  }

  lemma RangeReady(w0: World, w1: World, w: World, p: Pid, m1: Mpfn, m: Mpfn, fate: UnmapFate)
    requires RangeSlot(w0, p, m1) && Settled(w1, w, m1, m, None, fate)
    ensures SlotReady(w, m, EMPTY)
  {}

  // What migrate_device_range leaves in slot i, by the state before it
  predicate EvictKept(w0: World, p: Pid, fate: UnmapFate) {
    Takeable(w0, p) && w0.Mappers(p) * fate.keep == {} && Unpinned(w0.pages[p], p, None)
  }

  ghost predicate RangeExact(w0: World, w: World, s: seq<Mpfn>, start: Pid, fates: nat -> UnmapFate) {
    && FreeKept(w0, w) && UsedKept(w0, w) && Carried(w0, w)
    && forall i {:trigger s[i]} | 0 <= i < |s| ::
         && s[i] == (if EvictKept(w0, start + i, fates(i)) then Mpfn(Some(start + i), true, false) else EMPTY)
         && (s[i].page.Some? ==> SameMeta(w0, w, start + i))
  }

  lemma RangeExactHolds(w0: World, w1: World, w: World, mem: Mem, s1: seq<Mpfn>, s: seq<Mpfn>, start: Pid,
                        fates: nat -> UnmapFate)
    requires RangeState(w0, w1, mem, s1, start) && DeviceRange(w0, start, |s1|)
    requires Phase2(w1, w, s1, s, |s|, None, fates) && FreeKept(w1, w) && UsedKept(w1, w) && Carried(w1, w)
    ensures RangeExact(w0, w, s, start, fates)
  {
    hide World.Mappers, FreeKept, UsedKept, InFlight, SameView, Carried, AllShared;
    RangeFree(w0, w1, w, mem, s1, start);
    CarriedTrans(w0, w1, w);
    MappersOfPt(w0, w1);
    forall i | 0 <= i < |s|
      ensures s[i] == (if EvictKept(w0, start + i, fates(i)) then Mpfn(Some(start + i), true, false) else EMPTY)
      ensures s[i].page.Some? ==> SameMeta(w0, w, start + i)
    {
      assert Settled(w1, w, s1[i], s[i], None, fates(i));
      EvictSettled(w0, w1, w, start + i, s1[i], s[i], fates(i));
    }
  }

  lemma EvictSettled(w0: World, w1: World, w: World, p: Pid, m1: Mpfn, m: Mpfn, fate: UnmapFate)
    requires RangeSlot(w0, p, m1) && Settled(w1, w, m1, m, None, fate) && p in w0.pages && p in w1.pages
    requires SameBut(w0.pages[p], w1.pages[p]) && w0.pages[p].kind.Device? && w1.Mappers(p) == w0.Mappers(p)
    ensures m == (if EvictKept(w0, p, fate) then Mpfn(Some(p), true, false) else EMPTY)
    ensures m.page.Some? ==> SameMeta(w0, w, p)
  {
    hide World.Mappers, Frozen;
  }

  lemma RangeFree(w0: World, w1: World, w: World, mem: Mem, s1: seq<Mpfn>, start: Pid)
    requires RangeState(w0, w1, mem, s1, start) && FreeKept(w1, w) && UsedKept(w1, w)
    ensures FreeKept(w0, w) && UsedKept(w0, w)
  {
    hide InFlight, SameView, Carried, AllShared;
    forall p | w0.Live(p) ensures w1.Live(p) { assert SameBut(w0.pages[p], w1.pages[p]); }
    forall p | w0.Free(p) ensures w1.Free(p) && w1.pages[p].kind == w0.pages[p].kind {
      assert SameBut(w0.pages[p], w1.pages[p]);
    }
  }

  // ----- dmirror_device_evict_chunk

  lemma EvictStart(w: World, mem: Mem, w': World, mem': Mem, s: seq<Mpfn>, d: seq<Mpfn>)
    requires PagesState(w, mem, None, s, d, 0) && d == NoDst(|s|) && EnvRel(w, w') && w'.Inv(mem')
    ensures CopyState(w', w', mem', None, s, d) && w.Inv(mem)
  {
    PagesUnpack(w, mem, None, s, d, 0);
    hide PagesState, EnvRel, World.Inv;
    EnvKeepsPages(w, w', mem, mem', None, s, d, 0);
    CopyStart(w', mem', None, s, d);
  }

  // Page i of the chunk is in use, can be locked and unmapped, at most one reference is left over, and
  // there is memory for it.
  ghost predicate EvictCopies(w0: World, fate: ChunkFate, p: Pid, i: nat, d: seq<Mpfn>) {
    && p in w0.pages && w0.pages[p].refs > 0 && w0.pages[p].lock == Unlocked && !w0.pages[p].compound
    && w0.pages[p].pins <= 1 && w0.Mappers(p) * fate.setup.unmap(i).keep == {}
    && SystemMemory(w0, fate, d, i)
  }

  lemma EvictCopiesIs(w0: World, fate: ChunkFate, p: Pid, i: nat, d: seq<Mpfn>)
    requires p in w0.pages && w0.pages[p].kind.Device?
    ensures EvictCopies(w0, fate, p, i, d) <==>
            EvictKept(w0, p, fate.setup.unmap(i)) && Supplied(w0, ToSystem, fate.source, d, i)
  {
    SystemMemoryIs(w0, fate, d, i);
    hide World.Mappers, Supplied, SystemMemory;
  }

  // A page of the chunk moves exactly if it can be taken and unmapped, gets a new page, and can be copied.
  ghost predicate EvictExact(w0: World, fate: ChunkFate, first: Pid, n: nat, moves: map<Pid, Pid>, d: seq<Mpfn>) {
    && |d| == n && (forall p | p in moves :: first <= p < first + n)
    && forall i {:trigger d[i]} | 0 <= i < n :: EvictSlot(w0, fate, first, i, moves, d)
  }

  ghost predicate EvictSlot(w0: World, fate: ChunkFate, first: Pid, i: nat, moves: map<Pid, Pid>, d: seq<Mpfn>)
    requires i < |d|
  {
    var p, copies := first + i, EvictCopies(w0, fate, first + i, i, d);
    && (p in moves <==> copies && w0.pages[p].pins == 0 && fate.pages(i).moves)
    && (p in moves ==> moves[p] == fate.source(i).value.q)
    && d[i].page == if copies then Some(fate.source(i).value.q) else None
  }

  lemma EvictExactHolds(w0: World, wa: World, w2: World, w3: World, w4: World, w5: World, fate: ChunkFate, first: Pid,
                        sa: seq<Mpfn>, s: seq<Mpfn>, d: seq<Mpfn>)
    requires |sa| == |s| == |d| && RangeExact(w0, wa, sa, first, fate.setup.unmap) && DeviceRange(w0, first, |s|)
    requires PinsKept(w0, wa) && AllLive(wa, sa) && OnlyFresh(wa, w2)
    requires FilledUpTo(wa, ToSystem, fate.source, sa, d, |d|)
    requires Stages(w2, w3, w4, w5, None, sa, s, d, Fates(None, fate.pages))
    ensures EvictExact(w0, fate, first, |s|, Moves(s, d), d)
  {
    hide Stages, FilledUpTo, OnlyFresh, PinsKept, Moves, EvictKept, RangeExact, Slots, AllLive;
    forall p | p in Moves(s, d) ensures first <= p < first + |s| {
      var j := MovedSlot(s, d, p);
      SlotStage(w2, w3, w4, w5, None, sa, s, d, Fates(None, fate.pages), j);
      RangeAt(w0, wa, sa, first, fate.setup.unmap, j);
    }
    forall i | 0 <= i < |d| ensures EvictSlot(w0, fate, first, i, Moves(s, d), d) {
      EvictOne(w0, wa, w2, w3, w4, w5, fate, first, sa, s, d, i);
    }
  }

  lemma RangeAt(w0: World, w: World, s: seq<Mpfn>, start: Pid, fates: nat -> UnmapFate, i: nat)
    requires RangeExact(w0, w, s, start, fates) && i < |s|
    ensures s[i] == (if EvictKept(w0, start + i, fates(i)) then Mpfn(Some(start + i), true, false) else EMPTY)
    ensures (s[i].page.Some? ==> SameMeta(w0, w, start + i)) && FreeKept(w0, w) && UsedKept(w0, w)
  {
    hide EvictKept, SameMeta, FreeKept, UsedKept, Carried;
  }

  lemma EvictOne(w0: World, wa: World, w2: World, w3: World, w4: World, w5: World, fate: ChunkFate, first: Pid,
                 sa: seq<Mpfn>, s: seq<Mpfn>, d: seq<Mpfn>, i: nat)
    requires |sa| == |s| == |d| && RangeExact(w0, wa, sa, first, fate.setup.unmap) && DeviceRange(w0, first, |s|)
    requires PinsKept(w0, wa) && AllLive(wa, sa) && OnlyFresh(wa, w2)
    requires FilledUpTo(wa, ToSystem, fate.source, sa, d, |d|) && i < |d|
    requires Stages(w2, w3, w4, w5, None, sa, s, d, Fates(None, fate.pages))
    ensures EvictSlot(w0, fate, first, i, Moves(s, d), d)
  {
    hide Stages, FilledUpTo, OnlyFresh, PinsKept, Moves, EvictKept, EvictCopies, RangeExact, Slots, Supplied,
         FreeKept, UsedKept;
    var p := first + i;
    RangeAt(w0, wa, sa, first, fate.setup.unmap, i);
    SlotStage(w2, w3, w4, w5, None, sa, s, d, Fates(None, fate.pages), i);
    FilledAt(wa, ToSystem, fate.source, sa, d, i);
    EvictKnown(w0, wa, p, fate.setup.unmap(i));
    EvictCopiesIs(w0, fate, p, i, d);
    StillSupplied(w0, wa, ToSystem, fate.source, d, i);
    if sa[i].page.Some? {
      assert wa.Live(p);
      if d[i].page.Some? {
        SuppliedSystem(wa, fate.source, d, i);
        EvictAllowed(w0, wa, w2, p, d[i].page.value, fate.pages(i));
      }
      MovesOwn(w3, s, d, i);
    } else {
      if p in Moves(s, d) {
        var j := MovedSlot(s, d, p);
        SlotStage(w2, w3, w4, w5, None, sa, s, d, Fates(None, fate.pages), j);
        RangeAt(w0, wa, sa, first, fate.setup.unmap, j);
      }
    }
  }

  lemma EvictKnown(w0: World, wa: World, p: Pid, fate: UnmapFate)
    requires p in w0.pages && w0.pages[p].kind.Device? && PinsKept(w0, wa)
    ensures IsDevicePage(wa, Some(p)) && (EvictKept(w0, p, fate) ==> p in w0.pages)
  {
    assert PinKept(w0, wa, p);
  }

  lemma EvictAllowed(w0: World, wa: World, w2: World, p: Pid, q: Pid, fate: PageFate)
    requires SameMeta(w0, wa, p) && wa.Live(p) && OnlyFresh(wa, w2) && q in wa.pages && wa.pages[q].kind.System?
    ensures MoveAllowed(w2, p, q, None, fate) <==> fate.moves && w0.pages[p].pins == 0
  {}

  lemma SuppliedSystem(w: World, alloc: nat -> Option<Source>, d: seq<Mpfn>, i: nat)
    requires Supplied(w, ToSystem, alloc, d, i)
    ensures SystemSource(w, alloc(i))
  {
    hide Unspent;
  }

  // The pfns of a chunk, both ends included
  method EvictChunk(m: Machine, first: Pid, last: Pid, fate: ChunkFate) returns (ghost moves: map<Pid, Pid>,
                    ghost d: seq<Mpfn>)
    requires Quiet(m.w, m.mem) && m.Recorded() && first <= last && DeviceRange(m.w, first, last - first + 1)
    modifies m
    ensures Quiet(m.w, m.mem) && m.Recorded() && old(m.history) <= m.history
    ensures Ledger(old(m.w), old(m.history), m.w, m.history)
    ensures fate.Undisturbed() ==>
      && m.history == old(m.history) && AllOrNothing(old(m.w), m.w, moves, None, last - first + 1)
      && EvictExact(old(m.w), fate, first, last - first + 1, moves, d) && BooksExact(old(m.w), m.w, moves)
  {
    hide HeldSpared, MissedSpared, StaysMappable, ActAll, Quiet, CopyState, PagesState, DeviceRange, SameView,
         PinsKept, World.Inv, EnvRel, AllOrNothing, Moves, OnlyFresh, RangeExact, EvictExact, Stages, FilledUpTo,
         AllLive, Ledger, BooksExact, SlotsReady, FreshDst, Carried, PinsExact;
    var npages := last - first + 1;
    var src, dst := new Mpfn[npages](_ => EMPTY), new Mpfn[npages](_ => EMPTY);
    ghost var w0, mem0, h0 := m.w, m.mem, m.history;
    MigrateDeviceRange(m, src, first, npages, fate.setup.unmap);
    ghost var w1, mem1 := m.w, m.mem;
    RangeCarried(w0, w1, src[..], first, fate.setup.unmap);
    StageBooked(w0, w0, w1, h0, h0);
    assert src[..npages] == src[..] && dst[..npages] == NoDst(npages);
    PagesUnpack(w1, mem1, None, src[..npages], dst[..npages], 0);
    Interfere(m, fate.acts1);
    EvictStart(w1, mem1, m.w, m.mem, src[..npages], dst[..npages]);
    LedgerTrans(w0, h0, w1, h0, m.w, m.history);
    ghost var wa, mema, ha, sa := m.w, m.mem, m.history, src[..npages];
    CopyLive(wa, mema, None, sa, dst[..npages]);
    CopyParts(wa, wa, mema, None, sa, dst[..npages]);
    CopyToSystem(m, src, dst, npages, None, fate.source);
    ghost var w2 := m.w;
    CopyParts(wa, w2, m.mem, None, src[..npages], dst[..npages]);
    CopyReady(wa, w2, mema, None, fate.source, sa, dst[..npages]);
    FreshBooked(w0, wa, w2, h0, ha);
    ghost var w3, w4;
    var cpages;
    cpages, w3, w4 := SystemRest(m, src, dst, npages, None, None, fate, w0, wa);
    LedgerTrans(w0, h0, w2, ha, m.w, m.history);
    moves, d := Moves(src[..npages], dst[..npages]), dst[..npages];
    if fate.Undisturbed() {
      EvictExactHolds(w0, wa, w2, w3, w4, m.w, fate, first, sa, src[..npages], d);
      ViewPt(w0, wa, w2);
      AllOrNothingFrom(w0, w2, m.w, moves, None, npages);
      FreshCarried(w0, wa, w2);
      BooksDone(w0, mem0, w2, w3, w4, m.w, m.mem, None, sa, src[..npages], d, Fates(None, fate.pages));
    }
  }

  lemma RangeCarried(w0: World, w: World, s: seq<Mpfn>, start: Pid, fates: nat -> UnmapFate)
    requires RangeExact(w0, w, s, start, fates)
    ensures Carried(w0, w) && PinsExact(w0, w)
  {
    hide PinsExact, CarriedAt, InUse;
  }

  lemma FreshCarried(w0: World, wa: World, w2: World)
    requires Carried(w0, wa) && OnlyFresh(wa, w2)
    ensures Carried(w0, w2)
  {
    hide Carried;
    CarriedTrans(w0, wa, w2);
  }
}
