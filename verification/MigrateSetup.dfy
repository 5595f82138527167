/**
  mm/migrate_device.c, migrate_vma_setup: check the arguments, collect, and unmap.
*/
module MigrateSetup {
  import opened Kernel
  import opened KernelSteps
  import opened Txn
  import opened Accounts
  import opened MachineState
  import opened MigrateCollect
  import opened MigrateUnmap
  import opened MigrateFinalize
  import opened MigratePages

  // How the kernel treats one migration of a range
  datatype SetupFate = SetupFate(walk: seq<Piece>, shareFails: Addr -> bool, unmap: nat -> UnmapFate)

  function PlaceOf(start: Addr, want: Want): Option<Place> {
    Some(Place(start, want.vma))
  }

  // A slot holds what its address offered, or nothing
  predicate SetupSlot(w0: World, want: Want, a: Addr, m: Mpfn) {
    m == EMPTY || (m == Candidate(w0, a, want) && m.migrate)
  }

  ghost predicate SetupSlots(w0: World, s: seq<Mpfn>, d: seq<Mpfn>, start: Addr, want: Want) {
    && |s| == |d|
    && (forall i {:trigger d[i]} | 0 <= i < |d| :: d[i] == EMPTY)
    && (forall i {:trigger s[i]} | 0 <= i < |s| :: SetupSlot(w0, want, start + i, s[i]))
  }

  ghost predicate SetupDone(w0: World, w: World, mem: Mem, s: seq<Mpfn>, d: seq<Mpfn>, start: Addr, want: Want) {
    && PagesState(w, mem, PlaceOf(start, want), s, d, 0)
    && SetupSlots(w0, s, d, start, want)
    && SameView(w0, w) && MirrorShrinks(w0, w) && PinsKept(w0, w)
  }

  lemma CollectedPins(w0: World, w: World, s: seq<Mpfn>, d: seq<Mpfn>, start: Addr, want: Want)
    requires SlotsCollected(w0, w, s, d, start, want)
    ensures PinsKept(w0, w)
  {
    forall p | p in w0.pages ensures PinKept(w0, w, p) { assert LocksOnly(w0.pages[p], w.pages[p]); }
  }

  lemma CollectedView(w0: World, w: World, s: seq<Mpfn>, d: seq<Mpfn>, start: Addr, want: Want)
    requires SlotsCollected(w0, w, s, d, start, want)
    ensures SameView(w0, w)
  {
    forall a: Addr ensures SameRef(w0.At(a), w.At(a)) {
      if start <= a < start + |s| {
        assert CollectedAt(w0, w, want, start + (a - start), s[a - start]);
      }
    }
  }

  lemma CollectedFresh(w0: World, w: World, s: seq<Mpfn>, d: seq<Mpfn>, start: Addr, want: Want)
    requires SlotsCollected(w0, w, s, d, start, want) && Slots(w, s, d)
    requires forall p | p in w0.pages :: w0.pages[p].lru != Isolated
    ensures Fresh(w, s)
  {
    forall i | 0 <= i < |s| && s[i].page.Some?
      ensures s[i].migrate && s[i].page.value in w.pages && w.pages[s[i].page.value].lru != Isolated
    {
      assert CollectedAt(w0, w, want, start + i, s[i]);
      SlotHolds(w, s, d, i);
      assert LocksOnly(w0.pages[s[i].page.value], w.pages[s[i].page.value]);
    }
  }

  // From collect and unmap to the state the driver works in
  lemma SetupJoin(w0: World, w1: World, w: World, mem: Mem, s1: seq<Mpfn>, s: seq<Mpfn>, d: seq<Mpfn>, start: Addr,
                  want: Want,
                  faultPage: Option<Pid>, fates: nat -> UnmapFate)
    requires SlotsCollected(w0, w1, s1, d, start, want)
    requires UnmapDone(w1, w, mem, s1, s, d, Some(start), faultPage, fates)
    ensures SetupDone(w0, w, mem, s, d, start, want)
  {
    CollectedView(w0, w1, s1, d, start, want);
    assert MirrorShrinks(w0, w1);
    ViewTrans(w0, w1, w);
    CollectedPins(w0, w1, s1, d, start, want);
    PinsTrans(w0, w1, w);
    SetupSlotsJoin(w0, w1, w, s1, s, d, start, want, faultPage, fates);
    hide Held, MirrorHome, World.EntryOk, SameView, MirrorShrinks, SlotsCollected, Phase2, PinsKept;
  }

  lemma SetupSlotsJoin(w0: World, w1: World, w: World, s1: seq<Mpfn>, s: seq<Mpfn>, d: seq<Mpfn>, start: Addr,
                       want: Want,
                       faultPage: Option<Pid>, fates: nat -> UnmapFate)
    requires SlotsCollected(w0, w1, s1, d, start, want) && Phase2(w1, w, s1, s, |s|, faultPage, fates) && |s| == |d|
    ensures SetupSlots(w0, s, d, start, want) && SlotsMoved(w, PlaceOf(start, want), s, d, 0)
  {
    forall j | 0 <= j < |s| ensures SetupSlot(w0, want, start + j, s[j]) && SlotReady(w, s[j], d[j]) {
      assert CollectedAt(w0, w1, want, start + j, s1[j]);
      assert Settled(w1, w, s1[j], s[j], faultPage, fates(j));
    }
  }

  // Nothing to migrate: no slot holds a page
  lemma SetupNone(w0: World, w: World, mem: Mem, s: seq<Mpfn>, d: seq<Mpfn>, start: Addr, want: Want)
    requires Collected(w0, w, mem, s, d, start, want) && MigrateSet(s) == {}
    ensures SetupDone(w0, w, mem, s, d, start, want)
  {
    CollectedView(w0, w, s, d, start, want);
    CollectedPins(w0, w, s, d, start, want);
    forall j | 0 <= j < |s| ensures s[j] == EMPTY {
      assert CollectedAt(w0, w, want, start + j, s[j]);
      assert j !in MigrateSet(s);
    }
    hide Held, MirrorHome, World.EntryOk, SameView;
  }

  lemma EmptySet(s: seq<Mpfn>)
    requires |MigrateSet(s)| == 0
    ensures MigrateSet(s) == {}
  {}

  lemma SetupFresh(w0: World, w: World, mem: Mem, s: seq<Mpfn>, d: seq<Mpfn>, start: Addr, want: Want)
    requires Collected(w0, w, mem, s, d, start, want) && Quiet(w0, mem)
    ensures InFlight(w, mem, s, d, Some(start)) && Fresh(w, s) && w.pages.Keys == w0.pages.Keys
    ensures forall p | p in w0.pages :: w.pages[p].kind == w0.pages[p].kind
  {
    CollectedFresh(w0, w, s, d, start, want);
    forall p | p in w0.pages ensures w.pages[p].kind == w0.pages[p].kind {
      assert LocksOnly(w0.pages[p], w.pages[p]);
    }
  }

  // How the slots came about: collected as s1 in the state w1, then kept exactly if they could be unmapped
  ghost predicate SetupTrace(w0: World, w1: World, w: World, s1: seq<Mpfn>, s: seq<Mpfn>, start: Addr, want: Want,
                             faultPage: Option<Pid>, fate: SetupFate) {
    && |s1| == |s| == TotalLen(fate.walk)
    && (exists d :: SlotsCollected(w0, w1, s1, d, start, want) && Slots(w1, s1, d))
    && WalkTaken(w0, w1, want, start, fate.walk, s1, fate.shareFails)
    && Phase2(w1, w, s1, s, |s|, faultPage, fate.unmap) && FreeKept(w1, w) && UsedKept(w1, w)
    && Carried(w1, w)
  }

  lemma TraceNone(w1: World, s: seq<Mpfn>, faultPage: Option<Pid>, fates: nat -> UnmapFate)
    requires forall i | 0 <= i < |s| :: s[i] == EMPTY
    ensures Phase2(w1, w1, s, s, |s|, faultPage, fates) && FreeKept(w1, w1) && UsedKept(w1, w1)
    ensures Carried(w1, w1)
  {}

  lemma NoSlots(w0: World, w: World, mem: Mem, s: seq<Mpfn>, d: seq<Mpfn>, start: Addr, want: Want)
    requires Collected(w0, w, mem, s, d, start, want) && MigrateSet(s) == {}
    ensures forall i | 0 <= i < |s| :: s[i] == EMPTY
  {
    forall j | 0 <= j < |s| ensures s[j] == EMPTY {
      assert CollectedAt(w0, w, want, start + j, s[j]);
      assert j !in MigrateSet(s);
    }
  }

  lemma CollectedParts(w0: World, w: World, mem: Mem, s: seq<Mpfn>, d: seq<Mpfn>, start: Addr, want: Want)
    requires Collected(w0, w, mem, s, d, start, want)
    ensures SlotsCollected(w0, w, s, d, start, want) && Slots(w, s, d)
  {}

  lemma DonePhase(w0: World, w: World, mem: Mem, s0: seq<Mpfn>, s: seq<Mpfn>, d: seq<Mpfn>, base: Option<Addr>,
                  faultPage: Option<Pid>, fates: nat -> UnmapFate)
    requires UnmapDone(w0, w, mem, s0, s, d, base, faultPage, fates)
    ensures Phase2(w0, w, s0, s, |s|, faultPage, fates) && FreeKept(w0, w) && UsedKept(w0, w)
    ensures Carried(w0, w)
  {}

  // migrate_vma_setup: false stands for -EINVAL
  method MigrateVmaSetup(args: MigrateVma, fate: SetupFate) returns (ok: bool, ghost w1: World, ghost s1: seq<Mpfn>)
    requires args.src != args.dst && args.src.Length == args.dst.Length
    requires args.start <= args.end ==> args.end - args.start <= args.src.Length
    requires Quiet(args.m.w, args.m.mem)
    requires ArgsOk(args.want.vma, args.start, args.end) ==>
      WalkFits(args.m.w, args.start, fate.walk) && args.start + TotalLen(fate.walk) == args.end
    modifies args, args.src, args.dst, args.m`w
    ensures ok <==> ArgsOk(args.want.vma, args.start, old(args.end)) && FaultOk(old(args.m.w), args.faultPage)
    ensures !ok ==> args.m.w == old(args.m.w)
    ensures args.end == old(args.end)
    ensures ok ==> args.npages == args.end - args.start <= args.src.Length
    ensures ok ==> SetupDone(old(args.m.w), args.m.w, args.m.mem, args.src[..args.npages], args.dst[..args.npages],
                             args.start, args.want)
    ensures ok ==> args.cpages == |MigrateSet(args.src[..args.npages])|
    ensures ok ==> SetupTrace(old(args.m.w), w1, args.m.w, s1, args.src[..args.npages], args.start, args.want,
                              args.faultPage, fate)
  {
    ghost var w0, mem := args.m.w, args.m.mem;
    w1, s1 := args.m.w, [];
    ok := ArgsOk(args.want.vma, args.start, args.end) && FaultOk(args.m.w, args.faultPage);
    if !ok {
      return;
    }
    args.npages, args.cpages := 0, 0;
    hide Quiet, Collected, SetupDone, WalkFits, WalkTaken, Phase2, UnmapDone, SlotsCollected, Slots, FreeKept,
         UsedKept, Carried;
    args.Collect(fate.walk, fate.shareFails);
    ghost var n, d := args.npages, args.dst[..args.npages];
    w1, s1 := args.m.w, args.src[..n];
    CollectedParts(w0, w1, mem, s1, d, args.start, args.want);
    if args.cpages > 0 {
      SetupFresh(w0, w1, mem, s1, d, args.start, args.want);
      args.cpages := MigrateDeviceUnmap(args.m, args.src, d, args.npages, args.faultPage, Some(args.start), fate.unmap);
      CollectedSlots(w0, w1, mem, s1, d, args.start, args.want);
      SetupJoin(w0, w1, args.m.w, mem, s1, args.src[..n], d, args.start, args.want, args.faultPage, fate.unmap);
      DonePhase(w1, args.m.w, mem, s1, args.src[..n], d, Some(args.start), args.faultPage, fate.unmap);
    } else {
      EmptySet(s1);
      NoSlots(w0, w1, mem, s1, d, args.start, args.want);
      TraceNone(w1, s1, args.faultPage, fate.unmap);
      SetupNone(w0, w1, mem, s1, d, args.start, args.want);
    }
  }

  // ----- which slots hold a page, by the state before the migration

  // Collect can lock the page in its run of ptes
  predicate Collectable(w0: World, p: Pid, piece: Piece, shareFails: bool) {
    piece.Ptes? && !shareFails && HoldsLock(w0, p, Unlocked)
  }

  // Unmap can isolate the page, replace its other mappings, and finds no reference of others
  predicate Replaceable(w0: World, a: Addr, p: Pid, faultPage: Option<Pid>, fate: UnmapFate) {
    && p in w0.pages
    && (w0.pages[p].kind.System? ==> fate.isolates && w0.pages[p].lru == OnLru)
    && w0.Mappers(p) * fate.keep <= {a}
    && Unpinned(w0.pages[p], p, faultPage)
  }

  // No other address of the range refers to the page that a refers to
  ghost predicate OnlyAt(w: World, start: Addr, n: nat, a: Addr) {
    forall b: Addr | start <= b < start + n && RefersTo(w.At(b), w.At(a)) :: b == a
  }

  predicate SlotKept(w0: World, a: Addr, p: Pid, piece: Piece, faultPage: Option<Pid>, shareFails: bool,
                     fate: UnmapFate) {
    Collectable(w0, p, piece, shareFails) && Replaceable(w0, a, p, faultPage, fate)
  }

  lemma {:induction false} HoleAt(w: World, a: Addr, walk: seq<Piece>, i: nat)
    requires WalkFits(w, a, walk) && i < TotalLen(walk) && KindAt(walk, i).Hole?
    ensures w.At(a + i) == NoPte
    decreases walk
  {
    if i >= walk[0].len { HoleAt(w, a + walk[0].len, walk[1..], i - walk[0].len); }
  }

  // A slot without a page keeps what its address offered, unless the walk skipped it.
  lemma SetupNoPage(w0: World, w1: World, w: World, s1: seq<Mpfn>, s: seq<Mpfn>, start: Addr, want: Want,
                    faultPage: Option<Pid>, fate: SetupFate, i: nat)
    requires SetupTrace(w0, w1, w, s1, s, start, want, faultPage, fate) && WalkFits(w0, start, fate.walk)
    requires i < |s| && Candidate(w0, start + i, want).page == None
    ensures s[i] == if KindAt(fate.walk, i).Skip? then EMPTY else Candidate(w0, start + i, want)
  {
    assert TakenAs(w0, w1, want, start + i, s1[i], KindAt(fate.walk, i), fate.shareFails(start + i));
    assert Settled(w1, w, s1[i], s[i], faultPage, fate.unmap(i));
    if KindAt(fate.walk, i).Hole? { HoleAt(w0, start, fate.walk, i); }
  }

  // A page that collect locked was found at the address of its slot.
  lemma LockedAt(w0: World, mem: Mem, w1: World, s1: seq<Mpfn>, d: seq<Mpfn>, start: Addr, want: Want, a: Addr)
    requires Quiet(w0, mem) && SlotsCollected(w0, w1, s1, d, start, want) && Slots(w1, s1, d)
    requires start <= a < start + |s1| && w0.At(a).Refers() && OnlyAt(w0, start, |s1|, a)
    ensures var p := w0.At(a).page;
            && p in w0.pages && p in w1.pages
            && w1.pages[p] == w0.pages[p].(lock := w1.pages[p].lock)
            && w1.pages[p].lock == (if s1[a - start].On(p) then SrcSlot(a - start) else w0.pages[p].lock)
            && (s1[a - start].On(p) ==> w0.pages[p].lock == Unlocked)
  {
    var p := w0.At(a).page;
    assert PteOk(w0.pt[a], w0.pages);
    assert LocksOnly(w0.pages[p], w1.pages[p]);
    hide World.Inv, World.MirrorOk;
    if w1.pages[p].lock.SrcSlot? {
      LockSlot(w0, w1, s1, d, start, want, p);
    }
  }

  lemma LockSlot(w0: World, w1: World, s1: seq<Mpfn>, d: seq<Mpfn>, start: Addr, want: Want, p: Pid)
    requires SlotsCollected(w0, w1, s1, d, start, want) && Slots(w1, s1, d)
    requires p in w1.pages && w1.pages[p].lock.SrcSlot?
    ensures var j := w1.pages[p].lock.i;
            j < |s1| && s1[j].On(p) && w0.At(start + j).Refers() && w0.At(start + j).page == p
  {
    var j := w1.pages[p].lock.i;
    assert SlotOf(w1.pages[p].lock, p, s1, d) && CollectedAt(w0, w1, want, start + j, s1[j]);
  }

  // One slot: taken exactly if its page was unlocked
  lemma TakenExact(w0: World, w1: World, want: Want, a: Addr, slot: nat, m: Mpfn, piece: Piece, shareFails: bool)
    requires Candidate(w0, a, want).page.Some? && (piece.Hole? ==> w0.At(a) == NoPte)
    requires TakenAs(w0, w1, want, a, m, piece, shareFails)
    requires var p := Candidate(w0, a, want).page.value;
             && p in w0.pages && p in w1.pages
             && w1.pages[p].lock == (if m.On(p) then SrcSlot(slot) else w0.pages[p].lock)
             && (m.On(p) ==> w0.pages[p].lock == Unlocked)
    ensures m == if Collectable(w0, Candidate(w0, a, want).page.value, piece, shareFails) then Candidate(w0, a, want)
                 else EMPTY
  {}

  lemma CollectedPage(w0: World, mem: Mem, w1: World, w: World, s1: seq<Mpfn>, s: seq<Mpfn>, start: Addr, want: Want,
                      faultPage: Option<Pid>, fate: SetupFate, i: nat)
    requires Quiet(w0, mem) && SetupTrace(w0, w1, w, s1, s, start, want, faultPage, fate)
    requires WalkFits(w0, start, fate.walk) && i < |s| && OnlyAt(w0, start, |s|, start + i)
    requires Candidate(w0, start + i, want).page.Some?
    ensures var c := Candidate(w0, start + i, want); var p := c.page.value;
            && s1[i] == (if Collectable(w0, p, KindAt(fate.walk, i), fate.shareFails(start + i)) then c else EMPTY)
            && p in w0.pages && p in w1.pages && w1.pages[p] == w0.pages[p].(lock := w1.pages[p].lock)
  {
    hide SetupTrace, TakenAs, Collectable, Candidate, Quiet, SlotsCollected, Slots, OnlyAt, WalkFits;
    TraceAt(w0, w1, w, s1, s, start, want, faultPage, fate, i);
    var d := TraceDst(w0, w1, w, s1, s, start, want, faultPage, fate);
    OfferRefers(w0, start + i, want);
    LockedAt(w0, mem, w1, s1, d, start, want, start + i);
    if KindAt(fate.walk, i).Hole? { HoleAt(w0, start, fate.walk, i); }
    TakenExact(w0, w1, want, start + i, i, s1[i], KindAt(fate.walk, i), fate.shareFails(start + i));
  }

  lemma OfferRefers(w: World, a: Addr, want: Want)
    ensures Candidate(w, a, want).page.Some? ==>
      w.At(a).Refers() && !w.At(a).Migration? && Candidate(w, a, want).page.value == w.At(a).page
  {}

  lemma TraceAt(w0: World, w1: World, w: World, s1: seq<Mpfn>, s: seq<Mpfn>, start: Addr, want: Want,
                faultPage: Option<Pid>, fate: SetupFate, i: nat)
    requires SetupTrace(w0, w1, w, s1, s, start, want, faultPage, fate) && i < |s|
    ensures |s1| == |s| == TotalLen(fate.walk)
    ensures TakenAs(w0, w1, want, start + i, s1[i], KindAt(fate.walk, i), fate.shareFails(start + i))
    ensures Settled(w1, w, s1[i], s[i], faultPage, fate.unmap(i))
  {
    assert s1[i] in s1 && s[i] in s;
    hide SlotsCollected, Slots, TakenAs, Settled, FreeKept;
  }

  lemma TraceDst(w0: World, w1: World, w: World, s1: seq<Mpfn>, s: seq<Mpfn>, start: Addr, want: Want,
                 faultPage: Option<Pid>, fate: SetupFate) returns (d: seq<Mpfn>)
    requires SetupTrace(w0, w1, w, s1, s, start, want, faultPage, fate)
    ensures SlotsCollected(w0, w1, s1, d, start, want) && Slots(w1, s1, d)
  {
    hide SlotsCollected, Slots, WalkTaken, Phase2, FreeKept;
    d :| SlotsCollected(w0, w1, s1, d, start, want) && Slots(w1, s1, d);
  }

  // A page in a slot was found at the slot's address.
  lemma TraceFrom(w0: World, w1: World, w: World, s1: seq<Mpfn>, s: seq<Mpfn>, start: Addr, want: Want,
                  faultPage: Option<Pid>, fate: SetupFate, i: nat)
    requires SetupTrace(w0, w1, w, s1, s, start, want, faultPage, fate) && i < |s| && s[i].page.Some?
    ensures s[i] == Candidate(w0, start + i, want)
  {
    hide SetupTrace, SlotsCollected, Slots, TakenAs, Unmappable, Frozen;
    TraceAt(w0, w1, w, s1, s, start, want, faultPage, fate, i);
    var d := TraceDst(w0, w1, w, s1, s, start, want, faultPage, fate);
    CollectedFrom(w0, w1, s1, d, start, want, i);
  }

  lemma CollectedFrom(w0: World, w1: World, s1: seq<Mpfn>, d: seq<Mpfn>, start: Addr, want: Want, i: nat)
    requires SlotsCollected(w0, w1, s1, d, start, want) && i < |s1| && s1[i].page.Some?
    ensures s1[i] == Candidate(w0, start + i, want)
  {
    assert CollectedAt(w0, w1, want, start + i, s1[i]);
  }

  // Collect changes which addresses map the page at the address it was found.
  lemma CollectedMappers(w0: World, w1: World, s1: seq<Mpfn>, d: seq<Mpfn>, start: Addr, want: Want, a: Addr)
    requires SlotsCollected(w0, w1, s1, d, start, want) && OnlyAt(w0, start, |s1|, a)
    requires start <= a < start + |s1| && (w0.At(a).Present? || w0.At(a).DevicePrivate?)
    requires s1[a - start].On(w0.At(a).page)
    ensures w1.Mappers(w0.At(a).page) == w0.Mappers(w0.At(a).page) - {a}
  {
    var p := w0.At(a).page;
    forall b: Addr ensures b in w1.Mappers(p) <==> b in w0.Mappers(p) && b != a {
      assert (b in w1.Mappers(p) <==> w1.At(b).Maps(p)) && (b in w0.Mappers(p) <==> w0.At(b).Maps(p));
      if start <= b < start + |s1| {
        assert CollectedAt(w0, w1, want, start + (b - start), s1[b - start]);
        assert RefersTo(w0.At(b), w0.At(a)) ==> b == a;
      }
    }
  }

  lemma UnmappableSame(w0: World, w1: World, a: Addr, p: Pid, faultPage: Option<Pid>, fate: UnmapFate)
    requires p in w0.pages && p in w1.pages && w1.pages[p] == w0.pages[p].(lock := w1.pages[p].lock)
    requires w1.Mappers(p) == w0.Mappers(p) - {a}
    ensures Unmappable(w1, p, faultPage, fate) <==> Replaceable(w0, a, p, faultPage, fate)
  {
    hide World.Mappers;
  }

  // A slot whose page is referred to once in the range: it is kept exactly if all can be done.
  lemma SetupPage(w0: World, mem: Mem, w1: World, w: World, s1: seq<Mpfn>, s: seq<Mpfn>, start: Addr, want: Want,
                  faultPage: Option<Pid>, fate: SetupFate, i: nat)
    requires Quiet(w0, mem) && SetupTrace(w0, w1, w, s1, s, start, want, faultPage, fate)
    requires WalkFits(w0, start, fate.walk) && i < |s| && OnlyAt(w0, start, |s|, start + i)
    requires Candidate(w0, start + i, want).page.Some?
    ensures var c := Candidate(w0, start + i, want); var p := c.page.value;
            && |s| == TotalLen(fate.walk)
            && s[i] == (if SlotKept(w0, start + i, p, KindAt(fate.walk, i), faultPage, fate.shareFails(start + i),
                                    fate.unmap(i)) then c else EMPTY)
            && (s[i].page.Some? ==> SameMeta(w0, w, p))
  {
    hide Quiet, SetupTrace, Unmappable, Replaceable, Collectable, OnlyAt, SlotsCollected, Slots, World.Mappers,
         WalkFits;
    CollectedPage(w0, mem, w1, w, s1, s, start, want, faultPage, fate, i);
    TraceAt(w0, w1, w, s1, s, start, want, faultPage, fate, i);
    var d := TraceDst(w0, w1, w, s1, s, start, want, faultPage, fate);
    if s1[i].page.Some? {
      CollectedMappers(w0, w1, s1, d, start, want, start + i);
      UnmappableSame(w0, w1, start + i, s1[i].page.value, faultPage, fate.unmap(i));
    }
  }

  // The driver finds the same pages free as before.
  lemma SetupFree(w0: World, w1: World, w: World, s1: seq<Mpfn>, s: seq<Mpfn>, start: Addr, want: Want,
                  faultPage: Option<Pid>, fate: SetupFate)
    requires SetupTrace(w0, w1, w, s1, s, start, want, faultPage, fate)
    ensures FreeKept(w0, w) && UsedKept(w0, w)
  {
    var d :| SlotsCollected(w0, w1, s1, d, start, want) && Slots(w1, s1, d);
    forall p | p in w0.pages ensures w1.pages[p].refs == w0.pages[p].refs && w1.pages[p].kind == w0.pages[p].kind {
      assert LocksOnly(w0.pages[p], w1.pages[p]);
    }
    hide SlotsCollected, Slots, WalkTaken, Phase2, Carried;
  }

  // Setup carries the pages in use over, and touches no reference of somebody else.
  lemma SetupCarried(w0: World, w1: World, w: World, s1: seq<Mpfn>, s: seq<Mpfn>, start: Addr, want: Want,
                     faultPage: Option<Pid>, fate: SetupFate)
    requires SetupTrace(w0, w1, w, s1, s, start, want, faultPage, fate)
    ensures Carried(w0, w)
  {
    hide SlotsCollected, Slots, WalkTaken, Phase2, Carried, FreeKept, UsedKept;
    var d :| SlotsCollected(w0, w1, s1, d, start, want) && Slots(w1, s1, d);
    CollectedCarried(w0, w1, s1, d, start, want);
    CarriedTrans(w0, w1, w);
  }

  lemma CollectedCarried(w0: World, w: World, s: seq<Mpfn>, d: seq<Mpfn>, start: Addr, want: Want)
    requires SlotsCollected(w0, w, s, d, start, want)
    ensures Carried(w0, w)
  {
    forall p | p in w0.pages ensures w.pages[p] == w0.pages[p].(lock := w.pages[p].lock) {
      assert LocksOnly(w0.pages[p], w.pages[p]);
    }
    forall p | InUse(w0, p) ensures !w.pages[p].lock.DstSlot? && PageCarried(w0.pages[p], w.pages[p]) {
      assert LocksOnly(w0.pages[p], w.pages[p]);
    }
    hide SlotsCollected, InUse;
    CarriedOf(w0, w);
  }

  lemma CollectedSlots(w0: World, w: World, mem: Mem, s: seq<Mpfn>, d: seq<Mpfn>, start: Addr, want: Want)
    requires Collected(w0, w, mem, s, d, start, want)
    ensures SlotsCollected(w0, w, s, d, start, want)
  {}

  // The argument checks, in page units
  predicate ArgsOk(vma: Vma, start: Addr, end: Addr) {
    !vma.unsupported && start < end && vma.start <= start < vma.end && vma.start < end <= vma.end
  }

  predicate FaultOk(w: World, faultPage: Option<Pid>) {
    faultPage.Some? ==> faultPage.value in w.pages && w.pages[faultPage.value].kind.Device?
  }
}
