/**
  hmm.c: one chunk of a migration in either direction, from setup to finalize, with other threads
  running between the stages.
*/
module Commands {
  import opened Kernel
  import opened KernelSteps
  import opened Txn
  import opened Accounts
  import opened MachineState
  import opened MigrateCollect
  import opened MigrateUnmap
  import opened MigrateFinalize
  import opened MigratePages
  import opened MigrateSetup
  import opened Driver
  import opened Environment
  import opened Outcome
  import opened Exactness
  import opened SlotResults
  import opened Conservation

  // ----- between the stages

  lemma EnvKeepsDst(w: World, w': World, vma: Vma, s: seq<Mpfn>, d: seq<Mpfn>)
    requires DeviceDst(w, vma, s, d) && EnvRel(w, w')
    ensures DeviceDst(w', vma, s, d)
  {
    forall i | 0 <= i < |d| && d[i].page.Some? ensures DeviceDstAt(w', vma, s[i], d[i]) {
      assert DeviceDstAt(w, vma, s[i], d[i]);
      assert EnvPage(w, w', d[i].page.value);
    }
  }

  lemma EnvPins(w: World, w': World)
    requires EnvRel(w, w')
    ensures PinsKept(w, w')
  {
    forall p | p in w.pages ensures PinKept(w, w', p) {
      assert EnvPage(w, w', p);
    }
  }

  lemma PagesKeepDst(w0: World, w: World, vma: Vma, place: Option<Place>, s0: seq<Mpfn>, s: seq<Mpfn>, d: seq<Mpfn>,
                     f: Fates)
    requires DeviceDst(w0, vma, s0, d) && PagesRel(w0, w, place, s0, s, d, f, |s|)
    ensures DeviceDst(w, vma, s, d)
  {
    forall i | 0 <= i < |d| && d[i].page.Some? ensures DeviceDstAt(w, vma, s[i], d[i]) {
      assert DeviceDstAt(w0, vma, s0[i], d[i]);
      assert RelSlot(w0, w, place, i, s0[i], s[i], d[i], f, true);
      assert SameBits(w0.pages[d[i].page.value], w.pages[d[i].page.value]);
    }
  }

  lemma SetupToAlloc(w0: World, w: World, mem: Mem, mem': Mem, w': World, s: seq<Mpfn>, d: seq<Mpfn>, start: Addr,
                     want: Want)
    requires SetupDone(w0, w, mem, s, d, start, want) && EnvRel(w, w') && w'.Inv(mem')
    ensures AllocState(w', w', mem', want.vma, PlaceOf(start, want), s, d)
    ensures CopyState(w', w', mem', PlaceOf(start, want), s, d)
    ensures forall i | 0 <= i < |d| :: d[i] == EMPTY
  {
    SetupWrites(w0, s, d, start, want);
    hide PagesState, EnvRel, SetupSlots, SameView, MirrorShrinks, PinsKept, World.Inv;
    EnvKeepsPages(w, w', mem, mem', PlaceOf(start, want), s, d, 0);
    AllocStart(w', mem', want.vma, PlaceOf(start, want), s, d);
    CopyStart(w', mem', PlaceOf(start, want), s, d);
  }

  lemma SetupWrites(w0: World, s: seq<Mpfn>, d: seq<Mpfn>, start: Addr, want: Want)
    requires SetupSlots(w0, s, d, start, want)
    ensures |s| == |d|
    ensures forall j | 0 <= j < |s| && s[j].page == None :: !s[j].write
    ensures forall i | 0 <= i < |d| :: d[i] == EMPTY
  {
    forall j | 0 <= j < |s| && s[j].page == None ensures !s[j].write { assert SetupSlot(w0, want, start + j, s[j]); }
  }

  lemma AllocToPages(w0: World, w: World, mem: Mem, mem': Mem, w': World, vma: Vma, place: Option<Place>,
                     s: seq<Mpfn>, d: seq<Mpfn>)
    requires AllocState(w0, w, mem, vma, place, s, d) && EnvRel(w, w') && w'.Inv(mem')
    ensures PagesState(w', mem', place, s, d, 0) && DeviceDst(w', vma, s, d)
  {
    hide PagesState, EnvRel, DeviceDst, OnlyFresh, World.Inv;
    EnvKeepsPages(w, w', mem, mem', place, s, d, 0);
    EnvKeepsDst(w, w', vma, s, d);
  }

  lemma PagesUnpack(w: World, mem: Mem, place: Option<Place>, s: seq<Mpfn>, d: seq<Mpfn>, k: nat)
    requires PagesState(w, mem, place, s, d, k)
    ensures w.Inv(mem) && Slots(w, s, d) && Kinds(w.pt, w.pages)
  {}

  lemma FinParts(w: World, mem: Mem, s: seq<Mpfn>, d: seq<Mpfn>)
    requires FinState(w, mem, s, d)
    ensures w.Inv(mem) && Slots(w, s, d) && Kinds(w.pt, w.pages) && AllFinalizable(w, s, d) && |s| == |d|
  {}

  lemma SetupParts(w0: World, w: World, mem: Mem, s: seq<Mpfn>, d: seq<Mpfn>, start: Addr, want: Want)
    requires SetupDone(w0, w, mem, s, d, start, want)
    ensures w.Inv(mem) && SameView(w0, w) && PinsKept(w0, w)
  {}

  lemma AllocParts(w0: World, w: World, mem: Mem, vma: Vma, place: Option<Place>, s: seq<Mpfn>, d: seq<Mpfn>)
    requires AllocState(w0, w, mem, vma, place, s, d)
    ensures w.Inv(mem) && OnlyFresh(w0, w) && w.pt == w0.pt
  {}

  // ----- the two halves of a chunk

  method SetupChunk(m: Machine, args: MigrateVma, fate: ChunkFate) returns (ok: bool)
    requires args.m == m && args.src != args.dst && args.src.Length == args.dst.Length
    requires args.start <= args.end && args.end - args.start <= args.src.Length
    requires Quiet(m.w, m.mem) && m.Recorded()
    modifies m, args, args.src, args.dst
    ensures m.Recorded() && old(m.history) <= m.history
    ensures args.end == old(args.end)
    ensures ok <==> ArgsOk(args.want.vma, args.start, args.end) && FaultOk(old(m.w), args.faultPage)
    ensures !ok ==> m.w == old(m.w) && m.mem == old(m.mem) && m.history == old(m.history)
    ensures ok ==>
      var n := args.end - args.start; var s, d := args.src[..n], args.dst[..n]; var place := PlaceOf(args.start, args.want);
      && args.npages == n && (forall i | 0 <= i < n :: args.dst[i] == EMPTY)
      && AllocState(m.w, m.w, m.mem, args.want.vma, place, s, d) && CopyState(m.w, m.w, m.mem, place, s, d)
    ensures ok ==> PinsKept(old(m.w), m.w) && Ledger(old(m.w), old(m.history), m.w, m.history)
    ensures ok ==> FoundAt(old(m.w), args.start, args.src[..args.end - args.start])
    ensures ok && fate.acts1 == [] ==>
      && m.history == old(m.history) && SameView(old(m.w), m.w)
      && Traced(old(m.w), m.w, Job(args.start, args.end - args.start, args.want, args.faultPage, fate),
                args.src[..args.end - args.start])
  {
    hide HeldSpared, MissedSpared, StaysMappable, ActAll, HeldAt, Quiet, SetupDone, AllocState, CopyState, EnvRel,
         SameView, PinsKept, World.Inv, SetupTrace, Traced, Job.Setup, Ledger, PinsExact, FoundAt;
    ghost var w0 := m.w;
    var n := args.end - args.start;
    var job := Job(args.start, n, args.want, args.faultPage, fate);
    ghost var wc, sc;
    ok, wc, sc := MigrateVmaSetup(args, job.Setup(m.w));
    if !ok { return; }
    TracedBy(w0, wc, m.w, job, sc, args.src[..n]);
    TracedPins(w0, m.w, job, args.src[..n]);
    StageBooked(w0, w0, m.w, m.history, m.history);
    ghost var w1, mem1, h1, s, d := m.w, m.mem, m.history, args.src[..n], args.dst[..n];
    DoneFound(w0, w1, mem1, s, d, args.start, args.want);
    SetupParts(w0, w1, mem1, s, d, args.start, args.want);
    Interfere(m, fate.acts1);
    SetupToAlloc(w0, w1, mem1, m.mem, m.w, s, d, args.start, args.want);
    EnvPins(w1, m.w);
    PinsTrans(w0, w1, m.w);
    LedgerTrans(w0, h1, w1, h1, m.w, m.history);
  }

  lemma TracedPins(w0: World, wa: World, job: Job, sa: seq<Mpfn>)
    requires Traced(w0, wa, job, sa)
    ensures PinsExact(w0, wa)
  {
    TracedCarried(w0, wa, job, sa);
    hide Traced, PinsExact;
  }

  // A stage of the migration leaves the books of others as they were.
  lemma StageBooked(w0: World, w: World, w': World, h0: seq<Event>, h: seq<Event>)
    requires PinsExact(w, w') && ((w == w0 && h == h0) || Ledger(w0, h0, w, h))
    ensures Ledger(w0, h0, w', h)
  {
    hide OutsidePins;
    LedgerSelf(w, h);
    LedgerExact(w0, h0, w, h, w');
  }

  // ----- each address of a slot, whatever happens in between

  lemma DoneFound(w0: World, w: World, mem: Mem, s: seq<Mpfn>, d: seq<Mpfn>, start: Addr, want: Want)
    requires SetupDone(w0, w, mem, s, d, start, want)
    ensures FoundAt(w0, start, s)
  {
    hide PagesState, SameView, MirrorShrinks, PinsKept;
    forall i | 0 <= i < |s| && s[i].page.Some?
      ensures w0.At(start + i).Maps(s[i].page.value) && w0.At(start + i).write == s[i].write
    {
      assert SetupSlot(w0, want, start + i, s[i]);
    }
  }

  // It is mapped there again, or the new page is, with the permission it had.
  ghost predicate EndsAt(w: World, start: Addr, s: seq<Mpfn>, d: seq<Mpfn>) {
    |s| == |d| && forall i {:trigger s[i]} | 0 <= i < |s| && s[i].page.Some? ::
      w.At(start + i) == w.MapTo(Target(s[i], d[i]), s[i].write)
  }

  // Each slot that setup kept ends completely old or completely new.
  ghost predicate SlotsEnd(w0: World, w: World, start: Addr, s: seq<Mpfn>, d: seq<Mpfn>) {
    FoundAt(w0, start, s) && EndsAt(w, start, s, d)
  }

  lemma EnvPtes(w: World, w': World, s: seq<Mpfn>, base: Option<Addr>)
    requires SlotPtes(w, s, base) && EnvRel(w, w')
    ensures SlotPtes(w', s, base)
  {
    if base.Some? {
      forall i | 0 <= i < |s| && s[i].page.Some?
        ensures w'.At(base.value + i) == Migration(s[i].page.value, s[i].write)
      {
        assert EnvPte(w, w.At(base.value + i), w'.At(base.value + i));
      }
    }
  }

  lemma StatePtes(w: World, mem: Mem, place: Option<Place>, s: seq<Mpfn>, d: seq<Mpfn>, k: nat)
    requires PagesState(w, mem, place, s, d, k)
    ensures SlotPtes(w, s, BaseOf(place))
  {}

  lemma SlotsFinal(w: World, w': World, mem: Mem, s: seq<Mpfn>, d: seq<Mpfn>, start: Addr)
    requires FinState(w, mem, s, d) && Finalized(w, w', s, d, |s|) && SlotPtes(w, s, Some(start)) && PinsKept(w, w')
    ensures EndsAt(w', start, s, d)
  {
    hide World.Inv, LruHeld, AllFinalizable, MirrorFin;
    forall i | 0 <= i < |s| && s[i].page.Some? ensures w'.At(start + i) == w'.MapTo(Target(s[i], d[i]), s[i].write) {
      SlotHolds(w, s, d, i);
      assert w'.At(start + i) == FinalPte(w, s, d, |s|, w.At(start + i));
      assert PinKept(w, w', Target(s[i], d[i]));
    }
  }

  lemma FoundStays(w0: World, w2: World, w3: World, place: Option<Place>, start: Addr, s0: seq<Mpfn>, s: seq<Mpfn>,
                   d: seq<Mpfn>, f: Fates)
    requires PagesRel(w2, w3, place, s0, s, d, f, |s|) && FoundAt(w0, start, s0)
    ensures FoundAt(w0, start, s)
  {
    hide PinsExact, SameBackers, OthersSame, PagesAfter, PinsKept, SameStorage, PteAfter;
    forall i | 0 <= i < |s| && s[i].page.Some?
      ensures w0.At(start + i).Maps(s[i].page.value) && w0.At(start + i).write == s[i].write
    {
      assert RelSlot(w2, w3, place, i, s0[i], s[i], d[i], f, true);
    }
  }

  // ----- the last stages of a migration to the device

  // The tags as they are in dst
  predicate DstTags(mirror: map<Addr, Entry>, start: Addr, s: seq<Mpfn>, d: seq<Mpfn>, after: seq<Action>) {
    |s| == |d| && forall i | 0 <= i < |s| && Stores(s[i], d[i]) && NoneBefore(after, start + i) ::
      start + i in mirror && mirror[start + i].tag == if d[i].write then WriteTag else Untagged
  }

  lemma TagsMean(w0: World, w: World, mirror: map<Addr, Entry>, place: Place, s: seq<Mpfn>, d: seq<Mpfn>,
                 after: seq<Action>)
    requires DstTags(mirror, place.start, s, d, after) && FoundAt(w0, place.start, s) && DeviceDst(w, place.vma, s, d)
    ensures TagsStored(w0, mirror, place.start, place.vma, s, d, after)
  {
    forall i | 0 <= i < |s| && Stores(s[i], d[i]) && NoneBefore(after, place.start + i)
      ensures d[i].write == MayWrite(w0, place.vma, place.start + i, s[i])
    {
      assert DeviceDstAt(w, place.vma, s[i], d[i]);
    }
  }

  lemma StoredTags(w: World, place: Place, s: seq<Mpfn>, d: seq<Mpfn>)
    requires StoredUpTo(w, place, s, d, |s|)
    ensures DstTags(w.mirror, place.start, s, d, [])
  {}

  lemma StoresHeld(w: World, mem: Mem, place: Place, s: seq<Mpfn>, d: seq<Mpfn>)
    requires PagesState(w, mem, Some(place), s, d, |s|) && DeviceDst(w, place.vma, s, d)
    ensures |s| == |d| && forall i | 0 <= i < |s| && Stores(s[i], d[i]) :: HeldAt(w, place.start + i)
  {
    hide World.Inv, LruHeld, MirrorHome, MirrorMid;
    forall i | 0 <= i < |s| && Stores(s[i], d[i]) ensures HeldAt(w, place.start + i) {
      SlotHolds(w, s, d, i);
      assert SlotMoved(w, Some(place), i, s[i], d[i]);
    }
  }

  lemma TagsLeft(w: World, w': World, place: Place, s: seq<Mpfn>, d: seq<Mpfn>, after: seq<Action>)
    requires DstTags(w.mirror, place.start, s, d, []) && HeldSpared(w, w', after)
    requires forall i | 0 <= i < |s| && Stores(s[i], d[i]) :: HeldAt(w, place.start + i)
    ensures DstTags(w'.mirror, place.start, s, d, after)
  {
    hide HeldAt;
    forall i | 0 <= i < |s| && Stores(s[i], d[i]) && NoneBefore(after, place.start + i)
      ensures EntryKept(w, w', place.start + i) {}
  }

  lemma HeldPages(w: World, w': World, a: Addr)
    requires w'.pt == w.pt && w'.pages == w.pages
    ensures HeldAt(w', a) <==> HeldAt(w, a)
  {}

  method DeviceRest(m: Machine, src: array<Mpfn>, dst: array<Mpfn>, n: nat, place: Place, fate: ChunkFate,
                    ghost w0: World, ghost wa: World)
    returns (ghost w3: World, ghost w4: World)
    requires src != dst && n <= src.Length == dst.Length && m.Recorded()
    requires AllocState(wa, m.w, m.mem, place.vma, Some(place), src[..n], dst[..n])
    modifies m, src
    ensures Quiet(m.w, m.mem) && m.Recorded() && old(m.history) <= m.history
    ensures Ledger(old(m.w), old(m.history), m.w, m.history)
    ensures FoundAt(w0, place.start, old(src[..n])) ==>
      && SlotsEnd(w0, m.w, place.start, src[..n], dst[..n])
      && TagsStored(w0, m.w.mirror, place.start, place.vma, src[..n], dst[..n], fate.acts4)
    ensures PinsKept(old(m.w), m.w)
    ensures fate.Undisturbed() ==>
      && m.history == old(m.history) && AllOrNothing(old(m.w), m.w, Moves(src[..n], dst[..n]), Some(place), n)
      && Stages(old(m.w), w3, w4, m.w, Some(place), old(src[..n]), src[..n], dst[..n], Fates(None, fate.pages))
  {
    hide TagsStored, DstTags, HeldSpared, HeldAt, MissedSpared, StaysMappable, ActAll, Stages, Ledger, PinsExact,
         Ended, FoundAt, EndsAt, SlotPtes, SlotsEnd;
    hide Quiet, AllocState, EnvRel, PagesState, PagesRel, FinState, Finalized, AllOrNothing, DeviceDst, StoredUpTo,
         PinsKept, World.Inv, Moves, Kinds, Slots, AllFinalizable, OnlyFresh;
    ghost var wb, memb, h0, s0, d := m.w, m.mem, m.history, src[..n], dst[..n];
    var f := Fates(None, fate.pages);
    AllocParts(wa, wb, memb, place.vma, Some(place), s0, d);
    Interfere(m, fate.acts2);
    AllocToPages(wa, wb, memb, m.mem, m.w, place.vma, Some(place), s0, d);
    ghost var w2 := m.w;
    MigrateDevicePages(m, src, dst, n, Some(place), f);
    ghost var mem3, h3, s := m.mem, m.history, src[..n];
    w3 := m.w;
    RelBooked(wb, w2, w3, h0, h3, Some(place), s0, s, d, f);
    PagesKeepDst(w2, w3, place.vma, Some(place), s0, s, d, f);
    PagesUnpack(w3, mem3, Some(place), s, d, n);
    StatePtes(w3, mem3, Some(place), s, d, n);
    Interfere(m, fate.acts3);
    LedgerTrans(wb, h0, w3, h3, m.w, m.history);
    EnvKeepsPages(w3, m.w, mem3, m.mem, Some(place), s, d, n);
    EnvPtes(w3, m.w, s, Some(place.start));
    EnvKeepsDst(w3, m.w, place.vma, s, d);
    ghost var w3' := m.w;
    StoresHeld(w3', m.mem, place, s, d);
    FinalizeAndMap(m, src, dst, n, place);
    ghost var mem4, h4 := m.mem, m.history;
    w4 := m.w;
    MapBooked(wb, w3', w4, h0, h4, s, Some(place.start));
    StoredTags(w4, place, s, d);
    FinParts(w4, mem4, s, d);
    forall i | 0 <= i < |s| && Stores(s[i], d[i]) ensures HeldAt(w4, place.start + i) {
      HeldPages(w3', w4, place.start + i);
    }
    Interfere(m, fate.acts4);
    TagsLeft(w4, m.w, place, s, d, fate.acts4);
    LedgerTrans(wb, h0, w4, h4, m.w, m.history);
    EnvPtes(w4, m.w, s, Some(place.start));
    EnvKeepsFin(w4, m.w, mem4, m.mem, s, d);
    ghost var w5, mem5 := m.w, m.mem;
    MigrateDeviceFinalize(m, src, dst, n);
    EndBooked(wb, w5, m.w, h0, m.history);
    assert m.w.mirror == w5.mirror;
    SlotsFinal(w5, m.w, mem5, s, d, place.start);
    if FoundAt(w0, place.start, s0) {
      FoundStays(w0, w2, w3, Some(place), place.start, s0, s, d, f);
      TagsMean(w0, w3', m.w.mirror, place, s, d, fate.acts4);
    }
    SlotsBoth(w0, m.w, place.start, s, d);
    StagePins(wb, w2, w3, w3', w4, w5, m.w, Some(place), s0, s, d, f);
    if fate.Undisturbed() {
      UndisturbedMove(w2, w3, w4, m.w, mem4, Some(place), s0, s, d, f);
    }
  }

  lemma SlotsBoth(w0: World, w: World, start: Addr, s: seq<Mpfn>, d: seq<Mpfn>)
    ensures FoundAt(w0, start, s) && EndsAt(w, start, s, d) ==> SlotsEnd(w0, w, start, s, d)
  {
    hide FoundAt, EndsAt;
  }

  lemma RelBooked(w0: World, w2: World, w3: World, h0: seq<Event>, h: seq<Event>, place: Option<Place>, s0: seq<Mpfn>,
                  s: seq<Mpfn>, d: seq<Mpfn>, f: Fates)
    requires Ledger(w0, h0, w2, h) && PagesRel(w2, w3, place, s0, s, d, f, |s|)
    ensures Ledger(w0, h0, w3, h)
  {
    hide Ledger, PinsExact, SameBackers, OthersSame, PagesAfter, PinsKept, SameStorage, PteAfter;
    LedgerExact(w0, h0, w2, h, w3);
  }

  lemma MapBooked(w0: World, w: World, w': World, h0: seq<Event>, h: seq<Event>, s: seq<Mpfn>, base: Option<Addr>)
    requires Ledger(w0, h0, w, h) && w' == w.(mirror := w'.mirror) && SlotPtes(w, s, base)
    ensures Ledger(w0, h0, w', h) && SlotPtes(w', s, base)
  {
    hide OutsidePins;
  }

  lemma EndBooked(w0: World, w: World, w': World, h0: seq<Event>, h: seq<Event>)
    requires Ledger(w0, h0, w, h) && Ended(w, w')
    ensures Ledger(w0, h0, w', h)
  {
    hide OutsidePins, NotBacking;
    LedgerExact(w0, h0, w, h, w');
  }

  lemma UndisturbedMove(w2: World, w3: World, w4: World, w5: World, mem: Mem, place: Option<Place>,
                        s0: seq<Mpfn>, s: seq<Mpfn>, d: seq<Mpfn>, f: Fates)
    requires |s0| == |s| == |d| && PagesRel(w2, w3, place, s0, s, d, f, |s|) && w4 == w3.(mirror := w4.mirror)
    requires FinState(w4, mem, s, d) && Finalized(w4, w5, s, d, |s|) && Ended(w4, w5)
    requires Kinds(w3.pt, w3.pages) && Slots(w3, s, d)
    ensures AllOrNothing(w2, w5, Moves(s, d), place, |s|) && Stages(w2, w3, w4, w5, place, s0, s, d, f)
  {
    FinBacked(w4, mem, s, d);
    FinalizableMirror(w3, w4, mem, s, d);
    hide Ended, Backed, FinState, AllFinalizable, PagesRel, Finalized, Kinds, Slots, AllOrNothing;
    StagesMove(w2, w3, w4, w5, place, s0, s, d, f);
  }

  lemma FinBacked(w: World, mem: Mem, s: seq<Mpfn>, d: seq<Mpfn>)
    requires FinState(w, mem, s, d)
    ensures Backed(w.pages)
  {}

  lemma FinalizableMirror(w3: World, w4: World, mem: Mem, s: seq<Mpfn>, d: seq<Mpfn>)
    requires FinState(w4, mem, s, d) && w4 == w3.(mirror := w4.mirror)
    ensures AllFinalizable(w3, s, d)
  {
    MappersOfPt(w4, w3);
    hide World.Inv, Slots, LruHeld, MirrorFin, World.Mappers;
    forall i | 0 <= i < |d| ensures Finalizable(w3, s[i], d[i]) { assert Finalizable(w4, s[i], d[i]); }
  }

  // ----- one chunk to the device

  method ChunkToDevice(m: Machine, vma: Vma, start: Addr, end: Addr, owner: nat, src: array<Mpfn>, dst: array<Mpfn>,
                       fate: ChunkFate)
    returns (ok: bool)
    requires src != dst && src.Length == dst.Length && start <= end && end - start <= src.Length
    requires Quiet(m.w, m.mem) && m.Recorded()
    modifies m, src, dst
    ensures Quiet(m.w, m.mem) && m.Recorded() && old(m.history) <= m.history
    ensures Ledger(old(m.w), old(m.history), m.w, m.history)
    ensures ok ==> SlotsEnd(old(m.w), m.w, start, src[..end - start], dst[..end - start])
    ensures ok ==> TagsStored(old(m.w), m.w.mirror, start, vma, src[..end - start], dst[..end - start], fate.acts4)
    ensures PinsKept(old(m.w), m.w)
    ensures ok <==> ArgsOk(vma, start, end)
    ensures !ok ==> m.w == old(m.w) && m.history == old(m.history)
    ensures ok && fate.Undisturbed() ==>
      && m.history == old(m.history)
      && AllOrNothing(old(m.w), m.w, Moves(src[..end - start], dst[..end - start]), Some(Place(start, vma)), end - start)
      && DeviceSlots(old(m.w), m.w, start, vma, owner, fate, dst[..end - start])
      && JobExact(old(m.w), m.w, Job(start, end - start, Want(vma, SelectSystem, owner), None, fate),
                  src[..end - start], dst[..end - start])
      && BooksExact(old(m.w), m.w, Moves(src[..end - start], dst[..end - start]))
  {
    hide Ledger, SlotsEnd, FoundAt, BooksExact, Carried, SlotsReady, FreshDst, Quiet, AllocState, AllOrNothing,
         SameView, PinsKept, CopyState, Moves, TagsStored, DeviceSlots, Traced, Stages, FilledUpTo, JobExact,
         OnlyFresh, World.Inv;
    ghost var w0, mem0 := m.w, m.mem;
    var n, place := end - start, Place(start, vma);
    var args := new MigrateVma(m, Want(vma, SelectSystem, owner), None, start, end, src, dst);
    ghost var h0 := m.history;
    ok := SetupChunk(m, args, fate);
    if !ok {
      ChunkSelf(w0);
      LedgerSelf(w0, h0);
      return;
    }
    ghost var wa, mema, ha, sa := m.w, m.mem, m.history, src[..n];
    AllocLive(wa, m.mem, vma, Some(place), sa, dst[..n]);
    AllocParts(wa, wa, mema, vma, Some(place), sa, dst[..n]);
    AllocAndCopy(m, src, dst, n, vma, owner, Some(place), fate.source);
    ghost var w2 := m.w;
    AllocParts(wa, w2, m.mem, vma, Some(place), src[..n], dst[..n]);
    AllocReady(wa, w2, mema, vma, Some(place), ToDevice(owner, vma.writable), fate.source, src[..n], dst[..n]);
    FreshBooked(w0, wa, w2, h0, ha);
    FreshPins(wa, w2, mema);
    PinsTrans(w0, wa, w2);
    ghost var w3, w4 := DeviceRest(m, src, dst, n, place, fate, w0, wa);
    PinsTrans(w0, w2, m.w);
    LedgerTrans(w0, h0, w2, ha, m.w, m.history);
    if fate.Undisturbed() {
      ghost var job := Job(start, n, Want(vma, SelectSystem, owner), None, fate);
      JobDone(w0, mem0, wa, w2, w3, w4, m.w, job, sa, src[..n], dst[..n]);
      ViewPt(w0, wa, w2);
      AllOrNothingFrom(w0, w2, m.w, Moves(src[..n], dst[..n]), Some(place), n);
      CarriedToAlloc(w0, wa, w2, job, sa);
      BooksDone(w0, mem0, w2, w3, w4, m.w, m.mem, Some(place), sa, src[..n], dst[..n], Fates(None, fate.pages));
      DeviceResults(w0, m.w, mem0, m.mem, job, src[..n], dst[..n]);
    }
  }

  lemma DeviceResults(w: World, w': World, mem: Mem, mem': Mem, job: Job, s: seq<Mpfn>, d: seq<Mpfn>)
    requires Quiet(w, mem) && Quiet(w', mem') && PinsKept(w, w') && job.want.select.SelectSystem?
    requires job.faultPage == None
    requires JobExact(w, w', job, s, d) && AllOrNothing(w, w', Moves(s, d), job.Place(), job.n)
    requires SlotsEnd(w, w', job.start, s, d) && TagsStored(w, w'.mirror, job.start, job.want.vma, s, d, [])
    ensures DeviceSlots(w, w', job.start, job.want.vma, job.want.owner, job.fate, d)
  {
    hide Quiet, PinsKept, JobExact, AllOrNothing, FoundAt, EndsAt, TagsStored;
    DeviceSlotsDone(w, w', mem, mem', job, s, d);
  }

  lemma CarriedToAlloc(w0: World, wa: World, w2: World, job: Job, sa: seq<Mpfn>)
    requires Traced(w0, wa, job, sa) && OnlyFresh(wa, w2)
    ensures Carried(w0, w2)
  {
    hide Traced, Carried;
    TracedCarried(w0, wa, job, sa);
    CarriedTrans(w0, wa, w2);
  }

  lemma FreshBooked(w0: World, wa: World, w2: World, h0: seq<Event>, h: seq<Event>)
    requires Ledger(w0, h0, wa, h) && OnlyFresh(wa, w2)
    ensures Ledger(w0, h0, w2, h)
  {
    hide Ledger, PinsExact;
    LedgerExact(w0, h0, wa, h, w2);
  }

  // Nobody but the slot holds a page that the driver allocated.
  lemma FilledFresh(wa: World, w2: World, mem: Mem, dir: Direction, alloc: nat -> Option<Source>, s: seq<Mpfn>,
                    d: seq<Mpfn>)
    requires wa.Inv(mem) && FilledUpTo(wa, dir, alloc, s, d, |d|) && OnlyFresh(wa, w2)
    ensures FreshDst(w2, d)
  {
    hide World.Inv, OutsidePins;
    forall i | 0 <= i < |d| && d[i].page.Some?
      ensures d[i].page.value in w2.pages && OutsidePins(w2.pages, d[i].page.value) == 0
    {
      FilledAt(wa, dir, alloc, s, d, i);
      FilledPins(wa, mem, dir, alloc, d, i);
    }
  }

  lemma FilledPins(w: World, mem: Mem, dir: Direction, alloc: nat -> Option<Source>, d: seq<Mpfn>, i: nat)
    requires w.Inv(mem) && Supplied(w, dir, alloc, d, i)
    ensures alloc(i).Some? && alloc(i).value.q in w.pages && OutsidePins(w.pages, alloc(i).value.q) == 0
  {
    FreeUnmapped(w, alloc(i).value.q);
    hide Unspent, World.Inv;
  }

  lemma StateReady(w: World, mem: Mem, place: Option<Place>, s: seq<Mpfn>, d: seq<Mpfn>)
    requires PagesState(w, mem, place, s, d, 0)
    ensures SlotsReady(w, s, d)
  {
    hide World.Inv, LruHeld, MirrorMid, MirrorHome, SlotPtes;
    forall i | 0 <= i < |s| && s[i].page.Some? ensures s[i].migrate { assert SlotReady(w, s[i], d[i]); }
  }

  lemma AllocReady(wa: World, w2: World, mema: Mem, vma: Vma, place: Option<Place>, dir: Direction,
                   alloc: nat -> Option<Source>, s: seq<Mpfn>, d: seq<Mpfn>)
    requires wa.Inv(mema) && AllocState(wa, w2, mema, vma, place, s, d) && FilledUpTo(wa, dir, alloc, s, d, |d|)
    ensures SlotsReady(w2, s, d) && FreshDst(w2, d)
  {
    hide World.Inv, PagesState, OnlyFresh, FilledUpTo, FreshDst, SlotsReady;
    StateReady(w2, mema, place, s, d);
    FilledFresh(wa, w2, mema, dir, alloc, s, d);
  }

  lemma CopyReady(wa: World, w2: World, mema: Mem, place: Option<Place>, alloc: nat -> Option<Source>, s: seq<Mpfn>,
                  d: seq<Mpfn>)
    requires wa.Inv(mema) && CopyState(wa, w2, mema, place, s, d) && FilledUpTo(wa, ToSystem, alloc, s, d, |d|)
    ensures SlotsReady(w2, s, d) && FreshDst(w2, d)
  {
    hide World.Inv, PagesState, OnlyFresh, FilledUpTo, FreshDst, SlotsReady;
    StateReady(w2, mema, place, s, d);
    FilledFresh(wa, w2, mema, ToSystem, alloc, s, d);
  }

  lemma AllocLive(w: World, mem: Mem, vma: Vma, place: Option<Place>, s: seq<Mpfn>, d: seq<Mpfn>)
    requires AllocState(w, w, mem, vma, place, s, d)
    ensures AllLive(w, s)
  {
    SlotsLive(w, mem, s, d);
  }

  lemma ViewPt(w0: World, w1: World, w2: World)
    requires SameView(w0, w1) && w2.pt == w1.pt
    ensures SameView(w0, w2)
  {
    forall a: Addr ensures SameRef(w0.At(a), w2.At(a)) { assert SameRef(w0.At(a), w1.At(a)); }
  }

  // ----- going to the system

  // Slots with a new page hold a device page and have no mirror entry
  ghost predicate Erased(w: World, place: Option<Place>, s: seq<Mpfn>, d: seq<Mpfn>) {
    && SystemTargets(w, s, d)
    && (place.Some? ==> forall i {:trigger d[i]} | 0 <= i < |d| && d[i].page.Some? :: place.value.start + i !in w.mirror)
  }

  lemma ErasedMirror(w: World, place: Option<Place>, s: seq<Mpfn>, d: seq<Mpfn>)
    requires Erased(w, place, s, d)
    ensures place.Some? ==> Unmirrored(w.mirror, place.value.start, d)
  {}

  lemma CopyToPages(w0: World, w: World, mem: Mem, mem': Mem, w': World, place: Option<Place>, s: seq<Mpfn>,
                    d: seq<Mpfn>)
    requires CopyState(w0, w, mem, place, s, d) && EnvRel(w, w') && w'.Inv(mem')
    ensures PagesState(w', mem', place, s, d, 0) && Erased(w', place, s, d)
    ensures place == None ==> NoOrphans(s, d, 0)
  {
    assert Erased(w, place, s, d);
    EnvErased(w, w', place, s, d);
    hide PagesState, EnvRel, OnlyFresh, World.Inv, SystemDst;
    EnvKeepsPages(w, w', mem, mem', place, s, d, 0);
  }

  lemma EnvErased(w: World, w': World, place: Option<Place>, s: seq<Mpfn>, d: seq<Mpfn>)
    requires Erased(w, place, s, d) && EnvRel(w, w')
    ensures Erased(w', place, s, d)
  {
    forall i | 0 <= i < |d| && d[i].page.Some? ensures IsDevicePage(w', s[i].page) && IsSystemPage(w', d[i].page) {
      assert EnvPage(w, w', s[i].page.value) && EnvPage(w, w', d[i].page.value);
    }
  }

  lemma PagesErased(w0: World, w: World, place: Option<Place>, s0: seq<Mpfn>, s: seq<Mpfn>, d: seq<Mpfn>, f: Fates)
    requires Erased(w0, place, s0, d) && PagesRel(w0, w, place, s0, s, d, f, |s|)
    ensures Erased(w, place, s, d)
  {
    forall i | 0 <= i < |d| && d[i].page.Some? ensures IsDevicePage(w, s[i].page) && IsSystemPage(w, d[i].page) {
      assert RelSlot(w0, w, place, i, s0[i], s[i], d[i], f, true);
      assert SameBits(w0.pages[s0[i].page.value], w.pages[s0[i].page.value]);
      assert SameBits(w0.pages[d[i].page.value], w.pages[d[i].page.value]);
    }
  }

  lemma CopyParts(w0: World, w: World, mem: Mem, place: Option<Place>, s: seq<Mpfn>, d: seq<Mpfn>)
    requires CopyState(w0, w, mem, place, s, d)
    ensures w.Inv(mem) && OnlyFresh(w0, w) && w.pt == w0.pt
  {}

  // A pinned page is live, so taking fresh pages leaves it alone.
  lemma FreshPins(w0: World, w: World, mem: Mem)
    requires w0.Inv(mem) && OnlyFresh(w0, w)
    ensures PinsKept(w0, w)
  {
    forall p | p in w0.pages ensures PinKept(w0, w, p) {
      assert w0.BalancedAt(p);
    }
  }

  method SystemRest(m: Machine, src: array<Mpfn>, dst: array<Mpfn>, n: nat, place: Option<Place>,
                    faultPage: Option<Pid>,
                    fate: ChunkFate, ghost w0: World, ghost wa: World)
    returns (cpages: nat, ghost w3: World, ghost w4: World)
    requires src != dst && n <= src.Length == dst.Length && m.Recorded()
    requires CopyState(wa, m.w, m.mem, place, src[..n], dst[..n])
    modifies m, src
    ensures Quiet(m.w, m.mem) && m.Recorded() && old(m.history) <= m.history && PinsKept(old(m.w), m.w)
    ensures Ledger(old(m.w), old(m.history), m.w, m.history)
    ensures place.Some? && FoundAt(w0, place.value.start, old(src[..n])) ==>
      SlotsEnd(w0, m.w, place.value.start, src[..n], dst[..n])
    ensures place.Some? ==> Unmirrored(m.w.mirror, place.value.start, dst[..n])
    ensures cpages == |Moves(src[..n], dst[..n])|
    ensures fate.Undisturbed() ==>
      && m.history == old(m.history) && AllOrNothing(old(m.w), m.w, Moves(src[..n], dst[..n]), place, n)
      && Stages(old(m.w), w3, w4, m.w, place, old(src[..n]), src[..n], dst[..n], Fates(faultPage, fate.pages))
    ensures fate.Undisturbed() && place.Some? ==>
      SystemMove(old(m.w), m.w, Moves(src[..n], dst[..n]), place.value.start, n)
  {
    hide HeldSpared, MissedSpared, StaysMappable, ActAll, HeldAt, SystemMove, SystemTargets, SlotPtes, Stages, Ledger,
         PinsExact, Ended, FoundAt, EndsAt, SlotsEnd;
    hide Quiet, CopyState, EnvRel, PagesState, PagesRel, FinState, Finalized, AllOrNothing, PinsKept, World.Inv,
         Moves, Kinds, Slots, AllFinalizable, OnlyFresh, Erased, NoOrphans, Unmirrored;
    ghost var wb, memb, h0, s0, d := m.w, m.mem, m.history, src[..n], dst[..n];
    var f := Fates(faultPage, fate.pages);
    CopyParts(wa, wb, memb, place, s0, d);
    CopyPtes(wa, wb, memb, place, s0, d);
    Interfere(m, fate.acts2);
    CopyToPages(wa, wb, memb, m.mem, m.w, place, s0, d);
    ghost var w2 := m.w;
    MigrateDevicePages(m, src, dst, n, place, f);
    ghost var mem3, h3, s := m.mem, m.history, src[..n];
    w3 := m.w;
    RelBooked(wb, w2, w3, h0, h3, place, s0, s, d, f);
    PagesErased(w2, w3, place, s0, s, d, f);
    PagesUnpack(w3, mem3, place, s, d, n);
    StatePtes(w3, mem3, place, s, d, n);
    Interfere(m, fate.acts3);
    LedgerTrans(wb, h0, w3, h3, m.w, m.history);
    EnvKeepsPages(w3, m.w, mem3, m.mem, place, s, d, n);
    EnvPtes(w3, m.w, s, BaseOf(place));
    EnvErased(w3, m.w, place, s, d);
    cpages := SuccessfulPages(src, n);
    CountIsMoves(w2, w3, place, s0, s, d, f);
    ghost var mem4, h4 := m.mem, m.history;
    w4 := m.w;
    ErasedFin(w4, mem4, place, s, d);
    FinParts(w4, mem4, s, d);
    Interfere(m, fate.acts4);
    LedgerTrans(wb, h0, w4, h4, m.w, m.history);
    EnvPtes(w4, m.w, s, BaseOf(place));
    EnvKeepsFin(w4, m.w, mem4, m.mem, s, d);
    EnvErased(w4, m.w, place, s, d);
    ErasedMirror(m.w, place, s, d);
    ghost var w5, mem5 := m.w, m.mem;
    MigrateDeviceFinalize(m, src, dst, n);
    EndBooked(wb, w5, m.w, h0, m.history);
    StagePins(wb, w2, w3, w4, w4, w5, m.w, place, s0, s, d, f);
    if place.Some? { SystemEnds(w0, w2, w3, w5, m.w, mem5, place.value, s0, s, d, f); }
    if fate.Undisturbed() {
      UndisturbedMove(w2, w3, w4, m.w, mem4, place, s0, s, d, f);
      if place.Some? {
        UndisturbedConvert(w2, w3, w4, m.w, mem4, place.value, s0, s, d, f);
      }
    }
  }

  lemma SystemEnds(w0: World, w2: World, w3: World, w5: World, w6: World, mem5: Mem, place: Place, s0: seq<Mpfn>,
                    s: seq<Mpfn>, d: seq<Mpfn>, f: Fates)
    requires PagesRel(w2, w3, Some(place), s0, s, d, f, |s|) && FinState(w5, mem5, s, d) && Finalized(w5, w6, s, d, |s|)
    requires SlotPtes(w5, s, Some(place.start)) && PinsKept(w5, w6)
    ensures FoundAt(w0, place.start, s0) ==> SlotsEnd(w0, w6, place.start, s, d)
  {
    hide PagesRel, FinState, Finalized, SlotPtes, PinsKept, FoundAt, EndsAt, SlotsEnd;
    SlotsFinal(w5, w6, mem5, s, d, place.start);
    if FoundAt(w0, place.start, s0) {
      FoundStays(w0, w2, w3, Some(place), place.start, s0, s, d, f);
      SlotsBoth(w0, w6, place.start, s, d);
    }
  }

  lemma CopyPtes(w0: World, w: World, mem: Mem, place: Option<Place>, s: seq<Mpfn>, d: seq<Mpfn>)
    requires CopyState(w0, w, mem, place, s, d)
    ensures SlotPtes(w, s, BaseOf(place))
  {}

  lemma UndisturbedConvert(w2: World, w3: World, w4: World, w5: World, mem: Mem, place: Place,
                           s0: seq<Mpfn>, s: seq<Mpfn>, d: seq<Mpfn>, f: Fates)
    requires |s0| == |s| == |d| && PagesRel(w2, w3, Some(place), s0, s, d, f, |s|) && w4 == w3.(mirror := w4.mirror)
    requires FinState(w4, mem, s, d) && Finalized(w4, w5, s, d, |s|) && Ended(w4, w5)
    requires Kinds(w3.pt, w3.pages) && Slots(w3, s, d)
    requires Erased(w3, Some(place), s, d) && SlotPtes(w2, s0, Some(place.start))
    ensures SystemMove(w2, w5, Moves(s, d), place.start, |s|)
  {
    FinBacked(w4, mem, s, d);
    FinalizableMirror(w3, w4, mem, s, d);
    hide Ended, Backed, FinState, AllFinalizable, PagesRel, Finalized, Kinds, Slots, SlotPtes, SystemTargets,
         SystemMove, Moves;
    StagesConvert(w2, w3, w4, w5, place, s0, s, d, f);
  }

  // Kinds and the pins of device pages, through all stages; between v and w4 only the mirror changes
  lemma StagePins(wb: World, w2: World, w3: World, v: World, w4: World, w5: World, w6: World, place: Option<Place>,
                  s0: seq<Mpfn>, s: seq<Mpfn>, d: seq<Mpfn>, f: Fates)
    requires EnvRel(wb, w2) && PagesRel(w2, w3, place, s0, s, d, f, |s|) && EnvRel(w3, v) && EnvRel(w4, w5)
    requires w4 == v.(mirror := w4.mirror) && PinsKept(w5, w6)
    ensures PinsKept(wb, w6)
  {
    RelPinsKept(w2, w3, place, s0, s, d, f);
    hide EnvRel, PagesRel;
    EnvPins(wb, w2);
    EnvPins(w3, v);
    EnvPins(w4, w5);
    SamePagesPins(v, w4);
    hide PinsKept;
    PinsTrans(wb, w2, w3);
    PinsTrans(wb, w3, v);
    PinsTrans(wb, v, w4);
    PinsTrans(wb, w4, w5);
    PinsTrans(wb, w5, w6);
  }

  lemma SamePagesPins(w: World, w': World)
    requires w' == w.(mirror := w'.mirror)
    ensures PinsKept(w, w')
  {}

  lemma RelPinsKept(w2: World, w3: World, place: Option<Place>, s0: seq<Mpfn>, s: seq<Mpfn>, d: seq<Mpfn>, f: Fates)
    requires PagesRel(w2, w3, place, s0, s, d, f, |s|)
    ensures PinsKept(w2, w3)
  {}

  lemma ErasedFin(w: World, mem: Mem, place: Option<Place>, s: seq<Mpfn>, d: seq<Mpfn>)
    requires PagesState(w, mem, place, s, d, |s|) && Erased(w, place, s, d)
    ensures FinState(w, mem, s, d)
  {
    hide PagesState, FinState;
    SystemFin(w, mem, place, s, d);
  }

  lemma CountIsMoves(w2: World, w3: World, place: Option<Place>, s0: seq<Mpfn>, s: seq<Mpfn>, d: seq<Mpfn>, f: Fates)
    requires PagesRel(w2, w3, place, s0, s, d, f, |s|) && Slots(w3, s, d)
    ensures |Moves(s, d)| == |SuccessSet(s)|
  {
    PagesBacked(w2, w3, place, s0, s, d, f);
    SlotsDistinct(w3, s, d);
    MovesCount(s, d);
  }

  method ChunkToSystem(m: Machine, vma: Vma, start: Addr, end: Addr, owner: nat, faultPage: Option<Pid>,
                       src: array<Mpfn>, dst: array<Mpfn>, fate: ChunkFate)
    returns (ok: bool, cpages: nat)
    requires src != dst && src.Length == dst.Length && start <= end && end - start <= src.Length
    requires Quiet(m.w, m.mem) && m.Recorded()
    modifies m, src, dst
    ensures Quiet(m.w, m.mem) && m.Recorded() && old(m.history) <= m.history && PinsKept(old(m.w), m.w)
    ensures ok <==> ArgsOk(vma, start, end) && FaultOk(old(m.w), faultPage)
    ensures !ok ==> m.w == old(m.w) && m.history == old(m.history)
    ensures Ledger(old(m.w), old(m.history), m.w, m.history)
    ensures ok ==> SlotsEnd(old(m.w), m.w, start, src[..end - start], dst[..end - start])
    ensures ok ==> Unmirrored(m.w.mirror, start, dst[..end - start])
    ensures ok ==> cpages == |Moves(src[..end - start], dst[..end - start])|
    ensures ok && fate.Undisturbed() ==>
      && m.history == old(m.history)
      && AllOrNothing(old(m.w), m.w, Moves(src[..end - start], dst[..end - start]), Some(Place(start, vma)), end - start)
      && SystemMove(old(m.w), m.w, Moves(src[..end - start], dst[..end - start]), start, end - start)
      && SystemSlots(old(m.w), m.w, start, owner, faultPage, fate, dst[..end - start])
      && JobExact(old(m.w), m.w, Job(start, end - start, Want(vma, SelectDevicePrivate, owner), faultPage, fate),
                  src[..end - start], dst[..end - start])
      && BooksExact(old(m.w), m.w, Moves(src[..end - start], dst[..end - start]))
  {
    hide SystemSlots, Unmirrored, Ledger, SlotsEnd, FoundAt, BooksExact, Carried, SlotsReady, FreshDst, Quiet,
         AllocState, AllOrNothing, SameView, PinsKept, CopyState, Moves, World.Inv, OnlyFresh, SystemMove, Traced,
         Stages, FilledUpTo, JobExact;
    cpages := 0;
    ghost var w0, mem0 := m.w, m.mem;
    var n, place := end - start, Place(start, vma);
    var args := new MigrateVma(m, Want(vma, SelectDevicePrivate, owner), faultPage, start, end, src, dst);
    ghost var h0 := m.history;
    ok := SetupChunk(m, args, fate);
    if !ok {
      ChunkSelf(w0);
      LedgerSelf(w0, h0);
      return;
    }
    ghost var wa, mema, ha, sa := m.w, m.mem, m.history, src[..n];
    CopyParts(wa, wa, mema, Some(place), src[..n], dst[..n]);
    CopyLive(wa, mema, Some(place), sa, dst[..n]);
    CopyToSystem(m, src, dst, n, Some(place), fate.source);
    ghost var w2 := m.w;
    CopyParts(wa, w2, m.mem, Some(place), src[..n], dst[..n]);
    FreshPins(wa, w2, mema);
    PinsTrans(w0, wa, w2);
    CopyReady(wa, w2, mema, Some(place), fate.source, src[..n], dst[..n]);
    FreshBooked(w0, wa, w2, h0, ha);
    ghost var w3, w4;
    cpages, w3, w4 := SystemRest(m, src, dst, n, Some(place), faultPage, fate, w0, wa);
    LedgerTrans(w0, h0, w2, ha, m.w, m.history);
    PinsTrans(w0, w2, m.w);
    if fate.Undisturbed() {
      ghost var job := Job(start, n, Want(vma, SelectDevicePrivate, owner), faultPage, fate);
      JobDone(w0, mem0, wa, w2, w3, w4, m.w, job, sa, src[..n], dst[..n]);
      ViewPt(w0, wa, w2);
      AllOrNothingFrom(w0, w2, m.w, Moves(src[..n], dst[..n]), Some(place), n);
      MovedFrom(w0, w2, m.w, old(m.mem), Moves(src[..n], dst[..n]), start, n);
      CarriedToAlloc(w0, wa, w2, job, sa);
      BooksDone(w0, mem0, w2, w3, w4, m.w, m.mem, Some(place), sa, src[..n], dst[..n], Fates(faultPage, fate.pages));
      SystemResults(w0, m.w, mem0, m.mem, job, src[..n], dst[..n]);
    }
  }

  lemma SystemResults(w: World, w': World, mem: Mem, mem': Mem, job: Job, s: seq<Mpfn>, d: seq<Mpfn>)
    requires Quiet(w, mem) && Quiet(w', mem') && PinsKept(w, w') && job.want.select.SelectDevicePrivate?
    requires JobExact(w, w', job, s, d) && AllOrNothing(w, w', Moves(s, d), job.Place(), job.n)
    requires SystemMove(w, w', Moves(s, d), job.start, job.n) && Unmirrored(w'.mirror, job.start, d)
    ensures SystemSlots(w, w', job.start, job.want.owner, job.faultPage, job.fate, d)
  {
    hide Quiet, PinsKept, JobExact, AllOrNothing, Unmirrored, Converts, FromRange, NoneInserted;
    SystemSlotsDone(w, w', mem, mem', job, s, d);
  }

  lemma CopyLive(w: World, mem: Mem, place: Option<Place>, s: seq<Mpfn>, d: seq<Mpfn>)
    requires CopyState(w, w, mem, place, s, d)
    ensures AllLive(w, s)
  {
    SlotsLive(w, mem, s, d);
  }

  lemma MovedFrom(w0: World, w2: World, w: World, mem: Mem, moves: map<Pid, Pid>, start: Addr, n: nat)
    requires Quiet(w0, mem) && SameView(w0, w2) && PinsKept(w0, w2) && SystemMove(w2, w, moves, start, n)
    ensures SystemMove(w0, w, moves, start, n)
  {
    QuietInv(w0, mem);
    hide Quiet, SameView, PinsKept, SystemMove, World.Inv;
    ConvertsFrom(w0, w2, w, mem, moves, start, n);
  }

  lemma QuietInv(w: World, mem: Mem)
    requires Quiet(w, mem)
    ensures w.Inv(mem)
  {}

  lemma ChunkSelf(w: World)
    ensures PinsKept(w, w)
  {}
}
