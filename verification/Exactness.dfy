/**
  Which pages of a range move: a page moves exactly if every stage can do its part, in terms of
  the state before the migration and the answers of the kernel.
*/
module Exactness {
  import opened Kernel
  import opened KernelSteps
  import opened Txn
  import opened Accounts
  import opened MachineState
  import opened MigrateCollect
  import opened MigrateUnmap
  import opened MigrateFinalize
  import opened MigratePages
  import opened MigrateSetup
  import opened Driver
  import opened Environment
  import opened Outcome

  // Everything the code does not decide: the kernel's answers, and what others do in between
  datatype ChunkFate = ChunkFate(setup: SetupFate, source: nat -> Option<Source>, pages: nat -> PageFate,
                                 acts1: seq<Action>, acts2: seq<Action>, acts3: seq<Action>, acts4: seq<Action>)
  {
    predicate Undisturbed() {
      acts1 == [] && acts2 == [] && acts3 == [] && acts4 == []
    }
  }

  // The walk as reported, if it describes the page table; otherwise one run of ptes
  function ChooseWalk(w: World, start: Addr, len: nat, walk: seq<Piece>): (r: seq<Piece>)
    ensures TotalLen(r) == len && WalkFits(w, start, r)
  {
    if TotalLen(walk) == len && WalkFits(w, start, walk) then walk
    else
      var r := [Ptes(len)];
      assert TotalLen(r[1..]) == 0;
      r
  }

  // One migration of a range of addresses
  datatype Job = Job(start: Addr, n: nat, want: Want, faultPage: Option<Pid>, fate: ChunkFate) {
    function Place(): Option<Place> {
      PlaceOf(start, want)
    }

    function Dir(): Direction {
      if want.select.SelectSystem? then ToDevice(want.owner, want.vma.writable) else ToSystem
    }

    // What setup is told, given the page table it walks
    function Setup(w0: World): (r: SetupFate)
      ensures TotalLen(r.walk) == n && WalkFits(w0, start, r.walk)
    {
      fate.setup.(walk := ChooseWalk(w0, start, n, fate.setup.walk))
    }

    function Offers(w0: World, i: nat): Mpfn {
      Candidate(w0, start + i, want)
    }

    // Setup keeps slot i
    predicate Kept(w0: World, i: nat)
      requires i < n
    {
      var c, f := Offers(w0, i), Setup(w0);
      match c.page
      case None => !KindAt(f.walk, i).Skip?
      case Some(p) => SlotKept(w0, start + i, p, KindAt(f.walk, i), faultPage, f.shareFails(start + i), f.unmap(i))
    }
  }

  // Slot i of dst: filled exactly if the slot is kept and the driver has memory for it
  ghost predicate Fed(w0: World, job: Job, d: seq<Mpfn>, i: nat)
    requires i < job.n && i < |d|
  {
    d[i] == if Given(w0, job, d, i) then job.Dir().NewMpfn(job.Offers(w0, i), job.fate.source(i).value.q) else EMPTY
  }

  ghost predicate Given(w0: World, job: Job, d: seq<Mpfn>, i: nat)
    requires i < job.n
  {
    && job.Kept(w0, i) && job.Offers(w0, i).migrate && (job.Offers(w0, i).page == None ==> job.Dir().ToDevice?)
    && Supplied(w0, job.Dir(), job.fate.source, d, i)
  }

  // A page found at slot i moves exactly if it is kept, gets a new page, and nothing holds it back.
  ghost predicate PageExact(w0: World, job: Job, s: seq<Mpfn>, d: seq<Mpfn>, i: nat)
    requires |s| == |d| == job.n && i < |s| && job.Offers(w0, i).page.Some?
  {
    var p, source := job.Offers(w0, i).page.value, job.fate.source(i);
    && (p in Moves(s, d) <==>
          Given(w0, job, d, i) && MoveAllowed(w0, p, source.value.q, job.faultPage, job.fate.pages(i)))
    && (p in Moves(s, d) ==> Moves(s, d)[p] == source.value.q)
    && Fed(w0, job, d, i)
  }

  // An empty address is filled in exactly if it is kept, gets a new page, and the page can be inserted.
  ghost predicate HoleExact(w0: World, w: World, job: Job, s: seq<Mpfn>, d: seq<Mpfn>, i: nat)
    requires |s| == |d| == job.n && i < |d|
  {
    var a, vma := job.start + i, job.want.vma;
    var inserted := Given(w0, job, d, i) && InsertAllowed(w0, a, vma, job.fate.pages(i));
    && w.At(a) == (if inserted then DevicePrivate(job.fate.source(i).value.q, vma.writable) else w0.At(a))
    && (inserted ==> s[i] == MIGRATE_ONLY)
    && Fed(w0, job, d, i)
  }

  ghost predicate SlotExact(w0: World, w: World, job: Job, s: seq<Mpfn>, d: seq<Mpfn>, i: nat)
    requires |s| == |d| == job.n && i < |s|
  {
    && (job.Offers(w0, i).page.Some? && OnlyAt(w0, job.start, job.n, job.start + i) ==> PageExact(w0, job, s, d, i))
    && (job.Offers(w0, i).page == None ==> Fed(w0, job, d, i))
    && (!w0.At(job.start + i).Refers() ==> HoleExact(w0, w, job, s, d, i))
  }

  ghost predicate JobExact(w0: World, w: World, job: Job, s: seq<Mpfn>, d: seq<Mpfn>) {
    && |s| == |d| == job.n && (forall p | p in Moves(s, d) :: Offered(w0, job, p))
    && forall i {:trigger s[i]} | 0 <= i < |s| :: SlotExact(w0, w, job, s, d, i)
  }

  // An address of the range offers the page p
  ghost predicate Offered(w0: World, job: Job, p: Pid) {
    exists i: nat :: i < job.n && job.Offers(w0, i).page == Some(p)
  }

  // ----- the states between the stages

  ghost predicate AllLive(w: World, s: seq<Mpfn>) {
    forall i {:trigger s[i]} | 0 <= i < |s| && s[i].page.Some? :: w.Live(s[i].page.value)
  }

  // What setup did
  ghost predicate Traced(w0: World, wa: World, job: Job, sa: seq<Mpfn>) {
    exists w1, s1 :: SetupTrace(w0, w1, wa, s1, sa, job.start, job.want, job.faultPage, job.Setup(w0))
  }

  lemma TracedBy(w0: World, w1: World, wa: World, job: Job, s1: seq<Mpfn>, sa: seq<Mpfn>)
    requires SetupTrace(w0, w1, wa, s1, sa, job.start, job.want, job.faultPage, job.Setup(w0))
    ensures Traced(w0, wa, job, sa)
  {
    hide SetupTrace;
  }

  lemma TracedCarried(w0: World, wa: World, job: Job, sa: seq<Mpfn>)
    requires Traced(w0, wa, job, sa)
    ensures Carried(w0, wa)
  {
    hide SetupTrace, Carried;
    var w1: World, s1: seq<Mpfn> :| SetupTrace(w0, w1, wa, s1, sa, job.start, job.want, job.faultPage, job.Setup(w0));
    SetupCarried(w0, w1, wa, s1, sa, job.start, job.want, job.faultPage, job.Setup(w0));
  }

  lemma SlotsLive(w: World, mem: Mem, s: seq<Mpfn>, d: seq<Mpfn>)
    requires w.Inv(mem) && Slots(w, s, d)
    ensures AllLive(w, s)
  {
    hide World.Inv;
    forall i | 0 <= i < |s| && s[i].page.Some? ensures w.Live(s[i].page.value) {
      SlotHolds(w, s, d, i);
      HeldLive(w, mem, s[i].page.value);
    }
  }

  // From the state before to the state the last three stages start in
  ghost predicate Prepared(w0: World, mem: Mem, wa: World, w2: World, job: Job, sa: seq<Mpfn>, d: seq<Mpfn>) {
    && |sa| == |d| == job.n
    && Quiet(w0, mem) && Traced(w0, wa, job, sa)
    && SameView(w0, wa) && PinsKept(w0, wa) && AllLive(wa, sa)
    && FilledUpTo(wa, job.Dir(), job.fate.source, sa, d, |d|) && OnlyFresh(wa, w2)
  }

  lemma SlotBefore(w0: World, mem: Mem, wa: World, w2: World, job: Job, sa: seq<Mpfn>, d: seq<Mpfn>, i: nat)
    requires Prepared(w0, mem, wa, w2, job, sa, d) && i < |sa|
    ensures FreeKept(w0, wa) && UsedKept(w0, wa)
    ensures job.Offers(w0, i).page == None ==> sa[i] == if job.Kept(w0, i) then job.Offers(w0, i) else EMPTY
    ensures job.Offers(w0, i).page.Some? && OnlyAt(w0, job.start, job.n, job.start + i) ==>
      && sa[i] == (if job.Kept(w0, i) then job.Offers(w0, i) else EMPTY)
      && (sa[i].page.Some? ==> SameMeta(w0, wa, job.Offers(w0, i).page.value))
  {
    hide Quiet, SetupTrace, OnlyAt, SameView, PinsKept, FilledUpTo, OnlyFresh, FreeKept, UsedKept, SlotKept, SameMeta;
    var w1: World, s1: seq<Mpfn> :| SetupTrace(w0, w1, wa, s1, sa, job.start, job.want, job.faultPage, job.Setup(w0));
    SetupFree(w0, w1, wa, s1, sa, job.start, job.want, job.faultPage, job.Setup(w0));
    if job.Offers(w0, i).page == None {
      SetupNoPage(w0, w1, wa, s1, sa, job.start, job.want, job.faultPage, job.Setup(w0), i);
    } else if OnlyAt(w0, job.start, job.n, job.start + i) {
      SetupPage(w0, mem, w1, wa, s1, sa, job.start, job.want, job.faultPage, job.Setup(w0), i);
    }
  }

  lemma StillSupplied(w0: World, wa: World, dir: Direction, alloc: nat -> Option<Source>, d: seq<Mpfn>, i: nat)
    requires FreeKept(w0, wa) && UsedKept(w0, wa) && PinsKept(w0, wa)
    ensures Supplied(wa, dir, alloc, d, i) <==> Supplied(w0, dir, alloc, d, i)
  {
    hide Unspent;
    if alloc(i).Some? {
      StillFree(w0, wa, alloc(i).value.q);
      StillFree(w0, wa, alloc(i).value.backing);
    }
  }

  lemma StillFree(w0: World, wa: World, p: Pid)
    requires FreeKept(w0, wa) && UsedKept(w0, wa) && PinsKept(w0, wa)
    ensures wa.Free(p) <==> w0.Free(p)
    ensures p in w0.pages ==> p in wa.pages && wa.pages[p].kind == w0.pages[p].kind
  {
    assert w0.Live(p) ==> wa.Live(p);
    assert p in w0.pages ==> PinKept(w0, wa, p);
  }

  // A page in a slot was found at the slot's address.
  lemma SlotFrom(w0: World, mem: Mem, wa: World, w2: World, job: Job, sa: seq<Mpfn>, d: seq<Mpfn>, i: nat)
    requires Prepared(w0, mem, wa, w2, job, sa, d) && i < |sa| && sa[i].page.Some?
    ensures sa[i] == job.Offers(w0, i)
  {
    hide Quiet, SetupTrace, SameView, PinsKept, AllLive, FilledUpTo, OnlyFresh, Candidate;
    var w1: World, s1: seq<Mpfn> :| SetupTrace(w0, w1, wa, s1, sa, job.start, job.want, job.faultPage, job.Setup(w0));
    TraceFrom(w0, w1, wa, s1, sa, job.start, job.want, job.faultPage, job.Setup(w0), i);
  }

  lemma FilledAt(wa: World, dir: Direction, alloc: nat -> Option<Source>, s: seq<Mpfn>, d: seq<Mpfn>, i: nat)
    requires FilledUpTo(wa, dir, alloc, s, d, |d|) && i < |d|
    ensures |s| == |d|
    ensures d[i] == if dir.Wants(wa, s[i]) && Supplied(wa, dir, alloc, d, i) then dir.NewMpfn(s[i], alloc(i).value.q)
                    else EMPTY
  {
    hide Supplied;
  }

  // ----- the last stages

  // The metadata stage asks the same questions of the state before the migration.
  lemma MoveSame(w0: World, wa: World, w2: World, p: Pid, q: Pid, faultPage: Option<Pid>, fate: PageFate)
    requires SameMeta(w0, wa, p) && wa.Live(p) && OnlyFresh(wa, w2) && PinsKept(w0, wa) && FreeKept(w0, wa)
    requires q in wa.pages
    ensures MoveAllowed(w2, p, q, faultPage, fate) <==> MoveAllowed(w0, p, q, faultPage, fate)
  {
    assert PinKept(w0, wa, q);
  }

  // The slot of a page that moves
  lemma MovedSlot(s: seq<Mpfn>, d: seq<Mpfn>, p: Pid) returns (j: nat)
    requires |s| == |d| && p in Moves(s, d)
    ensures j < |s| && Success(s[j], d[j]) && s[j].On(p)
  {
    MovesDomain(s, d, p);
    hide Moves;
    j :| 0 <= j < |s| && Success(s[j], d[j]) && s[j].On(p) && d[j].On(Moves(s, d)[p]);
  }

  lemma SlotStage(w2: World, w3: World, w4: World, w5: World, place: Option<Place>, sa: seq<Mpfn>, s: seq<Mpfn>,
                  d: seq<Mpfn>, f: Fates, i: nat)
    requires Stages(w2, w3, w4, w5, place, sa, s, d, f) && i < |s|
    ensures |sa| == |s| == |d| && s[i] == SlotAfter(w2, place, i, sa[i], d[i], f.faultPage, f.fate(i))
    ensures s[i].page == sa[i].page
    ensures Slots(w3, s, d)
  {
    hide Ended, PinsExact, SameBackers, OthersSame, PagesAfter, Backed;
    hide Kinds, Slots, AllFinalizable, Finalized;
    assert RelSlot(w2, w3, place, i, sa[i], s[i], d[i], f, true);
  }

  lemma NotMoved(w0: World, mem: Mem, wa: World, w2: World, w3: World, w4: World, w5: World, job: Job, sa: seq<Mpfn>,
                 s: seq<Mpfn>, d: seq<Mpfn>, f: Fates, i: nat)
    requires Prepared(w0, mem, wa, w2, job, sa, d) && Stages(w2, w3, w4, w5, job.Place(), sa, s, d, f)
    requires i < |sa| && job.Offers(w0, i).page.Some? && OnlyAt(w0, job.start, job.n, job.start + i) && sa[i] == EMPTY
    ensures |s| == |d| && job.Offers(w0, i).page.value !in Moves(s, d)
  {
    var p := job.Offers(w0, i).page.value;
    hide Prepared, Moves, Stages, SlotAfter, Quiet, OnlyFresh, SameView, PinsKept, AllLive, FilledUpTo, Candidate,
         Slots, OnlyAt;
    PreparedParts(w0, mem, wa, w2, job, sa, d);
    SlotStageLen(w2, w3, w4, w5, job.Place(), sa, s, d, f);
    if p in Moves(s, d) {
      var j := MovedSlot(s, d, p);
      SlotStage(w2, w3, w4, w5, job.Place(), sa, s, d, f, j);
      SlotFrom(w0, mem, wa, w2, job, sa, d, j);
      SameOffer(w0, job, i, j);
    }
  }

  lemma SameOffer(w0: World, job: Job, i: nat, j: nat)
    requires job.Offers(w0, i).page.Some? && job.Offers(w0, j).page == job.Offers(w0, i).page
    requires OnlyAt(w0, job.start, job.n, job.start + i) && j < job.n
    ensures i == j
  {
    assert RefersTo(w0.At(job.start + j), w0.At(job.start + i));
  }

  lemma SlotStageLen(w2: World, w3: World, w4: World, w5: World, place: Option<Place>, sa: seq<Mpfn>, s: seq<Mpfn>,
                     d: seq<Mpfn>, f: Fates)
    requires Stages(w2, w3, w4, w5, place, sa, s, d, f)
    ensures |sa| == |s| == |d|
  {
    hide Ended, PinsExact, SameBackers, OthersSame, PagesAfter, Backed;
  }

  lemma PreparedParts(w0: World, mem: Mem, wa: World, w2: World, job: Job, sa: seq<Mpfn>, d: seq<Mpfn>)
    requires Prepared(w0, mem, wa, w2, job, sa, d)
    ensures |sa| == |d| == job.n && Quiet(w0, mem) && PinsKept(w0, wa) && AllLive(wa, sa) && OnlyFresh(wa, w2)
    ensures FilledUpTo(wa, job.Dir(), job.fate.source, sa, d, |d|) && SameView(w0, wa)
  {}

  lemma WantsOffer(w0: World, mem: Mem, wa: World, job: Job, i: nat)
    requires Quiet(w0, mem) && PinsKept(w0, wa) && FreeKept(w0, wa)
    ensures job.Offers(w0, i).page.Some? || (job.Offers(w0, i).migrate && job.Dir().ToDevice?) ==>
      job.Dir().Wants(wa, job.Offers(w0, i))
    ensures job.Offers(w0, i).page == None && job.Dir().ToSystem? ==> !job.Dir().Wants(wa, job.Offers(w0, i))
  {
    var e := w0.At(job.start + i);
    if e.Refers() {
      assert PteOk(w0.pt[job.start + i], w0.pages) && PinKept(w0, wa, e.page);
    }
  }

  lemma PageDone(w0: World, mem: Mem, wa: World, w2: World, w3: World, w4: World, w5: World, job: Job, sa: seq<Mpfn>,
                 s: seq<Mpfn>, d: seq<Mpfn>, i: nat)
    requires Prepared(w0, mem, wa, w2, job, sa, d)
    requires Stages(w2, w3, w4, w5, job.Place(), sa, s, d, Fates(job.faultPage, job.fate.pages))
    requires i < |s| && job.Offers(w0, i).page.Some? && OnlyAt(w0, job.start, job.n, job.start + i)
    ensures |s| == |d| == job.n && PageExact(w0, job, s, d, i)
  {
    hide Moves, MoveAllowed, Supplied, Quiet, SameView, OnlyFresh, FilledUpTo, FreeKept, UsedKept, PinsKept, OnlyAt,
         Prepared, Stages, SlotKept, Slots, Candidate, SameMeta, World.Live;
    var f, c, dir := Fates(job.faultPage, job.fate.pages), job.Offers(w0, i), job.Dir();
    PreparedParts(w0, mem, wa, w2, job, sa, d);
    SlotStage(w2, w3, w4, w5, job.Place(), sa, s, d, f, i);
    SlotBefore(w0, mem, wa, w2, job, sa, d, i);
    WantsOffer(w0, mem, wa, job, i);
    FilledAt(wa, dir, job.fate.source, sa, d, i);
    StillSupplied(w0, wa, dir, job.fate.source, d, i);
    if job.Kept(w0, i) {
      MovesOwn(w3, s, d, i);
      if d[i].page.Some? {
        SuppliedPage(wa, dir, job.fate.source, d, i);
        MoveSame(w0, wa, w2, c.page.value, d[i].page.value, job.faultPage, job.fate.pages(i));
      }
    } else {
      NotMoved(w0, mem, wa, w2, w3, w4, w5, job, sa, s, d, f, i);
    }
  }

  lemma SuppliedPage(w: World, dir: Direction, alloc: nat -> Option<Source>, d: seq<Mpfn>, i: nat)
    requires Supplied(w, dir, alloc, d, i)
    ensures alloc(i).Some? && alloc(i).value.q in w.pages && (dir.ToDevice? ==> w.pages[alloc(i).value.q].kind.Device?)
  {
    hide Unspent;
  }

  lemma StageHole(w2: World, w3: World, w4: World, w5: World, place: Place, sa: seq<Mpfn>, s: seq<Mpfn>,
                  d: seq<Mpfn>, f: Fates, i: nat)
    requires Stages(w2, w3, w4, w5, Some(place), sa, s, d, f) && i < |s| && !w2.At(place.start + i).Refers()
    requires sa[i].page == None && (d[i].page.Some? ==> d[i].page.value in w2.pages && w2.pages[d[i].page.value].kind.Device?)
    ensures w5.At(place.start + i) ==
            if sa[i].migrate && d[i].page.Some? && InsertAllowed(w2, place.start + i, place.vma, f.fate(i))
            then DevicePrivate(d[i].page.value, place.vma.writable) else w2.At(place.start + i)
    ensures sa[i].migrate && d[i].page.Some? && InsertAllowed(w2, place.start + i, place.vma, f.fate(i)) ==>
      s[i] == MIGRATE_ONLY
  {
    SlotStage(w2, w3, w4, w5, Some(place), sa, s, d, f, i);
    hide Ended, PinsExact, SameBackers, OthersSame, PagesAfter, Backed;
    hide Kinds, Slots, AllFinalizable;
    var a := place.start + i;
    assert w3.At(a) == PteAfter(w2, Some(place), sa, d, f, |s|, a);
    assert w5.At(a) == FinalPte(w4, s, d, |s|, w4.At(a));
  }

  lemma HoleView(w0: World, wa: World, w2: World, a: Addr)
    requires SameView(w0, wa) && OnlyFresh(wa, w2) && !w0.At(a).Refers()
    ensures w2.At(a) == w0.At(a)
  {
    assert SameRef(w0.At(a), wa.At(a));
  }

  lemma FreshKind(wa: World, w2: World, p: Pid)
    requires OnlyFresh(wa, w2) && p in wa.pages
    ensures p in w2.pages && w2.pages[p].kind == wa.pages[p].kind
  {}

  lemma HoleDone(w0: World, mem: Mem, wa: World, w2: World, w3: World, w4: World, w5: World, job: Job, sa: seq<Mpfn>,
                 s: seq<Mpfn>, d: seq<Mpfn>, i: nat)
    requires Prepared(w0, mem, wa, w2, job, sa, d)
    requires Stages(w2, w3, w4, w5, job.Place(), sa, s, d, Fates(job.faultPage, job.fate.pages))
    requires i < |s| && !w0.At(job.start + i).Refers()
    ensures |s| == |d| == job.n && HoleExact(w0, w5, job, s, d, i)
  {
    hide Moves, Supplied, Quiet, SameView, OnlyFresh, FilledUpTo, FreeKept, UsedKept, PinsKept, OnlyAt, Prepared,
         Stages, Slots, World.At;
    var f, dir := Fates(job.faultPage, job.fate.pages), job.Dir();
    PreparedParts(w0, mem, wa, w2, job, sa, d);
    SlotStageLen(w2, w3, w4, w5, job.Place(), sa, s, d, f);
    SlotBefore(w0, mem, wa, w2, job, sa, d, i);
    WantsOffer(w0, mem, wa, job, i);
    FilledAt(wa, dir, job.fate.source, sa, d, i);
    HoleView(w0, wa, w2, job.start + i);
    if d[i].page.Some? {
      SuppliedPage(wa, dir, job.fate.source, d, i);
      FreshKind(wa, w2, d[i].page.value);
    }
    StageHole(w2, w3, w4, w5, job.Place().value, sa, s, d, f, i);
    StillSupplied(w0, wa, dir, job.fate.source, d, i);
  }

  lemma NoneDone(w0: World, mem: Mem, wa: World, w2: World, job: Job, sa: seq<Mpfn>, d: seq<Mpfn>, i: nat)
    requires Prepared(w0, mem, wa, w2, job, sa, d) && i < |sa| && job.Offers(w0, i).page == None
    ensures |d| == job.n && Fed(w0, job, d, i)
  {
    hide Supplied, Quiet, SameView, OnlyFresh, FilledUpTo, FreeKept, UsedKept, PinsKept, OnlyAt, Prepared, World.At;
    PreparedParts(w0, mem, wa, w2, job, sa, d);
    SlotBefore(w0, mem, wa, w2, job, sa, d, i);
    WantsOffer(w0, mem, wa, job, i);
    FilledAt(wa, job.Dir(), job.fate.source, sa, d, i);
    StillSupplied(w0, wa, job.Dir(), job.fate.source, d, i);
  }

  lemma MovedOffered(w0: World, mem: Mem, wa: World, w2: World, w3: World, w4: World, w5: World, job: Job,
                     sa: seq<Mpfn>, s: seq<Mpfn>, d: seq<Mpfn>, p: Pid)
    requires Prepared(w0, mem, wa, w2, job, sa, d)
    requires Stages(w2, w3, w4, w5, job.Place(), sa, s, d, Fates(job.faultPage, job.fate.pages))
    requires |s| == |d| && p in Moves(s, d)
    ensures Offered(w0, job, p)
  {
    hide Prepared, Stages, Moves, Quiet, PinsKept, AllLive, OnlyFresh, FilledUpTo, SameView, Candidate, Slots,
         SlotAfter;
    PreparedParts(w0, mem, wa, w2, job, sa, d);
    var j := MovedSlot(s, d, p);
    SlotStage(w2, w3, w4, w5, job.Place(), sa, s, d, Fates(job.faultPage, job.fate.pages), j);
    SlotFrom(w0, mem, wa, w2, job, sa, d, j);
    assert job.Offers(w0, j).page == Some(p);
  }

  // The result of a migration, slot by slot
  lemma JobDone(w0: World, mem: Mem, wa: World, w2: World, w3: World, w4: World, w5: World, job: Job, sa: seq<Mpfn>,
                s: seq<Mpfn>, d: seq<Mpfn>)
    requires Prepared(w0, mem, wa, w2, job, sa, d)
    requires Stages(w2, w3, w4, w5, job.Place(), sa, s, d, Fates(job.faultPage, job.fate.pages))
    ensures JobExact(w0, w5, job, s, d)
  {
    hide Prepared, Stages, PageExact, HoleExact, OnlyAt, Candidate, Quiet, PinsKept, AllLive, OnlyFresh, FilledUpTo,
         SameView, Moves;
    PreparedParts(w0, mem, wa, w2, job, sa, d);
    SlotStageLen(w2, w3, w4, w5, job.Place(), sa, s, d, Fates(job.faultPage, job.fate.pages));
    forall p | p in Moves(s, d) ensures Offered(w0, job, p) {
      MovedOffered(w0, mem, wa, w2, w3, w4, w5, job, sa, s, d, p);
    }
    forall i | 0 <= i < |s| ensures SlotExact(w0, w5, job, s, d, i) {
      if job.Offers(w0, i).page.Some? && OnlyAt(w0, job.start, job.n, job.start + i) {
        PageDone(w0, mem, wa, w2, w3, w4, w5, job, sa, s, d, i);
      }
      if job.Offers(w0, i).page == None { NoneDone(w0, mem, wa, w2, job, sa, d, i); }
      if !w0.At(job.start + i).Refers() {
        HoleDone(w0, mem, wa, w2, w3, w4, w5, job, sa, s, d, i);
      }
    }
  }
}
