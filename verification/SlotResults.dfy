/**
  What an undisturbed migration does to each address of its range, in terms of the page table and
  the page records before it and of the answers of the kernel.
*/
module SlotResults {
  import opened Kernel
  import opened KernelSteps
  import opened Txn
  import opened Accounts
  import opened MachineState
  import opened MigrateCollect
  import opened MigrateUnmap
  import opened MigrateFinalize
  import opened MigratePages
  import opened MigrateSetup
  import opened Driver
  import opened Environment
  import opened Outcome
  import opened Exactness

  // The range is walked by this kind of piece at slot i
  function PieceAt(w: World, start: Addr, n: nat, fate: ChunkFate, i: nat): Piece
    requires i < n
  {
    KindAt(ChooseWalk(w, start, n, fate.setup.walk), i)
  }

  predicate Apart(x: Source, y: Option<Source>) {
    y.Some? ==> x.q != y.value.q && x.q != y.value.backing && x.backing != y.value.q && x.backing != y.value.backing
  }

  // A page in a slot was mapped at the slot's address.
  ghost predicate FoundAt(w0: World, start: Addr, s: seq<Mpfn>) {
    forall i {:trigger s[i]} | 0 <= i < |s| && s[i].page.Some? ::
      w0.At(start + i).Maps(s[i].page.value) && w0.At(start + i).write == s[i].write
  }

  // Every address whose page came to the device has a mirror entry, unless the page before it was
  // invalidated after the entry was stored; it has WRITE exactly if the address was mapped writable,
  // or had no page in a writable vma.
  predicate TagsStored(w0: World, mirror: map<Addr, Entry>, start: Addr, vma: Vma, s: seq<Mpfn>, d: seq<Mpfn>,
                       after: seq<Action>) {
    |s| == |d| && forall i | 0 <= i < |s| && Stores(s[i], d[i]) && NoneBefore(after, start + i) ::
      start + i in mirror && mirror[start + i].tag == (if MayWrite(w0, vma, start + i, s[i]) then WriteTag else Untagged)
  }

  predicate MayWrite(w0: World, vma: Vma, a: Addr, m: Mpfn) {
    if m.page.Some? then w0.At(a).Refers() && w0.At(a).write else vma.writable
  }

  // ----- to the device

  // A free page of this device with a free page to back it, neither of them used for an earlier slot
  ghost predicate DeviceMemory(w: World, owner: nat, fate: ChunkFate, d: seq<Mpfn>, i: nat) {
    fate.source(i).Some? &&
    var x := fate.source(i).value;
    && w.Free(x.q) && w.pages[x.q].kind == Device(owner) && w.Free(x.backing) && w.pages[x.backing].kind.System?
    && forall j {:trigger d[j]} | 0 <= j < i && j < |d| && d[j].page.Some? :: Apart(x, fate.source(j))
  }

  // The page mapped at slot i can be isolated and unmapped, nobody else holds it, and there is memory for it.
  ghost predicate DeviceCopies(w: World, start: Addr, n: nat, owner: nat, fate: ChunkFate, d: seq<Mpfn>, i: nat)
    requires i < n
  {
    var a := start + i;
    w.At(a).Present? && w.At(a).page in w.pages &&
    var p, page := w.At(a).page, w.pages[w.At(a).page];
    && page.mapping != NoMapping && !page.compound && page.lock == Unlocked && page.lru == OnLru && page.pins == 0
    && PieceAt(w, start, n, fate, i).Ptes? && !fate.setup.shareFails(a)
    && fate.setup.unmap(i).isolates && w.Mappers(p) * fate.setup.unmap(i).keep <= {a}
    && DeviceMemory(w, owner, fate, d, i)
  }

  // An address without a page gets memory unless the walk leaves it out.
  ghost predicate HoleGets(w: World, start: Addr, n: nat, vma: Vma, owner: nat, fate: ChunkFate, d: seq<Mpfn>, i: nat)
    requires i < n
  {
    && (w.At(start + i).ZeroPte? || (w.At(start + i).NoPte? && vma.anonymous))
    && !PieceAt(w, start, n, fate, i).Skip? && DeviceMemory(w, owner, fate, d, i)
  }

  // The slot of dst, the entry of the address, and its mirror entry afterwards.  Only anonymous pages
  // move to device memory.
  ghost predicate DeviceSlot(w: World, w': World, start: Addr, vma: Vma, owner: nat, fate: ChunkFate, d: seq<Mpfn>,
                             i: nat)
    requires i < |d|
  {
    var a, n := start + i, |d|;
    match w.At(a)
    case Present(p, write) =>
      OnlyAt(w, start, n, a) ==>
        var copies := DeviceCopies(w, start, n, owner, fate, d, i);
        && d[i] == (if copies then Mpfn(Some(fate.source(i).value.q), false, write) else EMPTY)
        && (if copies && w.pages[p].mapping == Anon && fate.pages(i).moves
            then Arrived(w', a, fate.source(i).value.q, write) else w'.At(a) == w.At(a))
    case _ =>
      var gets := HoleGets(w, start, n, vma, owner, fate, d, i);
      && d[i] == (if gets then Mpfn(Some(fate.source(i).value.q), false, vma.writable) else EMPTY)
      && (if gets && vma.anonymous && fate.pages(i).inserts
          then Arrived(w', a, fate.source(i).value.q, vma.writable) else w'.At(a) == w.At(a))
  }

  predicate Arrived(w: World, a: Addr, q: Pid, write: bool) {
    && w.At(a) == DevicePrivate(q, write)
    && a in w.mirror && w.mirror[a].tag == if write then WriteTag else Untagged
  }

  ghost predicate DeviceSlots(w: World, w': World, start: Addr, vma: Vma, owner: nat, fate: ChunkFate, d: seq<Mpfn>) {
    forall i {:trigger d[i]} | 0 <= i < |d| :: DeviceSlot(w, w', start, vma, owner, fate, d, i)
  }

  lemma MemoryIs(w: World, dir: Direction, fate: ChunkFate, d: seq<Mpfn>, i: nat)
    requires dir.ToDevice?
    ensures Supplied(w, dir, fate.source, d, i) <==> DeviceMemory(w, dir.owner, fate, d, i)
  {
    var source := fate.source;
    if source(i).Some? {
      var x := source(i).value;
      assert dir.Uses(source(i), x.q) && dir.Uses(source(i), x.backing);
      if Unspent(dir, source, d, i, x.q) && Unspent(dir, source, d, i, x.backing) {
        forall j | 0 <= j < i && j < |d| && d[j].page.Some? ensures Apart(x, source(j)) {
          if source(j).Some? {
            assert !dir.Uses(source(j), x.q) && !dir.Uses(source(j), x.backing);
          }
        }
      }
    }
  }

  lemma CopiesIs(w: World, mem: Mem, job: Job, d: seq<Mpfn>, i: nat)
    requires Quiet(w, mem) && job.want.select.SelectSystem? && job.faultPage == None && i < job.n
    requires w.At(job.start + i).Present?
    ensures w.At(job.start + i).page in w.pages && w.pages[w.At(job.start + i).page].kind.System?
    ensures DeviceCopies(w, job.start, job.n, job.want.owner, job.fate, d, i) <==>
            job.Offers(w, i).page.Some? && Given(w, job, d, i)
    ensures job.Offers(w, i).page.Some? ==>
            job.Offers(w, i) == Mpfn(Some(w.At(job.start + i).page), true, w.At(job.start + i).write)
  {
    PresentKnown(w, mem, job.start + i);
    MemoryIs(w, job.Dir(), job.fate, d, i);
    hide World.Mappers, ChooseWalk, Supplied, DeviceMemory, Quiet;
  }

  lemma PresentKnown(w: World, mem: Mem, a: Addr)
    requires Quiet(w, mem)
    ensures w.At(a).Present? ==> w.At(a).page in w.pages && w.pages[w.At(a).page].kind.System?
    ensures w.At(a).DevicePrivate? ==> w.At(a).page in w.pages && w.pages[w.At(a).page].kind.Device?
    ensures !w.At(a).Migration?
  {
    assert a in w.pt ==> PteOk(w.pt[a], w.pages);
  }

  // The entry of an address that refers to a page
  lemma EntryIs(w: World, w': World, mem: Mem, mem': Mem, moves: map<Pid, Pid>, place: Option<Place>, n: nat, a: Addr)
    requires Quiet(w, mem) && Quiet(w', mem') && PinsKept(w, w') && AllOrNothing(w, w', moves, place, n)
    requires w.At(a).Refers()
    ensures w.At(a).page !in moves ==> w'.At(a) == w.At(a)
    ensures w.At(a).page in moves ==> w'.At(a) == w'.MapTo(moves[w.At(a).page], w.At(a).write)
  {
    assert PteMoved(moves, place, n, a, w.At(a), w'.At(a));
    PresentKnown(w, mem, a);
    PresentKnown(w', mem', a);
    hide Quiet, AllOrNothing;
    if w.At(a).page !in moves { assert PinKept(w, w', w.At(a).page); }
  }

  // The slot of a page that moves is the one at its address.
  lemma OwnSlot(w: World, start: Addr, s: seq<Mpfn>, d: seq<Mpfn>, i: nat)
    requires |s| == |d| && i < |s| && FoundAt(w, start, s) && w.At(start + i).Refers()
    requires w.At(start + i).page in Moves(s, d) && OnlyAt(w, start, |s|, start + i)
    ensures Stores(s[i], d[i]) && s[i].page == Some(w.At(start + i).page)
  {
    var p := w.At(start + i).page;
    var j := MovedSlot(s, d, p);
    assert RefersTo(w.At(start + j), w.At(start + i));
  }

  // All that is known of a chunk that went to the device
  ghost predicate DeviceDone(w: World, w': World, mem: Mem, mem': Mem, job: Job, s: seq<Mpfn>, d: seq<Mpfn>) {
    && Quiet(w, mem) && Quiet(w', mem') && PinsKept(w, w') && job.want.select.SelectSystem? && job.faultPage == None
    && JobExact(w, w', job, s, d) && AllOrNothing(w, w', Moves(s, d), job.Place(), job.n)
    && FoundAt(w, job.start, s) && TagsStored(w, w'.mirror, job.start, job.want.vma, s, d, [])
  }

  lemma MoveIs(w: World, job: Job, p: Pid, q: Pid, i: nat)
    requires p in w.pages && w.pages[p].mapping != NoMapping && q in w.pages && w.pages[q].kind.Device?
    requires job.faultPage == None
    ensures MoveAllowed(w, p, q, job.faultPage, job.fate.pages(i)) <==>
            w.pages[p].mapping == Anon && job.fate.pages(i).moves && w.pages[p].pins == 0
  {}

  lemma OfferedPage(w: World, job: Job, p: Pid)
    requires Offered(w, job, p)
    ensures p in w.pages && w.pages[p].mapping != NoMapping && !w.pages[p].compound
  {}

  lemma MovesOffered(w: World, w': World, job: Job, s: seq<Mpfn>, d: seq<Mpfn>)
    requires JobExact(w, w', job, s, d)
    ensures |s| == |d| == job.n && forall p | p in Moves(s, d) :: Offered(w, job, p)
  {}

  lemma PresentMoves(w: World, w': World, mem: Mem, job: Job, s: seq<Mpfn>, d: seq<Mpfn>, i: nat)
    requires Quiet(w, mem) && job.want.select.SelectSystem? && job.faultPage == None && JobExact(w, w', job, s, d)
    requires |s| == |d| == job.n && i < |d|
    requires w.At(job.start + i).Present? && OnlyAt(w, job.start, job.n, job.start + i)
    ensures w.At(job.start + i).page in w.pages
    ensures var p, copies := w.At(job.start + i).page, DeviceCopies(w, job.start, job.n, job.want.owner, job.fate, d, i);
            && d[i] == (if copies then Mpfn(Some(job.fate.source(i).value.q), false, w.At(job.start + i).write) else EMPTY)
            && (p in Moves(s, d) <==> copies && w.pages[p].mapping == Anon && job.fate.pages(i).moves)
            && (p in Moves(s, d) ==> Moves(s, d)[p] == job.fate.source(i).value.q)
  {
    var p := w.At(job.start + i).page;
    CopiesIs(w, mem, job, d, i);
    MovesOffered(w, w', job, s, d);
    SlotIs(w, w', job, s, d, i);
    hide Quiet, Moves, OnlyAt, DeviceCopies, Offered, MoveAllowed, Job.Kept, JobExact, Candidate, Supplied;
    if job.Offers(w, i).page == None {
      OfferedSame(w, mem, job, i);
    } else if Given(w, job, d, i) {
      GivenKnown(w, mem, job, d, i);
      MoveIs(w, job, p, job.fate.source(i).value.q, i);
    }
  }

  lemma OfferedSame(w: World, mem: Mem, job: Job, i: nat)
    requires Quiet(w, mem) && job.want.select.SelectSystem? && w.At(job.start + i).Present?
    requires job.Offers(w, i).page == None
    ensures !Offered(w, job, w.At(job.start + i).page) && job.Offers(w, i) == EMPTY
  {
    PresentKnown(w, mem, job.start + i);
    hide Quiet;
    if Offered(w, job, w.At(job.start + i).page) { OfferedPage(w, job, w.At(job.start + i).page); }
  }

  lemma GivenKnown(w: World, mem: Mem, job: Job, d: seq<Mpfn>, i: nat)
    requires Quiet(w, mem) && job.want.select.SelectSystem? && job.faultPage == None && i < job.n && Given(w, job, d, i)
    requires w.At(job.start + i).Present? && job.Offers(w, i).page.Some?
    ensures job.fate.source(i).Some? && job.fate.source(i).value.q in w.pages
    ensures w.pages[job.fate.source(i).value.q].kind.Device?
    ensures w.At(job.start + i).page in w.pages && w.pages[w.At(job.start + i).page].mapping != NoMapping
    ensures w.pages[w.At(job.start + i).page].pins == 0
  {
    PresentKnown(w, mem, job.start + i);
    CopiesIs(w, mem, job, d, i);
    hide Quiet, World.Mappers, ChooseWalk, Given;
  }

  lemma PresentSlot(w: World, w': World, mem: Mem, mem': Mem, job: Job, s: seq<Mpfn>, d: seq<Mpfn>, i: nat)
    requires DeviceDone(w, w', mem, mem', job, s, d) && |s| == |d| == job.n && i < |d|
    requires w.At(job.start + i).Present? && OnlyAt(w, job.start, job.n, job.start + i)
    ensures DeviceSlot(w, w', job.start, job.want.vma, job.want.owner, job.fate, d, i)
  {
    var a := job.start + i;
    hide Quiet, Moves, OnlyAt, DeviceCopies, JobExact, FoundAt, AllOrNothing, PinsKept, PieceAt, Candidate;
    PresentMoves(w, w', mem, job, s, d, i);
    EntryIs(w, w', mem, mem', Moves(s, d), job.Place(), job.n, a);
    if w.At(a).page in Moves(s, d) {
      OwnSlot(w, job.start, s, d, i);
      CopiesDevice(w, w', job, d, i);
    }
  }

  lemma CopiesDevice(w: World, w': World, job: Job, d: seq<Mpfn>, i: nat)
    requires i < job.n && DeviceCopies(w, job.start, job.n, job.want.owner, job.fate, d, i) && PinsKept(w, w')
    ensures job.fate.source(i).Some? && job.fate.source(i).value.q in w'.pages
    ensures w'.pages[job.fate.source(i).value.q].kind.Device?
  {
    assert PinKept(w, w', job.fate.source(i).value.q);
    hide World.Mappers, ChooseWalk;
  }

  // An address without a page
  lemma HoleGiven(w: World, job: Job, d: seq<Mpfn>, i: nat)
    requires job.want.select.SelectSystem? && i < job.n && (w.At(job.start + i).NoPte? || w.At(job.start + i).ZeroPte?)
    ensures job.Offers(w, i).page == None
    ensures HoleGets(w, job.start, job.n, job.want.vma, job.want.owner, job.fate, d, i) <==> Given(w, job, d, i)
    ensures Given(w, job, d, i) ==> job.Offers(w, i) == MIGRATE_ONLY
  {
    MemoryIs(w, job.Dir(), job.fate, d, i);
    hide Supplied, DeviceMemory, ChooseWalk;
  }

  lemma HoleSlot(w: World, w': World, mem: Mem, mem': Mem, job: Job, s: seq<Mpfn>, d: seq<Mpfn>, i: nat)
    requires DeviceDone(w, w', mem, mem', job, s, d) && |s| == |d| == job.n && i < |d|
    requires w.At(job.start + i).NoPte? || w.At(job.start + i).ZeroPte?
    ensures DeviceSlot(w, w', job.start, job.want.vma, job.want.owner, job.fate, d, i)
  {
    hide Quiet, Moves, OnlyAt, FoundAt, AllOrNothing, PinsKept, HoleGets, Given, Candidate;
    SlotIs(w, w', job, s, d, i);
    HoleGiven(w, job, d, i);
  }

  lemma SlotIs(w: World, w': World, job: Job, s: seq<Mpfn>, d: seq<Mpfn>, i: nat)
    requires JobExact(w, w', job, s, d) && i < |s|
    ensures |s| == |d| == job.n && SlotExact(w, w', job, s, d, i)
  {
    hide SlotExact;
    var m := s[i];
  }

  // Device pages, swapped out pages and special entries stay.
  lemma OtherSlot(w: World, w': World, mem: Mem, mem': Mem, job: Job, s: seq<Mpfn>, d: seq<Mpfn>, i: nat)
    requires DeviceDone(w, w', mem, mem', job, s, d) && |s| == |d| == job.n && i < |d|
    requires w.At(job.start + i).DevicePrivate? || w.At(job.start + i).OtherPte?
    ensures DeviceSlot(w, w', job.start, job.want.vma, job.want.owner, job.fate, d, i)
  {
    hide Quiet, Moves, OnlyAt, FoundAt, AllOrNothing, PinsKept, TagsStored, Offered;
    var a := job.start + i;
    SlotIs(w, w', job, s, d, i);
    assert job.Offers(w, i) == EMPTY && Fed(w, job, d, i);
    PresentKnown(w, mem, a);
    if w.At(a).DevicePrivate? {
      EntryIs(w, w', mem, mem', Moves(s, d), job.Place(), job.n, a);
      if Offered(w, job, w.At(a).page) { OfferedSystem(w, mem, job, w.At(a).page); }
    }
  }

  lemma OfferedSystem(w: World, mem: Mem, job: Job, p: Pid)
    requires Quiet(w, mem) && job.want.select.SelectSystem? && Offered(w, job, p)
    ensures p in w.pages && w.pages[p].kind.System?
  {
    var j: nat :| j < job.n && job.Offers(w, j).page == Some(p);
    PresentKnown(w, mem, job.start + j);
    hide Quiet;
  }

  lemma DeviceSlotsDone(w: World, w': World, mem: Mem, mem': Mem, job: Job, s: seq<Mpfn>, d: seq<Mpfn>)
    requires DeviceDone(w, w', mem, mem', job, s, d)
    ensures DeviceSlots(w, w', job.start, job.want.vma, job.want.owner, job.fate, d)
  {
    MovesOffered(w, w', job, s, d);
    hide DeviceDone, OnlyAt, Moves;
    forall i | 0 <= i < |d| ensures DeviceSlot(w, w', job.start, job.want.vma, job.want.owner, job.fate, d, i) {
      OneSlot(w, w', mem, mem', job, s, d, i);
    }
  }

  lemma OneSlot(w: World, w': World, mem: Mem, mem': Mem, job: Job, s: seq<Mpfn>, d: seq<Mpfn>, i: nat)
    requires DeviceDone(w, w', mem, mem', job, s, d) && |s| == |d| == job.n && i < |d|
    ensures DeviceSlot(w, w', job.start, job.want.vma, job.want.owner, job.fate, d, i)
  {
    NeverMigration(w, w', mem, mem', job, s, d, job.start + i);
    hide DeviceDone, DeviceSlot, OnlyAt;
    match w.At(job.start + i)
    case Present(p, write) =>
      if OnlyAt(w, job.start, job.n, job.start + i) {
        PresentSlot(w, w', mem, mem', job, s, d, i);
      } else {
        SharedSlot(w, w', job, d, i);
      }
    case NoPte => HoleSlot(w, w', mem, mem', job, s, d, i);
    case ZeroPte => HoleSlot(w, w', mem, mem', job, s, d, i);
    case DevicePrivate(p, write) => OtherSlot(w, w', mem, mem', job, s, d, i);
    case OtherPte(content) => OtherSlot(w, w', mem, mem', job, s, d, i);
    case _ =>
  }

  lemma SharedSlot(w: World, w': World, job: Job, d: seq<Mpfn>, i: nat)
    requires i < |d| == job.n && w.At(job.start + i).Present? && !OnlyAt(w, job.start, job.n, job.start + i)
    ensures DeviceSlot(w, w', job.start, job.want.vma, job.want.owner, job.fate, d, i)
  {
    hide OnlyAt, DeviceCopies, HoleGets, Arrived;
  }

  lemma NeverMigration(w: World, w': World, mem: Mem, mem': Mem, job: Job, s: seq<Mpfn>, d: seq<Mpfn>, a: Addr)
    requires DeviceDone(w, w', mem, mem', job, s, d)
    ensures !w.At(a).Migration?
  {
    hide Quiet, JobExact, AllOrNothing, Moves, FoundAt, TagsStored;
    PresentKnown(w, mem, a);
  }

  // ----- to the system

  // The copy erases the mirror entry of a page before it is known whether the page moves.
  predicate Unmirrored(mirror: map<Addr, Entry>, start: Addr, d: seq<Mpfn>) {
    forall i | 0 <= i < |d| && d[i].page.Some? :: start + i !in mirror
  }

  // A free system page that no earlier slot got
  ghost predicate SystemMemory(w: World, fate: ChunkFate, d: seq<Mpfn>, i: nat) {
    fate.source(i).Some? &&
    var q := fate.source(i).value.q;
    && w.Free(q) && w.pages[q].kind.System?
    && forall j {:trigger d[j]} | 0 <= j < i && j < |d| && d[j].page.Some? && fate.source(j).Some? ::
         fate.source(j).value.q != q
  }

  function FaultPins(faultPage: Option<Pid>, p: Pid): nat {
    if faultPage == Some(p) then 1 else 0
  }

  // The device page mapped at slot i can be unmapped, at most one reference is left over, and there is
  // memory for it.
  ghost predicate SystemCopies(w: World, start: Addr, n: nat, owner: nat, faultPage: Option<Pid>, fate: ChunkFate,
                               d: seq<Mpfn>, i: nat)
    requires i < n
  {
    var a := start + i;
    w.At(a).DevicePrivate? && w.At(a).page in w.pages &&
    var p, page := w.At(a).page, w.pages[w.At(a).page];
    && page.kind == Device(owner) && page.mapping != NoMapping && !page.compound && page.lock == Unlocked
    && page.pins <= 1 + FaultPins(faultPage, p)
    && PieceAt(w, start, n, fate, i).Ptes? && !fate.setup.shareFails(a)
    && w.Mappers(p) * fate.setup.unmap(i).keep <= {a}
    && SystemMemory(w, fate, d, i)
  }

  // A page that is copied loses its mirror entry; it moves if only the fault's own reference was left.
  ghost predicate SystemSlot(w: World, w': World, start: Addr, owner: nat, faultPage: Option<Pid>, fate: ChunkFate,
                             d: seq<Mpfn>, i: nat)
    requires i < |d|
  {
    var a, n := start + i, |d|;
    match w.At(a)
    case DevicePrivate(p, write) =>
      OnlyAt(w, start, n, a) ==>
        var copies := SystemCopies(w, start, n, owner, faultPage, fate, d, i);
        && d[i] == (if copies then Mpfn(Some(fate.source(i).value.q), false, write) else EMPTY)
        && (copies ==> a !in w'.mirror)
        && w'.At(a) == (if copies && w.pages[p].pins == FaultPins(faultPage, p) && fate.pages(i).moves
                        then Present(fate.source(i).value.q, write) else w.At(a))
    case _ => d[i] == EMPTY && w'.At(a) == w.At(a)
  }

  ghost predicate SystemSlots(w: World, w': World, start: Addr, owner: nat, faultPage: Option<Pid>, fate: ChunkFate,
                              d: seq<Mpfn>) {
    forall i {:trigger d[i]} | 0 <= i < |d| :: SystemSlot(w, w', start, owner, faultPage, fate, d, i)
  }

  lemma SystemMemoryIs(w: World, fate: ChunkFate, d: seq<Mpfn>, i: nat)
    ensures Supplied(w, ToSystem, fate.source, d, i) <==> SystemMemory(w, fate, d, i)
  {
    var source := fate.source;
    if source(i).Some? {
      var q := source(i).value.q;
      assert ToSystem.Uses(source(i), q);
      if Unspent(ToSystem, source, d, i, q) {
        forall j | 0 <= j < i && j < |d| && d[j].page.Some? && source(j).Some? ensures source(j).value.q != q {
          assert !ToSystem.Uses(source(j), q);
        }
      }
    }
  }

  // All that is known of a chunk that came back to the system
  ghost predicate SystemDone(w: World, w': World, mem: Mem, mem': Mem, job: Job, s: seq<Mpfn>, d: seq<Mpfn>) {
    && Quiet(w, mem) && Quiet(w', mem') && PinsKept(w, w') && job.want.select.SelectDevicePrivate?
    && JobExact(w, w', job, s, d) && AllOrNothing(w, w', Moves(s, d), job.Place(), job.n)
    && NoneInserted(w, w') && Unmirrored(w'.mirror, job.start, d)
  }

  lemma SystemCopiesIs(w: World, mem: Mem, job: Job, d: seq<Mpfn>, i: nat)
    requires Quiet(w, mem) && job.want.select.SelectDevicePrivate? && i < job.n && w.At(job.start + i).DevicePrivate?
    ensures w.At(job.start + i).page in w.pages && w.pages[w.At(job.start + i).page].kind.Device?
    ensures SystemCopies(w, job.start, job.n, job.want.owner, job.faultPage, job.fate, d, i) <==>
            job.Offers(w, i).page.Some? && Given(w, job, d, i)
    ensures job.Offers(w, i).page.Some? ==>
            job.Offers(w, i) == Mpfn(Some(w.At(job.start + i).page), true, w.At(job.start + i).write)
    ensures job.Offers(w, i).page == None ==> job.Offers(w, i) == EMPTY
  {
    PresentKnown(w, mem, job.start + i);
    SystemMemoryIs(w, job.fate, d, i);
    hide World.Mappers, ChooseWalk, Supplied, SystemMemory, Quiet;
  }

  lemma SystemOffered(w: World, mem: Mem, job: Job, i: nat, p: Pid)
    requires Quiet(w, mem) && job.want.select.SelectDevicePrivate? && Offered(w, job, p)
    ensures p in w.pages && w.pages[p].kind.Device?
    ensures w.At(job.start + i).DevicePrivate? && w.At(job.start + i).page == p ==> job.Offers(w, i).page.Some?
  {}

  lemma PrivateMoves(w: World, w': World, mem: Mem, job: Job, s: seq<Mpfn>, d: seq<Mpfn>, i: nat)
    requires Quiet(w, mem) && job.want.select.SelectDevicePrivate? && JobExact(w, w', job, s, d)
    requires |s| == |d| == job.n && i < |d|
    requires w.At(job.start + i).DevicePrivate? && OnlyAt(w, job.start, job.n, job.start + i)
    ensures w.At(job.start + i).page in w.pages
    ensures var p := w.At(job.start + i).page;
            var copies := SystemCopies(w, job.start, job.n, job.want.owner, job.faultPage, job.fate, d, i);
            && d[i] == (if copies then Mpfn(Some(job.fate.source(i).value.q), false, w.At(job.start + i).write) else EMPTY)
            && (p in Moves(s, d) <==> copies && w.pages[p].pins == FaultPins(job.faultPage, p) && job.fate.pages(i).moves)
            && (p in Moves(s, d) ==> Moves(s, d)[p] == job.fate.source(i).value.q)
  {
    var p := w.At(job.start + i).page;
    SystemCopiesIs(w, mem, job, d, i);
    MovesOffered(w, w', job, s, d);
    SlotIs(w, w', job, s, d, i);
    hide Quiet, Moves, OnlyAt, SystemCopies, Offered, MoveAllowed, Job.Kept, JobExact, Candidate;
    if p in Moves(s, d) { SystemOffered(w, mem, job, i, p); }
    if job.Offers(w, i).page.Some? && Given(w, job, d, i) { SystemMoveIs(w, job, d, p, i); }
  }

  lemma SystemMoveIs(w: World, job: Job, d: seq<Mpfn>, p: Pid, i: nat)
    requires job.want.select.SelectDevicePrivate? && i < job.n && Given(w, job, d, i) && p in w.pages
    ensures job.fate.source(i).Some?
    ensures MoveAllowed(w, p, job.fate.source(i).value.q, job.faultPage, job.fate.pages(i)) <==>
            w.pages[p].pins == FaultPins(job.faultPage, p) && job.fate.pages(i).moves
  {
    SystemMemoryIs(w, job.fate, d, i);
    hide Supplied, Candidate, Job.Kept;
  }

  lemma PrivateSlot(w: World, w': World, mem: Mem, mem': Mem, job: Job, s: seq<Mpfn>, d: seq<Mpfn>, i: nat)
    requires SystemDone(w, w', mem, mem', job, s, d) && |s| == |d| == job.n && i < |d|
    requires w.At(job.start + i).DevicePrivate? && OnlyAt(w, job.start, job.n, job.start + i)
    ensures SystemSlot(w, w', job.start, job.want.owner, job.faultPage, job.fate, d, i)
  {
    hide Quiet, Moves, OnlyAt, SystemCopies, JobExact, AllOrNothing, PinsKept, PieceAt, Candidate;
    PrivateMoves(w, w', mem, job, s, d, i);
    EntryIs(w, w', mem, mem', Moves(s, d), job.Place(), job.n, job.start + i);
    if SystemCopies(w, job.start, job.n, job.want.owner, job.faultPage, job.fate, d, i) {
      CopiesSystem(w, w', job, d, i);
    }
  }

  lemma CopiesSystem(w: World, w': World, job: Job, d: seq<Mpfn>, i: nat)
    requires i < job.n && SystemCopies(w, job.start, job.n, job.want.owner, job.faultPage, job.fate, d, i)
    requires PinsKept(w, w')
    ensures job.fate.source(i).Some? && job.fate.source(i).value.q in w'.pages
    ensures w'.pages[job.fate.source(i).value.q].kind.System?
  {
    assert PinKept(w, w', job.fate.source(i).value.q);
    hide World.Mappers, ChooseWalk;
  }

  // Everything else stays.
  lemma RestSlot(w: World, w': World, mem: Mem, mem': Mem, job: Job, s: seq<Mpfn>, d: seq<Mpfn>, i: nat)
    requires SystemDone(w, w', mem, mem', job, s, d) && |s| == |d| == job.n && i < |d|
    requires !w.At(job.start + i).DevicePrivate?
    ensures SystemSlot(w, w', job.start, job.want.owner, job.faultPage, job.fate, d, i)
  {
    hide Quiet, Moves, OnlyAt, AllOrNothing, PinsKept, Offered, Unmirrored, Supplied, Job.Kept;
    var a := job.start + i;
    SlotIs(w, w', job, s, d, i);
    MovesOffered(w, w', job, s, d);
    PresentKnown(w, mem, a);
    assert job.Offers(w, i).page == None && d[i] == EMPTY;
    if w.At(a).Present? {
      EntryIs(w, w', mem, mem', Moves(s, d), job.Place(), job.n, a);
      if w.At(a).page in Moves(s, d) { SystemOffered(w, mem, job, i, w.At(a).page); }
    }
  }

  lemma SystemSlotsDone(w: World, w': World, mem: Mem, mem': Mem, job: Job, s: seq<Mpfn>, d: seq<Mpfn>)
    requires SystemDone(w, w', mem, mem', job, s, d)
    ensures SystemSlots(w, w', job.start, job.want.owner, job.faultPage, job.fate, d)
  {
    MovesOffered(w, w', job, s, d);
    hide SystemDone, OnlyAt, Moves, SystemSlot;
    forall i | 0 <= i < |d| ensures SystemSlot(w, w', job.start, job.want.owner, job.faultPage, job.fate, d, i) {
      if !w.At(job.start + i).DevicePrivate? {
        RestSlot(w, w', mem, mem', job, s, d, i);
      } else if OnlyAt(w, job.start, job.n, job.start + i) {
        PrivateSlot(w, w', mem, mem', job, s, d, i);
      } else {
        SharedPrivate(w, w', job, d, i);
      }
    }
  }

  lemma SharedPrivate(w: World, w': World, job: Job, d: seq<Mpfn>, i: nat)
    requires i < |d| == job.n && w.At(job.start + i).DevicePrivate? && !OnlyAt(w, job.start, job.n, job.start + i)
    ensures SystemSlot(w, w', job.start, job.want.owner, job.faultPage, job.fate, d, i)
  {
    hide OnlyAt, SystemCopies;
  }
}
