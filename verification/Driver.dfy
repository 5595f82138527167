/**
  hmm.c, the driver's part of a migration: allocate the new pages and copy the data, and update
  the mirror page table.
*/
module Driver {
  import opened Kernel
  import opened KernelSteps
  import opened Txn
  import opened Accounts
  import opened MachineState
  import opened MigrateCollect
  import opened MigrateUnmap
  import opened MigrateFinalize
  import opened MigratePages

  // Where a new page comes from: a page, and for a device page its backing page
  datatype Source = Source(q: Pid, backing: Pid)

  // ----- taking a fresh page for a slot

  // Pages that were free may come to life; nothing else changes
  ghost predicate OnlyFresh(w: World, w': World) {
    && w'.pt == w.pt && w'.pages.Keys == w.pages.Keys
    && MirrorShrinks(w, w')
    && (forall p | w.Live(p) :: w'.pages[p] == w.pages[p])
    && (forall p | p in w.pages :: w'.pages[p].kind == w.pages[p].kind)
    && Carried(w, w')
  }

  lemma FreshData(w: World, w': World, p: Pid)
    requires OnlyFresh(w, w') && w.Live(p) && Backed(w.pages)
    ensures w'.Data(p) == w.Data(p) && w'.BackingOf(p) == w.BackingOf(p)
  {
    hide Carried;
    assert LiveDevice(p, w.pages) ==> BackingOk(p, w.pages);
    if w.pages[p].kind.Device? { assert w.Live(w.pages[p].backing); }
  }

  lemma FreshSlot(w: World, w': World, m: Mpfn, n: Mpfn)
    requires OnlyFresh(w, w') && Backed(w.pages) && SlotReady(w, m, n)
    requires m.page.Some? ==> w.Live(m.page.value)
    requires n.page.Some? ==> w.Live(n.page.value)
    ensures SlotReady(w', m, n)
  {
    hide Carried;
    MappersOfPt(w, w');
    if m.page.Some? { FreshData(w, w', m.page.value); }
    if n.page.Some? { FreshData(w, w', n.page.value); }
  }

  // The page q fits slot m: unused, locked for slot i, holding the data to migrate
  predicate Fits(w: World, w': World, i: nat, q: Pid, m: Mpfn) {
    && q in w'.pages && w'.pages[q].lock == DstSlot(i) && Unused(w', q) && w'.pages[q].mapping == NoMapping
    && w'.pages[q].lru == OffLru
    && w'.Data(q) == (if m.page.Some? then w.Data(m.page.value) else ZERO_DATA)
  }

  // Pages that stay unlocked: all but q
  ghost predicate OthersUnheld(w: World, w': World, q: Pid) {
    forall p | p in w.pages && p != q && !w.Live(p) ::
      p in w'.pages && !w'.pages[p].lock.Ours() && w'.pages[p].lru != Isolated
  }

  lemma TakeLocks(w: World, w': World, s: seq<Mpfn>, d: seq<Mpfn>, i: nat, q: Pid, write: bool)
    requires Slots(w, s, d) && LruHeld(w.pages) && i < |s| && d[i] == EMPTY
    requires OnlyFresh(w, w') && OthersUnheld(w, w', q) && w.Free(q) && Fits(w, w', i, q, s[i]) && w.Balanced()
    ensures Slots(w', s, d[i := Mpfn(Some(q), false, write)]) && LruHeld(w'.pages)
  {
    hide Carried;
    FreeUnmapped(w, q);
    forall p | p in w.pages && p != q
      ensures w'.pages[p].lock == w.pages[p].lock || (!w'.pages[p].lock.Ours() && !w.pages[p].lock.Ours())
    {
      if !w.Live(p) { FreeUnmapped(w, p); }
    }
    SlotsTakeDst(w, w', s, d, i, q, write);
    forall p | p in w'.pages && w'.pages[p].lru == Isolated
      ensures w'.pages[p].lock.SrcSlot? && w'.pages[p].kind.System?
    {
      assert w.Live(p);
    }
  }

  lemma TakeHome(w: World, w': World, base: Option<Addr>)
    requires MirrorHome(w, base) && OnlyFresh(w, w') && Kinds(w.pt, w.pages) && w.Balanced()
    ensures MirrorHome(w', base)
  {
    hide Carried;
    forall a | a in w'.mirror && w'.At(a).Migration? ensures AtHome(w', base, a) {
      assert AtHome(w, base, a);
      MappedLive(w, a);
    }
  }

  lemma TakeMirror(w: World, w': World, mem: Mem, place: Option<Place>, s: seq<Mpfn>, d: seq<Mpfn>, d': seq<Mpfn>)
    requires MirrorMid(w, place, s, d, 0) && OnlyFresh(w, w') && w.Inv(mem)
    ensures MirrorMid(w', place, s, d', 0)
  {
    hide Carried;
    forall a | a in w'.mirror ensures w'.EntryOk(a, w'.mirror[a]) {
      assert w.EntryOk(a, w.mirror[a]);
      if w.At(a).Refers() {
        MappedLive(w, a);
        FreshData(w, w', w.At(a).page);
      }
    }
  }

  lemma TakeSlots(w: World, w': World, mem: Mem, place: Option<Place>, s: seq<Mpfn>, d: seq<Mpfn>, i: nat, q: Pid,
                  write: bool)
    requires Slots(w, s, d) && SlotsMoved(w, place, s, d, 0) && w.Inv(mem) && i < |s| && s[i].migrate && d[i] == EMPTY
    requires OnlyFresh(w, w') && Fits(w, w', i, q, s[i])
    ensures SlotsMoved(w', place, s, d[i := Mpfn(Some(q), false, write)], 0)
  {
    var d' := d[i := Mpfn(Some(q), false, write)];
    forall j | 0 <= j < |s| ensures SlotReady(w', s[j], d'[j]) {
      SlotHolds(w, s, d, j);
      assert SlotReady(w, s[j], d[j]);
      if s[j].page.Some? { HeldLive(w, mem, s[j].page.value); }
      if d[j].page.Some? { HeldLive(w, mem, d[j].page.value); }
      FreshSlot(w, w', s[j], d[j]);
      if j == i && s[i].page.Some? { FreshData(w, w', s[i].page.value); }
    }
  }

  lemma TakeKeeps(w: World, w': World, mem: Mem, place: Option<Place>, s: seq<Mpfn>, d: seq<Mpfn>, i: nat, q: Pid,
                  write: bool)
    requires PagesState(w, mem, place, s, d, 0) && i < |s| && s[i].migrate && d[i] == EMPTY
    requires w'.Inv(mem) && OnlyFresh(w, w') && OthersUnheld(w, w', q) && w.Free(q) && Fits(w, w', i, q, s[i])
    ensures PagesState(w', mem, place, s, d[i := Mpfn(Some(q), false, write)], 0)
  {
    TakeUnpack(w, mem, place, s, d);
    hide World.Inv, Slots, LruHeld, MirrorHome, SlotsMoved, MirrorMid, OnlyFresh, OthersUnheld, Fits, World.Balanced,
         Kinds;
    TakeLocks(w, w', s, d, i, q, write);
    TakePtes(w, w', s, BaseOf(place));
    TakeHome(w, w', BaseOf(place));
    TakeMirror(w, w', mem, place, s, d, d[i := Mpfn(Some(q), false, write)]);
    TakeSlots(w, w', mem, place, s, d, i, q, write);
  }

  lemma TakePtes(w: World, w': World, s: seq<Mpfn>, base: Option<Addr>)
    requires SlotPtes(w, s, base) && OnlyFresh(w, w')
    ensures SlotPtes(w', s, base)
  {
    hide Carried;
  }

  lemma TakeUnpack(w: World, mem: Mem, place: Option<Place>, s: seq<Mpfn>, d: seq<Mpfn>)
    requires PagesState(w, mem, place, s, d, 0)
    ensures w.Balanced() && Kinds(w.pt, w.pages)
  {}

  // ----- the two allocators

  // What is copied for a slot: its page, or zeroes
  function SrcData(w: World, m: Mpfn): PageData {
    if m.page.Some? then w.Data(m.page.value) else ZERO_DATA
  }

  lemma FreeUnheld(w: World, p: Pid)
    requires w.Balanced() && LruHeld(w.pages) && w.Free(p)
    ensures !w.pages[p].lock.Ours() && w.pages[p].lru != Isolated
  {
    FreeUnmapped(w, p);
  }

  lemma SystemFits(w: World, mem: Mem, i: nat, q: Pid, m: Mpfn)
    requires w.Inv(mem) && LruHeld(w.pages) && w.Free(q) && w.pages[q].kind.System?
    ensures var w' := AllocSystem(w, q, DstSlot(i), SrcData(w, m));
            w'.Inv(mem) && OnlyFresh(w, w') && Fits(w, w', i, q, m) && OthersUnheld(w, w', q)
  {
    hide Carried, World.Mappers, World.Inv, LruHeld;
    AllocSystemKeeps(w, mem, q, DstSlot(i), SrcData(w, m));
    FreshSystemCarried(w, q, DstSlot(i), SrcData(w, m));
    AllFreeUnheld(w, mem);
  }

  lemma AllFreeUnheld(w: World, mem: Mem)
    requires w.Inv(mem) && LruHeld(w.pages)
    ensures forall p | w.Free(p) :: !w.pages[p].lock.Ours() && w.pages[p].lru != Isolated && w.pages[p].pins == 0
  {
    forall p | w.Free(p) ensures !w.pages[p].lock.Ours() && w.pages[p].lru != Isolated && w.pages[p].pins == 0 {
      FreeUnheld(w, p);
      FreeUnmapped(w, p);
    }
  }

  lemma DeviceFits(w: World, mem: Mem, i: nat, q: Pid, rp: Pid, m: Mpfn)
    requires w.Inv(mem) && LruHeld(w.pages) && w.Free(q) && w.pages[q].kind.Device? && w.Free(rp)
    requires w.pages[rp].kind.System?
    ensures var w' := AllocDevice(w, q, rp, DstSlot(i), SrcData(w, m));
            w'.Inv(mem) && OnlyFresh(w, w') && Fits(w, w', i, q, m) && OthersUnheld(w, w', q)
  {
    hide World.Inv, World.Mappers, SrcData, OnlyFresh, Fits, OthersUnheld;
    AllocDeviceKeeps(w, mem, q, rp, DstSlot(i), SrcData(w, m));
    DeviceFrame(w, mem, i, q, rp, SrcData(w, m));
    DeviceOthers(w, mem, i, q, rp, SrcData(w, m));
    DeviceFit(w, mem, i, q, rp, m);
  }

  lemma DeviceFit(w: World, mem: Mem, i: nat, q: Pid, rp: Pid, m: Mpfn)
    requires w.Inv(mem) && w.Free(q) && w.pages[q].kind.Device? && w.Free(rp) && w.pages[rp].kind.System?
    requires var w' := AllocDevice(w, q, rp, DstSlot(i), SrcData(w, m));
             w'.Mappers(q) == {} && w'.Data(q) == SrcData(w, m)
    ensures Fits(w, AllocDevice(w, q, rp, DstSlot(i), SrcData(w, m)), i, q, m)
  {
    hide World.Mappers, World.Inv;
  }

  lemma DeviceFrame(w: World, mem: Mem, i: nat, q: Pid, rp: Pid, data: PageData)
    requires w.Inv(mem) && w.Free(q) && w.Free(rp) && w.pages[q].kind.Device? && w.pages[rp].kind.System?
    ensures OnlyFresh(w, AllocDevice(w, q, rp, DstSlot(i), data))
  {
    hide Carried, World.Inv;
    FreshDeviceCarried(w, mem, q, rp, DstSlot(i), data);
  }

  lemma DeviceOthers(w: World, mem: Mem, i: nat, q: Pid, rp: Pid, data: PageData)
    requires w.Inv(mem) && LruHeld(w.pages) && w.Free(q) && w.Free(rp) && q != rp
    ensures OthersUnheld(w, AllocDevice(w, q, rp, DstSlot(i), data), q)
  {
    hide Carried;
    forall p | p in w.pages && !w.Live(p) { FreeUnheld(w, p); }
    hide World.Inv, World.Mappers;
  }

  // ----- xa_erase at an address of the range

  lemma EraseKeeps(w: World, mem: Mem, place: Option<Place>, s: seq<Mpfn>, d: seq<Mpfn>, a: Addr)
    requires PagesState(w, mem, place, s, d, 0)
    ensures PagesState(w.MirrorErase(a), mem, place, s, d, 0)
  {
    var w' := w.MirrorErase(a);
    hide World.Inv, Slots, SlotsMoved, MirrorMid, MirrorHome;
    EraseInv(w, mem, a);
    SlotsSame(w, w', s, d);
    EraseSlots(w, place, s, d, a);
    EraseMirror(w, place, s, d, a);
  }

  lemma EraseMirror(w: World, place: Option<Place>, s: seq<Mpfn>, d: seq<Mpfn>, a: Addr)
    requires MirrorMid(w, place, s, d, 0) && MirrorHome(w, BaseOf(place))
    ensures MirrorMid(w.MirrorErase(a), place, s, d, 0) && MirrorHome(w.MirrorErase(a), BaseOf(place))
  {
    var w' := w.MirrorErase(a);
    forall b | b in w'.mirror && w'.At(b).Migration? ensures AtHome(w', BaseOf(place), b) {
      assert AtHome(w, BaseOf(place), b);
    }
    forall b | b in w'.mirror ensures w'.EntryOk(b, w'.mirror[b]) {
      assert w.EntryOk(b, w.mirror[b]);
    }
  }

  lemma EraseInv(w: World, mem: Mem, a: Addr)
    requires w.Inv(mem)
    ensures w.MirrorErase(a).Inv(mem)
  {
    var w' := w.MirrorErase(a);
    MappersOfPt(w, w');
    hide Exclusive, Backed, Kinds;
    EraseBalance(w, a);
    hide World.Balanced, World.Mappers;
    forall b: Addr ensures w'.Read(b) == w.Read(b) {}
  }

  lemma EraseBalance(w: World, a: Addr)
    requires w.Balanced()
    ensures w.MirrorErase(a).Balanced()
  {
    MappersOfPt(w, w.MirrorErase(a));
    forall p | p in w.pages ensures w.MirrorErase(a).BalancedAt(p) { assert w.BalancedAt(p); }
  }

  lemma EraseSlots(w: World, place: Option<Place>, s: seq<Mpfn>, d: seq<Mpfn>, a: Addr)
    requires SlotsMoved(w, place, s, d, 0)
    ensures SlotsMoved(w.MirrorErase(a), place, s, d, 0)
  {
    MappersOfPt(w, w.MirrorErase(a));
    hide World.Mappers;
    forall j | 0 <= j < |s| ensures SlotReady(w.MirrorErase(a), s[j], d[j]) {
      assert SlotReady(w, s[j], d[j]);
    }
  }

  // ----- which slots get a new page

  // To the device, as its owner, mapping holes with the vma's permission; or back to the system
  datatype Direction = ToDevice(owner: nat, writable: bool) | ToSystem {
    predicate Wants(w: World, m: Mpfn) {
      match this
      case ToDevice(_, _) => m.migrate && !IsDevicePage(w, m.page)
      case ToSystem => m.migrate && IsDevicePage(w, m.page)
    }

    // The pages that a source stands for
    predicate Uses(source: Option<Source>, p: Pid) {
      source.Some? && (source.value.q == p || (ToDevice? && source.value.backing == p))
    }

    // Free memory of the right kind
    predicate Usable(w: World, source: Option<Source>) {
      match this
      case ToDevice(owner, _) => DeviceSource(w, source, owner)
      case ToSystem => SystemSource(w, source)
    }

    function NewMpfn(m: Mpfn, q: Pid): Mpfn {
      match this
      case ToDevice(_, writable) => Mpfn(Some(q), false, m.write || (m.page == None && writable))
      case ToSystem => Mpfn(Some(q), false, m.write)
    }
  }

  // The page p was handed out for none of the first i slots
  ghost predicate Unspent(dir: Direction, alloc: nat -> Option<Source>, d: seq<Mpfn>, i: nat, p: Pid) {
    forall j {:trigger d[j]} | 0 <= j < i && j < |d| && d[j].page.Some? :: !dir.Uses(alloc(j), p)
  }

  // There is memory for slot i that no earlier slot got
  ghost predicate Supplied(w0: World, dir: Direction, alloc: nat -> Option<Source>, d: seq<Mpfn>, i: nat) {
    dir.Usable(w0, alloc(i)) && forall p | dir.Uses(alloc(i), p) :: Unspent(dir, alloc, d, i, p)
  }

  // The first k slots of dst: a slot has a page exactly if it wants one and there was one to give
  ghost predicate FilledUpTo(w0: World, dir: Direction, alloc: nat -> Option<Source>, s: seq<Mpfn>, d: seq<Mpfn>,
                             k: nat) {
    |s| == |d| && forall i {:trigger d[i]} | 0 <= i < k && i < |d| ::
      d[i] == if dir.Wants(w0, s[i]) && Supplied(w0, dir, alloc, d, i) then dir.NewMpfn(s[i], alloc(i).value.q) else EMPTY
  }

  // Pages not handed out so far are as they were; those handed out are in use
  ghost predicate Spent(w0: World, w: World, dir: Direction, alloc: nat -> Option<Source>, d: seq<Mpfn>, k: nat) {
    && w.pages.Keys == w0.pages.Keys
    && forall p | p in w0.pages ::
      if Unspent(dir, alloc, d, k, p) then w.pages[p] == w0.pages[p] else w.pages[p].refs > 0
  }

  // What one turn writes, and the pages it touches
  ghost predicate Filled(w: World, w': World, dir: Direction, source: Option<Source>, m: Mpfn, n: Mpfn) {
    && n == (if dir.Wants(w, m) && dir.Usable(w, source) then dir.NewMpfn(m, source.value.q) else EMPTY)
    && w'.pages.Keys == w.pages.Keys
    && forall p | p in w.pages ::
         if n.page.Some? && dir.Uses(source, p) then w'.pages[p].refs > 0 else w'.pages[p] == w.pages[p]
  }

  lemma FillStart(w0: World, dir: Direction, alloc: nat -> Option<Source>, s: seq<Mpfn>, d: seq<Mpfn>)
    requires |s| == |d|
    ensures FilledUpTo(w0, dir, alloc, s, d, 0) && Spent(w0, w0, dir, alloc, d, 0)
  {}

  lemma UnspentSame(dir: Direction, alloc: nat -> Option<Source>, d: seq<Mpfn>, d': seq<Mpfn>, i: nat, p: Pid)
    requires |d'| == |d| && forall j | 0 <= j < i && j < |d| :: d'[j] == d[j]
    ensures Unspent(dir, alloc, d', i, p) == Unspent(dir, alloc, d, i, p)
  {}

  lemma SuppliedSame(w0: World, dir: Direction, alloc: nat -> Option<Source>, d: seq<Mpfn>, d': seq<Mpfn>, i: nat)
    requires |d'| == |d| && forall j | 0 <= j < i && j < |d| :: d'[j] == d[j]
    ensures Supplied(w0, dir, alloc, d', i) <==> Supplied(w0, dir, alloc, d, i)
  {
    forall p ensures Unspent(dir, alloc, d', i, p) == Unspent(dir, alloc, d, i, p) {
      UnspentSame(dir, alloc, d, d', i, p);
    }
    hide Unspent;
  }

  lemma UnspentStep(dir: Direction, alloc: nat -> Option<Source>, d: seq<Mpfn>, i: nat, n: Mpfn, p: Pid)
    requires i < |d|
    ensures Unspent(dir, alloc, d[i := n], i + 1, p)
       <==> Unspent(dir, alloc, d, i, p) && !(n.page.Some? && dir.Uses(alloc(i), p))
  {
    UnspentSame(dir, alloc, d, d[i := n], i, p);
    assert Unspent(dir, alloc, d[i := n], i + 1, p) ==> d[i := n][i] == n;
  }

  // The loop decides by the state of its turn; that is the state before the loop less what was handed out.
  lemma SourceSame(w0: World, w: World, dir: Direction, alloc: nat -> Option<Source>, d: seq<Mpfn>, i: nat, m: Mpfn)
    requires Spent(w0, w, dir, alloc, d, i) && OnlyFresh(w0, w)
    ensures dir.Usable(w, alloc(i)) <==> Supplied(w0, dir, alloc, d, i)
    ensures dir.Wants(w, m) <==> dir.Wants(w0, m)
  {
    hide Carried;
    hide Unspent;
  }

  lemma SpentStep(w0: World, w: World, w': World, dir: Direction, alloc: nat -> Option<Source>, d: seq<Mpfn>, i: nat,
                  m: Mpfn, n: Mpfn)
    requires Spent(w0, w, dir, alloc, d, i) && i < |d| && Filled(w, w', dir, alloc(i), m, n)
    ensures Spent(w0, w', dir, alloc, d[i := n], i + 1)
  {
    hide Unspent;
    forall p | p in w0.pages
      ensures if Unspent(dir, alloc, d[i := n], i + 1, p) then w'.pages[p] == w0.pages[p] else w'.pages[p].refs > 0
    {
      UnspentStep(dir, alloc, d, i, n, p);
    }
  }

  // One turn of an allocation loop, in terms of the state before the loop
  lemma FilledStep(w0: World, w: World, w': World, dir: Direction, alloc: nat -> Option<Source>, s: seq<Mpfn>,
                   d: seq<Mpfn>, i: nat, n: Mpfn)
    requires FilledUpTo(w0, dir, alloc, s, d, i) && Spent(w0, w, dir, alloc, d, i) && OnlyFresh(w0, w) && i < |s|
    requires Filled(w, w', dir, alloc(i), s[i], n)
    ensures FilledUpTo(w0, dir, alloc, s, d[i := n], i + 1) && Spent(w0, w', dir, alloc, d[i := n], i + 1)
  {
    hide Spent, OnlyFresh, Supplied;
    SourceSame(w0, w, dir, alloc, d, i, s[i]);
    forall j: nat | j <= i ensures Supplied(w0, dir, alloc, d[i := n], j) <==> Supplied(w0, dir, alloc, d, j) {
      SuppliedSame(w0, dir, alloc, d, d[i := n], j);
    }
    SpentStep(w0, w, w', dir, alloc, d, i, s[i], n);
  }

  // ----- dmirror_migrate_alloc_and_copy

  // What the driver writes into dst going to the device: only migrating slots without a device
  // page, each with a device page of its own
  ghost predicate DeviceDst(w: World, vma: Vma, s: seq<Mpfn>, d: seq<Mpfn>) {
    && |s| == |d|
    && forall i {:trigger d[i]} | 0 <= i < |d| && d[i].page.Some? :: DeviceDstAt(w, vma, s[i], d[i])
  }

  predicate DeviceDstAt(w: World, vma: Vma, m: Mpfn, n: Mpfn)
    requires n.page.Some?
  {
    && n.page.value in w.pages && w.pages[n.page.value].kind.Device?
    && n.write == if m.page.Some? then m.write else vma.writable
  }

  predicate DeviceSource(w: World, src: Option<Source>, owner: nat) {
    src.Some? && w.Free(src.value.q) && w.pages[src.value.q].kind == Device(owner)
    && w.Free(src.value.backing) && w.pages[src.value.backing].kind.System?
  }

  predicate IsDevicePage(w: World, p: Option<Pid>) {
    p.Some? && p.value in w.pages && w.pages[p.value].kind.Device?
  }

  ghost predicate AllocState(w0: World, w: World, mem: Mem, vma: Vma, place: Option<Place>, s: seq<Mpfn>,
                             d: seq<Mpfn>) {
    && PagesState(w, mem, place, s, d, 0) && DeviceDst(w, vma, s, d) && OnlyFresh(w0, w)
    && (forall j | 0 <= j < |s| && s[j].page == None :: !s[j].write)
    && (forall j | 0 <= j < |d| && d[j].page.Some? :: s[j].migrate)
  }

  lemma AllocStart(w: World, mem: Mem, vma: Vma, place: Option<Place>, s: seq<Mpfn>, d: seq<Mpfn>)
    requires PagesState(w, mem, place, s, d, 0)
    requires forall j | 0 <= j < |s| && s[j].page == None :: !s[j].write
    requires forall j | 0 <= j < |d| :: d[j] == EMPTY
    ensures AllocState(w, w, mem, vma, place, s, d)
  {
    CarriedSelf(w);
    hide Carried;
  }

  lemma AllocTurn(w0: World, w: World, mem: Mem, vma: Vma, place: Option<Place>, s: seq<Mpfn>, d: seq<Mpfn>, i: nat,
                  q: Pid, rp: Pid)
    requires AllocState(w0, w, mem, vma, place, s, d) && i < |s| && s[i].migrate && |d| == |s| && d[i] == EMPTY
    requires w.Free(q) && w.pages[q].kind.Device? && w.Free(rp) && w.pages[rp].kind.System?
    ensures var w' := AllocDevice(w, q, rp, DstSlot(i), SrcData(w, s[i]));
            var write := s[i].write || (s[i].page == None && vma.writable);
            AllocState(w0, w', mem, vma, place, s, d[i := Mpfn(Some(q), false, write)])
  {
    hide PagesState, OnlyFresh, DeviceDst, OthersUnheld, Fits, World.Data;
    SlotFits(w, mem, place, s, d, i, q, rp);
    var w' := AllocDevice(w, q, rp, DstSlot(i), SrcData(w, s[i]));
    var write := s[i].write || (s[i].page == None && vma.writable);
    TakeKeeps(w, w', mem, place, s, d, i, q, write);
    DeviceDstKeeps(w, w', mem, vma, place, s, d, i, q, write);
    FreshTrans(w0, w, w');
  }

  method AllocAndCopy(m: Machine, src: array<Mpfn>, dst: array<Mpfn>, npages: nat, vma: Vma, owner: nat,
                      ghost place: Option<Place>, alloc: nat -> Option<Source>)
    requires src != dst && npages <= src.Length && npages <= dst.Length
    requires AllocState(m.w, m.w, m.mem, vma, place, src[..npages], dst[..npages])
    requires forall i | 0 <= i < npages :: dst[i] == EMPTY
    modifies m`w, dst
    ensures AllocState(old(m.w), m.w, m.mem, vma, place, src[..npages], dst[..npages])
    ensures FilledUpTo(old(m.w), ToDevice(owner, vma.writable), alloc, src[..npages], dst[..npages], npages)
  {
    hide AllocState, FilledUpTo, Spent, Filled, OnlyFresh;
    ghost var w0, s, dir := m.w, src[..npages], ToDevice(owner, vma.writable);
    FillStart(w0, dir, alloc, s, dst[..npages]);
    var i := 0;
    while i < npages
      invariant 0 <= i <= npages && AllocState(w0, m.w, m.mem, vma, place, s, dst[..npages])
      invariant forall j | i <= j < npages :: dst[j] == EMPTY
      invariant FilledUpTo(w0, dir, alloc, s, dst[..npages], i) && Spent(w0, m.w, dir, alloc, dst[..npages], i)
    {
      ghost var w, d := m.w, dst[..npages];
      AllocFresh(w0, w, m.mem, vma, place, s, d);
      var n := AllocSlot(m, src[i], vma, owner, alloc(i), i, place, s, d, w0);
      FilledStep(w0, w, m.w, dir, alloc, s, d, i, n);
      dst[i] := n;
      assert dst[..npages] == d[i := n];
      i := i + 1;
    }
  }

  lemma AllocFresh(w0: World, w: World, mem: Mem, vma: Vma, place: Option<Place>, s: seq<Mpfn>, d: seq<Mpfn>)
    requires AllocState(w0, w, mem, vma, place, s, d)
    ensures OnlyFresh(w0, w)
  {}

  // A turn that writes nothing
  lemma FilledNone(w: World, dir: Direction, source: Option<Source>, m: Mpfn)
    requires !dir.Wants(w, m) || !dir.Usable(w, source)
    ensures Filled(w, w, dir, source, m, EMPTY)
  {}

  lemma FilledDevice(w: World, owner: nat, writable: bool, q: Pid, rp: Pid, h: Holder, data: PageData, m: Mpfn)
    requires var dir := ToDevice(owner, writable); dir.Wants(w, m) && dir.Usable(w, Some(Source(q, rp)))
    ensures var dir := ToDevice(owner, writable);
            Filled(w, AllocDevice(w, q, rp, h, data), dir, Some(Source(q, rp)), m, dir.NewMpfn(m, q))
  {}

  // One turn: the new dst entry
  method AllocSlot(m: Machine, page: Mpfn, vma: Vma, owner: nat, source: Option<Source>,
                   i: nat, ghost place: Option<Place>, ghost s: seq<Mpfn>, ghost d: seq<Mpfn>, ghost w0: World)
    returns (n: Mpfn)
    requires i < |s| == |d| && page == s[i] && d[i] == EMPTY && AllocState(w0, m.w, m.mem, vma, place, s, d)
    modifies m`w
    ensures AllocState(w0, m.w, m.mem, vma, place, s, d[i := n])
    ensures Filled(old(m.w), m.w, ToDevice(owner, vma.writable), source, page, n)
  {
    hide AllocState, AllocDevice, SrcData, Filled;
    ghost var dir := ToDevice(owner, vma.writable);
    n := EMPTY;
    assert d[i := n] == d;
    if !page.migrate || IsDevicePage(m.w, page.page) || !DeviceSource(m.w, source, owner) {
      FilledNone(m.w, dir, source, page);
      return;
    }
    var q, rp := source.value.q, source.value.backing;
    AllocTurn(w0, m.w, m.mem, vma, place, s, d, i, q, rp);
    FilledDevice(m.w, owner, vma.writable, q, rp, DstSlot(i), SrcData(m.w, page), page);
    // rpage gets the data of spage, or zeroes
    m.w := AllocDevice(m.w, q, rp, DstSlot(i), SrcData(m.w, page));
    n := Mpfn(Some(q), false, page.write || (page.page == None && vma.writable));
  }

  lemma SlotFits(w: World, mem: Mem, place: Option<Place>, s: seq<Mpfn>, d: seq<Mpfn>, i: nat, q: Pid, rp: Pid)
    requires PagesState(w, mem, place, s, d, 0) && i < |s|
    requires w.Free(q) && w.pages[q].kind.Device? && w.Free(rp) && w.pages[rp].kind.System?
    ensures var w' := AllocDevice(w, q, rp, DstSlot(i), SrcData(w, s[i]));
            w'.Inv(mem) && OnlyFresh(w, w') && Fits(w, w', i, q, s[i]) && OthersUnheld(w, w', q)
  {
    hide Slots, MirrorHome, MirrorMid, SlotsMoved, SlotPtes, World.Inv, LruHeld;
    DeviceFits(w, mem, i, q, rp, s[i]);
  }

  lemma FreshTrans(w0: World, w1: World, w2: World)
    requires OnlyFresh(w0, w1) && OnlyFresh(w1, w2)
    ensures OnlyFresh(w0, w2)
  {
    CarriedTrans(w0, w1, w2);
    hide Carried;
  }

  lemma DeviceDstKeeps(w: World, w': World, mem: Mem, vma: Vma, place: Option<Place>, s: seq<Mpfn>, d: seq<Mpfn>,
                       i: nat, q: Pid, write: bool)
    requires PagesState(w, mem, place, s, d, 0) && DeviceDst(w, vma, s, d) && OnlyFresh(w, w') && i < |s|
    requires q in w'.pages && w'.pages[q].kind.Device? && write == (s[i].write || (s[i].page == None && vma.writable))
    requires s[i].page == None ==> !s[i].write
    ensures DeviceDst(w', vma, s, d[i := Mpfn(Some(q), false, write)])
  {
    hide Carried;
    forall j | 0 <= j < |d| && j != i && d[j].page.Some? ensures DeviceDstAt(w', vma, s[j], d[j]) {
      assert DeviceDstAt(w, vma, s[j], d[j]);
      SlotHolds(w, s, d, j);
      HeldLive(w, mem, d[j].page.value);
    }
  }

  // ----- dmirror_devmem_fault_alloc_and_copy

  // Going to the system: only migrating device pages get a page, and their mirror entries are gone
  ghost predicate SystemDst(w: World, place: Option<Place>, s: seq<Mpfn>, d: seq<Mpfn>) {
    && |s| == |d|
    && forall i {:trigger d[i]} | 0 <= i < |d| && d[i].page.Some? ::
         s[i].migrate && IsDevicePage(w, s[i].page) && IsSystemPage(w, d[i].page)
         && (place.Some? ==> place.value.start + i !in w.mirror)
  }

  predicate IsSystemPage(w: World, p: Option<Pid>) {
    p.Some? && p.value in w.pages && w.pages[p.value].kind.System?
  }

  ghost predicate CopyState(w0: World, w: World, mem: Mem, place: Option<Place>, s: seq<Mpfn>, d: seq<Mpfn>) {
    PagesState(w, mem, place, s, d, 0) && SystemDst(w, place, s, d) && OnlyFresh(w0, w)
  }

  // Allocate, lock, erase the mirror entry, copy
  function CopyOut(w: World, place: Option<Place>, i: nat, q: Pid, m: Mpfn): World
    requires w.Free(q)
  {
    var w1 := AllocSystem(w, q, DstSlot(i), SrcData(w, m));
    if place.Some? then w1.MirrorErase(place.value.start + i) else w1
  }

  lemma CopyTurn(w0: World, w: World, mem: Mem, place: Option<Place>, s: seq<Mpfn>, d: seq<Mpfn>, i: nat, q: Pid,
                 write: bool)
    requires CopyState(w0, w, mem, place, s, d) && i < |s| == |d| && s[i].migrate && s[i].page.Some? && d[i] == EMPTY
    requires IsDevicePage(w, s[i].page) && w.Free(q) && w.pages[q].kind.System?
    ensures CopyState(w0, CopyOut(w, place, i, q, s[i]), mem, place, s, d[i := Mpfn(Some(q), false, write)])
  {
    hide PagesState, OnlyFresh, OthersUnheld, Fits, World.Data, SystemDst;
    var w1 := if place.Some? then w.MirrorErase(place.value.start + i) else w;
    if place.Some? { EraseKeeps(w, mem, place, s, d, place.value.start + i); }
    SystemSlotFits(w1, mem, place, s, d, i, q);
    var w' := AllocSystem(w1, q, DstSlot(i), SrcData(w1, s[i]));
    TakeKeeps(w1, w', mem, place, s, d, i, q, write);
    CopyOutSame(w, place, i, q, s[i]);
    FreshErase(w, w1);
    FreshTrans(w, w1, w');
    FreshTrans(w0, w, w');
    SystemDstTurn(w, w', place, s, d, i, Mpfn(Some(q), false, write));
  }

  lemma FreshErase(w: World, w1: World)
    requires w1.pt == w.pt && w1.pages == w.pages && w1.mirror.Keys <= w.mirror.Keys
    requires forall a | a in w1.mirror :: w1.mirror[a] == w.mirror[a]
    ensures OnlyFresh(w, w1)
  {
    CarriedPages(w, w1);
    hide Carried;
  }

  lemma SystemDstTurn(w: World, w': World, place: Option<Place>, s: seq<Mpfn>, d: seq<Mpfn>, i: nat, n: Mpfn)
    requires SystemDst(w, place, s, d) && OnlyFresh(w, w') && i < |s| && s[i].migrate
    requires IsDevicePage(w, s[i].page) && IsSystemPage(w, n.page)
    requires place.Some? ==> place.value.start + i !in w'.mirror
    ensures SystemDst(w', place, s, d[i := n])
  {
    hide Carried;
  }

  lemma SystemSlotFits(w: World, mem: Mem, place: Option<Place>, s: seq<Mpfn>, d: seq<Mpfn>, i: nat, q: Pid)
    requires PagesState(w, mem, place, s, d, 0) && i < |s| && w.Free(q) && w.pages[q].kind.System?
    ensures var w' := AllocSystem(w, q, DstSlot(i), SrcData(w, s[i]));
            w'.Inv(mem) && OnlyFresh(w, w') && Fits(w, w', i, q, s[i]) && OthersUnheld(w, w', q)
  {
    hide Slots, MirrorHome, MirrorMid, SlotsMoved, SlotPtes, World.Inv, LruHeld;
    SystemFits(w, mem, i, q, s[i]);
  }

  lemma CopyOutSame(w: World, place: Option<Place>, i: nat, q: Pid, m: Mpfn)
    requires w.Free(q)
    ensures var w1 := if place.Some? then w.MirrorErase(place.value.start + i) else w;
            CopyOut(w, place, i, q, m) == AllocSystem(w1, q, DstSlot(i), SrcData(w1, m))
  {}

  lemma CopyStart(w: World, mem: Mem, place: Option<Place>, s: seq<Mpfn>, d: seq<Mpfn>)
    requires PagesState(w, mem, place, s, d, 0) && |s| == |d| && forall j | 0 <= j < |d| :: d[j] == EMPTY
    ensures CopyState(w, w, mem, place, s, d)
  {
    CarriedSelf(w);
    hide Carried;
  }

  // Also the copy loop of dmirror_device_evict_chunk, which has no addresses to erase
  method CopyToSystem(m: Machine, src: array<Mpfn>, dst: array<Mpfn>, npages: nat, place: Option<Place>,
                      alloc: nat -> Option<Source>)
    requires src != dst && npages <= src.Length && npages <= dst.Length
    requires CopyState(m.w, m.w, m.mem, place, src[..npages], dst[..npages])
    requires forall i | 0 <= i < npages :: dst[i] == EMPTY
    modifies m`w, dst
    ensures CopyState(old(m.w), m.w, m.mem, place, src[..npages], dst[..npages])
    ensures FilledUpTo(old(m.w), ToSystem, alloc, src[..npages], dst[..npages], npages)
  {
    hide CopyState, FilledUpTo, Spent, Filled, OnlyFresh;
    ghost var w0, s := m.w, src[..npages];
    FillStart(w0, ToSystem, alloc, s, dst[..npages]);
    var i := 0;
    while i < npages
      invariant 0 <= i <= npages && CopyState(w0, m.w, m.mem, place, s, dst[..npages])
      invariant forall j | i <= j < npages :: dst[j] == EMPTY
      invariant FilledUpTo(w0, ToSystem, alloc, s, dst[..npages], i)
      invariant Spent(w0, m.w, ToSystem, alloc, dst[..npages], i)
    {
      ghost var w, d := m.w, dst[..npages];
      CopyFresh(w0, w, m.mem, place, s, d);
      var n := CopySlot(m, src[i], i, place, alloc(i), s, d, w0);
      FilledStep(w0, w, m.w, ToSystem, alloc, s, d, i, n);
      dst[i] := n;
      assert dst[..npages] == d[i := n];
      i := i + 1;
    }
  }

  lemma CopyFresh(w0: World, w: World, mem: Mem, place: Option<Place>, s: seq<Mpfn>, d: seq<Mpfn>)
    requires CopyState(w0, w, mem, place, s, d)
    ensures OnlyFresh(w0, w)
  {}

  predicate SystemSource(w: World, source: Option<Source>) {
    source.Some? && w.Free(source.value.q) && w.pages[source.value.q].kind.System?
  }

  lemma FilledSystem(w: World, place: Option<Place>, i: nat, source: Option<Source>, m: Mpfn)
    requires ToSystem.Wants(w, m) && ToSystem.Usable(w, source)
    ensures Filled(w, CopyOut(w, place, i, source.value.q, m), ToSystem, source, m, ToSystem.NewMpfn(m, source.value.q))
  {}

  method CopySlot(m: Machine, page: Mpfn, i: nat, place: Option<Place>, source: Option<Source>,
                  ghost s: seq<Mpfn>, ghost d: seq<Mpfn>, ghost w0: World)
    returns (n: Mpfn)
    requires i < |s| == |d| && page == s[i] && d[i] == EMPTY && CopyState(w0, m.w, m.mem, place, s, d)
    modifies m`w
    ensures CopyState(w0, m.w, m.mem, place, s, d[i := n])
    ensures Filled(old(m.w), m.w, ToSystem, source, page, n)
  {
    hide CopyState, CopyOut, Filled;
    n := EMPTY;
    assert d[i := n] == d;
    if page.page == None || !page.migrate || !IsDevicePage(m.w, page.page) || !SystemSource(m.w, source) {
      FilledNone(m.w, ToSystem, source, page);
      return;
    }
    CopyTurn(w0, m.w, m.mem, place, s, d, i, source.value.q, page.write);
    FilledSystem(m.w, place, i, source, page);
    m.w := CopyOut(m.w, place, i, source.value.q, page);
    n := Mpfn(Some(source.value.q), false, page.write);
  }

  // ----- dmirror_migrate_finalize_and_map

  // What the driver stores for a slot
  function NewEntry(w: World, n: Mpfn): Entry
    requires n.page.Some? && n.page.value in w.pages
  {
    Entry(PageFrame(w.BackingOf(n.page.value)), if n.write then WriteTag else Untagged)
  }

  predicate Stores(m: Mpfn, n: Mpfn) {
    m.migrate && n.page.Some?
  }

  // The address of a slot from k on whose entry is still to be stored
  predicate ToStore(start: Addr, s: seq<Mpfn>, d: seq<Mpfn>, k: nat, a: Addr) {
    start + k <= a && a - start < |s| && a - start < |d| && Stores(s[a - start], d[a - start])
  }

  ghost predicate MapState(w: World, mem: Mem, place: Place, s: seq<Mpfn>, d: seq<Mpfn>, k: nat) {
    && w.Inv(mem) && Slots(w, s, d) && LruHeld(w.pages) && AllFinalizable(w, s, d)
    && SlotPtes(w, s, Some(place.start)) && DeviceDst(w, place.vma, s, d)
    && AllInserted(w, place, s, d) && MirrorMap(w, place, s, d, k) && StoredUpTo(w, place, s, d, k)
  }

  ghost predicate AllInserted(w: World, place: Place, s: seq<Mpfn>, d: seq<Mpfn>) {
    |s| == |d| && forall i {:trigger s[i]} | 0 <= i < |s| :: InsertedOk(w, Some(place), i, s[i], d[i])
  }

  ghost predicate StoredUpTo(w: World, place: Place, s: seq<Mpfn>, d: seq<Mpfn>, k: nat) {
    |s| == |d| && forall i {:trigger s[i]} | 0 <= i < |s| && i < k && Stores(s[i], d[i]) ::
      d[i].page.value in w.pages && place.start + i in w.mirror && w.mirror[place.start + i] == NewEntry(w, d[i])
  }

  ghost predicate MirrorMap(w: World, place: Place, s: seq<Mpfn>, d: seq<Mpfn>, k: nat) {
    forall a | a in w.mirror :: ToStore(place.start, s, d, k, a) || FinOk(w, s, d, a, w.mirror[a])
  }

  lemma MapStart(w: World, mem: Mem, place: Place, s: seq<Mpfn>, d: seq<Mpfn>)
    requires PagesState(w, mem, Some(place), s, d, |s|) && DeviceDst(w, place.vma, s, d)
    ensures MapState(w, mem, place, s, d, 0)
  {
    forall i | 0 <= i < |s| ensures Finalizable(w, s[i], d[i]) && InsertedOk(w, Some(place), i, s[i], d[i]) {
      assert SlotMoved(w, Some(place), i, s[i], d[i]);
    }
    MapStartMirror(w, mem, place, s, d);
    hide World.Inv, Slots, LruHeld, MirrorMap, DeviceDst, SlotPtes, MirrorHome, MirrorMid, Finalizable, InsertedOk;
  }

  lemma MapStartMirror(w: World, mem: Mem, place: Place, s: seq<Mpfn>, d: seq<Mpfn>)
    requires Slots(w, s, d) && MirrorHome(w, Some(place.start)) && MirrorMid(w, Some(place), s, d, |s|)
    ensures MirrorMap(w, place, s, d, 0)
  {
    hide World.EntryOk, Slots;
    forall a | a in w.mirror ensures ToStore(place.start, s, d, 0, a) || FinOk(w, s, d, a, w.mirror[a]) {
      assert w.EntryOk(a, w.mirror[a]) || AtInserted(Some(place), s, d, |s|, a);
      if w.At(a).Migration? { assert AtHome(w, Some(place.start), a); }
    }
  }

  // The new entry agrees with what the address will map
  lemma NewEntryOk(w: World, mem: Mem, place: Place, s: seq<Mpfn>, d: seq<Mpfn>, k: nat)
    requires MapState(w, mem, place, s, d, k) && k < |s| && Stores(s[k], d[k])
    ensures d[k].page.value in w.pages
    ensures FinOk(w, s, d, place.start + k, NewEntry(w, d[k]))
  {
    hide World.Inv, LruHeld, AllFinalizable, MirrorMap;
    SlotHolds(w, s, d, k);
    assert DeviceDstAt(w, place.vma, s[k], d[k]);
    assert InsertedOk(w, Some(place), k, s[k], d[k]);
  }

  lemma MapTurn(w: World, mem: Mem, place: Place, s: seq<Mpfn>, d: seq<Mpfn>, k: nat)
    requires MapState(w, mem, place, s, d, k) && k < |s|
    ensures |d| == |s| && (Stores(s[k], d[k]) ==> d[k].page.value in w.pages)
    ensures var w' := if Stores(s[k], d[k]) then w.MirrorStore(place.start + k, NewEntry(w, d[k])) else w;
            MapState(w', mem, place, s, d, k + 1)
  {
    hide World.Inv, Slots, LruHeld, AllFinalizable, SlotPtes, DeviceDst, MirrorMap;
    if Stores(s[k], d[k]) {
      NewEntryOk(w, mem, place, s, d, k);
      StoreMirror(w, place, s, d, k, NewEntry(w, d[k]));
      StoreRest(w, mem, place, s, d, place.start + k, NewEntry(w, d[k]));
      StoreUp(w, place, s, d, k);
    } else {
      SkipMirror(w, place, s, d, k);
    }
  }

  lemma StoreUp(w: World, place: Place, s: seq<Mpfn>, d: seq<Mpfn>, k: nat)
    requires AllInserted(w, place, s, d) && StoredUpTo(w, place, s, d, k) && k < |s| && Stores(s[k], d[k])
    requires d[k].page.value in w.pages
    ensures var w' := w.MirrorStore(place.start + k, NewEntry(w, d[k]));
            AllInserted(w', place, s, d) && StoredUpTo(w', place, s, d, k + 1)
  {
    var w' := w.MirrorStore(place.start + k, NewEntry(w, d[k]));
    forall i | 0 <= i < |s| ensures InsertedOk(w', Some(place), i, s[i], d[i]) {
      assert InsertedOk(w, Some(place), i, s[i], d[i]);
    }
  }

  lemma SkipMirror(w: World, place: Place, s: seq<Mpfn>, d: seq<Mpfn>, k: nat)
    requires MirrorMap(w, place, s, d, k) && StoredUpTo(w, place, s, d, k) && k < |s| && !Stores(s[k], d[k])
    ensures MirrorMap(w, place, s, d, k + 1) && StoredUpTo(w, place, s, d, k + 1)
  {
    hide FinOk;
    forall a | a in w.mirror ensures ToStore(place.start, s, d, k + 1, a) || FinOk(w, s, d, a, w.mirror[a]) {
      assert ToStore(place.start, s, d, k, a) || FinOk(w, s, d, a, w.mirror[a]);
    }
  }

  lemma StoreMirror(w: World, place: Place, s: seq<Mpfn>, d: seq<Mpfn>, k: nat, e: Entry)
    requires MirrorMap(w, place, s, d, k) && FinOk(w, s, d, place.start + k, e)
    ensures MirrorMap(w.MirrorStore(place.start + k, e), place, s, d, k + 1)
  {
    var w' := w.MirrorStore(place.start + k, e);
    forall a | a in w'.mirror ensures ToStore(place.start, s, d, k + 1, a) || FinOk(w', s, d, a, w'.mirror[a]) {
      if a == place.start + k {
        assert FinOk(w', s, d, a, e);
      } else {
        assert ToStore(place.start, s, d, k, a) || FinOk(w, s, d, a, w.mirror[a]);
      }
    }
  }

  lemma StoreRest(w: World, mem: Mem, place: Place, s: seq<Mpfn>, d: seq<Mpfn>, a: Addr, e: Entry)
    requires w.Inv(mem) && Slots(w, s, d) && AllFinalizable(w, s, d)
    requires SlotPtes(w, s, Some(place.start)) && DeviceDst(w, place.vma, s, d)
    ensures var w' := w.MirrorStore(a, e);
            && w'.Inv(mem) && Slots(w', s, d) && AllFinalizable(w', s, d)
            && SlotPtes(w', s, Some(place.start)) && DeviceDst(w', place.vma, s, d)
  {
    var w' := w.MirrorStore(a, e);
    StoreInv(w, mem, a, e);
    SlotsSame(w, w', s, d);
    MappersOfPt(w, w');
    hide World.Inv, World.Mappers, Slots;
    forall i | 0 <= i < |d| ensures Finalizable(w', s[i], d[i]) { assert Finalizable(w, s[i], d[i]); }
    forall i | 0 <= i < |d| && d[i].page.Some? ensures DeviceDstAt(w', place.vma, s[i], d[i]) {
      assert DeviceDstAt(w, place.vma, s[i], d[i]);
    }
  }

  lemma StoreInv(w: World, mem: Mem, a: Addr, e: Entry)
    requires w.Inv(mem)
    ensures w.MirrorStore(a, e).Inv(mem)
  {
    var w' := w.MirrorStore(a, e);
    hide Exclusive, Backed, Kinds;
    StoreBalance(w, a, e);
    hide World.Balanced, World.Mappers;
    forall b: Addr ensures w'.Read(b) == w.Read(b) {}
  }

  lemma StoreBalance(w: World, a: Addr, e: Entry)
    requires w.Balanced()
    ensures w.MirrorStore(a, e).Balanced()
  {
    MappersOfPt(w, w.MirrorStore(a, e));
    forall p | p in w.pages ensures w.MirrorStore(a, e).BalancedAt(p) { assert w.BalancedAt(p); }
  }

  lemma MapEnd(w: World, mem: Mem, place: Place, s: seq<Mpfn>, d: seq<Mpfn>)
    requires MapState(w, mem, place, s, d, |s|)
    ensures FinState(w, mem, s, d) && StoredUpTo(w, place, s, d, |s|)
  {
    hide World.Inv, Slots, LruHeld, AllFinalizable;
    forall a | a in w.mirror ensures FinOk(w, s, d, a, w.mirror[a]) {
      assert ToStore(place.start, s, d, |s|, a) || FinOk(w, s, d, a, w.mirror[a]);
    }
  }

  method FinalizeAndMap(m: Machine, src: array<Mpfn>, dst: array<Mpfn>, npages: nat, place: Place)
    requires npages <= src.Length && npages <= dst.Length
    requires PagesState(m.w, m.mem, Some(place), src[..npages], dst[..npages], npages)
    requires DeviceDst(m.w, place.vma, src[..npages], dst[..npages])
    modifies m`w
    ensures FinState(m.w, m.mem, src[..npages], dst[..npages])
    ensures m.w == old(m.w).(mirror := m.w.mirror)
    ensures StoredUpTo(m.w, place, src[..npages], dst[..npages], npages)
  {
    ghost var w0, s, d := m.w, src[..npages], dst[..npages];
    MapStart(w0, m.mem, place, s, d);
    hide MapState, PagesState, DeviceDst, FinState, NewEntry, StoredUpTo;
    var i := 0;
    while i < npages
      invariant 0 <= i <= npages && MapState(m.w, m.mem, place, s, d, i)
      invariant m.w == w0.(mirror := m.w.mirror)
    {
      MapTurn(m.w, m.mem, place, s, d, i);
      if src[i].migrate && dst[i].page.Some? {
        m.w := m.w.MirrorStore(place.start + i, NewEntry(m.w, dst[i]));
      }
      i := i + 1;
    }
    MapEnd(m.w, m.mem, place, s, d);
  }

  // ----- going to the system there is nothing to store

  lemma SystemFin(w: World, mem: Mem, place: Option<Place>, s: seq<Mpfn>, d: seq<Mpfn>)
    requires PagesState(w, mem, place, s, d, |s|)
    requires forall i | 0 <= i < |d| && d[i].page.Some? :: s[i].page.Some?
    requires place.Some? ==> forall i | 0 <= i < |d| && d[i].page.Some? :: place.value.start + i !in w.mirror
    ensures FinState(w, mem, s, d)
  {
    hide World.Inv, LruHeld, World.EntryOk, MirrorHome, SlotPtes, InsertedOk;
    assert AllFinalizable(w, s, d) by {
      forall i | 0 <= i < |s| ensures Finalizable(w, s[i], d[i]) {
        assert SlotMoved(w, place, i, s[i], d[i]);
      }
    }
    SystemFinMirror(w, place, s, d);
  }

  lemma SystemFinMirror(w: World, place: Option<Place>, s: seq<Mpfn>, d: seq<Mpfn>)
    requires MirrorMid(w, place, s, d, |s|) && MirrorHome(w, BaseOf(place)) && |s| == |d|
    requires forall i | 0 <= i < |d| && d[i].page.Some? :: s[i].page.Some?
    requires place.Some? ==> forall i | 0 <= i < |d| && d[i].page.Some? :: place.value.start + i !in w.mirror
    ensures MirrorFin(w, s, d)
  {
    hide World.EntryOk;
    forall a | a in w.mirror ensures FinOk(w, s, d, a, w.mirror[a]) {
      assert w.EntryOk(a, w.mirror[a]) || AtInserted(place, s, d, |s|, a);
      assert w.At(a).Migration? ==> AtHome(w, BaseOf(place), a);
    }
  }
}
