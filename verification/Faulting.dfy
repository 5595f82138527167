/**
  hmm.c: how pages get into the mirror page table.  dmirror_fault has the kernel fault in a range
  piece by piece, and dmirror_do_fault stores what was reported.
*/
module Faulting {
  import opened Kernel
  import opened KernelSteps
  import opened Txn
  import opened Accounts
  import opened MachineState
  import opened MigrateUnmap
  import opened Environment

  // ----- what a mirror entry gives access to

  function FrameData(w: World, f: Frame): PageData {
    match f
    case ZeroFrame => ZERO_DATA
    case PageFrame(p) => if p in w.pages then w.pages[p].data else ZERO_DATA
  }

  // Reading through a coherent entry is reading the process memory.
  lemma EntryReads(w: World, mem: Mem, a: Addr)
    requires Quiet(w, mem) && a in w.mirror
    ensures FrameData(w, w.mirror[a].frame) == MemAt(mem, a)
  {
    assert w.EntryOk(a, w.mirror[a]);
    assert w.Read(a) == MemAt(mem, a);
  }

  // A writable entry names the page that the address alone may write.
  lemma EntryWrites(w: World, mem: Mem, a: Addr, v: PageData)
    requires Quiet(w, mem) && a in w.mirror && w.mirror[a].tag == WriteTag
    ensures w.mirror[a].frame.PageFrame? && w.mirror[a].frame.pid in w.pages
    ensures Quiet(Stored(w, w.mirror[a].frame.pid, v), mem[a := v])
  {
    assert w.EntryOk(a, w.mirror[a]);
    var p, b := w.At(a).page, w.mirror[a].frame.pid;
    assert PteOk(w.pt[a], w.pages);
    if w.pages[p].kind.System? {
      StoredKeeps(w, mem, a, p, v);
    } else {
      MappedLive(w, a);
      assert LiveDevice(p, w.pages) && BackingOk(p, w.pages);
      StoredBackingKeeps(w, mem, a, p, v);
    }
    StoredQuiet(w, mem, b, v);
  }

  lemma StoredQuiet(w: World, mem: Mem, b: Pid, v: PageData)
    requires Quiet(w, mem) && b in w.pages
    ensures var w' := Stored(w, b, v);
            w'.MirrorOk() && forall p | p in w'.pages :: !w'.pages[p].lock.Ours() && w'.pages[p].lru != Isolated
  {
    hide World.Inv;
    var w' := Stored(w, b, v);
    forall a | a in w'.mirror ensures w'.EntryOk(a, w'.mirror[a]) {
      assert w.EntryOk(a, w.mirror[a]);
    }
  }

  lemma StoredBackingKeeps(w: World, mem: Mem, a: Addr, p: Pid, v: PageData)
    requires w.Inv(mem) && w.At(a).Refers() && w.At(a).page == p && w.At(a).write && LiveDevice(p, w.pages)
    requires BackingOk(p, w.pages)
    ensures Stored(w, w.pages[p].backing, v).Inv(mem[a := v])
  {
    var b := w.pages[p].backing;
    var w' := Stored(w, b, v);
    assert w.BalancedAt(b);
    forall q ensures w'.Mappers(q) == w.Mappers(q) {}
    BalancedOne(w, w', b);
    KindsPage(w.pt, w.pages, b, w'.pages[b]);
    BackedStored(w.pages, b, v);
    hide World.Balanced;
    forall c: Addr ensures w'.Read(c) == MemAt(mem[a := v], c) {
      assert w.Read(c) == MemAt(mem, c);
      if c != a && w.At(c).Refers() { BackingElsewhere(w, a, c, p, v); }
    }
  }

  lemma BackedStored(pages: map<Pid, Page>, b: Pid, v: PageData)
    requires Backed(pages) && b in pages
    ensures Backed(pages[b := pages[b].(data := v)])
  {
    BackedSame(pages, b, pages[b].(data := v));
  }

  lemma BackingElsewhere(w: World, a: Addr, c: Addr, p: Pid, v: PageData)
    requires Exclusive(w.pt) && Kinds(w.pt, w.pages) && Backed(w.pages) && w.Balanced()
    requires w.At(a).Refers() && w.At(a).page == p && w.At(a).write && LiveDevice(p, w.pages) && BackingOk(p, w.pages)
    requires c != a && w.At(c).Refers()
    ensures Stored(w, w.pages[p].backing, v).Data(w.At(c).page) == w.Data(w.At(c).page)
  {
    var b, r := w.pages[p].backing, w.At(c).page;
    MappedLive(w, c);
    assert w.BalancedAt(b) && PteOk(w.pt[c], w.pages);
    assert w.At(c).Maps(b) ==> c in w.Mappers(b);
    assert r != p && r != b;
    assert LiveDevice(r, w.pages) ==> w.pages[r].backing != b;
  }

  // ----- hmm_range_fault: a CPU fault for each page that needs one

  function FaultAction(w: World, a: Addr, write: bool, q: Pid): seq<Action> {
    match w.At(a)
    case NoPte => if write then [Touch(a, q)] else [ReadTouch(a)]
    case ZeroPte => if write then [Touch(a, q)] else []
    case Present(_, writable) => if write && !writable then [CopyOnWrite(a, q)] else []
    case _ => []
  }

  // What it reports as valid: the device's own private pages are left where they are
  predicate Reported(e: Pte, write: bool) {
    match e
    case ZeroPte => !write
    case Present(_, writable) => write ==> writable
    case DevicePrivate(_, _) => true
    case _ => false
  }

  // Outside [lo, hi) nothing is different, but for the entry of page hi: it goes if the fault at the
  // page before it replaces a mapping.
  ghost predicate SameElsewhere(w: World, w': World, lo: Addr, hi: Addr) {
    && (forall c: Addr | c < lo || hi <= c :: w'.At(c) == w.At(c))
    && (forall c: Addr | (c < lo || hi < c) && c in w.mirror :: c in w'.mirror && w'.mirror[c] == w.mirror[c])
    && (forall c: Addr | (c < lo || hi <= c) && c in w'.mirror :: c in w.mirror && w'.mirror[c] == w.mirror[c])
  }

  lemma FaultActionFrame(v: View, a: Addr, write: bool, q: Pid)
    requires FaultAction(v.w, a, write, q) != []
    ensures SameElsewhere(v.w, Act(v, FaultAction(v.w, a, write, q)[0]).w, a, a + 1)
  {}

  // The state after the CPU fault at a, if one is needed
  function PageFaulted(w: World, a: Addr, write: bool, q: Pid): World {
    var acts := FaultAction(w, a, write, q);
    if acts == [] then w else Act(View(w, map[]), acts[0]).w
  }

  // ... and after the faults of a range, in order
  function RangeFaulted(w: World, lo: Addr, hi: Addr, write: bool, alloc: nat -> Pid): World
    requires lo <= hi
    decreases hi
  {
    if hi == lo then w else PageFaulted(RangeFaulted(w, lo, hi - 1, write, alloc), hi - 1, write, alloc(hi - 1 - lo))
  }

  // After the fault the page is reported, if there was memory for it and it is in no other hands.
  lemma FaultedReported(w: World, a: Addr, write: bool, q: Pid)
    ensures Reported(PageFaulted(w, a, write, q).At(a), write) <==>
      match w.At(a)
      case NoPte => write ==> FreeSystem(w, q)
      case ZeroPte => write ==> FreeSystem(w, q)
      case Present(p, writable) => write && !writable ==> FreeSystem(w, q) && w.Live(p)
      case DevicePrivate(_, _) => true
      case _ => false
  {}

  method FaultPage(m: Machine, a: Addr, write: bool, q: Pid)
    requires Quiet(m.w, m.mem) && m.Recorded()
    modifies m
    ensures Quiet(m.w, m.mem) && m.Recorded() && m.history == old(m.history)
    ensures Ledger(old(m.w), m.history, m.w, m.history)
    ensures SameElsewhere(old(m.w), m.w, a, a + 1) && m.w == PageFaulted(old(m.w), a, write, q)
  {
    ghost var w0, mem0 := m.w, m.mem;
    QuietParts(w0, mem0);
    var acts := FaultAction(m.w, a, write, q);
    if acts != [] { FaultSilent(m.w, a, write, q); }
    hide Quiet, World.Inv, EnvRel, Act, FaultAction, SameElsewhere, Ledger;
    LedgerSelf(m.w, m.history);
    if acts == [] {
      SameSelf(m.w, a, a + 1);
    } else {
      FaultActionFrame(View(w0, mem0), a, write, q);
      InterfereOnce(m, acts[0]);
      EnvKeepsQuiet(w0, m.w, mem0, m.mem);
    }
  }

  // A fault allocates and maps; the process sees no new contents.
  lemma FaultSilent(w: World, a: Addr, write: bool, q: Pid)
    requires FaultAction(w, a, write, q) != []
    ensures EventOf(w, FaultAction(w, a, write, q)[0]) == None
  {}

  lemma SameSelf(w: World, lo: Addr, hi: Addr)
    ensures SameElsewhere(w, w, lo, hi)
  {}

  lemma SameGrow(w0: World, w: World, w': World, lo: Addr, a: Addr)
    requires lo <= a && SameElsewhere(w0, w, lo, a) && SameElsewhere(w, w', a, a + 1)
    ensures SameElsewhere(w0, w', lo, a + 1)
  {}

  method FaultPages(m: Machine, lo: Addr, hi: Addr, write: bool, alloc: nat -> Pid)
    requires lo <= hi && Quiet(m.w, m.mem) && m.Recorded()
    modifies m
    ensures Quiet(m.w, m.mem) && m.Recorded() && m.history == old(m.history)
    ensures SameElsewhere(old(m.w), m.w, lo, hi) && m.w == RangeFaulted(old(m.w), lo, hi, write, alloc)
    ensures Ledger(old(m.w), m.history, m.w, m.history)
  {
    hide Quiet, SameElsewhere, PageFaulted, Ledger;
    SameSelf(m.w, lo, lo);
    LedgerSelf(m.w, m.history);
    var a := lo;
    while a < hi
      invariant lo <= a <= hi && Quiet(m.w, m.mem) && m.Recorded() && m.history == old(m.history)
      invariant SameElsewhere(old(m.w), m.w, lo, a) && m.w == RangeFaulted(old(m.w), lo, a, write, alloc)
      invariant Ledger(old(m.w), m.history, m.w, m.history)
    {
      ghost var w := m.w;
      FaultPage(m, a, write, alloc(a - lo));
      LedgerTrans(old(m.w), m.history, w, m.history, m.w, m.history);
      SameGrow(old(m.w), w, m.w, lo, a);
      a := a + 1;
    }
  }

  // ----- dmirror_do_fault: store what was reported

  // hmm_pfn_to_page of the reported pfn, tagged when it is writable
  function FaultEntry(e: Pte): Entry {
    match e
    case ZeroPte => Entry(ZeroFrame, Untagged)
    case Present(p, writable) => Entry(PageFrame(p), if writable then WriteTag else Untagged)
    case DevicePrivate(p, writable) => Entry(PageFrame(p), if writable then WriteTag else Untagged)
    case _ => Entry(ZeroFrame, Untagged)
  }

  // The entry is coherent, except for a private page of the device itself: there the struct page
  // of the device is stored, not the backing page.
  lemma FaultEntryOk(w: World, mem: Mem, a: Addr, write: bool)
    requires w.Inv(mem) && Reported(w.At(a), write)
    ensures w.EntryOk(a, FaultEntry(w.At(a))) <==> !w.At(a).DevicePrivate?
  {
    if w.At(a).Refers() {
      assert PteOk(w.pt[a], w.pages);
      MappedLive(w, a);
      assert LiveDevice(w.At(a).page, w.pages) ==> BackingOk(w.At(a).page, w.pages);
    }
  }

  // One device page, mapped read-only at address 0 and without a mirror entry, as a migration
  // back to system memory leaves it when its last stage fails
  function RawWorld(): World {
    World(map[0 := DevicePrivate(0, false)],
          map[0 := Page(Device(0), 1, 0, Unlocked, OffLru, Anon, false, ZERO_DATA, 1),
              1 := Page(System, 1, 1, Unlocked, OffLru, NoMapping, false, 7, 1)],
          map[])
  }

  lemma RawFaultExample()
    ensures var w := RawWorld();
            Quiet(w, map[0 := 7]) && Reported(w.At(0), false) && !w.EntryOk(0, FaultEntry(w.At(0)))
            && FrameData(w, FaultEntry(w.At(0)).frame) != w.Read(0)
  {
    var w := RawWorld();
    assert w.Mappers(0) == {0} && w.Mappers(1) == {};
    assert w.BalancedAt(0) && w.BalancedAt(1);
    forall a: Addr ensures w.Read(a) == MemAt(map[0 := 7], a) {}
  }

  // Everything the device is about to access is in the mirror
  ghost predicate Covered(w: World, lo: Addr, hi: Addr, write: bool) {
    forall a: Addr | lo <= a < hi :: Accessible(w, a, write)
  }

  predicate Accessible(w: World, a: Addr, write: bool) {
    a in w.mirror && (write ==> w.mirror[a].tag == WriteTag)
  }

  predicate Rawly(w: World, a: Addr) {
    w.At(a).DevicePrivate?
  }

  // Only the mirror differs
  predicate MirrorOnly(w: World, w': World) {
    w'.pt == w.pt && w'.pages == w.pages
  }

  // Stored at lo..a, everything else as before
  ghost predicate StoredTo(w0: World, w: World, lo: Addr, a: Addr) {
    && MirrorOnly(w0, w)
    && (forall c: Addr | lo <= c < a :: c in w.mirror && w.mirror[c] == FaultEntry(w0.At(c)))
    && (forall c: Addr | c < lo || a <= c ::
          (c in w.mirror <==> c in w0.mirror) && (c in w.mirror ==> w.mirror[c] == w0.mirror[c]))
  }

  // A private page of the device among those stored
  ghost predicate StoresRaw(w: World, lo: Addr, hi: Addr) {
    exists a: Addr | lo <= a < hi :: Rawly(w, a)
  }

  // A private page that is mapped read-only stops a fault for writing.
  predicate Blocks(w: World, a: Addr, write: bool) {
    write && w.At(a).DevicePrivate? && !w.At(a).write
  }

  // The first private page of the device is one that does not.
  ghost predicate RawFirst(w: World, lo: Addr, hi: Addr, write: bool) {
    exists a: Addr | lo <= a < hi :: Rawly(w, a) && OpenTo(w, lo, a, write)
  }

  ghost predicate OpenTo(w: World, lo: Addr, a: Addr, write: bool) {
    forall c: Addr | lo <= c <= a :: !Blocks(w, c, write)
  }

  lemma StopRaw(w: World, lo: Addr, stop: Addr, hi: Addr, write: bool)
    requires lo <= stop <= hi && (forall c: Addr | lo <= c < stop :: !Blocks(w, c, write))
    requires stop < hi ==> Blocks(w, stop, write)
    ensures StoresRaw(w, lo, stop) <==> RawFirst(w, lo, hi, write)
  {
    if StoresRaw(w, lo, stop) {
      var a: Addr :| lo <= a < stop && Rawly(w, a);
      assert OpenTo(w, lo, a, write);
    }
    if RawFirst(w, lo, hi, write) {
      var a: Addr :| lo <= a < hi && Rawly(w, a) && OpenTo(w, lo, a, write);
      assert a < stop;
    }
  }

  lemma RawStep(w: World, lo: Addr, a: Addr)
    requires lo <= a
    ensures StoresRaw(w, lo, a + 1) <==> StoresRaw(w, lo, a) || Rawly(w, a)
  {
    if StoresRaw(w, lo, a + 1) {
      var c: Addr :| lo <= c < a + 1 && Rawly(w, c);
      assert c != a ==> StoresRaw(w, lo, a);
    }
    if StoresRaw(w, lo, a) {
      var c: Addr :| lo <= c < a && Rawly(w, c);
    }
  }

  method DoFault(m: Machine, lo: Addr, hi: Addr, write: bool) returns (ok: bool, raw: bool, ghost stop: Addr)
    requires lo <= hi && m.w.Inv(m.mem) && forall a | lo <= a < hi :: Reported(m.w.At(a), write)
    modifies m`w
    ensures lo <= stop <= hi && (ok <==> stop == hi)
    ensures !ok ==> Blocks(old(m.w), stop, write)
    ensures forall c: Addr | lo <= c < stop :: !Blocks(old(m.w), c, write)
    ensures StoredTo(old(m.w), m.w, lo, stop) && (raw <==> StoresRaw(old(m.w), lo, stop))
  {
    hide World.Inv, StoresRaw;
    ghost var w0 := m.w;
    RawNone(w0, lo);
    raw := false;
    var a := lo;
    while a < hi
      invariant lo <= a <= hi && StoredTo(w0, m.w, lo, a) && (raw <==> StoresRaw(w0, lo, a))
      invariant forall c: Addr | lo <= c < a :: !Blocks(w0, c, write)
    {
      var e := FaultEntry(m.w.At(a));
      assert Reported(w0.At(a), write);
      if write && e.tag != WriteTag {
        return false, raw, a;
      }
      RawStep(w0, lo, a);
      raw := raw || Rawly(m.w, a);
      m.w := m.w.MirrorStore(a, e);
      a := a + 1;
    }
    return true, raw, a;
  }

  lemma RawNone(w: World, lo: Addr)
    ensures !StoresRaw(w, lo, lo)
  {}

  lemma StoredEntry(w0: World, w: World, mem: Mem, lo: Addr, stop: Addr, write: bool, a: Addr)
    requires Quiet(w0, mem) && StoredTo(w0, w, lo, stop) && a in w.mirror
    requires lo <= a < stop ==> Reported(w0.At(a), write)
    ensures w.EntryOk(a, w.mirror[a]) <==> !(lo <= a < stop && Rawly(w0, a))
  {
    if lo <= a < stop {
      FaultEntryOk(w0, mem, a, write);
    } else {
      assert w0.EntryOk(a, w0.mirror[a]);
    }
  }

  // The mirror stays coherent exactly when no private page of the device itself was stored.
  lemma StoredCoherent(w0: World, w: World, mem: Mem, lo: Addr, stop: Addr, write: bool)
    requires Quiet(w0, mem) && StoredTo(w0, w, lo, stop)
    requires forall a | lo <= a < stop :: Reported(w0.At(a), write)
    ensures w.Inv(mem) && (w.MirrorOk() <==> !StoresRaw(w0, lo, stop))
    ensures !StoresRaw(w0, lo, stop) ==> Quiet(w, mem)
  {
    MirrorOnlyInv(w0, w, mem);
    forall a | a in w.mirror ensures w.EntryOk(a, w.mirror[a]) <==> !(lo <= a < stop && Rawly(w0, a)) {
      StoredEntry(w0, w, mem, lo, stop, write, a);
    }
    hide World.Inv, World.EntryOk;
    if StoresRaw(w0, lo, stop) {
      var a: Addr :| lo <= a < stop && Rawly(w0, a);
      assert a in w.mirror;
    }
  }

  lemma MirrorOnlyInv(w: World, w': World, mem: Mem)
    requires w.Inv(mem) && MirrorOnly(w, w')
    ensures w'.Inv(mem)
  {
    MappersOfPt(w, w');
    forall p | p in w'.pages ensures w'.BalancedAt(p) { assert w.BalancedAt(p); }
    forall a: Addr ensures w'.Read(a) == w.Read(a) {}
  }

  // ----- dmirror_range_fault and dmirror_fault

  // acts: what others do before the attempt that is not retried; alloc: pages the faults allocate
  datatype RangeFate = RangeFate(acts: seq<Action>, alloc: nat -> Pid)

  datatype Fault = Faulted | FaultFailed | StoredRaw

  const CHUNK: nat := 64

  method RangeFault(m: Machine, lo: Addr, hi: Addr, write: bool, fate: RangeFate) returns (r: Fault)
    requires lo <= hi && Quiet(m.w, m.mem) && m.Recorded()
    modifies m
    ensures m.Recorded() && old(m.history) <= m.history && m.w.Inv(m.mem)
    ensures Ledger(old(m.w), old(m.history), m.w, m.history)
    ensures !r.StoredRaw? ==> Quiet(m.w, m.mem)
    ensures r.StoredRaw? ==> !m.w.MirrorOk()
    ensures r.Faulted? ==> Covered(m.w, lo, hi, write)
    ensures r.Faulted? ==> SparedBelow(old(m.w), m.w, fate.acts, lo)
    ensures fate.acts == [] ==> m.history == old(m.history)
    ensures fate.acts == [] ==> (r.Faulted? <==> Faultable(old(m.w), lo, hi, write, fate.alloc))
    ensures fate.acts == [] ==>
      (r.StoredRaw? <==> Reportable(old(m.w), lo, hi, write, fate.alloc) && RawFirst(old(m.w), lo, hi, write))
    ensures StaysMappable(old(m.w), m.w, fate.acts)
    ensures !write && AllMappable(old(m.w), lo, hi) && NoChild(fate.acts, lo, hi) ==> r.Faulted?
    ensures fate.acts == [] && r.Faulted? ==>
      StoredTo(RangeFaulted(old(m.w), lo, hi, write, fate.alloc), m.w, lo, hi) && SameElsewhere(old(m.w), m.w, lo, hi)
  {
    hide Quiet, SameElsewhere, World.Inv, EnvRel, Covered, StoredTo, StoresRaw, Reported, RangeFaulted, AllReady,
         Faultable, Ledger, MissedSpared, SparedBelow, Blocks, Reportable, RawFirst, StaysMappable, ActAll,
         AllMappable, NoChild;
    ghost var w0, mem0, h0 := m.w, m.mem, m.history;
    QuietParts(w0, mem0);
    Interfere(m, fate.acts);
    EnvKeepsQuiet(w0, m.w, mem0, m.mem);
    ghost var w1, mem1 := m.w, m.mem;
    FaultPages(m, lo, hi, write, fate.alloc);
    ghost var w2 := m.w;
    LedgerTrans(w0, h0, w1, m.history, w2, m.history);
    QuietParts(w2, m.mem);
    ReadyMeans(w2, lo, hi, write);
    FaultableMeans(w1, mem1, lo, hi, write, fate.alloc);
    ReportableMeans(w1, mem1, lo, hi, write, fate.alloc);
    RangeMappable(w0, w1, mem1, fate.acts, lo, hi, write, fate.alloc);
    if !write && AllMappable(w0, lo, hi) && NoChild(fate.acts, lo, hi) {
      StaysAt(w0, w1, fate.acts, lo, hi);
      MappableRead(w1, mem1, lo, hi, fate.alloc);
    }
    if exists a: Addr | lo <= a < hi :: !Reported(m.w.At(a), write) {
      return FaultFailed;
    }
    var ok, raw, stop := DoFault(m, lo, hi, write);
    StoredPages(w2, m.w, lo, stop);
    LedgerPages(w0, h0, w2, m.history, m.w);
    StoredCoherent(w2, m.w, m.mem, lo, stop, write);
    StopRaw(w2, lo, stop, hi, write);
    StoredMappable(w0, w2, m.w, fate.acts, lo, stop);
    if raw {
      RawInside(w2, lo, stop, hi);
      return StoredRaw;
    }
    if !ok {
      StopInside(w2, lo, stop, hi, write);
      return FaultFailed;
    }
    StoredCovers(w2, m.w, lo, hi, write);
    SameStored(w1, w2, m.w, lo, hi);
    BelowSpared(w0, w1, m.w, fate.acts, lo, hi);
    return Faulted;
  }

  lemma StoredPages(w0: World, w: World, lo: Addr, a: Addr)
    requires StoredTo(w0, w, lo, a)
    ensures w.pages == w0.pages && w.pt == w0.pt
  {}

  // Entries below lo survive unless an action hits them.
  ghost predicate SparedBelow(w: World, w': World, acts: seq<Action>, lo: Addr) {
    forall c: Addr {:trigger Spared(w, w', c, lo)} | HitCount(acts, c, lo) == 0 :: Spared(w, w', c, lo)
  }

  lemma BelowSpared(w0: World, w1: World, w: World, acts: seq<Action>, lo: Addr, hi: Addr)
    requires MissedSpared(w0, w1, acts) && SameElsewhere(w1, w, lo, hi)
    ensures SparedBelow(w0, w, acts, lo)
  {
    forall c: Addr | HitCount(acts, c, lo) == 0 ensures Spared(w0, w, c, lo) {
      assert Spared(w0, w1, c, lo);
    }
  }

  // ----- when a fault succeeds

  // Page a can be faulted in: it is no private memory of the device and not in anybody's hands, and
  // if a page is needed there is a free one.
  predicate CanFault(e: Pte, w: World, write: bool, q: Pid) {
    match e
    case NoPte => write ==> FreeSystem(w, q)
    case ZeroPte => write ==> FreeSystem(w, q)
    case Present(_, writable) => write && !writable ==> FreeSystem(w, q)
    case _ => false
  }

  // In terms of the page table before the faults; the pages faulted in before a may have used up memory.
  ghost predicate Faultable(w: World, lo: Addr, hi: Addr, write: bool, alloc: nat -> Pid) {
    forall a: Addr {:trigger w.At(a)} | lo <= a < hi ::
      CanFault(w.At(a), RangeFaulted(w, lo, a, write, alloc), write, alloc(a - lo))
  }

  // Faulting one page leaves the entries of the others.
  lemma OtherPte(w: World, a: Addr, write: bool, q: Pid, b: Addr)
    requires b != a
    ensures PageFaulted(w, a, write, q).At(b) == w.At(b)
  {}

  lemma {:induction false} PteAhead(w: World, lo: Addr, hi: Addr, write: bool, alloc: nat -> Pid, b: Addr)
    requires lo <= hi && (b < lo || hi <= b)
    ensures RangeFaulted(w, lo, hi, write, alloc).At(b) == w.At(b)
    decreases hi
  {
    hide PageFaulted;
    if lo < hi {
      PteAhead(w, lo, hi - 1, write, alloc, b);
      OtherPte(RangeFaulted(w, lo, hi - 1, write, alloc), hi - 1, write, alloc(hi - 1 - lo), b);
    }
  }

  lemma {:induction false} PteDone(w: World, lo: Addr, hi: Addr, write: bool, alloc: nat -> Pid, b: Addr)
    requires lo <= b < hi
    ensures RangeFaulted(w, lo, hi, write, alloc).At(b)
         == PageFaulted(RangeFaulted(w, lo, b, write, alloc), b, write, alloc(b - lo)).At(b)
    decreases hi
  {
    hide PageFaulted;
    if b < hi - 1 {
      PteDone(w, lo, hi - 1, write, alloc, b);
      OtherPte(RangeFaulted(w, lo, hi - 1, write, alloc), hi - 1, write, alloc(hi - 1 - lo), b);
    }
  }

  lemma {:induction false} FaultedInv(w: World, mem: Mem, lo: Addr, hi: Addr, write: bool, alloc: nat -> Pid)
    requires lo <= hi && w.Inv(mem)
    ensures RangeFaulted(w, lo, hi, write, alloc).Inv(mem)
    decreases hi
  {
    hide World.Inv, PageFaulted;
    if lo < hi {
      FaultedInv(w, mem, lo, hi - 1, write, alloc);
      PageInv(RangeFaulted(w, lo, hi - 1, write, alloc), mem, hi - 1, write, alloc(hi - 1 - lo));
    }
  }

  lemma PageInv(w: World, mem: Mem, a: Addr, write: bool, q: Pid)
    requires w.Inv(mem)
    ensures PageFaulted(w, a, write, q).Inv(mem)
  {
    hide World.Inv;
    var acts := FaultAction(w, a, write, q);
    if acts != [] {
      ActKeeps(View(w, mem), acts[0]);
      ActWrites(View(w, mem), acts[0]);
      FaultMem(View(w, mem), a, write, q);
    }
  }

  lemma FaultMem(v: View, a: Addr, write: bool, q: Pid)
    requires FaultAction(v.w, a, write, q) != []
    ensures Act(v, FaultAction(v.w, a, write, q)[0]).mem == v.mem
  {}

  // One page is reported and not raw after its fault exactly if it could be faulted in.
  lemma CanFaultMeans(w: World, mem: Mem, a: Addr, write: bool, q: Pid)
    requires w.Inv(mem)
    ensures var w' := PageFaulted(w, a, write, q);
            Reported(w'.At(a), write) && !Rawly(w', a) <==> CanFault(w.At(a), w, write, q)
  {
    FaultedReported(w, a, write, q);
    if w.At(a).Refers() { MappedLive(w, a); }
    hide World.Inv;
  }

  lemma FaultableMeans(w: World, mem: Mem, lo: Addr, hi: Addr, write: bool, alloc: nat -> Pid)
    requires lo <= hi && Quiet(w, mem)
    ensures AllReady(RangeFaulted(w, lo, hi, write, alloc), lo, hi, write) <==> Faultable(w, lo, hi, write, alloc)
  {
    QuietParts(w, mem);
    hide Quiet, World.Inv, RangeFaulted, PageFaulted, CanFault, Reported;
    var w2 := RangeFaulted(w, lo, hi, write, alloc);
    forall a: Addr | lo <= a < hi
      ensures Reported(w2.At(a), write) && !Rawly(w2, a)
         <==> CanFault(w.At(a), RangeFaulted(w, lo, a, write, alloc), write, alloc(a - lo))
    {
      FaultedInv(w, mem, lo, a, write, alloc);
      PteAhead(w, lo, a, write, alloc, a);
      PteDone(w, lo, hi, write, alloc, a);
      CanFaultMeans(RangeFaulted(w, lo, a, write, alloc), mem, a, write, alloc(a - lo));
    }
  }

  // Page a is reported, be it a private page of the device
  predicate CanReport(e: Pte, w: World, write: bool, q: Pid) {
    e.DevicePrivate? || CanFault(e, w, write, q)
  }

  ghost predicate Reportable(w: World, lo: Addr, hi: Addr, write: bool, alloc: nat -> Pid) {
    forall a: Addr {:trigger w.At(a)} | lo <= a < hi ::
      CanReport(w.At(a), RangeFaulted(w, lo, a, write, alloc), write, alloc(a - lo))
  }

  lemma CanReportMeans(w: World, mem: Mem, a: Addr, write: bool, q: Pid)
    requires w.Inv(mem)
    ensures var e := PageFaulted(w, a, write, q).At(a);
            && (Reported(e, write) <==> CanReport(w.At(a), w, write, q))
            && (e.DevicePrivate? || w.At(a).DevicePrivate? ==> e == w.At(a))
  {
    FaultedReported(w, a, write, q);
    FaultedPrivate(w, mem, a, write, q);
    if w.At(a).Refers() { MappedLive(w, a); }
    hide World.Inv;
  }

  lemma FaultedPrivate(w: World, mem: Mem, a: Addr, write: bool, q: Pid)
    requires w.Inv(mem)
    ensures var e := PageFaulted(w, a, write, q).At(a); e.DevicePrivate? || w.At(a).DevicePrivate? ==> e == w.At(a)
  {
    MapsSystem(w, mem);
    hide World.Inv, Act;
    if Mappable(w.At(a)) && FaultAction(w, a, write, q) != [] {
      EffectPte(View(w, map[]), FaultAction(w, a, write, q)[0], a);
    }
  }

  lemma ReportableMeans(w: World, mem: Mem, lo: Addr, hi: Addr, write: bool, alloc: nat -> Pid)
    requires lo <= hi && Quiet(w, mem)
    ensures var w2 := RangeFaulted(w, lo, hi, write, alloc);
            && ((forall a: Addr | lo <= a < hi :: Reported(w2.At(a), write)) <==> Reportable(w, lo, hi, write, alloc))
            && (RawFirst(w2, lo, hi, write) <==> RawFirst(w, lo, hi, write))
  {
    hide Quiet, RangeFaulted, CanReport, Reported, RawFirst;
    var w2 := RangeFaulted(w, lo, hi, write, alloc);
    forall a: Addr | lo <= a < hi
      ensures Reported(w2.At(a), write)
         <==> CanReport(w.At(a), RangeFaulted(w, lo, a, write, alloc), write, alloc(a - lo))
      ensures w2.At(a).DevicePrivate? || w.At(a).DevicePrivate? ==> w2.At(a) == w.At(a)
    {
      ReportableAt(w, mem, lo, hi, write, alloc, a);
    }
    FirstSame(w, w2, lo, hi, write);
    if forall a: Addr | lo <= a < hi :: Reported(w2.At(a), write) {
      forall a: Addr | lo <= a < hi
        ensures CanReport(w.At(a), RangeFaulted(w, lo, a, write, alloc), write, alloc(a - lo))
      {
        assert Reported(w2.At(a), write);
      }
    }
    if Reportable(w, lo, hi, write, alloc) {
      forall a: Addr | lo <= a < hi ensures Reported(w2.At(a), write) {
        assert CanReport(w.At(a), RangeFaulted(w, lo, a, write, alloc), write, alloc(a - lo));
      }
    }
  }

  lemma ReportableAt(w: World, mem: Mem, lo: Addr, hi: Addr, write: bool, alloc: nat -> Pid, a: Addr)
    requires lo <= a < hi && Quiet(w, mem)
    ensures var w2 := RangeFaulted(w, lo, hi, write, alloc);
            && (Reported(w2.At(a), write)
                <==> CanReport(w.At(a), RangeFaulted(w, lo, a, write, alloc), write, alloc(a - lo)))
            && (w2.At(a).DevicePrivate? || w.At(a).DevicePrivate? ==> w2.At(a) == w.At(a))
  {
    QuietParts(w, mem);
    hide Quiet, World.Inv, RangeFaulted, PageFaulted, CanReport, Reported;
    FaultedInv(w, mem, lo, a, write, alloc);
    PteAhead(w, lo, a, write, alloc, a);
    PteDone(w, lo, hi, write, alloc, a);
    CanReportMeans(RangeFaulted(w, lo, a, write, alloc), mem, a, write, alloc(a - lo));
  }

  lemma FirstSame(w: World, w2: World, lo: Addr, hi: Addr, write: bool)
    requires forall a: Addr | lo <= a < hi :: w2.At(a).DevicePrivate? || w.At(a).DevicePrivate? ==> w2.At(a) == w.At(a)
    ensures RawFirst(w2, lo, hi, write) <==> RawFirst(w, lo, hi, write)
  {
    forall a: Addr | lo <= a < hi
      ensures (Rawly(w2, a) <==> Rawly(w, a)) && (OpenTo(w2, lo, a, write) <==> OpenTo(w, lo, a, write))
    {
      forall c: Addr | lo <= c <= a ensures Blocks(w2, c, write) <==> Blocks(w, c, write) {}
    }
  }

  // ----- ordinary memory can be read

  lemma PageMappable(w: World, mem: Mem, a: Addr, write: bool, q: Pid, lo: Addr, hi: Addr)
    requires w.Inv(mem) && AllMappable(w, lo, hi)
    ensures AllMappable(PageFaulted(w, a, write, q), lo, hi)
  {
    hide World.Inv, Act, AllMappable;
    var acts := FaultAction(w, a, write, q);
    if acts != [] {
      ActMappable(View(w, mem), acts[0], lo, hi);
      ActWrites(View(w, mem), acts[0]);
    }
  }

  lemma {:induction false} FaultsMappable(w: World, mem: Mem, lo: Addr, hi: Addr, write: bool, alloc: nat -> Pid,
                                          from: Addr, to: Addr)
    requires lo <= hi && w.Inv(mem) && AllMappable(w, from, to)
    ensures AllMappable(RangeFaulted(w, lo, hi, write, alloc), from, to)
    decreases hi
  {
    hide World.Inv, PageFaulted, AllMappable;
    if lo < hi {
      FaultsMappable(w, mem, lo, hi - 1, write, alloc, from, to);
      FaultedInv(w, mem, lo, hi - 1, write, alloc);
      PageMappable(RangeFaulted(w, lo, hi - 1, write, alloc), mem, hi - 1, write, alloc(hi - 1 - lo), from, to);
    }
  }

  lemma RangeMappable(w0: World, w1: World, mem: Mem, acts: seq<Action>, lo: Addr, hi: Addr, write: bool,
                      alloc: nat -> Pid)
    requires lo <= hi && Quiet(w1, mem) && StaysMappable(w0, w1, acts)
    ensures StaysMappable(w0, RangeFaulted(w1, lo, hi, write, alloc), acts)
  {
    QuietParts(w1, mem);
    hide World.Inv, Quiet, AllMappable, NoChild, RangeFaulted;
    forall from: Addr, to: Addr | AllMappable(w0, from, to) && NoChild(acts, from, to)
      ensures AllMappable(RangeFaulted(w1, lo, hi, write, alloc), from, to)
    {
      FaultsMappable(w1, mem, lo, hi, write, alloc, from, to);
    }
  }

  lemma StoredMappable(w0: World, w2: World, w: World, acts: seq<Action>, lo: Addr, stop: Addr)
    requires StaysMappable(w0, w2, acts) && StoredTo(w2, w, lo, stop)
    ensures StaysMappable(w0, w, acts)
  {
    hide NoChild;
    forall from: Addr, to: Addr | AllMappable(w0, from, to) && NoChild(acts, from, to) ensures AllMappable(w, from, to) {
      assert AllMappable(w2, from, to);
      forall a: Addr | from <= a < to ensures Mappable(w.At(a)) { assert Mappable(w2.At(a)); }
    }
  }

  lemma StaysAt(w0: World, w1: World, acts: seq<Action>, lo: Addr, hi: Addr)
    requires StaysMappable(w0, w1, acts) && AllMappable(w0, lo, hi) && NoChild(acts, lo, hi)
    ensures AllMappable(w1, lo, hi)
  {
    hide AllMappable, NoChild;
  }

  lemma MappableRead(w: World, mem: Mem, lo: Addr, hi: Addr, alloc: nat -> Pid)
    requires Quiet(w, mem) && lo <= hi && AllMappable(w, lo, hi)
    ensures Faultable(w, lo, hi, false, alloc)
  {
    ReadFaultable(w, mem, lo, hi, alloc);
    hide Quiet;
  }

  // No pte that the walk does not deal with: swapped out or special
  ghost predicate Walkable(w: World, lo: Addr, hi: Addr) {
    forall a: Addr | lo <= a < hi :: !w.At(a).OtherPte?
  }

  // A fault for reading then fails for no other reason than a private page of the device.
  lemma ReadFaultable(w: World, mem: Mem, lo: Addr, hi: Addr, alloc: nat -> Pid)
    requires Quiet(w, mem) && lo <= hi && Walkable(w, lo, hi)
    ensures Faultable(w, lo, hi, false, alloc) <==> !StoresRaw(w, lo, hi)
    ensures var w2 := RangeFaulted(w, lo, hi, false, alloc);
            && (forall a: Addr | lo <= a < hi :: Reported(w2.At(a), false))
            && (StoresRaw(w2, lo, hi) <==> StoresRaw(w, lo, hi))
  {
    QuietStart(w, mem, None);
    hide Quiet, RangeFaulted, PageFaulted;
    var w2 := RangeFaulted(w, lo, hi, false, alloc);
    forall a: Addr | lo <= a < hi
      ensures CanFault(w.At(a), RangeFaulted(w, lo, a, false, alloc), false, alloc(a - lo)) <==> !Rawly(w, a)
      ensures Reported(w2.At(a), false) && (Rawly(w2, a) <==> Rawly(w, a))
    {
      PteAhead(w, lo, a, false, alloc, a);
      PteDone(w, lo, hi, false, alloc, a);
      ReadReported(RangeFaulted(w, lo, a, false, alloc), a, alloc(a - lo));
    }
    RawSame(w, w2, lo, hi);
    if !StoresRaw(w, lo, hi) {
      forall a: Addr | lo <= a < hi
        ensures CanFault(w.At(a), RangeFaulted(w, lo, a, false, alloc), false, alloc(a - lo)) { assert !Rawly(w, a); }
    } else {
      var a: Addr :| lo <= a < hi && Rawly(w, a);
      assert !CanFault(w.At(a), RangeFaulted(w, lo, a, false, alloc), false, alloc(a - lo));
    }
  }

  lemma RawSame(w: World, w2: World, lo: Addr, hi: Addr)
    requires forall a: Addr | lo <= a < hi :: Rawly(w2, a) <==> Rawly(w, a)
    ensures StoresRaw(w2, lo, hi) <==> StoresRaw(w, lo, hi)
  {}

  lemma ReadReported(w: World, a: Addr, q: Pid)
    requires !w.At(a).OtherPte? && !w.At(a).Migration?
    ensures var e := PageFaulted(w, a, false, q).At(a);
            Reported(e, false) && (e.DevicePrivate? <==> w.At(a).DevicePrivate?)
  {}

  // Everything is reported, and nothing of it is the device's own private memory
  ghost predicate AllReady(w: World, lo: Addr, hi: Addr, write: bool) {
    forall a: Addr | lo <= a < hi :: Reported(w.At(a), write) && !Rawly(w, a)
  }

  lemma ReadyMeans(w: World, lo: Addr, hi: Addr, write: bool)
    ensures AllReady(w, lo, hi, write) <==>
      (forall a: Addr | lo <= a < hi :: Reported(w.At(a), write)) && !StoresRaw(w, lo, hi)
  {
    hide Reported;
    if AllReady(w, lo, hi, write) {
      forall a: Addr | lo <= a < hi ensures Reported(w.At(a), write) {}
    }
    if (forall a: Addr | lo <= a < hi :: Reported(w.At(a), write)) && !StoresRaw(w, lo, hi) {
      forall a: Addr | lo <= a < hi ensures Reported(w.At(a), write) && !Rawly(w, a) {}
    }
  }

  lemma RawInside(w: World, lo: Addr, stop: Addr, hi: Addr)
    requires lo <= stop <= hi && StoresRaw(w, lo, stop)
    ensures StoresRaw(w, lo, hi)
  {
    var a: Addr :| lo <= a < stop && Rawly(w, a);
  }

  lemma StopInside(w: World, lo: Addr, stop: Addr, hi: Addr, write: bool)
    requires lo <= stop < hi && Blocks(w, stop, write)
    ensures StoresRaw(w, lo, hi)
  {
    assert Rawly(w, stop);
  }

  lemma StoredCovers(w0: World, w: World, lo: Addr, hi: Addr, write: bool)
    requires StoredTo(w0, w, lo, hi) && !StoresRaw(w0, lo, hi) && forall a | lo <= a < hi :: Reported(w0.At(a), write)
    ensures Covered(w, lo, hi, write)
  {
    forall a: Addr | lo <= a < hi ensures Accessible(w, a, write) { assert !Rawly(w0, a); }
  }

  lemma SameStored(w0: World, w: World, w': World, lo: Addr, hi: Addr)
    requires SameElsewhere(w0, w, lo, hi) && StoredTo(w, w', lo, hi)
    ensures SameElsewhere(w0, w', lo, hi)
  {}

  // One call of dmirror_fault
  datatype FaultFate = FaultFate(alive: bool, ranges: nat -> RangeFate)
  {
    // Nobody else runs
    ghost predicate Alone() {
      forall k: nat :: ranges(k).acts == []
    }
  }

  lemma CoveredGrow(w: World, w': World, lo: Addr, a: Addr, hi: Addr, write: bool)
    requires lo <= a <= hi && Covered(w, lo, a, write) && Spared(w, w', lo, a) && Covered(w', a, hi, write)
    ensures Covered(w', lo, hi, write)
  {
    forall c: Addr | lo <= c < hi ensures Accessible(w', c, write) {
      assert c < a ==> Accessible(w, c, write);
    }
  }

  lemma CoveredSpared(w: World, w': World, lo: Addr, hi: Addr, write: bool)
    requires Covered(w, lo, hi, write) && Spared(w, w', lo, hi)
    ensures Covered(w', lo, hi, write)
  {
    forall c: Addr | lo <= c < hi ensures Accessible(w', c, write) { assert Accessible(w, c, write); }
  }

  lemma CoveredNone(w: World, lo: Addr, write: bool)
    ensures Covered(w, lo, lo, write)
  {}

  // ----- the pieces of a fault

  function Pieces(n: nat): nat {
    (n + CHUNK - 1) / CHUNK
  }

  // How often the actions before piece j = 1, 2, ... of k pieces hit what the pieces before j have stored
  function PieceHits(ranges: nat -> RangeFate, start: Addr, k: nat): nat {
    if k == 0 then 0 else PieceHits(ranges, start, k - 1) + HitCount(ranges(k - 1).acts, start, start + CHUNK * (k - 1))
  }

  // The pages that the faults of a call may take
  function AllocAt(fate: FaultFate, start: Addr, a: Addr): Pid
    requires start <= a
  {
    fate.ranges((a - start) / CHUNK).alloc((a - start) % CHUNK)
  }

  // A fault for writing takes a page here
  predicate Needs(w: World, a: Addr) {
    w.At(a).NoPte? || w.At(a).ZeroPte? || (w.At(a).Present? && !w.At(a).write)
  }

  // There is a free page for every address of the range that needs one.
  ghost predicate Plenty(w: World, fate: FaultFate, start: Addr, lo: Addr, hi: Addr)
    requires start <= lo
  {
    && (forall a: Addr | lo <= a < hi && Needs(w, a) :: FreeSystem(w, AllocAt(fate, start, a)))
    && (forall a, b: Addr | lo <= a < b < hi && Needs(w, a) && Needs(w, b) ::
          AllocAt(fate, start, a) != AllocAt(fate, start, b))
  }

  // Every page can be walked, and there is memory for those that need it.
  ghost predicate Provided(w: World, fate: FaultFate, start: Addr, end: Addr, write: bool)
    requires start <= end
  {
    Walkable(w, start, end) && (write ==> Plenty(w, fate, start, start, end))
  }

  // A fault takes its own page and no other free one.
  lemma OtherFree(w: World, a: Addr, write: bool, q: Pid, r: Pid)
    requires FreeSystem(w, r) && r != q
    ensures FreeSystem(PageFaulted(w, a, write, q), r)
  {}

  // It takes none where the page is mapped writable.
  lemma NeedsNone(w: World, a: Addr, write: bool, q: Pid)
    requires !Needs(w, a)
    ensures PageFaulted(w, a, write, q) == w
  {}

  lemma {:induction false} StaysFree(w: World, lo: Addr, hi: Addr, write: bool, alloc: nat -> Pid, r: Pid)
    requires lo <= hi && FreeSystem(w, r)
    requires forall i: nat {:trigger alloc(i)} | i < hi - lo && Needs(w, lo + i) :: alloc(i) != r
    ensures FreeSystem(RangeFaulted(w, lo, hi, write, alloc), r)
    decreases hi
  {
    hide PageFaulted, FreeSystem;
    if lo < hi {
      var w1, i := RangeFaulted(w, lo, hi - 1, write, alloc), hi - 1 - lo;
      StaysFree(w, lo, hi - 1, write, alloc, r);
      PteAhead(w, lo, hi - 1, write, alloc, hi - 1);
      if Needs(w, lo + i) {
        OtherFree(w1, hi - 1, write, alloc(i), r);
      } else {
        NeedsNone(w1, hi - 1, write, alloc(i));
      }
    }
  }

  lemma AllocPiece(fate: FaultFate, start: Addr, k: nat, a: Addr)
    requires start + CHUNK * k <= a < start + CHUNK * k + CHUNK
    ensures AllocAt(fate, start, a) == fate.ranges(k).alloc(a - (start + CHUNK * k))
  {
    assert (a - start) / CHUNK == k;
  }

  // Without interference there is memory for each page of a piece.
  lemma PieceCanFault(w: World, fate: FaultFate, start: Addr, k: nat, next: Addr, end: Addr, write: bool, a: Addr)
    requires start + CHUNK * k <= a < next <= start + CHUNK * k + CHUNK && next <= end && Mappable(w.At(a))
    requires write ==> Plenty(w, fate, start, start + CHUNK * k, end)
    ensures var lo, alloc := start + CHUNK * k, fate.ranges(k).alloc;
            CanFault(w.At(a), RangeFaulted(w, lo, a, write, alloc), write, alloc(a - lo))
  {
    var lo, alloc := start + CHUNK * k, fate.ranges(k).alloc;
    hide RangeFaulted, FreeSystem, AllocAt, Plenty;
    if write && Needs(w, a) {
      AllocPiece(fate, start, k, a);
      forall i: nat {:trigger alloc(i)} | i < a - lo && Needs(w, lo + i) ensures alloc(i) != alloc(a - lo) {
        AllocPiece(fate, start, k, lo + i);
        PlentyApart(w, fate, start, lo, end, lo + i, a);
      }
      PlentyFree(w, fate, start, lo, end, a);
      StaysFree(w, lo, a, write, alloc, alloc(a - lo));
    }
  }

  lemma PieceFaultable(w: World, fate: FaultFate, start: Addr, k: nat, next: Addr, end: Addr, write: bool)
    requires start + CHUNK * k <= next <= start + CHUNK * k + CHUNK && next <= end
    requires AllMappable(w, start + CHUNK * k, next)
    requires write ==> Plenty(w, fate, start, start + CHUNK * k, end)
    ensures Faultable(w, start + CHUNK * k, next, write, fate.ranges(k).alloc)
  {
    hide RangeFaulted, CanFault, Plenty;
    var lo, alloc := start + CHUNK * k, fate.ranges(k).alloc;
    forall a: Addr | lo <= a < next ensures CanFault(w.At(a), RangeFaulted(w, lo, a, write, alloc), write, alloc(a - lo)) {
      PieceCanFault(w, fate, start, k, next, end, write, a);
    }
  }

  // A piece then fails only because of a private page of the device.
  lemma PieceEnds(w: World, mem: Mem, fate: FaultFate, start: Addr, k: nat, next: Addr, end: Addr, write: bool)
    requires start + CHUNK * k <= next <= start + CHUNK * k + CHUNK && next <= end
    requires Quiet(w, mem) && Walkable(w, start + CHUNK * k, next)
    requires write ==> Plenty(w, fate, start, start + CHUNK * k, end)
    ensures var lo, alloc := start + CHUNK * k, fate.ranges(k).alloc;
            Reportable(w, lo, next, write, alloc) && (Faultable(w, lo, next, write, alloc) <==> !StoresRaw(w, lo, next))
  {
    hide Quiet, RangeFaulted, CanFault, Plenty, StoresRaw, AllMappable, InFlight;
    QuietStart(w, mem, None);
    var lo, alloc := start + CHUNK * k, fate.ranges(k).alloc;
    PieceReports(w, fate, start, k, next, end, write);
    hide Reportable, Faultable, Walkable;
    if Faultable(w, lo, next, write, alloc) {
      FaultableMappable(w, lo, next, write, alloc);
      MappableRaw(w, lo, next);
    } else if !StoresRaw(w, lo, next) {
      NotRaw(w, lo, next);
      PieceFaultable(w, fate, start, k, next, end, write);
    }
  }

  lemma PieceReports(w: World, fate: FaultFate, start: Addr, k: nat, next: Addr, end: Addr, write: bool)
    requires start + CHUNK * k <= next <= start + CHUNK * k + CHUNK && next <= end
    requires Walkable(w, start + CHUNK * k, next) && forall a: Addr :: !w.At(a).Migration?
    requires write ==> Plenty(w, fate, start, start + CHUNK * k, end)
    ensures Reportable(w, start + CHUNK * k, next, write, fate.ranges(k).alloc)
  {
    hide RangeFaulted, CanFault, Plenty;
    var lo, alloc := start + CHUNK * k, fate.ranges(k).alloc;
    forall a: Addr | lo <= a < next
      ensures CanReport(w.At(a), RangeFaulted(w, lo, a, write, alloc), write, alloc(a - lo))
    {
      if !Rawly(w, a) { PieceCanFault(w, fate, start, k, next, end, write, a); }
    }
  }

  lemma MappableRaw(w: World, lo: Addr, hi: Addr)
    requires AllMappable(w, lo, hi)
    ensures !StoresRaw(w, lo, hi)
  {}

  lemma NotRaw(w: World, lo: Addr, hi: Addr)
    requires !StoresRaw(w, lo, hi) && Walkable(w, lo, hi) && forall a: Addr :: !w.At(a).Migration?
    ensures AllMappable(w, lo, hi)
  {
    forall a: Addr | lo <= a < hi ensures Mappable(w.At(a)) { assert !Rawly(w, a); }
  }

  // What later pieces need is still there.
  lemma PlentyLater(w: World, w': World, fate: FaultFate, start: Addr, k: nat, next: Addr, end: Addr, write: bool)
    requires start + CHUNK * k <= next <= start + CHUNK * k + CHUNK && next <= end
    requires Plenty(w, fate, start, start + CHUNK * k, end)
    requires StoredTo(RangeFaulted(w, start + CHUNK * k, next, write, fate.ranges(k).alloc), w', start + CHUNK * k, next)
    ensures Plenty(w', fate, start, next, end)
  {
    hide RangeFaulted, AllocAt, StoredTo, FreeSystem, Needs, Plenty;
    var lo, alloc := start + CHUNK * k, fate.ranges(k).alloc;
    StoredPages(RangeFaulted(w, lo, next, write, alloc), w', lo, next);
    forall a: Addr | next <= a ensures Needs(w', a) <==> Needs(w, a) {
      PteAhead(w, lo, next, write, alloc, a);
      NeedsAt(RangeFaulted(w, lo, next, write, alloc), w', a);
      NeedsAt(w, RangeFaulted(w, lo, next, write, alloc), a);
    }
    forall a: Addr | next <= a < end && Needs(w', a) ensures FreeSystem(w', AllocAt(fate, start, a)) {
      PlentyAt(w, w', fate, start, k, next, end, write, a);
    }
    forall a, b: Addr | next <= a < b < end && Needs(w', a) && Needs(w', b)
      ensures AllocAt(fate, start, a) != AllocAt(fate, start, b)
    {
      PlentyApart(w, fate, start, lo, end, a, b);
    }
    PlentyIs(w', fate, start, next, end);
  }

  lemma PlentyIs(w: World, fate: FaultFate, start: Addr, lo: Addr, hi: Addr)
    requires start <= lo
    requires forall a: Addr | lo <= a < hi && Needs(w, a) :: FreeSystem(w, AllocAt(fate, start, a))
    requires forall a, b: Addr | lo <= a < b < hi && Needs(w, a) && Needs(w, b) ::
      AllocAt(fate, start, a) != AllocAt(fate, start, b)
    ensures Plenty(w, fate, start, lo, hi)
  {}

  lemma NeedsAt(w: World, w': World, a: Addr)
    requires w'.At(a) == w.At(a)
    ensures Needs(w', a) <==> Needs(w, a)
  {}

  lemma PlentyAt(w: World, w': World, fate: FaultFate, start: Addr, k: nat, next: Addr, end: Addr, write: bool, a: Addr)
    requires start + CHUNK * k <= next <= start + CHUNK * k + CHUNK && next <= a < end
    requires Plenty(w, fate, start, start + CHUNK * k, end) && Needs(w, a)
    requires StoredTo(RangeFaulted(w, start + CHUNK * k, next, write, fate.ranges(k).alloc), w', start + CHUNK * k, next)
    ensures FreeSystem(w', AllocAt(fate, start, a))
  {
    hide Plenty, RangeFaulted, AllocAt, StoredTo, Needs;
    var lo, alloc := start + CHUNK * k, fate.ranges(k).alloc;
    StoredPages(RangeFaulted(w, lo, next, write, alloc), w', lo, next);
    forall i: nat {:trigger alloc(i)} | i < next - lo && Needs(w, lo + i) ensures alloc(i) != AllocAt(fate, start, a) {
      AllocPiece(fate, start, k, lo + i);
      PlentyApart(w, fate, start, lo, end, lo + i, a);
    }
    PlentyFree(w, fate, start, lo, end, a);
    StaysFree(w, lo, next, write, alloc, AllocAt(fate, start, a));
  }

  lemma PlentyApart(w: World, fate: FaultFate, start: Addr, lo: Addr, end: Addr, a: Addr, b: Addr)
    requires start <= lo <= a < b < end && Plenty(w, fate, start, lo, end) && Needs(w, a) && Needs(w, b)
    ensures AllocAt(fate, start, a) != AllocAt(fate, start, b)
  {}

  lemma PlentyFree(w: World, fate: FaultFate, start: Addr, lo: Addr, end: Addr, a: Addr)
    requires start <= lo <= a < end && Plenty(w, fate, start, lo, end) && Needs(w, a)
    ensures FreeSystem(w, AllocAt(fate, start, a))
  {}

  lemma FaultableMappable(w: World, lo: Addr, hi: Addr, write: bool, alloc: nat -> Pid)
    requires Faultable(w, lo, hi, write, alloc)
    ensures AllMappable(w, lo, hi)
  {
    hide RangeFaulted;
    forall a: Addr | lo <= a < hi ensures w.At(a).NoPte? || w.At(a).ZeroPte? || w.At(a).Present? {
      assert CanFault(w.At(a), RangeFaulted(w, lo, a, write, alloc), write, alloc(a - lo));
    }
  }

  // Without the mm there is nothing to fault in, and the call succeeds.  Otherwise success means that
  // the range is in the mirror, unless somebody has hit a piece that was already stored.
  method DmirrorFault(m: Machine, start: Addr, end: Addr, write: bool, fate: FaultFate) returns (r: Fault)
    requires start <= end && Quiet(m.w, m.mem) && m.Recorded()
    modifies m
    ensures m.Recorded() && old(m.history) <= m.history && m.w.Inv(m.mem)
    ensures Ledger(old(m.w), old(m.history), m.w, m.history)
    ensures !r.StoredRaw? ==> Quiet(m.w, m.mem)
    ensures r.StoredRaw? ==> !m.w.MirrorOk()
    ensures r.Faulted? && fate.alive && PieceHits(fate.ranges, start, Pieces(end - start)) == 0 ==>
      Covered(m.w, start, end, write)
    ensures fate.Alone() ==> m.history == old(m.history)
    ensures fate.Alone() && fate.alive && r.Faulted? ==> AllMappable(old(m.w), start, end)
    ensures fate.Alone() && AllMappable(old(m.w), start, end) && (write ==> Plenty(old(m.w), fate, start, start, end)) ==>
      r.Faulted?
    ensures fate.Alone() && fate.alive && Provided(old(m.w), fate, start, end, write) ==>
      && (r.StoredRaw? <==> RawFirst(old(m.w), start, end, write))
      && (r.Faulted? <==> !StoresRaw(old(m.w), start, end))
    ensures fate.Alone() && r.Faulted? ==> SameOutside(old(m.w), m.w, start, end)
    ensures !write && AllMappable(old(m.w), start, end) && NoChildren(fate, start, end) ==>
      r.Faulted? && AllMappable(m.w, start, end)
    ensures !fate.alive ==> r.Faulted? && m.w == old(m.w) && m.mem == old(m.mem) && m.history == old(m.history)
  {
    hide StoresRaw, Quiet, SameElsewhere, World.Inv, Covered, RangeFaulted, StoredTo, AllReady, Faultable, Ledger,
         SparedBelow, AllMappable, Plenty, FaultFate.Alone, Hit, Reportable, RawFirst, Walkable, StaysMappable,
         NoChild, NoChildren, Ahead;
    ghost var w0, h0 := m.w, m.history;
    QuietParts(m.w, m.mem);
    LedgerSelf(m.w, m.history);
    if !fate.alive {
      return Faulted;
    }
    CoveredNone(m.w, start, write);
    MappableStart(w0, start, end);
    var addr, k := start, 0;
    while addr < end
      invariant start <= addr <= end && Quiet(m.w, m.mem) && m.Recorded() && old(m.history) <= m.history
      invariant m.w.Inv(m.mem) && Ledger(w0, h0, m.w, m.history)
      invariant (addr < end ==> addr == start + CHUNK * k) && (addr == end ==> k == Pieces(end - start))
      invariant PieceHits(fate.ranges, start, k) == 0 ==> Covered(m.w, start, addr, write)
      invariant fate.Alone() ==> m.history == old(m.history) && Ahead(w0, m.w, start, addr, end)
      invariant fate.Alone() && write && Plenty(w0, fate, start, start, end) ==> Plenty(m.w, fate, start, addr, end)
      invariant !write && AllMappable(w0, start, end) && NoChildren(fate, start, end) ==> AllMappable(m.w, start, end)
    {
      var next := if addr + CHUNK < end then addr + CHUNK else end;
      ghost var w, mem, h := m.w, m.mem, m.history;
      PieceAhead(w0, w, start, addr, next, end);
      if AllMappable(w, addr, next) && (write ==> Plenty(w, fate, start, addr, end)) {
        PieceFaultable(w, fate, start, k, next, end, write);
      }
      if Faultable(w, addr, next, write, fate.ranges(k).alloc) {
        FaultableMappable(w, addr, next, write, fate.ranges(k).alloc);
      }
      PieceChild(w, fate, start, k, addr, next, end);
      r := RangeFault(m, addr, next, write, fate.ranges(k));
      LedgerTrans(w0, h0, w, h, m.w, m.history);
      AloneAt(fate, k);
      if !r.Faulted? {
        if fate.Alone() && Provided(w0, fate, start, end, write) {
          PieceStops(w0, w, mem, fate, start, addr, k, next, end, write, r);
        }
        return;
      }
      MappableMore(w, m.w, fate, start, k, end);
      if PieceHits(fate.ranges, start, k + 1) == 0 {
        BelowAt(w, m.w, fate.ranges(k).acts, start, addr);
        CoveredGrow(w, m.w, start, addr, next, write);
      }
      if fate.Alone() {
        AheadMore(w0, w, m.w, start, addr, next, end);
        if write && Plenty(w, fate, start, addr, end) { PlentyLater(w, m.w, fate, start, k, next, end, write); }
      }
      PiecesEnd(start, end, k, next);
      addr, k := next, k + 1;
    }
    MappableEnd(w0, m.w, start, end);
    return Faulted;
  }

  // The first private page lies in the first piece that fails.
  lemma PieceStops(w0: World, w: World, mem: Mem, fate: FaultFate, start: Addr, addr: Addr, k: nat, next: Addr,
                   end: Addr, write: bool, r: Fault)
    requires Ahead(w0, w, start, addr, end) && Quiet(w, mem) && Walkable(w0, start, end)
    requires addr == start + CHUNK * k && addr <= next <= addr + CHUNK && next <= end && !r.Faulted?
    requires write ==> Plenty(w, fate, start, addr, end)
    requires !Faultable(w, addr, next, write, fate.ranges(k).alloc)
    requires r.StoredRaw? <==> Reportable(w, addr, next, write, fate.ranges(k).alloc) && RawFirst(w, addr, next, write)
    ensures StoresRaw(w0, start, end) && (r.StoredRaw? <==> RawFirst(w0, start, end, write))
  {
    hide Quiet, Plenty, Faultable, Reportable, Walkable, Ahead, StoresRaw, RawFirst, RangeFaulted;
    WalkableAhead(w0, w, start, addr, next, end);
    PieceEnds(w, mem, fate, start, k, next, end, write);
    FirstPiece(w0, w, start, addr, next, end, write);
  }

  lemma WalkableAhead(w0: World, w: World, start: Addr, addr: Addr, next: Addr, end: Addr)
    requires Ahead(w0, w, start, addr, end) && Walkable(w0, start, end) && start <= addr <= next <= end
    ensures Walkable(w, addr, next)
  {
    forall a: Addr | addr <= a < next ensures !w.At(a).OtherPte? { assert w.At(a) == w0.At(a); }
  }

  lemma FirstPiece(w0: World, w: World, start: Addr, addr: Addr, next: Addr, end: Addr, write: bool)
    requires Ahead(w0, w, start, addr, end) && start <= addr <= next <= end && StoresRaw(w, addr, next)
    ensures StoresRaw(w0, start, end) && (RawFirst(w, addr, next, write) <==> RawFirst(w0, start, end, write))
  {
    var b: Addr :| addr <= b < next && Rawly(w, b);
    assert Rawly(w0, b);
    forall a: Addr | start <= a < next
      ensures Blocks(w0, a, write) <==> addr <= a && Blocks(w, a, write)
      ensures Rawly(w0, a) <==> addr <= a && Rawly(w, a)
    {
      assert if a < addr then Mappable(w0.At(a)) else w.At(a) == w0.At(a);
    }
    if RawFirst(w, addr, next, write) {
      var a: Addr :| addr <= a < next && Rawly(w, a) && OpenTo(w, addr, a, write);
      assert OpenTo(w0, start, a, write);
    }
    if RawFirst(w0, start, end, write) {
      var a: Addr :| start <= a < end && Rawly(w0, a) && OpenTo(w0, start, a, write);
      var c := if a < next then a else b;
      assert OpenTo(w, addr, c, write);
    }
  }

  // No page of a parent becomes one of the range.
  ghost predicate NoChildren(fate: FaultFate, lo: Addr, hi: Addr) {
    forall k: nat :: NoChild(fate.ranges(k).acts, lo, hi)
  }

  lemma PieceChild(w: World, fate: FaultFate, start: Addr, k: nat, addr: Addr, next: Addr, end: Addr)
    requires start <= addr <= next <= end
    ensures NoChildren(fate, start, end) ==> NoChild(fate.ranges(k).acts, addr, next)
    ensures AllMappable(w, start, end) ==> AllMappable(w, addr, next)
  {
    if NoChildren(fate, start, end) { assert NoChild(fate.ranges(k).acts, start, end); }
  }

  lemma MappableMore(w: World, w': World, fate: FaultFate, start: Addr, k: nat, end: Addr)
    requires StaysMappable(w, w', fate.ranges(k).acts)
    ensures AllMappable(w, start, end) && NoChildren(fate, start, end) ==> AllMappable(w', start, end)
  {
    hide AllMappable;
    if NoChildren(fate, start, end) { assert NoChild(fate.ranges(k).acts, start, end); }
  }

  ghost predicate SameOutside(w: World, w': World, lo: Addr, hi: Addr) {
    forall a: Addr | a < lo || hi <= a :: w'.At(a) == w.At(a)
  }

  lemma PiecesEnd(start: Addr, end: Addr, k: nat, next: Addr)
    requires start + CHUNK * k < end
    requires next == if start + CHUNK * k + CHUNK < end then start + CHUNK * k + CHUNK else end
    ensures (next < end ==> next == start + CHUNK * (k + 1)) && (next == end ==> k + 1 == Pieces(end - start))
  {}

  lemma AloneAt(fate: FaultFate, k: nat)
    ensures fate.Alone() ==> fate.ranges(k).acts == []
  {}

  lemma BelowAt(w: World, w': World, acts: seq<Action>, start: Addr, lo: Addr)
    requires SparedBelow(w, w', acts, lo) && HitCount(acts, start, lo) == 0
    ensures Spared(w, w', start, lo)
  {}

  // What is still to come looks as at the start, and what was done could be.
  ghost predicate Ahead(w0: World, w: World, start: Addr, addr: Addr, end: Addr) {
    AllMappable(w0, start, addr) && forall a: Addr | a < start || addr <= a :: w.At(a) == w0.At(a)
  }

  lemma MappableStart(w: World, start: Addr, end: Addr)
    ensures Ahead(w, w, start, start, end)
    ensures Pieces(0) == 0
  {}

  lemma MappableEnd(w0: World, w: World, start: Addr, end: Addr)
    ensures Ahead(w0, w, start, end, end) ==>
      && AllMappable(w0, start, end) && !StoresRaw(w0, start, end) && SameOutside(w0, w, start, end)
      && !RawFirst(w0, start, end, true) && !RawFirst(w0, start, end, false)
  {}

  lemma PieceAhead(w0: World, w: World, start: Addr, addr: Addr, next: Addr, end: Addr)
    requires start <= addr <= next <= end
    ensures Ahead(w0, w, start, addr, end) ==>
      && (AllMappable(w0, start, end) ==> AllMappable(w, addr, next))
      && (AllMappable(w, addr, next) ==> AllMappable(w0, addr, next))
  {
    if Ahead(w0, w, start, addr, end) {
      forall a: Addr | addr <= a < next ensures w.At(a) == w0.At(a) {}
    }
  }

  lemma AheadMore(w0: World, w: World, w': World, start: Addr, addr: Addr, next: Addr, end: Addr)
    requires Ahead(w0, w, start, addr, end) && AllMappable(w, addr, next) && SameElsewhere(w, w', addr, next)
    requires start <= addr <= next <= end
    ensures Ahead(w0, w', start, next, end)
  {
    forall a: Addr | start <= a < next ensures w0.At(a).NoPte? || w0.At(a).ZeroPte? || w0.At(a).Present? {
      assert addr <= a ==> w.At(a) == w0.At(a);
    }
  }
}
