/**
  What other threads and devices may do to the process between the stages of a migration: touch,
  write, copy on write, fork, unmap, pin, write through a pin, lock and unlock pages.
*/
module Environment {
  import opened Kernel
  import opened KernelSteps
  import opened Txn
  import opened Accounts
  import opened PageRefs
  import opened MachineState
  import opened MigrateCollect
  import opened MigrateUnmap
  import opened MigrateFinalize
  import opened MigratePages

  // The kernel state together with the flat memory the process should see
  datatype View = View(w: World, mem: Mem)

  // ----- primitive changes

  // A new private page, still held by the thread that allocated it
  function NewPage(w: World, q: Pid, data: PageData): World
    requires w.Free(q)
  {
    w.SetPage(q, w.pages[q].(refs := 1, pins := 1, lock := Unlocked, mapping := Anon, lru := OnLru, compound := false,
                             data := data))
  }

  // Remove the mapping at a, and its mirror entry
  function Unmapped(w: World, a: Addr, p: Pid): World
    requires w.Live(p)
  {
    var g := w.pages[p];
    w.SetPage(p, g.(refs := g.refs - 1, lru := if g.refs == 1 then OffLru else g.lru)).SetPte(a, NoPte).MirrorErase(a)
  }

  // Map p at an address that is empty (and so has no mirror entry) or maps the zero page
  function Mapped(w: World, a: Addr, p: Pid, write: bool): World
    requires p in w.pages
  {
    w.SetPage(p, w.pages[p].(refs := w.pages[p].refs + 1)).SetPte(a, w.MapTo(p, write)).MirrorErase(a)
  }

  // The same for a device page, whose last mapping may be its last reference: the reference of the
  // mapping is first taken over and then put
  function Zapped(w: World, a: Addr, p: Pid): World
    requires w.Live(p)
  {
    PutPinned(Grabbed(w, a, p), p)
  }

  function Grabbed(w: World, a: Addr, p: Pid): World
    requires p in w.pages
  {
    w.SetPage(p, w.pages[p].(pins := w.pages[p].pins + 1)).SetPte(a, NoPte).MirrorErase(a)
  }

  function Stored(w: World, p: Pid, v: PageData): World
    requires p in w.pages
  {
    w.SetPage(p, w.pages[p].(data := v))
  }

  // ----- they keep the kernel invariant

  lemma NewPageKeeps(w: World, mem: Mem, q: Pid, data: PageData)
    requires w.Inv(mem) && w.Free(q) && w.pages[q].kind.System?
    ensures NewPage(w, q, data).Inv(mem) && NewPage(w, q, data).Data(q) == data && NewPage(w, q, data).Mappers(q) == {}
  {
    FreeUnmapped(w, q);
    assert NewPage(w, q, data).Mappers(q) == w.Mappers(q);
    SetPageKeeps(w, mem, q, NewPage(w, q, data).pages[q]);
  }

  lemma MappedNotBacking(w: World, mem: Mem, a: Addr)
    requires w.Inv(mem) && w.At(a).Refers() && w.At(a).page in w.pages && w.pages[w.At(a).page].kind.System?
    ensures NotBacking(w.At(a).page, w.pages)
  {
    var p := w.At(a).page;
    assert PteOk(w.pt[a], w.pages) && w.BalancedAt(p);
    if w.At(a).Maps(p) { assert a in w.Mappers(p); }
    forall d | LiveDevice(d, w.pages) ensures w.pages[d].backing != p {
      assert BackingOk(d, w.pages);
    }
  }

  lemma UnmappedKeepsBalance(w: World, a: Addr, p: Pid)
    requires w.Balanced() && w.At(a).Maps(p) && w.Live(p)
    ensures Unmapped(w, a, p).Balanced()
  {
    var w' := Unmapped(w, a, p);
    assert w'.Mappers(p) == w.Mappers(p) - {a};
    assert a in w.Mappers(p);
    assert w.BalancedAt(p);
    forall q | q != p ensures w'.Mappers(q) == w.Mappers(q) {}
    BalancedOne(w, w', p);
  }

  lemma UnmappedKeeps(w: World, mem: Mem, a: Addr, p: Pid)
    requires w.Inv(mem) && w.At(a).Present? && w.At(a).page == p
    ensures w.Live(p) && Unmapped(w, a, p).Inv(mem[a := ZERO_DATA])
  {
    MappedLive(w, a);
    assert PteOk(w.pt[a], w.pages);
    MappedNotBacking(w, mem, a);
    var w' := Unmapped(w, a, p);
    UnmappedKeepsBalance(w, a, p);
    BackedOther(w.pages, p, w'.pages[p]);
    KindsPage(w.pt, w.pages, p, w'.pages[p]);
    UnmappedRest(w, mem, a, p);
  }

  lemma UnmappedRest(w: World, mem: Mem, a: Addr, p: Pid)
    requires w.Flat(mem) && Exclusive(w.pt) && w.Live(p) && w.pages[p].kind.System? && a in w.pt
    requires Kinds(w.pt, w.pages[p := Unmapped(w, a, p).pages[p]])
    ensures Unmapped(w, a, p).Flat(mem[a := ZERO_DATA]) && Exclusive(Unmapped(w, a, p).pt)
    ensures Kinds(Unmapped(w, a, p).pt, Unmapped(w, a, p).pages)
  {
    var w' := Unmapped(w, a, p);
    assert SameBits(w.pages[p], w'.pages[p]);
    forall b: Addr ensures w'.Read(b) == MemAt(mem[a := ZERO_DATA], b) {
      assert w.Read(b) == MemAt(mem, b);
      if b != a && w.At(b).Refers() { DataSame(w, w', w.At(b).page); }
    }
    forall b | b in w'.pt ensures PteOk(w'.pt[b], w'.pages) { assert b != a ==> PteOk(w.pt[b], w'.pages); }
  }

  lemma GrabbedKeeps(w: World, mem: Mem, a: Addr, p: Pid)
    requires w.Inv(mem) && w.At(a).DevicePrivate? && w.At(a).page == p
    ensures w.Live(p) && w.pages[p].kind.Device? && Grabbed(w, a, p).Inv(mem[a := ZERO_DATA])
  {
    MappedLive(w, a);
    assert PteOk(w.pt[a], w.pages);
    DeviceNotBacking(w, mem, p);
    var w' := Grabbed(w, a, p);
    GrabbedBalance(w, a, p);
    BackedOther(w.pages, p, w'.pages[p]);
    KindsPage(w.pt, w.pages, p, w'.pages[p]);
    GrabbedRest(w, mem, a, p);
  }

  lemma GrabbedBalance(w: World, a: Addr, p: Pid)
    requires w.Balanced() && w.At(a).Maps(p) && p in w.pages
    ensures Grabbed(w, a, p).Balanced()
  {
    var w' := Grabbed(w, a, p);
    assert w'.Mappers(p) == w.Mappers(p) - {a};
    assert a in w.Mappers(p);
    assert w.BalancedAt(p);
    forall q | q != p ensures w'.Mappers(q) == w.Mappers(q) {}
    BalancedOne(w, w', p);
  }

  lemma GrabbedRest(w: World, mem: Mem, a: Addr, p: Pid)
    requires w.Flat(mem) && Exclusive(w.pt) && p in w.pages && a in w.pt
    requires Kinds(w.pt, w.pages[p := Grabbed(w, a, p).pages[p]])
    ensures Grabbed(w, a, p).Flat(mem[a := ZERO_DATA]) && Exclusive(Grabbed(w, a, p).pt)
    ensures Kinds(Grabbed(w, a, p).pt, Grabbed(w, a, p).pages)
  {
    var w' := Grabbed(w, a, p);
    assert SameStorage(w.pages, w'.pages);
    forall b: Addr ensures w'.Read(b) == MemAt(mem[a := ZERO_DATA], b) {
      assert w.Read(b) == MemAt(mem, b);
      if b != a && w.At(b).Refers() { DataSame(w, w', w.At(b).page); }
    }
    forall b | b in w'.pt ensures PteOk(w'.pt[b], w'.pages) { assert b != a ==> PteOk(w.pt[b], w'.pages); }
  }

  lemma MappedKeepsBalance(w: World, a: Addr, p: Pid, write: bool)
    requires w.Balanced() && !w.At(a).Refers() && p in w.pages
    ensures Mapped(w, a, p, write).Balanced()
  {
    var w' := Mapped(w, a, p, write);
    assert w'.Mappers(p) == w.Mappers(p) + {a};
    assert w.BalancedAt(p);
    forall q | q != p ensures w'.Mappers(q) == w.Mappers(q) {}
    BalancedOne(w, w', p);
  }

  // A second mapping must be read-only, like all the others of its page.
  predicate MayMap(w: World, p: Pid, write: bool) {
    forall b | b in w.pt && w.pt[b].Refers() && w.pt[b].page == p :: !write && !w.pt[b].write
  }

  lemma MappedKeeps(w: World, mem: Mem, a: Addr, p: Pid, write: bool)
    requires w.Inv(mem) && (w.At(a).NoPte? || w.At(a).ZeroPte?)
    requires w.Live(p) && NotBacking(p, w.pages) && MayMap(w, p, write)
    ensures Mapped(w, a, p, write).Inv(mem[a := w.Data(p)])
  {
    var w' := Mapped(w, a, p, write);
    MappedKeepsBalance(w, a, p, write);
    BackedOther(w.pages, p, w'.pages[p]);
    KindsPage(w.pt, w.pages, p, w'.pages[p]);
    MappedRest(w, mem, a, p, write);
  }

  lemma MappedRest(w: World, mem: Mem, a: Addr, p: Pid, write: bool)
    requires w.Flat(mem) && Exclusive(w.pt) && w.Live(p) && MayMap(w, p, write)
    requires !w.At(a).Refers()
    requires Kinds(w.pt, w.pages[p := Mapped(w, a, p, write).pages[p]])
    ensures Mapped(w, a, p, write).Flat(mem[a := w.Data(p)]) && Exclusive(Mapped(w, a, p, write).pt)
    ensures Kinds(Mapped(w, a, p, write).pt, Mapped(w, a, p, write).pages)
  {
    var w' := Mapped(w, a, p, write);
    assert SameBits(w.pages[p], w'.pages[p]);
    assert SameStorage(w.pages, w'.pages);
    DataSame(w, w', p);
    forall b: Addr ensures w'.Read(b) == MemAt(mem[a := w.Data(p)], b) {
      assert w.Read(b) == MemAt(mem, b);
      if b != a && w.At(b).Refers() { DataSame(w, w', w.At(b).page); }
    }
    forall b | b in w'.pt ensures PteOk(w'.pt[b], w'.pages) { assert b != a ==> PteOk(w.pt[b], w'.pages); }
  }

  // A store is seen at the one address that may write the page, and nowhere else.
  lemma StoredKeeps(w: World, mem: Mem, a: Addr, p: Pid, v: PageData)
    requires w.Inv(mem) && w.At(a).Refers() && w.At(a).page == p && w.At(a).write
    requires p in w.pages && w.pages[p].kind.System?
    ensures Stored(w, p, v).Inv(mem[a := v])
  {
    var w' := Stored(w, p, v);
    MappedNotBacking(w, mem, a);
    StoredBalance(w, p, v);
    BackedOther(w.pages, p, w'.pages[p]);
    KindsPage(w.pt, w.pages, p, w'.pages[p]);
    hide World.Balanced, World.Data, Backed;
    forall b: Addr ensures w'.Read(b) == MemAt(mem[a := v], b) {
      assert w.Read(b) == MemAt(mem, b);
      if b != a && w.At(b).Refers() { StoredElsewhere(w, a, b, p, v); }
    }
  }

  lemma StoredBalance(w: World, p: Pid, v: PageData)
    requires w.Balanced() && p in w.pages
    ensures Stored(w, p, v).Balanced()
  {
    var w' := Stored(w, p, v);
    assert w.BalancedAt(p);
    forall q ensures w'.Mappers(q) == w.Mappers(q) {}
    BalancedOne(w, w', p);
  }

  lemma StoredElsewhere(w: World, a: Addr, b: Addr, p: Pid, v: PageData)
    requires Exclusive(w.pt) && Kinds(w.pt, w.pages) && NotBacking(p, w.pages) && p in w.pages && w.Balanced()
    requires w.At(a).Refers() && w.At(a).page == p && w.At(a).write && b != a && w.At(b).Refers()
    ensures Stored(w, p, v).Data(w.At(b).page) == w.Data(w.At(b).page)
  {
    MappedLive(w, b);
    var r := w.At(b).page;
    assert r != p;
    assert LiveDevice(r, w.pages) ==> w.pages[r].backing != p;
  }

  // fork: the mapping becomes read-only, and its mirror entry goes
  function ReadOnly(w: World, a: Addr, p: Pid): World {
    w.SetPte(a, w.MapTo(p, false)).MirrorErase(a)
  }

  lemma ReadOnlyKeeps(w: World, mem: Mem, a: Addr, p: Pid)
    requires w.Inv(mem) && w.At(a).Maps(p)
    ensures ReadOnly(w, a, p).Inv(mem)
  {
    hide Backed, World.Balanced, World.Mappers;
    var w' := ReadOnly(w, a, p);
    ReadOnlyBalance(w, a, p);
    forall b: Addr ensures w'.Read(b) == w.Read(b) {}
    forall b | b in w'.pt ensures PteOk(w'.pt[b], w'.pages) { assert PteOk(w.pt[b], w.pages); }
  }

  lemma ReadOnlyBalance(w: World, a: Addr, p: Pid)
    requires w.Balanced() && w.At(a).Maps(p)
    ensures ReadOnly(w, a, p).Balanced()
  {
    forall q | q in w.pages ensures ReadOnly(w, a, p).BalancedAt(q) {
      assert ReadOnly(w, a, p).Mappers(q) == w.Mappers(q);
      assert w.BalancedAt(q);
    }
  }

  // ----- actions

  datatype Action =
    | Touch(a: Addr, q: Pid)              // first write to an anonymous address: a zero-filled page
    | ReadTouch(a: Addr)                  // first read: the zero page
    | Write(a: Addr, v: PageData)
    | CopyOnWrite(a: Addr, q: Pid)
    | Fork(a: Addr, b: Addr)              // b is the same page in a child
    | Unmap(a: Addr)                      // munmap, exit or MADV_DONTNEED
    | Pin(a: Addr)
    | Unpin(p: Pid)
    | DmaWrite(a: Addr, v: PageData)      // through a pin, even while the address is in flight
    | TakeLock(p: Pid)
    | DropLock(p: Pid)

  predicate FreeSystem(w: World, q: Pid) {
    w.Free(q) && w.pages[q].kind.System?
  }

  // A page is mapped, in system or device memory, and the migration has not just put it there
  predicate InPlace(w: World, a: Addr) {
    w.At(a).Present? || (w.At(a).DevicePrivate? && !Arriving(w, w.At(a).page))
  }

  predicate Arriving(w: World, p: Pid) {
    p in w.pages && w.pages[p].lock.DstSlot?
  }

  predicate Enabled(w: World, x: Action) {
    match x
    case Touch(a, q) => (w.At(a).NoPte? || w.At(a).ZeroPte?) && FreeSystem(w, q)
    case ReadTouch(a) => w.At(a).NoPte?
    case Write(a, v) => w.At(a).Present? && w.At(a).write
    case CopyOnWrite(a, q) => w.At(a).Present? && !w.At(a).write && FreeSystem(w, q)
    case Fork(a, b) => InPlace(w, a) && w.At(b).NoPte?
    case Unmap(a) => InPlace(w, a)
    case Pin(a) => w.At(a).Present?
    case Unpin(p) => w.Live(p) && w.pages[p].kind.System? && w.pages[p].pins > 0
                     && forall d | d in w.pages && LiveDevice(d, w.pages) :: w.pages[d].backing != p
    case DmaWrite(a, v) => (w.At(a).Present? || w.At(a).Migration?) && w.At(a).write && w.At(a).page in w.pages
                           && w.pages[w.At(a).page].kind.System? && w.pages[w.At(a).page].pins > 0
    case TakeLock(p) => w.Live(p) && w.pages[p].lock == Unlocked
    case DropLock(p) => p in w.pages && w.pages[p].lock == Theirs
  }

  // The pages whose mapping an action changes or removes: the mirror is notified of them.  A mapping
  // where there was none needs no notification.
  function Changed(w: World, x: Action): set<Addr> {
    if !Enabled(w, x) then {} else
    match x
    case Touch(a, _) => if w.At(a).ZeroPte? then {a} else {}
    case CopyOnWrite(a, _) => {a}
    case Fork(a, _) => {a}
    case Unmap(a) => {a}
    case _ => {}
  }

  // The new state; an action that is not enabled does nothing
  function Act(v: View, x: Action): View {
    var v' := Effect(v, x);
    View(Shrunk(v'.w, Notified(Changed(v.w, x))), v'.mem)
  }

  function Shrunk(w: World, gone: set<Addr>): World {
    w.(mirror := w.mirror - gone)
  }

  // Without the notification, apart from the entry of the page itself
  function Effect(v: View, x: Action): View {
    var w := v.w;
    if !Enabled(w, x) then v else
    match x
    case Touch(a, q) => View(TouchPage(w, a, q, ZERO_DATA), v.mem)
    case ReadTouch(a) => View(w.SetPte(a, ZeroPte).MirrorErase(a), v.mem)
    case Write(a, d) => if w.At(a).page in w.pages then View(Stored(w, w.At(a).page, d), v.mem[a := d]) else v
    case CopyOnWrite(a, q) => if w.Live(w.At(a).page) then View(Cow(w, a, w.At(a).page, q), v.mem) else v
    case Fork(a, b) =>
      if w.At(a).page in w.pages then
        View(Mapped(ReadOnly(w, a, w.At(a).page), b, w.At(a).page, false), v.mem[b := MemAt(v.mem, a)])
      else v
    case Unmap(a) =>
      if !w.Live(w.At(a).page) then v
      else if w.At(a).Present? then View(Unmapped(w, a, w.At(a).page), v.mem[a := ZERO_DATA])
      else View(Zapped(w, a, w.At(a).page), v.mem[a := ZERO_DATA])
    case Pin(a) => if w.At(a).page in w.pages then View(AddPin(w, w.At(a).page), v.mem) else v
    case Unpin(p) => View(DropPin(w, p), v.mem)
    case DmaWrite(a, d) => View(Stored(w, w.At(a).page, d), v.mem[a := d])
    case TakeLock(p) => View(w.SetLock(p, Theirs), v.mem)
    case DropLock(p) => View(w.SetLock(p, Unlocked), v.mem)
  }

  function TouchPage(w: World, a: Addr, q: Pid, data: PageData): World
    requires w.Free(q)
  {
    DropPin(Mapped(NewPage(w, q, data), a, q, true), q)
  }

  function Cow(w: World, a: Addr, p: Pid, q: Pid): World
    requires w.Live(p) && w.Free(q)
  {
    DropPin(Mapped(Unmapped(NewPage(w, q, w.Data(p)), a, p), a, q, true), q)
  }

  // ----- what an action may change

  predicate Still(w: World, p: Pid) {
    Unused(w, p) && w.pages[p].lock.Ours()
  }

  predicate EnvPage(w: World, w': World, p: Pid)
    requires p in w.pages && p in w'.pages
  {
    var g, g' := w.pages[p], w'.pages[p];
    && g'.kind == g.kind && g'.backing == g.backing && (g.kind.Device? ==> g'.pins == g.pins)
    && (if g.lock.Ours() then g'.lock == g.lock && g'.lru == g.lru
        else !g'.lock.Ours() && (g'.lru == Isolated ==> g.lru == Isolated))
    && (Still(w, p) ==> Unchanged(w, w', p) && w'.Data(p) == w.Data(p))
  }

  predicate EnvPte(w: World, e: Pte, e': Pte) {
    && (e.Migration? || (e.DevicePrivate? && Arriving(w, e.page)) ==> e' == e)
    && (e'.Migration? ==> e' == e)
  }

  ghost predicate EnvRel(w: World, w': World) {
    && w'.pages.Keys == w.pages.Keys
    && (forall p | p in w.pages :: EnvPage(w, w', p))
    && (forall a: Addr :: EnvPte(w, w.At(a), w'.At(a)))
    && (forall a | a in w'.mirror :: a in w.mirror && w'.mirror[a] == w.mirror[a] && w'.At(a) == w.At(a))
  }

  lemma EnvTrans(w: World, w1: World, w2: World)
    requires EnvRel(w, w1) && EnvRel(w1, w2)
    ensures EnvRel(w, w2)
  {
    forall p | p in w.pages ensures EnvPage(w, w2, p) {
      assert EnvPage(w, w1, p) && EnvPage(w1, w2, p);
    }
    forall a: Addr ensures EnvPte(w, w.At(a), w2.At(a)) {
      assert EnvPte(w, w.At(a), w1.At(a)) && EnvPte(w1, w1.At(a), w2.At(a));
      if w.At(a).DevicePrivate? && Arriving(w, w.At(a).page) { assert EnvPage(w, w1, w.At(a).page); }
    }
  }

  // One page changes, no page table entry
  lemma EnvSetPage(w: World, mem: Mem, p: Pid, g: Page)
    requires w.Inv(mem) && p in w.pages && g.kind == w.pages[p].kind && g.backing == w.pages[p].backing
    requires if w.pages[p].lock.Ours() then g.lock == w.pages[p].lock && g.lru == w.pages[p].lru
             else !g.lock.Ours() && (g.lru == Isolated ==> w.pages[p].lru == Isolated)
    requires Still(w, p) ==> g == w.pages[p]
    requires g.data != w.pages[p].data ==> w.pages[p].kind.System? && NotBacking(p, w.pages)
    requires g.kind.Device? ==> g.pins == w.pages[p].pins
    ensures EnvRel(w, w.SetPage(p, g))
  {
    var w' := w.SetPage(p, g);
    MappersOfPt(w, w');
    forall q | q in w.pages ensures EnvPage(w, w', q) {
      if Still(w, q) {
        assert w.BalancedAt(q);
        if w.pages[q].kind.Device? { assert LiveDevice(q, w.pages) && BackingOk(q, w.pages); }
      }
    }
  }

  // One address between empty and present, and its page
  lemma EnvSetPte(w: World, mem: Mem, a: Addr, p: Pid, g: Page, e: Pte)
    requires w.Inv(mem) && p in w.pages && SameBits(w.pages[p], g) && g.lock == w.pages[p].lock
    requires g.kind.Device? ==> g.pins == w.pages[p].pins
    requires w.pages[p].lock.Ours() ==> g.lru == w.pages[p].lru
    requires g.lru == Isolated ==> w.pages[p].lru == Isolated
    requires !w.At(a).Migration? && !e.Migration? && (w.At(a).DevicePrivate? ==> !Arriving(w, p))
    requires w.At(a).Refers() ==> w.At(a).page == p
    requires e.Refers() ==> e.page == p
    requires !Still(w, p)
    ensures EnvRel(w, w.SetPage(p, g).SetPte(a, e).MirrorErase(a))
  {
    var w' := w.SetPage(p, g).SetPte(a, e).MirrorErase(a);
    hide World.Inv;
    forall q | q != p ensures w'.Mappers(q) == w.Mappers(q) {}
    forall q | q in w.pages ensures EnvPage(w, w', q) {
      assert SameStorage(w.pages, w'.pages);
      DataSame(w, w', q);
    }
  }

  lemma MapperNotStill(w: World, a: Addr)
    requires w.At(a).Present? || w.At(a).DevicePrivate?
    ensures !Still(w, w.At(a).page)
  {
    assert a in w.Mappers(w.At(a).page);
  }

  // ----- each action keeps the invariant and stays within EnvRel

  // Equal memories as functions
  lemma FlatEqual(w: World, mem: Mem, mem': Mem)
    requires w.Inv(mem) && forall a: Addr :: MemAt(mem', a) == MemAt(mem, a)
    ensures w.Inv(mem')
  {
    assert w.Flat(mem');
  }

  lemma PinKeeps(w: World, mem: Mem, p: Pid)
    requires w.Inv(mem) && w.Live(p) && w.pages[p].kind.System? && NotBacking(p, w.pages) && !Still(w, p)
    ensures AddPin(w, p).Inv(mem) && EnvRel(w, AddPin(w, p))
  {
    AddPinKeeps(w, mem, p);
    EnvSetPage(w, mem, p, AddPin(w, p).pages[p]);
  }

  lemma UnpinKeeps(w: World, mem: Mem, p: Pid)
    requires w.Inv(mem) && w.Live(p) && w.pages[p].kind.System? && w.pages[p].pins > 0 && NotBacking(p, w.pages)
    ensures DropPin(w, p).Inv(mem) && EnvRel(w, DropPin(w, p))
  {
    assert w.BalancedAt(p);
    DropPinKeeps(w, mem, p);
    EnvSetPage(w, mem, p, DropPin(w, p).pages[p]);
  }

  lemma LockKeeps(w: World, mem: Mem, p: Pid, h: Holder)
    requires w.Inv(mem) && p in w.pages && !w.pages[p].lock.Ours() && !h.Ours()
    ensures w.SetLock(p, h).Inv(mem) && EnvRel(w, w.SetLock(p, h))
  {
    assert w.BalancedAt(p);
    SetPageKeeps(w, mem, p, w.pages[p].(lock := h));
    EnvSetPage(w, mem, p, w.pages[p].(lock := h));
  }

  lemma StoreKeeps(w: World, mem: Mem, a: Addr, v: PageData)
    requires w.Inv(mem) && w.At(a).Refers() && w.At(a).write && w.At(a).page in w.pages
    requires w.pages[w.At(a).page].kind.System? && !Still(w, w.At(a).page)
    ensures Stored(w, w.At(a).page, v).Inv(mem[a := v]) && EnvRel(w, Stored(w, w.At(a).page, v))
  {
    var p := w.At(a).page;
    StoredKeeps(w, mem, a, p, v);
    MappedNotBacking(w, mem, a);
    EnvSetPage(w, mem, p, w.pages[p].(data := v));
  }

  lemma NewPageRel(w: World, mem: Mem, q: Pid, data: PageData)
    requires w.Inv(mem) && FreeSystem(w, q)
    ensures NewPage(w, q, data).Inv(mem) && EnvRel(w, NewPage(w, q, data))
    ensures NotBacking(q, NewPage(w, q, data).pages) && MayMap(NewPage(w, q, data), q, true)
    ensures NewPage(w, q, data).Data(q) == data
  {
    var w' := NewPage(w, q, data);
    NewPageKeeps(w, mem, q, data);
    FreeUnmapped(w, q);
    forall d | LiveDevice(d, w.pages) ensures w.pages[d].backing != q { assert BackingOk(d, w.pages); }
    EnvSetPage(w, mem, q, w'.pages[q]);
    forall b | b in w'.pt && w'.pt[b].Refers() ensures w'.pt[b].page != q { Unreferred(w, q, b); }
  }

  lemma MapRel(w: World, mem: Mem, a: Addr, p: Pid, write: bool)
    requires w.Inv(mem) && (w.At(a).NoPte? || w.At(a).ZeroPte?)
    requires w.Live(p) && NotBacking(p, w.pages) && MayMap(w, p, write) && !Still(w, p)
    ensures Mapped(w, a, p, write).Inv(mem[a := w.Data(p)]) && EnvRel(w, Mapped(w, a, p, write))
  {
    MappedKeeps(w, mem, a, p, write);
    EnvSetPte(w, mem, a, p, Mapped(w, a, p, write).pages[p], w.MapTo(p, write));
  }

  lemma UnmapRel(w: World, mem: Mem, a: Addr)
    requires w.Inv(mem) && w.At(a).Present?
    ensures var p := w.At(a).page;
            w.Live(p) && Unmapped(w, a, p).Inv(mem[a := ZERO_DATA]) && EnvRel(w, Unmapped(w, a, p))
  {
    var p := w.At(a).page;
    UnmappedKeeps(w, mem, a, p);
    MapperNotStill(w, a);
    assert w.BalancedAt(p);
    assert a in w.Mappers(p);
    EnvSetPte(w, mem, a, p, Unmapped(w, a, p).pages[p], NoPte);
  }

  lemma ZapRel(w: World, mem: Mem, a: Addr)
    requires w.Inv(mem) && w.At(a).DevicePrivate? && !Arriving(w, w.At(a).page)
    ensures var p := w.At(a).page;
            w.Live(p) && Zapped(w, a, p).Inv(mem[a := ZERO_DATA]) && EnvRel(w, Zapped(w, a, p))
  {
    var p := w.At(a).page;
    GrabbedKeeps(w, mem, a, p);
    PutPinnedInv(Grabbed(w, a, p), mem[a := ZERO_DATA], p);
    ZapEnv(w, mem, a, p);
  }

  lemma ZapFacts(w: World, mem: Mem, a: Addr, p: Pid)
    requires w.Inv(mem) && w.At(a).DevicePrivate? && w.At(a).page == p && w.Live(p) && w.pages[p].kind.Device?
    ensures BackingOk(p, w.pages) && !w.pages[w.pages[p].backing].lock.Ours() && !Still(w, p)
    ensures w.pages[p].refs == 1 ==> !w.pages[p].lock.Ours() && w.pages[p].pins == 0
  {
    assert LiveDevice(p, w.pages) && BackingOk(p, w.pages);
    assert w.BalancedAt(p) && w.BalancedAt(w.pages[p].backing);
    assert a in w.Mappers(p);
  }

  // What becomes of the pages: the last mapping frees the page and its backing page.
  lemma ZapPages(w: World, a: Addr, p: Pid)
    requires w.Live(p) && w.pages[p].kind.Device? && BackingOk(p, w.pages)
    ensures Zapped(w, a, p).pt == w.pt[a := NoPte] && Zapped(w, a, p).mirror == w.mirror - {a}
    ensures var b := w.pages[p].backing;
            Zapped(w, a, p).pages ==
            if w.pages[p].refs > 1 then w.pages[p := w.pages[p].(refs := w.pages[p].refs - 1)]
            else w.pages[p := w.pages[p].(refs := 0, lock := Unlocked, lru := OffLru)]
                        [b := w.pages[b].(refs := 0, pins := 0)]
  {
    var g, g' := w.pages[p].(pins := w.pages[p].pins + 1), w.pages[p].(refs := w.pages[p].refs - 1);
    if w.pages[p].refs > 1 {
      assert w.pages[p := g][p := g'] == w.pages[p := g'];
    } else {
      var w1 := Grabbed(w, a, p);
      assert w.pages[p := g][p := w.pages[p]] == w.pages;
      FreedPages(Unheld(w1, p), p);
    }
  }

  lemma ZapEnv(w: World, mem: Mem, a: Addr, p: Pid)
    requires w.Inv(mem) && w.At(a).DevicePrivate? && w.At(a).page == p && w.Live(p) && w.pages[p].kind.Device?
    requires !Arriving(w, p)
    ensures EnvRel(w, Zapped(w, a, p))
  {
    hide Zapped, World.Inv, Still, World.Mappers, EnvPage, BackingOk;
    var w' := Zapped(w, a, p);
    ZapFacts(w, mem, a, p);
    ZapPages(w, a, p);
    ZapMappers(w, w', a, p);
    forall q | q in w.pages ensures EnvPage(w, w', q) { ZapPage(w, w', p, q); }
  }

  lemma ZapMappers(w: World, w': World, a: Addr, p: Pid)
    requires a in w.pt && w.pt[a].Refers() && w.pt[a].page == p && w'.pt == w.pt[a := NoPte]
    ensures forall q | q != p :: w'.Mappers(q) == w.Mappers(q)
  {
    forall q | q != p ensures w'.Mappers(q) == w.Mappers(q) {}
  }

  lemma ZapPage(w: World, w': World, p: Pid, q: Pid)
    requires p in w.pages && w.pages[p].kind.Device? && BackingOk(p, w.pages)
    requires !w.pages[w.pages[p].backing].lock.Ours()
    requires !Still(w, p) && (w.pages[p].refs == 1 ==> !w.pages[p].lock.Ours() && w.pages[p].pins == 0)
    requires w.pages[p].refs > 0 && q in w.pages && (q != p ==> w'.Mappers(q) == w.Mappers(q))
    requires var b := w.pages[p].backing;
             w'.pages == if w.pages[p].refs > 1 then w.pages[p := w.pages[p].(refs := w.pages[p].refs - 1)]
                         else w.pages[p := w.pages[p].(refs := 0, lock := Unlocked, lru := OffLru)]
                                     [b := w.pages[b].(refs := 0, pins := 0)]
    ensures EnvPage(w, w', q)
  {
    hide World.Mappers;
    assert SameStorage(w.pages, w'.pages);
    DataSame(w, w', q);
    hide World.Data;
  }

  lemma TouchKeeps(w: World, mem: Mem, a: Addr, q: Pid, data: PageData)
    requires w.Inv(mem) && (w.At(a).NoPte? || w.At(a).ZeroPte?) && FreeSystem(w, q)
    ensures TouchPage(w, a, q, data).Inv(mem[a := data]) && EnvRel(w, TouchPage(w, a, q, data))
  {
    hide World.Inv, EnvRel, World.Data;
    var w1 := NewPage(w, q, data);
    NewPageRel(w, mem, q, data);
    var w2 := Mapped(w1, a, q, true);
    MapRel(w1, mem, a, q, true);
    MappedStillNot(w1, a, q, true);
    UnpinKeeps(w2, mem[a := data], q);
    EnvTrans(w, w1, w2);
    EnvTrans(w, w2, DropPin(w2, q));
  }

  lemma MappedStillNot(w: World, a: Addr, p: Pid, write: bool)
    requires w.Live(p) && NotBacking(p, w.pages)
    ensures NotBacking(p, Mapped(w, a, p, write).pages)
  {
    var pages' := Mapped(w, a, p, write).pages;
    forall d | LiveDevice(d, pages') ensures pages'[d].backing != p { assert LiveDevice(d, w.pages); }
  }

  lemma CowKeeps(w: World, mem: Mem, a: Addr, q: Pid)
    requires w.Inv(mem) && w.At(a).Present? && FreeSystem(w, q)
    ensures w.Live(w.At(a).page)
    ensures Cow(w, a, w.At(a).page, q).Inv(mem) && EnvRel(w, Cow(w, a, w.At(a).page, q))
  {
    hide World.Inv, EnvRel, World.Data, Unmapped, World.Mappers, NewPage, Mapped, DropPin, NotBacking, MayMap, Still;
    var p := w.At(a).page;
    CowUnpack(w, mem, a, q);
    var data := w.Data(p);
    var w1 := NewPage(w, q, data);
    NewPageRel(w, mem, q, data);
    NewPageFrame(w, q, data, a);
    UnmapRel(w1, mem, a);
    var w2 := Unmapped(w1, a, p);
    UnmapFrame(w1, a, p, q);
    MapRel(w2, mem[a := ZERO_DATA], a, q, true);
    var w3 := Mapped(w2, a, q, true);
    MapFrame(w2, a, q);
    var mem' := mem[a := ZERO_DATA][a := data];
    UnpinKeeps(w3, mem', q);
    FlatEqual(DropPin(w3, q), mem', mem);
    EnvTrans(w, w1, w2);
    EnvTrans(w, w2, w3);
    EnvTrans(w, w3, DropPin(w3, q));
  }

  lemma CowUnpack(w: World, mem: Mem, a: Addr, q: Pid)
    requires w.Inv(mem) && w.At(a).Present? && FreeSystem(w, q)
    ensures w.Live(w.At(a).page) && w.At(a).page != q && w.Data(w.At(a).page) == MemAt(mem, a)
  {
    MappedLive(w, a);
    assert w.Read(a) == MemAt(mem, a);
  }

  lemma NewPageFrame(w: World, q: Pid, data: PageData, a: Addr)
    requires w.Free(q) && w.pages[q].kind.System?
    ensures var w' := NewPage(w, q, data);
            && w'.At(a) == w.At(a) && w'.Live(q) && w'.pages[q].kind.System? && w'.pages[q].pins == 1
            && !w'.pages[q].lock.Ours() && w'.Data(q) == data
  {}

  lemma MapFrame(w: World, a: Addr, q: Pid)
    requires w.Live(q) && NotBacking(q, w.pages) && w.pages[q].kind.System? && w.pages[q].pins > 0
    ensures var w' := Mapped(w, a, q, true);
            w'.Live(q) && NotBacking(q, w'.pages) && w'.pages[q].kind.System? && w'.pages[q].pins > 0
  {
    MappedStillNot(w, a, q, true);
  }

  lemma UnmapFrame(w: World, a: Addr, p: Pid, q: Pid)
    requires w.Live(p) && w.Live(q) && q != p && NotBacking(q, w.pages) && MayMap(w, q, true)
    ensures var w' := Unmapped(w, a, p);
            && w'.pages[q] == w.pages[q] && w'.Live(q) && w'.At(a).NoPte? && NotBacking(q, w'.pages)
            && MayMap(w', q, true)
            && (!w.pages[q].lock.Ours() ==> !Still(w', q))
            && (w.pages[q].kind.System? ==> w'.Data(q) == w.Data(q))
  {
    var pages' := Unmapped(w, a, p).pages;
    forall d | LiveDevice(d, pages') ensures pages'[d].backing != q { assert LiveDevice(d, w.pages); }
  }

  lemma ForkKeeps(w: World, mem: Mem, a: Addr, b: Addr)
    requires w.Inv(mem) && InPlace(w, a) && w.At(b).NoPte?
    ensures var p := w.At(a).page;
            && p in w.pages && Mapped(ReadOnly(w, a, p), b, p, false).Inv(mem[b := MemAt(mem, a)])
            && EnvRel(w, Mapped(ReadOnly(w, a, p), b, p, false))
  {
    var p := w.At(a).page;
    ForkUnpack(w, mem, a, b);
    var w1 := ReadOnly(w, a, p);
    ReadOnlyKeeps(w, mem, a, p);
    EnvSetPte(w, mem, a, p, w.pages[p], w.MapTo(p, false));
    assert w.SetPage(p, w.pages[p]).pages == w.pages;
    assert w1 == w.SetPage(p, w.pages[p]).SetPte(a, w.MapTo(p, false)).MirrorErase(a);
    MapperNotStill(w1, a);
    assert w1.Data(p) == w.Data(p);
    hide World.Inv, EnvRel, World.Data, World.Mappers;
    MapRel(w1, mem, b, p, false);
    EnvTrans(w, w1, Mapped(w1, b, p, false));
  }

  lemma ForkUnpack(w: World, mem: Mem, a: Addr, b: Addr)
    requires w.Inv(mem) && InPlace(w, a) && w.At(b).NoPte?
    ensures var p := w.At(a).page;
            && w.Live(p) && NotBacking(p, w.pages) && !Still(w, p)
            && MayMap(ReadOnly(w, a, p), p, false) && MemAt(mem, a) == w.Data(p)
  {
    MappedLive(w, a);
    if w.At(a).Present? { MappedNotBacking(w, mem, a); } else { DeviceNotBacking(w, mem, w.At(a).page); }
    MapperNotStill(w, a);
    assert PteOk(w.pt[a], w.pages);
    assert w.Read(a) == MemAt(mem, a);
  }

  lemma ReadTouchKeeps(w: World, mem: Mem, a: Addr)
    requires w.Inv(mem) && w.At(a).NoPte?
    ensures var w' := w.SetPte(a, ZeroPte).MirrorErase(a); w'.Inv(mem) && EnvRel(w, w')
  {
    hide World.Flat, Kinds, Exclusive, Backed, EnvRel, World.Balanced;
    ReadTouchBalance(w, a);
    ReadTouchRest(w, mem, a);
    ReadTouchRel(w, a);
  }

  lemma ReadTouchRest(w: World, mem: Mem, a: Addr)
    requires w.Flat(mem) && Kinds(w.pt, w.pages) && Exclusive(w.pt) && w.At(a).NoPte?
    ensures var w' := w.SetPte(a, ZeroPte).MirrorErase(a); w'.Flat(mem) && Kinds(w'.pt, w'.pages) && Exclusive(w'.pt)
  {
    var w' := w.SetPte(a, ZeroPte).MirrorErase(a);
    forall b: Addr ensures w'.Read(b) == w.Read(b) {}
    forall b | b in w'.pt ensures PteOk(w'.pt[b], w'.pages) { assert b != a ==> PteOk(w.pt[b], w.pages); }
  }

  lemma ReadTouchRel(w: World, a: Addr)
    requires w.At(a).NoPte?
    ensures EnvRel(w, w.SetPte(a, ZeroPte).MirrorErase(a))
  {
    var w' := w.SetPte(a, ZeroPte).MirrorErase(a);
    ReadTouchMappers(w, a);
    hide World.Mappers;
    forall q | q in w.pages ensures EnvPage(w, w', q) {}
  }

  lemma ReadTouchMappers(w: World, a: Addr)
    requires w.At(a).NoPte?
    ensures forall q :: w.SetPte(a, ZeroPte).MirrorErase(a).Mappers(q) == w.Mappers(q)
  {
    forall q ensures w.SetPte(a, ZeroPte).MirrorErase(a).Mappers(q) == w.Mappers(q) {}
  }

  lemma ReadTouchBalance(w: World, a: Addr)
    requires w.At(a).NoPte? && w.Balanced()
    ensures w.SetPte(a, ZeroPte).MirrorErase(a).Balanced()
  {
    ReadTouchMappers(w, a);
    hide World.Mappers;
    forall q | q in w.pages ensures w.SetPte(a, ZeroPte).MirrorErase(a).BalancedAt(q) { assert w.BalancedAt(q); }
  }

  // The central lemma of this module
  lemma ActKeeps(v: View, x: Action)
    requires v.w.Inv(v.mem)
    ensures Act(v, x).w.Inv(Act(v, x).mem) && EnvRel(v.w, Act(v, x).w)
  {
    hide Effect, EnvRel, World.Inv, Changed, Notified;
    EffectKeeps(v, x);
    var v' := Effect(v, x);
    ShrunkInv(v'.w, v'.mem, Notified(Changed(v.w, x)));
    ShrunkRel(v.w, v'.w, Notified(Changed(v.w, x)));
  }

  // A reference of somebody else, not that of a device page on its backing page
  predicate Unpinnable(w: World, p: Pid) {
    w.Live(p) && w.pages[p].kind.System? && w.pages[p].pins > 0
    && forall d | d in w.pages && LiveDevice(d, w.pages) :: w.pages[d].backing != p
  }

  // A pinned page that the process may write, even while it is in flight
  predicate Reachable(w: World, a: Addr) {
    (w.At(a).Present? || w.At(a).Migration?) && w.At(a).write && w.At(a).page in w.pages
    && w.pages[w.At(a).page].kind.System? && w.pages[w.At(a).page].pins > 0
  }

  // What each action does to the entry of its address, or to its page
  predicate Does(w: World, w': World, x: Action) {
    match x
    case Touch(a, q) =>
      (w.At(a).NoPte? || w.At(a).ZeroPte?) && FreeSystem(w, q) ==> w'.At(a) == Present(q, true)
    case ReadTouch(a) => w.At(a).NoPte? ==> w'.At(a) == ZeroPte
    case Write(a, _) => w'.At(a) == w.At(a)
    case CopyOnWrite(a, q) =>
      w.At(a).Present? && !w.At(a).write && FreeSystem(w, q) ==> w'.At(a) == Present(q, true)
    case Fork(a, b) =>
      InPlace(w, a) && w.At(b).NoPte? ==>
        w'.At(a).Refers() && w'.At(a).page == w.At(a).page && !w'.At(a).write && w'.At(b) == w'.At(a)
    case Unmap(a) => InPlace(w, a) ==> w'.At(a) == NoPte
    case Pin(a) =>
      w.At(a).Present? ==>
        w.At(a).page in w.pages && w.At(a).page in w'.pages && w'.pages[w.At(a).page].pins == w.pages[w.At(a).page].pins + 1
    case Unpin(p) => Unpinnable(w, p) ==> p in w'.pages && w'.pages[p].pins == w.pages[p].pins - 1
    case DmaWrite(a, _) => w'.At(a) == w.At(a)
    case TakeLock(p) => w.Live(p) && w.pages[p].lock == Unlocked ==> HoldsLock(w', p, Theirs)
    case DropLock(p) => HoldsLock(w, p, Theirs) ==> HoldsLock(w', p, Unlocked)
  }

  // ... and to what the process reads there
  predicate Shows(w: World, w': World, x: Action) {
    match x
    case Touch(a, _) => w'.Read(a) == w.Read(a)
    case ReadTouch(a) => w'.Read(a) == w.Read(a)
    case Write(a, v) => w.At(a).Present? && w.At(a).write ==> w'.Read(a) == v
    case CopyOnWrite(a, _) => w'.Read(a) == w.Read(a)
    case Fork(a, b) => InPlace(w, a) && w.At(b).NoPte? ==> w'.Read(a) == w.Read(a) && w'.Read(b) == w.Read(a)
    case Unmap(a) => InPlace(w, a) ==> w'.Read(a) == ZERO_DATA
    case DmaWrite(a, v) => Reachable(w, a) ==> w'.Read(a) == v
    case _ => true
  }

  lemma ActDoes(v: View, x: Action)
    requires v.w.Inv(v.mem)
    ensures Does(v.w, Act(v, x).w, x) && Shows(v.w, Act(v, x).w, x)
  {
    ActKeeps(v, x);
    ReferredLive(v.w, v.mem);
    FlatReads(v.w, v.mem);
    FlatReads(Act(v, x).w, Act(v, x).mem);
    hide World.Inv, EnvRel, World.Read;
    ActEntries(v, x);
    ActMem(v, x);
  }

  // Every entry that refers to a page refers to a live one.
  ghost predicate PagesThere(w: World) {
    forall a: Addr :: w.At(a).Refers() ==> w.Live(w.At(a).page)
  }

  lemma ReferredLive(w: World, mem: Mem)
    requires w.Inv(mem)
    ensures PagesThere(w)
  {
    forall a: Addr | w.At(a).Refers() ensures w.Live(w.At(a).page) { MappedLive(w, a); }
  }

  lemma FlatReads(w: World, mem: Mem)
    requires w.Inv(mem)
    ensures forall a: Addr :: w.Read(a) == MemAt(mem, a)
  {
    hide Kinds, World.Balanced, Backed, Exclusive;
  }

  lemma ActEntries(v: View, x: Action)
    requires PagesThere(v.w) && Kinds(v.w.pt, v.w.pages)
    ensures Does(v.w, Act(v, x).w, x)
  {
    hide Changed, Notified;
    match x
    case Unmap(a) => UnmapEntry(v, a);
    case _ =>
  }

  lemma UnmapEntry(v: View, a: Addr)
    requires PagesThere(v.w)
    ensures InPlace(v.w, a) ==> Act(v, Unmap(a)).w.At(a) == NoPte
  {
    hide Changed, Notified;
  }

  lemma ActMem(v: View, x: Action)
    requires PagesThere(v.w)
    ensures var mem' := Act(v, x).mem;
      match x
      case Write(a, d) => v.w.At(a).Present? && v.w.At(a).write ==> mem' == v.mem[a := d]
      case Fork(a, b) => InPlace(v.w, a) && v.w.At(b).NoPte? ==> mem' == v.mem[b := MemAt(v.mem, a)]
      case Unmap(a) => InPlace(v.w, a) ==> mem' == v.mem[a := ZERO_DATA]
      case DmaWrite(a, d) => Reachable(v.w, a) ==> mem' == v.mem[a := d]
      case _ => mem' == v.mem
  {
    hide Changed, Notified;
  }

  lemma ShrunkInv(w: World, mem: Mem, gone: set<Addr>)
    requires w.Inv(mem)
    ensures Shrunk(w, gone).Inv(mem)
  {
    var w' := Shrunk(w, gone);
    MappersOfPt(w, w');
    forall p | p in w'.pages ensures w'.BalancedAt(p) { assert w.BalancedAt(p); }
    forall a: Addr ensures w'.Read(a) == w.Read(a) {}
  }

  lemma ShrunkRel(w0: World, w: World, gone: set<Addr>)
    requires EnvRel(w0, w)
    ensures EnvRel(w0, Shrunk(w, gone))
  {
    var w' := Shrunk(w, gone);
    MappersOfPt(w, w');
    forall p | p in w0.pages ensures EnvPage(w0, w', p) { assert EnvPage(w0, w, p); }
    forall a: Addr ensures EnvPte(w0, w0.At(a), w'.At(a)) { assert EnvPte(w0, w0.At(a), w.At(a)); }
  }

  lemma EffectKeeps(v: View, x: Action)
    requires v.w.Inv(v.mem)
    ensures Effect(v, x).w.Inv(Effect(v, x).mem) && EnvRel(v.w, Effect(v, x).w)
  {
    var w, mem := v.w, v.mem;
    if !Enabled(w, x) {
      EnvSelf(w);
      return;
    }
    match x {
      case Touch(a, q) =>
        TouchKeeps(w, mem, a, q, ZERO_DATA);
        ZeroRead(w, mem, a);
        FlatEqual(TouchPage(w, a, q, ZERO_DATA), mem[a := ZERO_DATA], mem);
      case ReadTouch(a) => ReadTouchKeeps(w, mem, a);
      case Write(a, d) =>
        PresentFacts(w, mem, a);
        StoreKeeps(w, mem, a, d);
      case CopyOnWrite(a, q) => CowKeeps(w, mem, a, q);
      case Fork(a, b) => ForkKeeps(w, mem, a, b);
      case Unmap(a) => if w.At(a).Present? { UnmapRel(w, mem, a); } else { ZapRel(w, mem, a); }
      case Pin(a) =>
        PresentFacts(w, mem, a);
        PinKeeps(w, mem, w.At(a).page);
      case Unpin(p) =>
        UnpinAllowed(w, p);
        UnpinKeeps(w, mem, p);
      case DmaWrite(a, d) => StoreKeeps(w, mem, a, d);
      case TakeLock(p) => LockKeeps(w, mem, p, Theirs);
      case DropLock(p) => LockKeeps(w, mem, p, Unlocked);
    }
  }

  lemma EnvSelf(w: World)
    ensures EnvRel(w, w)
  {
    forall q | q in w.pages ensures EnvPage(w, w, q) {}
  }

  lemma ZeroRead(w: World, mem: Mem, a: Addr)
    requires w.Inv(mem) && (w.At(a).NoPte? || w.At(a).ZeroPte?)
    ensures forall b: Addr :: MemAt(mem[a := ZERO_DATA], b) == MemAt(mem, b)
  {
    assert w.Read(a) == MemAt(mem, a);
  }

  lemma PresentFacts(w: World, mem: Mem, a: Addr)
    requires w.Inv(mem) && w.At(a).Present?
    ensures var p := w.At(a).page;
            w.Live(p) && w.pages[p].kind.System? && NotBacking(p, w.pages) && !Still(w, p)
  {
    MappedLive(w, a);
    assert PteOk(w.pt[a], w.pages);
    MappedNotBacking(w, mem, a);
    MapperNotStill(w, a);
  }

  lemma UnpinAllowed(w: World, p: Pid)
    requires forall d | d in w.pages && LiveDevice(d, w.pages) :: w.pages[d].backing != p
    ensures NotBacking(p, w.pages)
  {}

  // ----- a migration in flight survives the environment

  lemma EnvKeepsLocks(w: World, w': World, s: seq<Mpfn>, d: seq<Mpfn>)
    requires EnvRel(w, w') && Slots(w, s, d) && LruHeld(w.pages)
    ensures Slots(w', s, d) && LruHeld(w'.pages)
  {
    forall p | p in w.pages
      ensures (w'.pages[p].lock == w.pages[p].lock || (!w'.pages[p].lock.Ours() && !w.pages[p].lock.Ours()))
      ensures w'.pages[p].lru == Isolated ==> w'.pages[p].lock.SrcSlot? && w'.pages[p].kind.System?
    {
      assert EnvPage(w, w', p);
    }
    SlotsSame(w, w', s, d);
  }

  lemma EnvKeepsHome(w: World, w': World, base: Option<Addr>, s: seq<Mpfn>)
    requires EnvRel(w, w') && MirrorHome(w, base) && SlotPtes(w, s, base)
    ensures MirrorHome(w', base) && SlotPtes(w', s, base)
  {
    forall a | a in w'.mirror && w'.At(a).Migration? ensures AtHome(w', base, a) {
      assert AtHome(w, base, a);
      assert EnvPage(w, w', w.At(a).page);
    }
    if base.Some? {
      forall i | 0 <= i < |s| && s[i].page.Some?
        ensures w'.At(base.value + i) == Migration(s[i].page.value, s[i].write)
      {
        assert EnvPte(w, w.At(base.value + i), w'.At(base.value + i));
      }
    }
  }

  lemma EnvKeepsEntry(w: World, w': World, a: Addr, e: Entry)
    requires EnvRel(w, w') && w.EntryOk(a, e) && w'.At(a) == w.At(a)
    ensures w'.EntryOk(a, e)
  {
    if w.At(a).Refers() { assert EnvPage(w, w', w.At(a).page); }
  }

  lemma EnvKeepsSlot(w: World, w': World, place: Option<Place>, i: nat, m: Mpfn, n: Mpfn)
    requires EnvRel(w, w')
    requires m.page.Some? ==> HoldsLock(w, m.page.value, SrcSlot(i))
    requires n.page.Some? ==> HoldsLock(w, n.page.value, DstSlot(i))
    ensures SlotMoved(w, place, i, m, n) ==> SlotMoved(w', place, i, m, n)
    ensures SlotReady(w, m, n) ==> SlotReady(w', m, n)
  {
    if m.page.Some? { assert EnvPage(w, w', m.page.value); }
    if n.page.Some? { assert EnvPage(w, w', n.page.value); }
    if place.Some? { assert EnvPte(w, w.At(place.value.start + i), w'.At(place.value.start + i)); }
  }

  lemma EnvKeepsSlots(w: World, w': World, place: Option<Place>, s: seq<Mpfn>, d: seq<Mpfn>, k: nat)
    requires EnvRel(w, w') && Slots(w, s, d) && SlotsMoved(w, place, s, d, k)
    ensures SlotsMoved(w', place, s, d, k)
  {
    forall j | 0 <= j < |s|
      ensures if j < k then SlotMoved(w', place, j, s[j], d[j]) else SlotReady(w', s[j], d[j])
    {
      SlotHolds(w, s, d, j);
      EnvKeepsSlot(w, w', place, j, s[j], d[j]);
      assert if j < k then SlotMoved(w, place, j, s[j], d[j]) else SlotReady(w, s[j], d[j]);
    }
  }

  lemma EnvKeepsMid(w: World, w': World, place: Option<Place>, s: seq<Mpfn>, d: seq<Mpfn>, k: nat)
    requires EnvRel(w, w') && MirrorMid(w, place, s, d, k)
    ensures MirrorMid(w', place, s, d, k)
  {
    forall a | a in w'.mirror ensures w'.EntryOk(a, w'.mirror[a]) || AtInserted(place, s, d, k, a) {
      if w.EntryOk(a, w.mirror[a]) { EnvKeepsEntry(w, w', a, w.mirror[a]); }
    }
  }

  lemma EnvKeepsPages(w: World, w': World, mem: Mem, mem': Mem, place: Option<Place>, s: seq<Mpfn>, d: seq<Mpfn>,
                      k: nat)
    requires PagesState(w, mem, place, s, d, k) && EnvRel(w, w') && w'.Inv(mem')
    ensures PagesState(w', mem', place, s, d, k)
  {
    hide World.Inv, Slots, LruHeld, MirrorHome, SlotPtes, SlotsMoved, MirrorMid, EnvRel;
    EnvKeepsLocks(w, w', s, d);
    EnvKeepsHome(w, w', BaseOf(place), s);
    EnvKeepsSlots(w, w', place, s, d, k);
    EnvKeepsMid(w, w', place, s, d, k);
  }

  lemma EnvKeepsFinOk(w: World, w': World, s: seq<Mpfn>, d: seq<Mpfn>, a: Addr, e: Entry)
    requires EnvRel(w, w') && Slots(w, s, d) && FinOk(w, s, d, a, e) && w'.At(a) == w.At(a)
    ensures FinOk(w', s, d, a, e)
  {
    var pte := w.At(a);
    if pte.Refers() && pte.page in w.pages {
      assert EnvPage(w, w', pte.page);
      if pte.Migration? && MovingSlot(w, s, d, pte.page) {
        var i := w.pages[pte.page].lock.i;
        SlotHolds(w, s, d, i);
        assert EnvPage(w, w', d[i].page.value);
      }
    }
  }

  lemma EnvKeepsFin(w: World, w': World, mem: Mem, mem': Mem, s: seq<Mpfn>, d: seq<Mpfn>)
    requires FinState(w, mem, s, d) && EnvRel(w, w') && w'.Inv(mem')
    ensures FinState(w', mem', s, d)
  {
    EnvKeepsLocks(w, w', s, d);
    EnvKeepsFinalizable(w, w', s, d);
    hide World.Inv, LruHeld, AllFinalizable;
    forall a | a in w'.mirror ensures FinOk(w', s, d, a, w'.mirror[a]) {
      assert FinOk(w, s, d, a, w.mirror[a]);
      EnvKeepsFinOk(w, w', s, d, a, w.mirror[a]);
    }
  }

  lemma EnvKeepsFinalizable(w: World, w': World, s: seq<Mpfn>, d: seq<Mpfn>)
    requires EnvRel(w, w') && Slots(w, s, d) && AllFinalizable(w, s, d)
    ensures AllFinalizable(w', s, d)
  {
    forall i | 0 <= i < |d| ensures Finalizable(w', s[i], d[i]) {
      assert Finalizable(w, s[i], d[i]);
      SlotHolds(w, s, d, i);
      if s[i].page.Some? { assert EnvPage(w, w', s[i].page.value); }
      if d[i].page.Some? { assert EnvPage(w, w', d[i].page.value); }
    }
  }

  lemma EnvKeepsQuiet(w: World, w': World, mem: Mem, mem': Mem)
    requires Quiet(w, mem) && EnvRel(w, w') && w'.Inv(mem')
    ensures Quiet(w', mem')
  {
    hide World.Inv;
    forall a | a in w'.mirror ensures w'.EntryOk(a, w'.mirror[a]) {
      assert w.EntryOk(a, w.mirror[a]);
      EnvKeepsEntry(w, w', a, w.mirror[a]);
    }
    forall p | p in w'.pages ensures !w'.pages[p].lock.Ours() && w'.pages[p].lru != Isolated {
      assert EnvPage(w, w', p);
    }
  }

  // ----- any number of actions, as a method of the environment

  // What an action is entered as in the history, if it is enabled
  function EventOf(w: World, x: Action): Option<Event> {
    if !Enabled(w, x) then None else
    match x
    case Write(a, v) => if w.At(a).page in w.pages then Some(Wrote(a, v)) else None
    case DmaWrite(a, v) => Some(Wrote(a, v))
    case Unmap(a) => if w.Live(w.At(a).page) then Some(Wrote(a, ZERO_DATA)) else None
    case Fork(a, b) => if w.At(a).page in w.pages then Some(Shared(a, b)) else None
    case Pin(a) => if w.At(a).page in w.pages then Some(TookRef(w.At(a).page)) else None
    case Unpin(p) => Some(DroppedRef(p))
    case _ => None
  }

  lemma ActWrites(v: View, x: Action)
    ensures Act(v, x).mem == match EventOf(v.w, x) case None => v.mem case Some(e) => Apply(v.mem, e)
    ensures Act(v, x).w == Act(View(v.w, map[]), x).w
  {}

  function DeltaOf(e: Option<Event>, p: Pid): int {
    match e
    case None => 0
    case Some(x) => x.Delta(p)
  }

  // No device page comes into use or goes.
  ghost predicate DevicesStill(w: World, w': World) {
    w'.pages.Keys == w.pages.Keys && forall p | p in w.pages ::
      && w'.pages[p].kind == w.pages[p].kind && w'.pages[p].backing == w.pages[p].backing
      && (w.pages[p].kind.Device? ==> (w'.pages[p].refs > 0 <==> w.pages[p].refs > 0))
  }

  lemma StillBackers(w: World, w': World)
    requires DevicesStill(w, w')
    ensures SameBackers(w.pages, w'.pages)
  {}

  ghost predicate PinsMove(w: World, w': World, e: Option<Event>) {
    DevicesStill(w, w') && forall p | p in w.pages :: w'.pages[p].pins == w.pages[p].pins + DeltaOf(e, p)
  }

  // The mapping of a device page goes, and the page with it if it was the last.
  predicate Zaps(w: World, x: Action) {
    x.Unmap? && Enabled(w, x) && w.At(x.a).DevicePrivate?
  }

  // That takes no reference of others, either.
  lemma ZapPins(w: World, mem: Mem, a: Addr, p: Pid)
    requires w.Inv(mem) && w.At(a).DevicePrivate? && w.At(a).page == p && w.Live(p) && w.pages[p].kind.Device?
    ensures PinsExact(w, Zapped(w, a, p))
  {
    GrabbedKeeps(w, mem, a, p);
    DeviceNotBacking(w, mem, p);
    var w1 := Grabbed(w, a, p);
    GrabbedPins(w, a, p);
    hide World.Inv, Grabbed, PutPinned, OutsidePins, NotBacking, SameBackers;
    PinsShift(w, w1, p, 1);
    PinDown(w1, mem[a := ZERO_DATA], p);
  }

  lemma GrabbedPins(w: World, a: Addr, p: Pid)
    requires p in w.pages
    ensures var w1 := Grabbed(w, a, p);
            && w1.pages.Keys == w.pages.Keys && SameBackers(w.pages, w1.pages) && w1.pages[p].pins > 0
            && (w1.Live(p) <==> w.Live(p)) && w1.pages[p].kind == w.pages[p].kind
            && forall r | r in w.pages :: w1.pages[r].pins == w.pages[r].pins + if r == p then 1 else 0
  {}

  lemma ZapLedger(v: View, x: Action)
    requires v.w.Inv(v.mem) && Zaps(v.w, x)
    ensures PinsExact(v.w, Act(v, x).w) && forall p :: DeltaOf(EventOf(v.w, x), p) == 0
  {
    GrabbedKeeps(v.w, v.mem, x.a, v.w.At(x.a).page);
    ZapPins(v.w, v.mem, x.a, v.w.At(x.a).page);
    hide World.Inv, Zapped, OutsidePins;
  }

  // An action changes the references of others to a page as its entry in the history says.
  lemma ActPins(v: View, x: Action)
    requires v.w.Inv(v.mem) && !Zaps(v.w, x)
    ensures PinsMove(v.w, Act(v, x).w, EventOf(v.w, x))
  {
    hide World.Inv, Effect, EventOf, Changed, Notified;
    EffectPins(v, x);
  }

  lemma EffectPins(v: View, x: Action)
    requires v.w.Inv(v.mem) && !Zaps(v.w, x)
    ensures PinsMove(v.w, Effect(v, x).w, EventOf(v.w, x))
  {
    hide World.Inv, PinsMove, TouchPage, Cow, Mapped, Unmapped, AddPin, DropPin, ReadOnly, Stored;
    var w := v.w;
    if !Enabled(w, x) {
      MoveSelf(w);
      return;
    }
    match x {
      case Touch(a, q) =>
        InvBalanced(w, v.mem);
        TouchMoves(w, a, q);
      case ReadTouch(a) => MoveSelf(w);
      case Write(a, d) => if w.At(a).page in w.pages { StoreMoves(w, w.At(a).page, d); } else { MoveSelf(w); }
      case CopyOnWrite(a, q) =>
        InvBalanced(w, v.mem);
        PresentFacts(w, v.mem, a);
        CowMoves(w, a, w.At(a).page, q);
      case Fork(a, b) =>
        ForkUnpack(w, v.mem, a, b);
        ForkMoves(w, a, b, w.At(a).page);
      case Unmap(a) =>
        PresentFacts(w, v.mem, a);
        UnmapMoves(w, a, w.At(a).page);
      case Pin(a) =>
        PresentFacts(w, v.mem, a);
        PinMoves(w, w.At(a).page);
      case Unpin(p) => UnpinMoves(w, p);
      case DmaWrite(a, d) => StoreMoves(w, w.At(a).page, d);
      case TakeLock(p) => LockMoves(w, p, Theirs);
      case DropLock(p) => LockMoves(w, p, Unlocked);
    }
  }

  lemma InvBalanced(w: World, mem: Mem)
    requires w.Inv(mem)
    ensures w.Balanced()
  {}

  lemma MoveSelf(w: World)
    ensures forall w': World | w'.pages == w.pages :: PinsMove(w, w', None)
  {}

  lemma TouchMoves(w: World, a: Addr, q: Pid)
    requires w.Balanced() && FreeSystem(w, q)
    ensures PinsMove(w, TouchPage(w, a, q, ZERO_DATA), None)
  {
    FreeUnmapped(w, q);
    hide World.Balanced, World.Mappers;
  }

  lemma CowMoves(w: World, a: Addr, p: Pid, q: Pid)
    requires w.Balanced() && w.Live(p) && w.pages[p].kind.System? && FreeSystem(w, q)
    ensures PinsMove(w, Cow(w, a, p, q), None)
  {
    FreeUnmapped(w, q);
    hide World.Balanced, World.Mappers;
    CowPages(w, a, p, q);
    hide Cow;
  }

  lemma ForkMoves(w: World, a: Addr, b: Addr, p: Pid)
    requires w.Live(p)
    ensures PinsMove(w, Mapped(ReadOnly(w, a, p), b, p, false), Some(Shared(a, b)))
  {}

  lemma UnmapMoves(w: World, a: Addr, p: Pid)
    requires w.Live(p) && w.pages[p].kind.System?
    ensures PinsMove(w, Unmapped(w, a, p), Some(Wrote(a, ZERO_DATA)))
  {}

  lemma StoreMoves(w: World, p: Pid, d: PageData)
    requires p in w.pages
    ensures forall a :: PinsMove(w, Stored(w, p, d), Some(Wrote(a, d)))
  {}

  lemma PinMoves(w: World, p: Pid)
    requires p in w.pages && w.pages[p].kind.System?
    ensures PinsMove(w, AddPin(w, p), Some(TookRef(p)))
  {}

  lemma UnpinMoves(w: World, p: Pid)
    requires w.Live(p) && w.pages[p].kind.System? && w.pages[p].pins > 0
    ensures PinsMove(w, DropPin(w, p), Some(DroppedRef(p)))
  {}

  lemma LockMoves(w: World, p: Pid, h: Holder)
    requires p in w.pages
    ensures PinsMove(w, w.SetLock(p, h), None)
  {}

  lemma CowPages(w: World, a: Addr, p: Pid, q: Pid)
    requires w.Live(p) && w.Free(q) && w.pages[q].pins == 0
    ensures var w' := Cow(w, a, p, q);
            && w'.pages.Keys == w.pages.Keys && w'.pages[q].pins == 0 && w'.pages[p].pins == w.pages[p].pins
            && w'.pages[q].kind == w.pages[q].kind && w'.pages[q].backing == w.pages[q].backing
            && w'.pages[p].kind == w.pages[p].kind && w'.pages[p].backing == w.pages[p].backing
            && forall r | r in w.pages && r != p && r != q :: w'.pages[r] == w.pages[r]
  {}

  // Only pages that back nothing are pinned.
  lemma EventNotBacking(v: View, x: Action)
    requires v.w.Inv(v.mem)
    ensures match EventOf(v.w, x)
            case Some(TookRef(p)) => p in v.w.pages && NotBacking(p, v.w.pages)
            case Some(DroppedRef(p)) => p in v.w.pages && NotBacking(p, v.w.pages)
            case _ => true
  {
    if Enabled(v.w, x) && x.Pin? { PresentFacts(v.w, v.mem, x.a); }
    if Enabled(v.w, x) && x.Unpin? { UnpinAllowed(v.w, x.p); }
  }

  lemma ActLedger(v: View, x: Action)
    requires v.w.Inv(v.mem)
    ensures Act(v, x).w.pages.Keys == v.w.pages.Keys
    ensures forall p | p in v.w.pages ::
      OutsidePins(Act(v, x).w.pages, p) == OutsidePins(v.w.pages, p) + DeltaOf(EventOf(v.w, x), p)
  {
    hide World.Inv, Act, OutsidePins, NotBacking, SameBackers;
    if Zaps(v.w, x) {
      ZapLedger(v, x);
      return;
    }
    ActPins(v, x);
    StillBackers(v.w, Act(v, x).w);
    EventNotBacking(v, x);
    hide EventOf, DevicesStill;
    match EventOf(v.w, x) {
      case Some(TookRef(p)) => PinsShift(v.w, Act(v, x).w, p, 1);
      case Some(DroppedRef(p)) => PinsShift(v.w, Act(v, x).w, p, -1);
      case _ => PinsShift(v.w, Act(v, x).w, 0, 0);
    }
  }

  // The same with the history
  lemma ActBooked(w0: World, h0: seq<Event>, v: View, h: seq<Event>, x: Action, h': seq<Event>)
    requires v.w.Inv(v.mem) && Ledger(w0, h0, v.w, h)
    requires forall p :: Net(h', p) == Net(h, p) + DeltaOf(EventOf(v.w, x), p)
    ensures Ledger(w0, h0, Act(v, x).w, h')
  {
    ActLedger(v, x);
    hide World.Inv, Act, OutsidePins, EventOf;
  }

  // ----- which mirror entries an action invalidates

  // The action changes the mapping of a page in [lo, hi).
  predicate Inside(x: Action, lo: Addr, hi: Addr) {
    match x
    case Touch(a, _) => lo <= a < hi
    case ReadTouch(a) => lo <= a < hi
    case CopyOnWrite(a, _) => lo <= a < hi
    case Fork(a, b) => lo <= a < hi || lo <= b < hi
    case Unmap(a) => lo <= a < hi
    case _ => false
  }

  // ... or of the page just before it, whose invalidation takes the entry of page lo with it
  predicate Hit(x: Action, lo: Addr, hi: Addr) {
    Inside(x, lo, hi) || (lo < hi && JustBefore(x, lo))
  }

  predicate JustBefore(x: Action, lo: Addr) {
    match x
    case Touch(a, _) => a + 1 == lo
    case CopyOnWrite(a, _) => a + 1 == lo
    case Fork(a, _) => a + 1 == lo
    case Unmap(a) => a + 1 == lo
    case _ => false
  }

  // An action erases the entries of the pages it changes, those after them, and no others.
  lemma ActMirror(v: View, x: Action)
    requires v.w.MirrorOk()
    ensures Act(v, x).w.mirror == v.w.mirror - Notified(Changed(v.w, x))
  {
    hide Notified;
    EffectMirror(v, x);
    hide Effect;
    NotifiedAll(Changed(v.w, x));
  }

  lemma EffectMirror(v: View, x: Action)
    requires v.w.MirrorOk()
    ensures v.w.mirror - Changed(v.w, x) == Effect(v, x).w.mirror || Effect(v, x).w.mirror == v.w.mirror
  {
    forall a | a in v.w.mirror ensures !v.w.At(a).NoPte? { assert v.w.EntryOk(a, v.w.mirror[a]); }
  }

  lemma NotifiedAll(pages: set<Addr>)
    ensures pages <= Notified(pages)
  {}

  function HitCount(acts: seq<Action>, lo: Addr, hi: Addr): nat {
    if acts == [] then 0
    else HitCount(acts[..|acts| - 1], lo, hi) + if Hit(acts[|acts| - 1], lo, hi) then 1 else 0
  }

  // Mirror entries of [lo, hi) are still there, unchanged.
  ghost predicate Spared(w: World, w': World, lo: Addr, hi: Addr) {
    forall a: Addr | lo <= a < hi && a in w.mirror :: a in w'.mirror && w'.mirror[a] == w.mirror[a]
  }

  // Ranges that no action hit are spared.
  ghost predicate MissedSpared(w: World, w': World, acts: seq<Action>) {
    forall lo: Addr, hi: Addr {:trigger Spared(w, w', lo, hi)} | HitCount(acts, lo, hi) == 0 :: Spared(w, w', lo, hi)
  }

  lemma ActSpares(v: View, x: Action, lo: Addr, hi: Addr)
    requires !Hit(x, lo, hi)
    ensures Spared(v.w, Act(v, x).w, lo, hi)
  {}

  lemma MissedStep(w0: World, v: View, acts: seq<Action>, x: Action)
    requires MissedSpared(w0, v.w, acts)
    ensures MissedSpared(w0, Act(v, x).w, acts + [x])
  {
    assert (acts + [x])[..|acts|] == acts;
    forall lo: Addr, hi: Addr | HitCount(acts + [x], lo, hi) == 0 ensures Spared(w0, Act(v, x).w, lo, hi) {
      ActSpares(v, x, lo, hi);
      assert Spared(w0, v.w, lo, hi);
      hide Act;
    }
  }

  // Without actions in between on the page just before, only those inside count.
  function InsideCount(acts: seq<Action>, lo: Addr, hi: Addr): nat {
    if acts == [] then 0
    else InsideCount(acts[..|acts| - 1], lo, hi) + if Inside(acts[|acts| - 1], lo, hi) then 1 else 0
  }

  predicate NoneBefore(acts: seq<Action>, lo: Addr) {
    forall i | 0 <= i < |acts| :: !JustBefore(acts[i], lo)
  }

  lemma {:induction false} HitsInside(acts: seq<Action>, lo: Addr, hi: Addr)
    requires NoneBefore(acts, lo)
    ensures HitCount(acts, lo, hi) == InsideCount(acts, lo, hi)
  {
    if acts != [] { HitsInside(acts[..|acts| - 1], lo, hi); }
  }

  // ----- ordinary memory

  predicate Mappable(e: Pte) {
    e.NoPte? || e.ZeroPte? || e.Present?
  }

  // Nothing in the range is the device's own private memory, in flight or otherwise out of reach.
  ghost predicate AllMappable(w: World, lo: Addr, hi: Addr) {
    forall a: Addr | lo <= a < hi :: Mappable(w.At(a))
  }

  // No page of a parent becomes one of the range.
  predicate NoChild(acts: seq<Action>, lo: Addr, hi: Addr) {
    forall i | 0 <= i < |acts| :: acts[i].Fork? ==> !(lo <= acts[i].b < hi)
  }

  ghost predicate StaysMappable(w: World, w': World, acts: seq<Action>) {
    forall lo: Addr, hi: Addr {:trigger AllMappable(w', lo, hi)} | AllMappable(w, lo, hi) && NoChild(acts, lo, hi) ::
      AllMappable(w', lo, hi)
  }

  lemma ActMappable(v: View, x: Action, lo: Addr, hi: Addr)
    requires v.w.Inv(v.mem) && AllMappable(v.w, lo, hi) && NoChild([x], lo, hi)
    ensures AllMappable(Act(v, x).w, lo, hi)
  {
    assert [x][0] == x;
    MapsSystem(v.w, v.mem);
    hide World.Inv, Act;
    forall c: Addr | lo <= c < hi ensures Mappable(Act(v, x).w.At(c)) {
      assert Mappable(v.w.At(c));
      EffectPte(v, x, c);
    }
  }

  lemma EffectPte(v: View, x: Action, c: Addr)
    requires forall a: Addr | v.w.At(a).Present? ::
      v.w.At(a).page in v.w.pages && v.w.pages[v.w.At(a).page].kind.System?
    requires Mappable(v.w.At(c)) && (x.Fork? ==> x.b != c)
    ensures Mappable(Act(v, x).w.At(c))
  {
    hide Notified, Changed, World.Mappers;
    var w := v.w;
    assert Act(v, x).w.pt == Effect(v, x).w.pt;
    hide Act;
    match x {
      case Touch(a, q) => if FreeSystem(w, q) { TouchPt(w, a, q); }
      case CopyOnWrite(a, q) => if Enabled(w, x) && w.Live(w.At(a).page) { CowPt(w, a, w.At(a).page, q); }
      case _ =>
    }
  }

  lemma TouchPt(w: World, a: Addr, q: Pid)
    requires FreeSystem(w, q)
    ensures TouchPage(w, a, q, ZERO_DATA).pt == w.pt[a := Present(q, true)]
  {}

  lemma CowPt(w: World, a: Addr, p: Pid, q: Pid)
    requires w.Live(p) && FreeSystem(w, q)
    ensures Cow(w, a, p, q).pt == w.pt[a := Present(q, true)]
  {}

  lemma MapsSystem(w: World, mem: Mem)
    requires w.Inv(mem)
    ensures forall a: Addr | w.At(a).Present? :: w.At(a).page in w.pages && w.pages[w.At(a).page].kind.System?
  {
    forall a: Addr | w.At(a).Present? ensures w.At(a).page in w.pages && w.pages[w.At(a).page].kind.System? {
      assert PteOk(w.pt[a], w.pages);
    }
  }

  lemma MappableStep(w0: World, v: View, acts: seq<Action>, x: Action)
    requires v.w.Inv(v.mem) && StaysMappable(w0, v.w, acts)
    ensures StaysMappable(w0, Act(v, x).w, acts + [x])
  {
    hide World.Inv, Act, AllMappable;
    forall lo: Addr, hi: Addr | AllMappable(w0, lo, hi) && NoChild(acts + [x], lo, hi)
      ensures AllMappable(Act(v, x).w, lo, hi)
    {
      assert (acts + [x])[|acts|] == x && forall i | 0 <= i < |acts| :: (acts + [x])[i] == acts[i];
      assert NoChild(acts, lo, hi);
      ActMappable(v, x, lo, hi);
    }
  }

  lemma MissedNone(w: World)
    ensures MissedSpared(w, w, []) && StaysMappable(w, w, [])
  {}

  // An address in the hands of the migration keeps its entry unless the page before it is invalidated.
  predicate HeldAt(w: World, a: Addr) {
    w.At(a).Migration? || (w.At(a).DevicePrivate? && Arriving(w, w.At(a).page))
  }

  predicate EntryKept(w: World, w': World, a: Addr) {
    a in w.mirror ==> a in w'.mirror && w'.mirror[a] == w.mirror[a]
  }

  ghost predicate HeldSpared(w: World, w': World, acts: seq<Action>) {
    forall a: Addr {:trigger EntryKept(w, w', a)} | HeldAt(w, a) && NoneBefore(acts, a) :: EntryKept(w, w', a)
  }

  lemma HeldStep(w0: World, v: View, acts: seq<Action>, x: Action)
    requires EnvRel(w0, v.w) && HeldSpared(w0, v.w, acts)
    ensures HeldSpared(w0, Act(v, x).w, acts + [x])
  {
    forall a: Addr | HeldAt(w0, a) && NoneBefore(acts + [x], a) ensures EntryKept(w0, Act(v, x).w, a) {
      assert (acts + [x])[|acts|] == x && forall i | 0 <= i < |acts| :: (acts + [x])[i] == acts[i];
      assert EntryKept(w0, v.w, a);
      HeldStays(w0, v.w, a);
      hide EnvRel, Act;
      HeldAct(v, x, a);
    }
  }

  lemma HeldStays(w0: World, w: World, a: Addr)
    requires EnvRel(w0, w) && HeldAt(w0, a)
    ensures HeldAt(w, a)
  {
    assert EnvPte(w0, w0.At(a), w.At(a));
    if w0.At(a).DevicePrivate? { assert EnvPage(w0, w, w0.At(a).page); }
  }

  lemma HeldAct(v: View, x: Action, a: Addr)
    requires HeldAt(v.w, a) && !JustBefore(x, a)
    ensures EntryKept(v.w, Act(v, x).w, a)
  {
    hide World.Mappers;
  }

  lemma HeldNone(w: World)
    ensures HeldSpared(w, w, [])
  {}

  // The state after all the actions
  function ActAll(w: World, acts: seq<Action>): World {
    if acts == [] then w else Act(View(ActAll(w, acts[..|acts| - 1]), map[]), acts[|acts| - 1]).w
  }

  // The environment runs any sequence of actions; those that are not enabled do nothing.
  method Interfere(m: Machine, acts: seq<Action>)
    requires m.w.Inv(m.mem) && m.Recorded()
    modifies m
    ensures m.w.Inv(m.mem) && EnvRel(old(m.w), m.w)
    ensures m.Recorded() && old(m.history) <= m.history && Ledger(old(m.w), old(m.history), m.w, m.history)
    ensures acts == [] ==> m.w == old(m.w) && m.mem == old(m.mem) && m.history == old(m.history)
    ensures MissedSpared(old(m.w), m.w, acts) && StaysMappable(old(m.w), m.w, acts)
    ensures HeldSpared(old(m.w), m.w, acts) && m.w == ActAll(old(m.w), acts)
  {
    hide World.Inv, EnvRel, Act, EventOf, Ledger, MissedSpared, StaysMappable, HeldSpared;
    EnvSelf(m.w);
    MissedNone(m.w);
    HeldNone(m.w);
    LedgerSelf(m.w, m.history);
    var i := 0;
    while i < |acts|
      invariant 0 <= i <= |acts| && m.w.Inv(m.mem) && EnvRel(old(m.w), m.w)
      invariant m.Recorded() && old(m.history) <= m.history && Ledger(old(m.w), old(m.history), m.w, m.history)
      invariant i == 0 ==> m.w == old(m.w) && m.mem == old(m.mem) && m.history == old(m.history)
      invariant MissedSpared(old(m.w), m.w, acts[..i]) && StaysMappable(old(m.w), m.w, acts[..i])
      invariant m.w == ActAll(old(m.w), acts[..i]) && HeldSpared(old(m.w), m.w, acts[..i])
    {
      ghost var w, h := m.w, m.history;
      MissedStep(old(m.w), View(m.w, m.mem), acts[..i], acts[i]);
      HeldStep(old(m.w), View(m.w, m.mem), acts[..i], acts[i]);
      MappableStep(old(m.w), View(m.w, m.mem), acts[..i], acts[i]);
      assert acts[..i + 1] == acts[..i] + [acts[i]] && acts[..i + 1][..i] == acts[..i];
      InterfereOnce(m, acts[i]);
      EnvTrans(old(m.w), w, m.w);
      LedgerTrans(old(m.w), old(m.history), w, h, m.w, m.history);
      i := i + 1;
    }
    assert acts[..i] == acts;
  }

  // One action
  method InterfereOnce(m: Machine, x: Action)
    requires m.w.Inv(m.mem) && m.Recorded()
    modifies m
    ensures m.w.Inv(m.mem) && EnvRel(old(m.w), m.w)
    ensures m.Recorded() && old(m.history) <= m.history && Ledger(old(m.w), old(m.history), m.w, m.history)
    ensures m.w == Act(View(old(m.w), old(m.mem)), x).w == Act(View(old(m.w), map[]), x).w
    ensures EventOf(old(m.w), x) == None ==> m.history == old(m.history)
  {
    hide World.Inv, EnvRel, Act, EventOf, Ledger;
    ghost var v, h := View(m.w, m.mem), m.history;
    ActKeeps(v, x);
    ActWrites(v, x);
    ghost var e := EventOf(m.w, x);
    m.w := Act(View(m.w, map[]), x).w;
    if e.Some? { m.Record(e.value); }
    LedgerSelf(v.w, h);
    ActBooked(v.w, h, v, h, x, m.history);
  }
}
