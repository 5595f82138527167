/**
  hmm.c, dmirror_migrate_to_device and dmirror_migrate_to_system: a range is cut into pieces of at
  most 64 pages within one vma, and each piece is migrated on its own.
*/
module RangeCommands {
  import opened Kernel
  import opened KernelSteps
  import opened Txn
  import opened Accounts
  import opened MachineState
  import opened MigratePages
  import opened MigrateSetup
  import opened Driver
  import opened Outcome
  import opened Environment
  import opened MigrateCollect
  import opened Exactness
  import opened SlotResults
  import opened Conservation
  import opened Commands

  // ----- cmd->addr and cmd->npages

  const PAGE: nat := 4096
  const TWO64: nat := 0x1_0000_0000_0000_0000
  const PAGES: nat := 0x10_0000_0000_0000 // page numbers are below 2^52

  // cmd->npages << PAGE_SHIFT, in 64 bits
  function SizeOf(npages: nat): nat {
    npages * PAGE % TWO64
  }

  lemma SizeMod(npages: nat)
    ensures SizeOf(npages) == npages % PAGES * PAGE
  {
    assert npages * PAGE == npages / PAGES * TWO64 + npages % PAGES * PAGE;
  }

  // What the ioctl and the command accept, as page numbers
  function SpanOf(addr: nat, npages: nat): Option<(Addr, Addr)> {
    var end := (addr + SizeOf(npages)) % TWO64;
    if addr % PAGE != 0 || addr >= end then None else Some((addr / PAGE, end / PAGE))
  }

  // The span has npages modulo 2^52 pages: the whole request only if npages < 2^52.
  lemma SpanExact(addr: nat, npages: nat)
    requires addr < TWO64 && npages < TWO64
    ensures SpanOf(addr, npages).Some? <==>
            addr % PAGE == 0 && npages % PAGES != 0 && addr / PAGE + npages % PAGES < PAGES
    ensures var r := SpanOf(addr, npages);
            r.Some? ==> r.value == (addr / PAGE, addr / PAGE + npages % PAGES)
                        && (r.value.1 - r.value.0 == npages <==> npages < PAGES)
  {
    SizeMod(npages);
    hide SizeOf;
    if addr % PAGE == 0 {
      EndOf(addr / PAGE, npages % PAGES);
    }
  }

  lemma EndOf(k: nat, n: nat)
    requires k < PAGES && n < PAGES
    ensures (k * PAGE + n * PAGE) % TWO64 == if k + n < PAGES then (k + n) * PAGE else (k + n - PAGES) * PAGE
  {}

  // ----- the vmas of a process

  const CHUNK: nat := 64

  // Disjoint, not empty, and well below 2^64
  ghost predicate VmasOk(vmas: seq<Vma>) {
    && (forall v | v in vmas :: v.start < v.end && v.end + CHUNK <= PAGES)
    && (forall i, j, a: Addr | 0 <= i < j < |vmas| && InVma(vmas[i], a) :: !InVma(vmas[j], a))
  }

  predicate InVma(v: Vma, a: Addr) {
    v.start <= a < v.end
  }

  // vma_lookup
  function VmaLookup(vmas: seq<Vma>, a: Addr): (r: Option<Vma>)
    ensures r.Some? ==> r.value in vmas && InVma(r.value, a)
    ensures r == None ==> forall v | v in vmas :: !InVma(v, a)
  {
    if vmas == [] then None else if InVma(vmas[0], a) then Some(vmas[0]) else VmaLookup(vmas[1..], a)
  }

  lemma LookupUnique(vmas: seq<Vma>, v: Vma, a: Addr)
    requires VmasOk(vmas) && v in vmas && InVma(v, a)
    ensures VmaLookup(vmas, a) == Some(v)
  {
    var r := VmaLookup(vmas, a).value;
    var i :| 0 <= i < |vmas| && vmas[i] == v;
    var j :| 0 <= j < |vmas| && vmas[j] == r;
  }

  // An address that may be migrated
  predicate Migratable(vmas: seq<Vma>, a: Addr) {
    var v := VmaLookup(vmas, a);
    v.Some? && v.value.readable && !v.value.unsupported
  }

  // ----- pieces

  datatype Cut = Cut(lo: Addr, hi: Addr, vma: Vma)

  // As long as possible: up to 64 pages, the end of the vma or of the range
  predicate CutOk(vmas: seq<Vma>, end: Addr, c: Cut) {
    && c.vma in vmas && c.vma.start <= c.lo < c.hi <= c.vma.end && c.hi <= c.lo + CHUNK && c.hi <= end
    && (c.hi == c.lo + CHUNK || c.hi == c.vma.end || c.hi == end)
    && c.vma.readable && !c.vma.unsupported
  }

  // Consecutive pieces from start to at
  ghost predicate Cuts(vmas: seq<Vma>, end: Addr, cuts: seq<Cut>, start: Addr, at: Addr) {
    && (if cuts == [] then at == start else cuts[0].lo == start && cuts[|cuts| - 1].hi == at)
    && (forall c | c in cuts :: CutOk(vmas, end, c))
    && (forall i | 0 < i < |cuts| :: cuts[i - 1].hi == cuts[i].lo)
  }

  lemma CutsMore(vmas: seq<Vma>, end: Addr, cuts: seq<Cut>, start: Addr, at: Addr, c: Cut)
    requires Cuts(vmas, end, cuts, start, at) && CutOk(vmas, end, c) && c.lo == at
    ensures Cuts(vmas, end, cuts + [c], start, c.hi)
  {}

  // min(end, addr + 64 pages), and not beyond the vma
  function NextAddr(addr: Addr, end: Addr, v: Vma): Addr {
    var far := (addr + CHUNK) % PAGES;
    var next := if end < far then end else far;
    if next > v.end then v.end else next
  }

  lemma NextOk(vmas: seq<Vma>, addr: Addr, end: Addr, v: Vma)
    requires VmasOk(vmas) && VmaLookup(vmas, addr) == Some(v) && addr < end
    ensures var next := NextAddr(addr, end, v);
            && addr < next <= v.end && next <= addr + CHUNK && next <= end
            && (v.readable && !v.unsupported ==> CutOk(vmas, end, Cut(addr, next, v)))
            && (v.readable ==> (ArgsOk(v, addr, next) <==> Migratable(vmas, addr)))
            && forall a: Addr | addr <= a < next :: VmaLookup(vmas, a) == Some(v)
  {
    forall a: Addr | addr <= a < NextAddr(addr, end, v) ensures VmaLookup(vmas, a) == Some(v) {
      LookupUnique(vmas, v, a);
    }
  }

  ghost predicate AllMigratable(vmas: seq<Vma>, lo: Addr, hi: Addr) {
    forall a: Addr | lo <= a < hi :: Migratable(vmas, a)
  }

  // ----- what undisturbed migrations leave of the page table

  // A mapped address stays mapped with its permission; only an empty one may be filled in
  predicate Carried(e: Pte, e': Pte) {
    if e.Refers() then e'.Refers() && !e'.Migration? && e'.write == e.write
    else e' == e || ((e.NoPte? || e.ZeroPte?) && e'.Refers() && !e'.Migration?)
  }

  ghost predicate AllCarried(w0: World, w: World) {
    forall a: Addr :: Carried(w0.At(a), w.At(a))
  }

  lemma CarriedStep(w0: World, w: World, w': World, moves: map<Pid, Pid>, place: Option<Place>, n: nat)
    requires AllCarried(w0, w) && AllOrNothing(w, w', moves, place, n)
    ensures AllCarried(w0, w')
  {
    forall a: Addr ensures Carried(w0.At(a), w'.At(a)) {
      assert Carried(w0.At(a), w.At(a)) && PteMoved(moves, place, n, a, w.At(a), w'.At(a));
    }
  }

  lemma MapSelf(w: World, mem: Mem)
    requires Quiet(w, mem)
    ensures AllCarried(w, w)
  {
    forall a: Addr ensures Carried(w.At(a), w.At(a)) {
      assert a in w.pt ==> PteOk(w.pt[a], w.pages);
    }
  }

  ghost predicate AllUndisturbed(fates: nat -> ChunkFate) {
    forall k: nat :: fates(k).Undisturbed()
  }

  // One piece went through all the stages, exactly as far as the kernel and the driver allowed.
  ghost predicate PieceMoved(w: World, w': World, c: Cut, select: Select, owner: nat, fate: ChunkFate) {
    c.lo <= c.hi && exists s, d :: PieceSlots(w, w', c, select, owner, fate, s, d)
  }

  ghost predicate PieceSlots(w: World, w': World, c: Cut, select: Select, owner: nat, fate: ChunkFate, s: seq<Mpfn>,
                             d: seq<Mpfn>)
    requires c.lo <= c.hi
  {
    && JobExact(w, w', Job(c.lo, c.hi - c.lo, Want(c.vma, select, owner), None, fate), s, d)
    && AllOrNothing(w, w', Moves(s, d), Some(Place(c.lo, c.vma)), c.hi - c.lo)
    && BooksExact(w, w', Moves(s, d))
    && (if select.SelectSystem? then DeviceSlots(w, w', c.lo, c.vma, owner, fate, d)
        else SystemSlots(w, w', c.lo, owner, None, fate, d))
  }

  // The state after each piece, from w0 to w: nothing happens but the migration of the pieces in order.
  ghost predicate Chain(states: seq<World>, w0: World, w: World, cuts: seq<Cut>, select: Select, owner: nat,
                        fates: nat -> ChunkFate) {
    && |states| == |cuts| + 1 && states[0] == w0 && states[|cuts|] == w
    && forall k {:trigger cuts[k]} | 0 <= k < |cuts| ::
         PieceMoved(states[k], states[k + 1], cuts[k], select, owner, fates(k))
  }

  lemma ChainMore(states: seq<World>, w0: World, w: World, w': World, cuts: seq<Cut>, c: Cut, select: Select,
                  owner: nat,
                  fates: nat -> ChunkFate)
    requires Chain(states, w0, w, cuts, select, owner, fates) && PieceMoved(w, w', c, select, owner, fates(|cuts|))
    ensures Chain(states + [w'], w0, w', cuts + [c], select, owner, fates)
  {
    hide PieceMoved;
  }

  lemma ChainNone(w: World, select: Select, owner: nat, fates: nat -> ChunkFate)
    ensures Chain([w], w, w, [], select, owner, fates)
  {}

  lemma PieceBy(w: World, w': World, c: Cut, select: Select, owner: nat, fate: ChunkFate, s: seq<Mpfn>, d: seq<Mpfn>)
    requires c.lo <= c.hi && PieceSlots(w, w', c, select, owner, fate, s, d)
    ensures PieceMoved(w, w', c, select, owner, fate)
  {
    hide PieceSlots;
  }

  datatype Mm = Mm(vmas: seq<Vma>, alive: bool)

  // ----- dmirror_migrate_to_device

  method MigrateToDevice(m: Machine, mm: Mm, start: Addr, end: Addr, owner: nat, fates: nat -> ChunkFate)
    returns (ok: bool, ghost cuts: seq<Cut>, ghost at: Addr, ghost states: seq<World>)
    requires Quiet(m.w, m.mem) && m.Recorded() && start <= end && VmasOk(mm.vmas)
    modifies m
    ensures Quiet(m.w, m.mem) && m.Recorded() && old(m.history) <= m.history
    ensures Ledger(old(m.w), old(m.history), m.w, m.history)
    ensures ok <==> mm.alive && AllMigratable(mm.vmas, start, end)
    ensures start <= at <= end && Cuts(mm.vmas, end, cuts, start, at) && (ok ==> at == end)
    ensures !ok ==> (if mm.alive then at < end && !Migratable(mm.vmas, at) else at == start)
    ensures AllUndisturbed(fates) ==> m.history == old(m.history) && AllCarried(old(m.w), m.w)
    ensures AllUndisturbed(fates) ==> Chain(states, old(m.w), m.w, cuts, SelectSystem, owner, fates)
  {
    hide DeviceSlots, Ledger, SlotsEnd, BooksExact, Chain, PieceMoved, JobExact, TagsStored, Quiet, AllOrNothing,
         AllCarried, Cuts, VmasOk, ArgsOk, CutOk, NextAddr, Moves, Migratable, AllMigratable;
    ghost var w0, h0 := m.w, m.history;
    MapSelf(w0, m.mem);
    LedgerSelf(w0, h0);
    cuts, at, states := [], start, [m.w];
    ChainNone(w0, SelectSystem, owner, fates);
    CutsNone(mm.vmas, end, start);
    if !mm.alive {
      return false, cuts, at, states;
    }
    var src, dst := new Mpfn[CHUNK](_ => EMPTY), new Mpfn[CHUNK](_ => EMPTY);
    var addr, k := start, 0;
    while addr < end
      invariant start <= addr <= end && at == addr && Cuts(mm.vmas, end, cuts, start, at)
      invariant Quiet(m.w, m.mem) && m.Recorded() && old(m.history) <= m.history && Ledger(w0, h0, m.w, m.history)
      invariant AllMigratable(mm.vmas, start, addr)
      invariant AllUndisturbed(fates) ==> m.history == old(m.history) && AllCarried(w0, m.w)
      invariant AllUndisturbed(fates) ==> Chain(states, w0, m.w, cuts, SelectSystem, owner, fates)
      invariant k == |cuts|
    {
      var v := VmaLookup(mm.vmas, addr);
      if v == None || !v.value.readable {
        NotMigratable(mm.vmas, start, addr, end);
        return false, cuts, at, states;
      }
      var next := NextAddr(addr, end, v.value);
      NextOk(mm.vmas, addr, end, v.value);
      ghost var w, h := m.w, m.history;
      ok := ChunkToDevice(m, v.value, addr, next, owner, src, dst, fates(k));
      LedgerTrans(w0, h0, w, h, m.w, m.history);
      if !ok {
        NotAll(mm.vmas, start, addr, end);
        return false, cuts, at, states;
      }
      PieceMigratable(mm.vmas, start, addr, next, v.value);
      ghost var cut := Cut(addr, next, v.value);
      CutsMore(mm.vmas, end, cuts, start, addr, cut);
      if AllUndisturbed(fates) {
        PieceBy(w, m.w, cut, SelectSystem, owner, fates(k), src[..next - addr], dst[..next - addr]);
        ChainMore(states, w0, w, m.w, cuts, cut, SelectSystem, owner, fates);
        CarriedStep(w0, w, m.w, Moves(src[..next - addr], dst[..next - addr]), Some(Place(addr, v.value)), next - addr);
      }
      cuts, states := cuts + [cut], states + [m.w];
      addr, at, k := next, next, k + 1;
    }
    return true, cuts, at, states;
  }

  lemma CutsNone(vmas: seq<Vma>, end: Addr, start: Addr)
    ensures Cuts(vmas, end, [], start, start) && AllMigratable(vmas, start, start)
  {}

  lemma NotMigratable(vmas: seq<Vma>, start: Addr, a: Addr, end: Addr)
    requires start <= a < end && (VmaLookup(vmas, a) == None || !VmaLookup(vmas, a).value.readable)
    ensures !Migratable(vmas, a) && !AllMigratable(vmas, start, end)
  {}

  lemma NotAll(vmas: seq<Vma>, start: Addr, a: Addr, end: Addr)
    requires start <= a < end && !Migratable(vmas, a)
    ensures !AllMigratable(vmas, start, end)
  {}

  lemma PieceMigratable(vmas: seq<Vma>, start: Addr, lo: Addr, hi: Addr, v: Vma)
    requires AllMigratable(vmas, start, lo) && lo < hi && Migratable(vmas, lo)
    requires forall a: Addr | lo <= a < hi :: VmaLookup(vmas, a) == Some(v)
    ensures AllMigratable(vmas, start, hi) && v.readable && !v.unsupported
  {}

  // ----- dmirror_migrate_to_system

  // Pieces that are still to come look as at the start; the count so far is exact
  ghost predicate Counting(w0: World, w: World, start: Addr, addr: Addr, end: Addr, cpages: nat) {
    && (forall a: Addr | addr <= a < end :: w.At(a) == w0.At(a))
    && Unshared(w, start, end)
    && cpages == |Turned(w0, w, start, addr)|
  }

  lemma MovedHere(w: World, moves: map<Pid, Pid>, lo: Addr, n: nat, a: Addr)
    requires FromRange(w, moves, lo, n) && w.At(a).Refers()
    ensures w.At(a).page in moves ==> exists b: Addr :: lo <= b < lo + n && RefersTo(w.At(a), w.At(b))
  {
    if w.At(a).page in moves {
      assert FoundIn(w, w.At(a).page, lo, n);
      var b: Addr :| lo <= b < lo + n && w.At(b).Refers() && w.At(b).page == w.At(a).page;
      assert RefersTo(w.At(a), w.At(b));
    }
  }

  // A page mapped once within the range does not move with another piece.
  lemma MovesElsewhere(w: World, moves: map<Pid, Pid>, start: Addr, lo: Addr, hi: Addr, end: Addr, a: Addr)
    requires start <= lo <= hi <= end && FromRange(w, moves, lo, hi - lo) && Unshared(w, start, end)
    requires (start <= a < lo || hi <= a < end) && w.At(a).Refers()
    ensures w.At(a).page !in moves
  {
    MovedHere(w, moves, lo, hi - lo, a);
  }

  // An entry that refers to the same page as before is the same entry.
  lemma PteAgain(w: World, w': World, mem: Mem, mem': Mem, a: Addr)
    requires Quiet(w, mem) && Quiet(w', mem') && PinsKept(w, w')
    requires w.At(a).Refers() && w'.At(a).Refers() && !w'.At(a).Migration? && w'.At(a).page == w.At(a).page
    requires w'.At(a).write == w.At(a).write
    ensures w'.At(a) == w.At(a)
  {
    assert PinKept(w, w', w.At(a).page);
    assert PteOk(w.pt[a], w.pages) && PteOk(w'.pt[a], w'.pages);
    hide World.Inv, World.MirrorOk;
  }

  // A page of another piece is not touched.
  lemma PieceOnly(w: World, w': World, mem: Mem, mem': Mem, moves: map<Pid, Pid>, start: Addr, lo: Addr, hi: Addr,
                  end: Addr,
                  vma: Vma, a: Addr)
    requires Quiet(w, mem) && Quiet(w', mem') && PinsKept(w, w') && Unshared(w, start, end) && start <= lo <= hi <= end
    requires AllOrNothing(w, w', moves, Some(Place(lo, vma)), hi - lo) && SystemMove(w, w', moves, lo, hi - lo)
    requires start <= a < lo || hi <= a < end
    ensures w'.At(a) == w.At(a)
  {
    assert PteMoved(moves, Some(Place(lo, vma)), hi - lo, a, w.At(a), w'.At(a));
    hide Quiet, PinsKept, Unshared, FromRange, Converts, AllOrNothing;
    if w.At(a).Refers() {
      MovesElsewhere(w, moves, start, lo, hi, end, a);
      PteAgain(w, w', mem, mem', a);
    }
  }

  lemma StillUnshared(w: World, w': World, moves: map<Pid, Pid>, start: Addr, lo: Addr, hi: Addr, end: Addr, vma: Vma)
    requires Unshared(w, start, end) && lo <= hi
    requires AllOrNothing(w, w', moves, Some(Place(lo, vma)), hi - lo) && SystemMove(w, w', moves, lo, hi - lo)
    ensures Unshared(w', start, end)
  {
    forall a, b: Addr | start <= a < end && start <= b < end && RefersTo(w'.At(a), w'.At(b)) ensures a == b {
      assert w.At(a).Refers() && w.At(b).Refers();
      assert PteMoved(moves, Some(Place(lo, vma)), hi - lo, a, w.At(a), w'.At(a));
      assert PteMoved(moves, Some(Place(lo, vma)), hi - lo, b, w.At(b), w'.At(b));
      assert w.At(a).page in moves ==> Unreferenced(w, moves[w.At(a).page]);
      assert w.At(b).page in moves ==> Unreferenced(w, moves[w.At(b).page]);
      assert RefersTo(w.At(a), w.At(b));
    }
  }

  lemma CountPiece(w0: World, w: World, w': World, mem: Mem, mem': Mem, moves: map<Pid, Pid>,
                   start: Addr, lo: Addr, hi: Addr, end: Addr, vma: Vma, cpages: nat)
    requires Counting(w0, w, start, lo, end, cpages) && start <= lo <= hi <= end
    requires Quiet(w, mem) && Quiet(w', mem') && PinsKept(w, w')
    requires AllOrNothing(w, w', moves, Some(Place(lo, vma)), hi - lo) && SystemMove(w, w', moves, lo, hi - lo)
    ensures Counting(w0, w', start, hi, end, cpages + |moves|)
  {
    hide Quiet, AllOrNothing, SystemMove, Unshared, PinsKept, Turned, World.At;
    forall a: Addr | start <= a < lo || hi <= a < end ensures w'.At(a) == w.At(a) {
      PieceOnly(w, w', mem, mem', moves, start, lo, hi, end, vma, a);
    }
    StillUnshared(w, w', moves, start, lo, hi, end, vma);
    UnsharedPart(w, start, end, lo, hi);
    TurnedCount(w, w', mem, moves, lo, hi - lo);
    TurnedSplit(w0, w, w', start, lo, hi);
  }

  lemma UnsharedPart(w: World, start: Addr, end: Addr, lo: Addr, hi: Addr)
    requires Unshared(w, start, end) && start <= lo <= hi <= end
    ensures Unshared(w, lo, lo + (hi - lo))
  {}

  lemma TurnedSplit(w0: World, w: World, w': World, start: Addr, lo: Addr, hi: Addr)
    requires start <= lo <= hi
    requires forall a: Addr | lo <= a < hi :: w.At(a) == w0.At(a)
    requires forall a: Addr | start <= a < lo :: w'.At(a) == w.At(a)
    ensures |Turned(w0, w', start, hi)| == |Turned(w0, w, start, lo)| + |Turned(w, w', lo, lo + (hi - lo))|
  {
    assert Turned(w0, w', start, hi) == Turned(w0, w, start, lo) + Turned(w, w', lo, lo + (hi - lo));
    assert Turned(w0, w, start, lo) !! Turned(w, w', lo, lo + (hi - lo));
  }

  lemma CountNone(w: World, start: Addr, end: Addr)
    requires Unshared(w, start, end)
    ensures Counting(w, w, start, start, end, 0)
  {
    assert Turned(w, w, start, start) == {};
  }

  // What undisturbed pieces up to addr have done
  ghost predicate Sofar(w0: World, w: World, start: Addr, addr: Addr, end: Addr, cpages: nat, states: seq<World>,
                        cuts: seq<Cut>, owner: nat, fates: nat -> ChunkFate) {
    && AllCarried(w0, w) && Chain(states, w0, w, cuts, SelectDevicePrivate, owner, fates)
    && (Unshared(w0, start, end) ==> Counting(w0, w, start, addr, end, cpages))
  }

  lemma SofarNone(w: World, mem: Mem, start: Addr, end: Addr, owner: nat, fates: nat -> ChunkFate)
    requires Quiet(w, mem)
    ensures Sofar(w, w, start, start, end, 0, [w], [], owner, fates)
  {
    MapSelf(w, mem);
    ChainNone(w, SelectDevicePrivate, owner, fates);
    if Unshared(w, start, end) { CountNone(w, start, end); }
    hide Quiet, AllCarried, Chain, Unshared, Counting;
  }

  lemma PieceDone(w0: World, w: World, w': World, mem: Mem, mem': Mem, moves: map<Pid, Pid>,
                  start: Addr, c: Cut, end: Addr, cpages: nat, states: seq<World>, cuts: seq<Cut>, owner: nat,
                  fates: nat -> ChunkFate)
    requires start <= c.lo <= c.hi <= end && Quiet(w, mem) && Quiet(w', mem') && PinsKept(w, w')
    requires AllOrNothing(w, w', moves, Some(Place(c.lo, c.vma)), c.hi - c.lo)
    requires SystemMove(w, w', moves, c.lo, c.hi - c.lo)
    requires Sofar(w0, w, start, c.lo, end, cpages, states, cuts, owner, fates)
    requires PieceMoved(w, w', c, SelectDevicePrivate, owner, fates(|cuts|))
    ensures Sofar(w0, w', start, c.hi, end, cpages + |moves|, states + [w'], cuts + [c], owner, fates)
  {
    hide Quiet, AllOrNothing, SystemMove, AllCarried, PinsKept, Counting, Unshared, Chain, PieceMoved;
    CarriedStep(w0, w, w', moves, Some(Place(c.lo, c.vma)), c.hi - c.lo);
    ChainMore(states, w0, w, w', cuts, c, SelectDevicePrivate, owner, fates);
    if Unshared(w0, start, end) {
      CountPiece(w0, w, w', mem, mem', moves, start, c.lo, c.hi, end, c.vma, cpages);
    }
  }

  // One turn of the loop of dmirror_migrate_to_system
  method SystemPiece(m: Machine, c: Cut, owner: nat, fates: nat -> ChunkFate, src: array<Mpfn>, dst: array<Mpfn>,
                     ghost w0: World, ghost start: Addr, ghost end: Addr, ghost total: nat, ghost states: seq<World>,
                     ghost cuts: seq<Cut>, k: nat)
    returns (ok: bool, cpages: nat)
    requires src != dst && src.Length == dst.Length && start <= c.lo <= c.hi <= end && c.hi - c.lo <= src.Length
    requires Quiet(m.w, m.mem) && m.Recorded() && k == |cuts|
    modifies m, src, dst
    ensures Quiet(m.w, m.mem) && m.Recorded() && old(m.history) <= m.history && PinsKept(old(m.w), m.w)
    ensures Ledger(old(m.w), old(m.history), m.w, m.history)
    ensures ok <==> ArgsOk(c.vma, c.lo, c.hi)
    ensures !ok ==> m.w == old(m.w) && m.history == old(m.history)
    ensures ok && fates(k).Undisturbed() ==> m.history == old(m.history)
    ensures ok && fates(k).Undisturbed() && Sofar(w0, old(m.w), start, c.lo, end, total, states, cuts, owner, fates) ==>
      Sofar(w0, m.w, start, c.hi, end, total + cpages, states + [m.w], cuts + [c], owner, fates)
  {
    hide SystemSlots, Ledger, SlotsEnd, BooksExact, Sofar, PieceMoved, JobExact, Quiet, AllOrNothing, SystemMove,
         ArgsOk, Moves, PinsKept;
    ghost var w, mem := m.w, m.mem;
    ok, cpages := ChunkToSystem(m, c.vma, c.lo, c.hi, owner, None, src, dst, fates(k));
    if ok && fates(k).Undisturbed() {
      PieceBy(w, m.w, c, SelectDevicePrivate, owner, fates(k), src[..c.hi - c.lo], dst[..c.hi - c.lo]);
      if Sofar(w0, w, start, c.lo, end, total, states, cuts, owner, fates) {
        PieceDone(w0, w, m.w, mem, m.mem, Moves(src[..c.hi - c.lo], dst[..c.hi - c.lo]), start, c, end, total, states, cuts,
                  owner, fates);
      }
    }
  }

  // Without interference, and with no page mapped twice in the range, cpages is the number of
  // addresses that were device memory and now are system memory.
  method MigrateToSystem(m: Machine, mm: Mm, start: Addr, end: Addr, owner: nat, fates: nat -> ChunkFate)
    returns (ok: bool, cpages: nat, ghost cuts: seq<Cut>, ghost at: Addr, ghost states: seq<World>)
    requires Quiet(m.w, m.mem) && m.Recorded() && start <= end && VmasOk(mm.vmas)
    modifies m
    ensures Quiet(m.w, m.mem) && m.Recorded() && old(m.history) <= m.history && PinsKept(old(m.w), m.w)
    ensures Ledger(old(m.w), old(m.history), m.w, m.history)
    ensures ok <==> mm.alive && AllMigratable(mm.vmas, start, end)
    ensures start <= at <= end && Cuts(mm.vmas, end, cuts, start, at) && (ok ==> at == end)
    ensures !ok ==> (if mm.alive then at < end && !Migratable(mm.vmas, at) else at == start)
    ensures AllUndisturbed(fates) ==> m.history == old(m.history) && AllCarried(old(m.w), m.w)
    ensures AllUndisturbed(fates) ==> Chain(states, old(m.w), m.w, cuts, SelectDevicePrivate, owner, fates)
    ensures AllUndisturbed(fates) && Unshared(old(m.w), start, end) ==> cpages == |Turned(old(m.w), m.w, start, at)|
  {
    hide Ledger, Sofar, Chain, PieceMoved, JobExact, Quiet, AllOrNothing, SystemMove, AllCarried, Cuts, VmasOk,
         ArgsOk, CutOk, NextAddr, Moves, Migratable, AllMigratable, PinsKept, Counting, Unshared, Turned;
    ghost var w0, h0 := m.w, m.history;
    ChunkSelf(w0);
    LedgerSelf(w0, h0);
    CutsNone(mm.vmas, end, start);
    SofarNone(w0, m.mem, start, end, owner, fates);
    cuts, at, cpages, states := [], start, 0, [m.w];
    if !mm.alive {
      CountIs(w0, m.w, start, at, end, cpages, states, cuts, owner, fates);
      return false, cpages, cuts, at, states;
    }
    var src, dst := new Mpfn[CHUNK](_ => EMPTY), new Mpfn[CHUNK](_ => EMPTY);
    var addr, k := start, 0;
    while addr < end
      invariant start <= addr <= end && at == addr && Cuts(mm.vmas, end, cuts, start, at)
      invariant Quiet(m.w, m.mem) && m.Recorded() && old(m.history) <= m.history && PinsKept(w0, m.w)
      invariant Ledger(w0, h0, m.w, m.history)
      invariant AllMigratable(mm.vmas, start, addr)
      invariant AllUndisturbed(fates) ==>
        m.history == old(m.history) && Sofar(w0, m.w, start, addr, end, cpages, states, cuts, owner, fates)
      invariant k == |cuts|
    {
      var v := VmaLookup(mm.vmas, addr);
      if v == None || !v.value.readable {
        NotMigratable(mm.vmas, start, addr, end);
        CountIs(w0, m.w, start, at, end, cpages, states, cuts, owner, fates);
        return false, cpages, cuts, at, states;
      }
      var next := NextAddr(addr, end, v.value);
      NextOk(mm.vmas, addr, end, v.value);
      var cut := Cut(addr, next, v.value);
      ghost var w, h := m.w, m.history;
      var c;
      ok, c := SystemPiece(m, cut, owner, fates, src, dst, w0, start, end, cpages, states, cuts, k);
      LedgerTrans(w0, h0, w, h, m.w, m.history);
      PinsTrans(w0, w, m.w);
      if !ok {
        NotAll(mm.vmas, start, addr, end);
        CountIs(w0, m.w, start, at, end, cpages, states, cuts, owner, fates);
        return false, cpages, cuts, at, states;
      }
      PieceMigratable(mm.vmas, start, addr, next, v.value);
      CutsMore(mm.vmas, end, cuts, start, addr, cut);
      cuts := cuts + [cut];
      cpages := cpages + c;
      states := states + [m.w];
      addr, at, k := next, next, k + 1;
    }
    CountIs(w0, m.w, start, at, end, cpages, states, cuts, owner, fates);
    return true, cpages, cuts, at, states;
  }

  lemma CountIs(w0: World, w: World, start: Addr, at: Addr, end: Addr, cpages: nat, states: seq<World>, cuts: seq<Cut>,
                owner: nat, fates: nat -> ChunkFate)
    ensures Sofar(w0, w, start, at, end, cpages, states, cuts, owner, fates) ==>
      && AllCarried(w0, w) && Chain(states, w0, w, cuts, SelectDevicePrivate, owner, fates)
      && (Unshared(w0, start, end) ==> cpages == |Turned(w0, w, start, at)|)
  {
    hide AllCarried, Chain, Unshared, Turned;
  }
}
