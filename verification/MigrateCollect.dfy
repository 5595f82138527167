/**
  mm/migrate_device.c, first stage: walk the page table of a range, lock what can be migrated
  and install migration entries.  One src and one dst slot is appended per virtual page.
*/
module MigrateCollect {
  import opened Kernel
  import opened KernelSteps
  import opened Txn
  import opened MachineState

  // How the page walk reaches a piece of the range
  datatype Piece = Hole(len: nat) | Skip(len: nat) | Ptes(len: nat)

  function TotalLen(walk: seq<Piece>): nat {
    if walk == [] then 0 else walk[0].len + TotalLen(walk[1..])
  }

  // pte_hole and pmd_none pieces hold no entry at all
  predicate WalkFits(w: World, a: Addr, walk: seq<Piece>)
    decreases walk
  {
    if walk == [] then true
    else
      && (walk[0].Hole? ==> forall b: Addr | a <= b < a + walk[0].len :: w.At(b) == NoPte)
      && WalkFits(w, a + walk[0].len, walk[1..])
  }

  // The piece that page i of the range lies in
  function KindAt(walk: seq<Piece>, i: nat): Piece
    requires i < TotalLen(walk)
    decreases walk
  {
    if i < walk[0].len then walk[0] else KindAt(walk[1..], i - walk[0].len)
  }

  lemma {:induction false} TotalSplit(walk: seq<Piece>, k: nat)
    requires k < |walk|
    ensures TotalLen(walk[..k]) + walk[k].len + TotalLen(walk[k + 1..]) == TotalLen(walk)
    ensures TotalLen(walk[..k + 1]) == TotalLen(walk[..k]) + walk[k].len
    ensures forall i | TotalLen(walk[..k]) <= i < TotalLen(walk[..k]) + walk[k].len :: KindAt(walk, i) == walk[k]
    decreases k
  {
    assert walk[..k + 1][0] == walk[0] && walk[..k + 1][1..] == walk[1..][..k];
    if k > 0 {
      TotalSplit(walk[1..], k - 1);
      assert walk[..k][0] == walk[0] && walk[..k][1..] == walk[1..][..k - 1] && walk[1..][k..] == walk[k + 1..];
      forall i | TotalLen(walk[..k]) <= i < TotalLen(walk[..k]) + walk[k].len ensures KindAt(walk, i) == walk[k] {
        assert KindAt(walk[1..], i - walk[0].len) == walk[k];
      }
    }
  }

  datatype Want = Want(vma: Vma, select: Select, owner: nat)

  // What a page table entry offers, before the page is locked
  function Candidate(w: World, a: Addr, want: Want): (c: Mpfn)
    ensures c.page.Some? ==> c.migrate
    ensures c.page == None ==> c == EMPTY || c == MIGRATE_ONLY
  {
    match w.At(a)
    case NoPte => if want.vma.anonymous then MIGRATE_ONLY else EMPTY
    case ZeroPte => if want.select.SelectSystem? then MIGRATE_ONLY else EMPTY
    case Present(p, write) => if want.select.SelectSystem? then Checked(w, p, write) else EMPTY
    case DevicePrivate(p, write) =>
      if want.select.SelectDevicePrivate? && p in w.pages && w.pages[p].kind == Device(want.owner)
      then Checked(w, p, write) else EMPTY
    case _ => EMPTY
  }

  function Checked(w: World, p: Pid, write: bool): Mpfn {
    if p !in w.pages || w.pages[p].mapping == NoMapping || w.pages[p].compound then EMPTY
    else Mpfn(Some(p), true, write)
  }

  // A page of the kind that is to be migrated is mapped, and it is one that migration can handle.
  predicate Selected(w: World, a: Addr, want: Want) {
    && (w.At(a).Present? || w.At(a).DevicePrivate?) && w.At(a).page in w.pages
    && (if w.At(a).Present? then want.select.SelectSystem?
        else want.select.SelectDevicePrivate? && w.pages[w.At(a).page].kind == Device(want.owner))
    && w.pages[w.At(a).page].mapping != NoMapping && !w.pages[w.At(a).page].compound
  }

  // What collect did at one address
  predicate CollectedAt(w0: World, w: World, want: Want, a: Addr, m: Mpfn) {
    || (w.At(a) == w0.At(a) && (m == EMPTY || (m == MIGRATE_ONLY && m == Candidate(w0, a, want))))
    || (m.page.Some? && m == Candidate(w0, a, want) && w.At(a) == Migration(m.page.value, m.write))
  }

  // In a run of ptes a page is taken exactly if it could be locked and unshared
  predicate TakenIfPossible(w0: World, w: World, want: Want, a: Addr, m: Mpfn, shareFails: bool) {
    var c := Candidate(w0, a, want);
    if m == c then c.page.Some? ==> !shareFails
    else c.page.Some? && m == EMPTY && (shareFails || !HoldsLock(w, c.page.value, Unlocked))
  }

  // What becomes of a slot, by the piece its address lies in
  predicate TakenAs(w0: World, w: World, want: Want, a: Addr, m: Mpfn, piece: Piece, shareFails: bool) {
    match piece
    case Hole(_) => m == if want.vma.anonymous then MIGRATE_ONLY else EMPTY
    case Skip(_) => m == EMPTY
    case Ptes(_) => TakenIfPossible(w0, w, want, a, m, shareFails)
  }

  ghost predicate WalkTaken(w0: World, w: World, want: Want, start: Addr, walk: seq<Piece>, s: seq<Mpfn>,
                            shareFails: Addr -> bool) {
    |s| <= TotalLen(walk) && forall i {:trigger s[i]} | 0 <= i < |s| ::
      TakenAs(w0, w, want, start + i, s[i], KindAt(walk, i), shareFails(start + i))
  }

  ghost predicate PieceTaken(w0: World, w: World, want: Want, start: Addr, piece: Piece, s: seq<Mpfn>, lo: nat,
                             shareFails: Addr -> bool) {
    forall i {:trigger s[i]} | lo <= i < |s| :: TakenAs(w0, w, want, start + i, s[i], piece, shareFails(start + i))
  }

  // Collect changes page locks and nothing else of a page
  predicate LocksOnly(g: Page, g': Page) {
    g' == g.(lock := g'.lock) && (g.lock != Unlocked ==> g'.lock == g.lock) && (g'.lock == g.lock || g'.lock.SrcSlot?)
  }

  ghost predicate SlotsCollected(w0: World, w: World, s: seq<Mpfn>, d: seq<Mpfn>, start: Addr, want: Want) {
    && (forall i {:trigger d[i]} | 0 <= i < |d| :: d[i] == EMPTY)
    && (forall i {:trigger s[i]} | 0 <= i < |s| :: CollectedAt(w0, w, want, start + i, s[i]))
    && (forall a: Addr | a < start || start + |s| <= a :: w.At(a) == w0.At(a))
    && w.pages.Keys == w0.pages.Keys && (forall p | p in w0.pages :: LocksOnly(w0.pages[p], w.pages[p]))
    && w.mirror == w0.mirror
  }

  ghost predicate Collected(w0: World, w: World, mem: Mem, s: seq<Mpfn>, d: seq<Mpfn>, start: Addr, want: Want) {
    InFlight(w, mem, s, d, Some(start)) && SlotsCollected(w0, w, s, d, start, want)
  }

  // A slot without a page
  lemma CollectNone(w0: World, w: World, mem: Mem, s: seq<Mpfn>, d: seq<Mpfn>, start: Addr, want: Want, m: Mpfn)
    requires Collected(w0, w, mem, s, d, start, want)
    requires m == EMPTY || (m == MIGRATE_ONLY && m == Candidate(w0, start + |s|, want))
    ensures Collected(w0, w, mem, s + [m], d + [EMPTY], start, want)
  {
    SlotsAppendNone(w, s, d, m);
    SlotsCollectedNone(w0, w, s, d, start, want, m);
    assert SlotPtes(w, s + [m], Some(start));
  }

  lemma CollectHolePage(w0: World, w: World, mem: Mem, s: seq<Mpfn>, d: seq<Mpfn>, start: Addr, want: Want)
    requires Collected(w0, w, mem, s, d, start, want)
    requires w.At(start + |s|) == NoPte && want.vma.anonymous
    ensures Collected(w0, w, mem, s + [MIGRATE_ONLY], d + [EMPTY], start, want)
  {
    CandidateSame(w0, w, mem, s, d, start, want);
    CollectNone(w0, w, mem, s, d, start, want, MIGRATE_ONLY);
  }

  lemma CollectStart(w: World, mem: Mem, start: Addr, want: Want)
    requires Quiet(w, mem)
    ensures Collected(w, w, mem, [], [], start, want)
  {
    QuietStart(w, mem, Some(start));
  }

  // Collect leaves the addresses ahead of it alone.
  lemma FirstFits(w: World, a: Addr, piece: Piece, rest: seq<Piece>)
    requires WalkFits(w, a, [piece] + rest)
    ensures piece.Hole? ==> forall b: Addr | a <= b < a + piece.len :: w.At(b) == NoPte
    ensures WalkFits(w, a + piece.len, rest)
  {
    assert ([piece] + rest)[0] == piece && ([piece] + rest)[1..] == rest;
  }

  lemma WalkAhead(w0: World, w1: World, w2: World, mem: Mem, s1: seq<Mpfn>, d1: seq<Mpfn>, s2: seq<Mpfn>, d2: seq<Mpfn>,
                  start: Addr, want: Want, walk: seq<Piece>)
    requires Collected(w0, w1, mem, s1, d1, start, want) && Collected(w0, w2, mem, s2, d2, start, want) && |s1| <= |s2|
    requires WalkFits(w1, start + |s2|, walk)
    ensures WalkFits(w2, start + |s2|, walk)
  {
    forall a: Addr | start + |s2| <= a ensures w2.At(a) == w1.At(a) {
      assert w1.At(a) == w0.At(a) && w2.At(a) == w0.At(a);
    }
    WalkSame(w1, w2, start + |s2|, walk);
  }

  lemma WalkSame(w1: World, w2: World, a: Addr, walk: seq<Piece>)
    requires WalkFits(w1, a, walk)
    requires forall b: Addr | a <= b :: w2.At(b) == w1.At(b)
    ensures WalkFits(w2, a, walk)
    decreases walk
  {
    if walk != [] { WalkSame(w1, w2, a + walk[0].len, walk[1..]); }
  }

  lemma SlotsCollectedNone(w0: World, w: World, s: seq<Mpfn>, d: seq<Mpfn>, start: Addr, want: Want, m: Mpfn)
    requires SlotsCollected(w0, w, s, d, start, want)
    requires m == EMPTY || (m == MIGRATE_ONLY && m == Candidate(w0, start + |s|, want))
    ensures SlotsCollected(w0, w, s + [m], d + [EMPTY], start, want)
  {
    assert w.At(start + |s|) == w0.At(start + |s|);
    forall i | 0 <= i < |s| + 1 ensures CollectedAt(w0, w, want, start + i, (s + [m])[i]) {
      assert i < |s| ==> CollectedAt(w0, w, want, start + i, s[i]);
    }
  }

  // A slot that locks page p
  lemma CollectPage(w0: World, w: World, mem: Mem, s: seq<Mpfn>, d: seq<Mpfn>, start: Addr, want: Want, p: Pid,
                    write: bool)
    requires Collected(w0, w, mem, s, d, start, want)
    requires Candidate(w0, start + |s|, want) == Mpfn(Some(p), true, write)
    requires HoldsLock(w, p, Unlocked)
    ensures w.Live(p)
    ensures var w' := Install(w, start + |s|, p, write, |s|);
            Collected(w0, w', mem, s + [Mpfn(Some(p), true, write)], d + [EMPTY], start, want)
  {
    CollectedEntry(w0, w, s, d, start, want, p, write);
    InstallInFlight(w, mem, s, d, start, p, write);
    SlotsCollectedPage(w0, w, s, d, start, want, p, write);
  }

  lemma CollectedEntry(w0: World, w: World, s: seq<Mpfn>, d: seq<Mpfn>, start: Addr, want: Want, p: Pid, write: bool)
    requires SlotsCollected(w0, w, s, d, start, want)
    requires Candidate(w0, start + |s|, want) == Mpfn(Some(p), true, write)
    ensures w.At(start + |s|).Maps(p) && w.At(start + |s|).write == write
  {
    assert w.At(start + |s|) == w0.At(start + |s|);
  }

  lemma InstallInFlight(w: World, mem: Mem, s: seq<Mpfn>, d: seq<Mpfn>, start: Addr, p: Pid, write: bool)
    requires InFlight(w, mem, s, d, Some(start))
    requires w.At(start + |s|).Maps(p) && w.At(start + |s|).write == write
    requires HoldsLock(w, p, Unlocked)
    ensures w.Live(p)
    ensures InFlight(Install(w, start + |s|, p, write, |s|), mem, s + [Mpfn(Some(p), true, write)], d + [EMPTY], Some(start))
  {
    hide World.Inv, Slots, LruHeld, World.MirrorOk, MirrorHome, SlotPtes;
    var w' := Install(w, start + |s|, p, write, |s|);
    InstallKeeps(w, mem, start + |s|, p, write, |s|);
    SlotsAppend(w, w', s, d, p, write);
    InstallMirror(w, start + |s|, p, write, |s|);
    InstallHome(w, start, |s|, p, write);
    InstallPtes(w, s, start, p, write);
  }

  lemma InstallMirror(w: World, a: Addr, p: Pid, write: bool, slot: nat)
    requires w.MirrorOk() && w.At(a).Maps(p) && w.At(a).write == write && p in w.pages
    ensures Install(w, a, p, write, slot).MirrorOk()
  {
    MirrorSame(w, Install(w, a, p, write, slot));
  }

  lemma InstallPtes(w: World, s: seq<Mpfn>, start: Addr, p: Pid, write: bool)
    requires SlotPtes(w, s, Some(start)) && p in w.pages && LruHeld(w.pages)
    ensures var w' := Install(w, start + |s|, p, write, |s|);
            SlotPtes(w', s + [Mpfn(Some(p), true, write)], Some(start)) && LruHeld(w'.pages)
  {}

  lemma CollectedInv(w0: World, w: World, mem: Mem, s: seq<Mpfn>, d: seq<Mpfn>, start: Addr, want: Want)
    requires Collected(w0, w, mem, s, d, start, want)
    ensures w.Inv(mem)
  {}

  lemma CandidateLive(w: World, mem: Mem, a: Addr, want: Want)
    requires w.Inv(mem) && Candidate(w, a, want).page.Some?
    ensures w.Live(Candidate(w, a, want).page.value)
  {
    MappedLive(w, a);
  }

  // One turn of the pte loop
  lemma CollectOne(w0: World, w: World, w': World, mem: Mem, s: seq<Mpfn>, d: seq<Mpfn>, start: Addr, want: Want,
                   c: Mpfn, taken: bool, shareFails: bool)
    requires Collected(w0, w, mem, s, d, start, want) && c == Candidate(w0, start + |s|, want)
    requires taken ==> c.page.Some?
    requires c.page.Some? ==> c.page.value in w.pages && (taken <==> w.pages[c.page.value].lock == Unlocked && !shareFails)
    requires w' == if taken then Install(w, start + |s|, c.page.value, c.write, |s|) else w
    ensures var mpfn := if c.page.Some? && !taken then EMPTY else c;
            && Collected(w0, w', mem, s + [mpfn], d + [EMPTY], start, want)
            && TakenIfPossible(w0, w', want, start + |s|, mpfn, shareFails)
    ensures LocksGrow(w, w')
  {
    hide Collected, Candidate;
    if taken {
      CollectPage(w0, w, mem, s, d, start, want, c.page.value, c.write);
    } else {
      CollectNone(w0, w, mem, s, d, start, want, if c.page.Some? then EMPTY else c);
    }
  }

  lemma SlotsCollectedPage(w0: World, w: World, s: seq<Mpfn>, d: seq<Mpfn>, start: Addr, want: Want, p: Pid,
                           write: bool)
    requires SlotsCollected(w0, w, s, d, start, want)
    requires Candidate(w0, start + |s|, want) == Mpfn(Some(p), true, write)
    requires HoldsLock(w, p, Unlocked)
    ensures SlotsCollected(w0, Install(w, start + |s|, p, write, |s|), s + [Mpfn(Some(p), true, write)], d + [EMPTY],
                           start, want)
  {
    var w' := Install(w, start + |s|, p, write, |s|);
    forall i | 0 <= i < |s| + 1 ensures CollectedAt(w0, w', want, start + i, (s + [Mpfn(Some(p), true, write)])[i]) {
      assert i < |s| ==> CollectedAt(w0, w, want, start + i, s[i]);
    }
    forall q | q in w0.pages ensures LocksOnly(w0.pages[q], w'.pages[q]) {
      assert LocksOnly(w0.pages[q], w.pages[q]);
    }
  }

  lemma InstallHome(w: World, start: Addr, slot: nat, p: Pid, write: bool)
    requires MirrorHome(w, Some(start)) && p in w.pages && !w.pages[p].lock.Ours()
    ensures MirrorHome(Install(w, start + slot, p, write, slot), Some(start))
  {
    var w' := Install(w, start + slot, p, write, slot);
    forall a | a in w'.mirror && w'.At(a).Migration? ensures AtHome(w', Some(start), a) {
      assert a != start + slot ==> AtHome(w, Some(start), a);
    }
  }

  lemma LockAndBack(w: World, p: Pid, h: Holder)
    requires HoldsLock(w, p, Unlocked) && w.Live(p)
    ensures w.GetPage(p).PutPage(p) == w
    ensures w.GetPage(p).SetLock(p, h).SetLock(p, Unlocked).PutPage(p) == w
  {
    assert w.GetPage(p).PutPage(p).pages == w.pages;
    assert w.GetPage(p).SetLock(p, h).SetLock(p, Unlocked).PutPage(p).pages == w.pages;
  }

  lemma GetPut(w: World, p: Pid)
    requires w.Live(p)
    ensures w.GetPage(p).PutPage(p) == w
  {
    assert w.GetPage(p).PutPage(p).pages == w.pages;
  }

  lemma InstallInSteps(w: World, a: Addr, p: Pid, write: bool, slot: nat)
    requires w.Live(p)
    ensures w.GetPage(p).SetLock(p, SrcSlot(slot)).SetPte(a, Migration(p, write)).PutPage(p)
         == Install(w, a, p, write, slot)
  {
    assert w.GetPage(p).SetLock(p, SrcSlot(slot)).SetPte(a, Migration(p, write)).PutPage(p).pages
        == Install(w, a, p, write, slot).pages;
  }

  class MigrateVma {
    const m: Machine
    const want: Want
    const faultPage: Option<Pid>
    const start: Addr
    var end: Addr
    const src: array<Mpfn>
    const dst: array<Mpfn>
    var npages: nat
    var cpages: nat

    constructor (m: Machine, want: Want, faultPage: Option<Pid>, start: Addr, end: Addr,
                 src: array<Mpfn>, dst: array<Mpfn>)
      ensures this.m == m && this.want == want && this.faultPage == faultPage && this.start == start
      ensures this.end == end && this.src == src && this.dst == dst && npages == 0 && cpages == 0
    {
      this.m, this.want, this.faultPage, this.start, this.end := m, want, faultPage, start, end;
      this.src, this.dst := src, dst;
      npages, cpages := 0, 0;
    }

    ghost predicate State(w0: World, mem: Mem, n: nat)
      reads this, m, src, dst
    {
      && src != dst && src.Length == dst.Length && npages == n <= src.Length && m.mem == mem
      && Collected(w0, m.w, mem, src[..n], dst[..n], start, want)
      && cpages == |MigrateSet(src[..n])|
    }

    // One slot: dst[npages] = 0, src[npages++] = mpfn
    method Append(ghost w0: World, mpfn: Mpfn)
      requires src != dst && src.Length == dst.Length && npages < src.Length
      requires Collected(w0, m.w, m.mem, src[..npages] + [mpfn], dst[..npages] + [EMPTY], start, want)
      requires cpages == |MigrateSet(src[..npages])| + if mpfn.migrate then 1 else 0
      modifies `npages, src, dst
      ensures npages == old(npages) + 1 && State(w0, m.mem, npages)
      ensures src[..npages] == old(src[..npages]) + [mpfn]
      ensures m.w == old(m.w)
    {
      hide Collected;
      dst[npages] := EMPTY;
      src[npages] := mpfn;
      npages := npages + 1;
      assert src[..npages] == old(src[..npages]) + [mpfn];
      assert dst[..npages] == old(dst[..npages]) + [EMPTY];
      MigrateSetAppend(old(src[..npages]), mpfn);
    }

    method AppendSkip(ghost w0: World)
      requires npages < src.Length && State(w0, m.mem, npages)
      modifies `npages, src, dst
      ensures npages == old(npages) + 1 && State(w0, m.mem, npages)
      ensures src[..npages] == old(src[..npages]) + [EMPTY]
    {
      hide Collected;
      CollectNone(w0, m.w, m.mem, src[..npages], dst[..npages], start, want, EMPTY);
      Append(w0, EMPTY);
    }

    method AppendHole(ghost w0: World)
      requires npages < src.Length && State(w0, m.mem, npages)
      requires m.w.At(start + npages) == NoPte && want.vma.anonymous
      modifies `npages, `cpages, src, dst
      ensures npages == old(npages) + 1 && State(w0, m.mem, npages)
      ensures src[..npages] == old(src[..npages]) + [MIGRATE_ONLY]
    {
      hide Collected;
      CollectHolePage(w0, m.w, m.mem, src[..npages], dst[..npages], start, want);
      cpages := cpages + 1;
      Append(w0, MIGRATE_ONLY);
    }

    method AppendPte(ghost w0: World, ghost n0: nat, shareFails: Addr -> bool)
      requires npages < src.Length && State(w0, m.mem, npages)
      requires TakenFrom(w0, m.w, want, start, src[..npages], n0, shareFails)
      modifies `npages, `cpages, src, dst, m`w
      ensures npages == old(npages) + 1 && State(w0, m.mem, npages)
      ensures old(src[..npages]) <= src[..npages]
      ensures TakenFrom(w0, m.w, want, start, src[..npages], n0, shareFails) && LocksGrow(old(m.w), m.w)
    {
      hide Collected, TakenFrom, TakenIfPossible, LocksGrow, MigrateSet;
      StateKeys(w0, m.w, m.mem, src[..npages], dst[..npages], start, want);
      ghost var w, s := m.w, src[..npages];
      var mpfn := CollectPte(w0, start + npages, shareFails(start + npages));
      TakenStep(w0, w, m.w, want, start, s, n0, shareFails, mpfn);
      Append(w0, mpfn);
    }

    method CollectSkip(ghost w0: World, lo: Addr, hi: Addr)
      requires lo <= hi && lo == start + npages && npages + (hi - lo) <= src.Length
      requires State(w0, m.mem, npages)
      modifies `npages, src, dst
      ensures npages == old(npages) + (hi - lo) && State(w0, m.mem, npages)
      ensures src[..npages] == old(src[..npages]) + Repeat(EMPTY, hi - lo)
    {
      hide State;
      var addr := lo;
      while addr < hi
        invariant lo <= addr <= hi && npages == old(npages) + (addr - lo)
        invariant State(w0, m.mem, npages) && src[..npages] == old(src[..npages]) + Repeat(EMPTY, addr - lo)
        modifies `npages, src, dst
      {
        AppendSkip(w0);
        addr := addr + 1;
      }
    }

    method CollectHole(ghost w0: World, lo: Addr, hi: Addr)
      requires lo <= hi && lo == start + npages && npages + (hi - lo) <= src.Length
      requires State(w0, m.mem, npages)
      requires forall a: Addr | lo <= a < hi :: m.w.At(a) == NoPte
      modifies `npages, `cpages, src, dst
      ensures npages == old(npages) + (hi - lo) && State(w0, m.mem, npages)
      ensures src[..npages] == old(src[..npages]) + Repeat(if want.vma.anonymous then MIGRATE_ONLY else EMPTY, hi - lo)
    {
      hide State;
      if !want.vma.anonymous {
        CollectSkip(w0, lo, hi);
        return;
      }
      var addr := lo;
      while addr < hi
        invariant lo <= addr <= hi && npages == old(npages) + (addr - lo)
        invariant State(w0, m.mem, npages) && src[..npages] == old(src[..npages]) + Repeat(MIGRATE_ONLY, addr - lo)
        modifies `npages, `cpages, src, dst
      {
        AppendHole(w0);
        addr := addr + 1;
      }
    }

    method CollectPmd(ghost w0: World, lo: Addr, hi: Addr, shareFails: Addr -> bool)
      requires lo <= hi && lo == start + npages && npages + (hi - lo) <= src.Length
      requires State(w0, m.mem, npages)
      modifies `npages, `cpages, src, dst, m`w
      ensures npages == old(npages) + (hi - lo) && State(w0, m.mem, npages)
      ensures old(src[..npages]) <= src[..npages]
      ensures TakenFrom(w0, m.w, want, start, src[..npages], old(npages), shareFails) && LocksGrow(old(m.w), m.w)
    {
      ghost var n0, s0 := npages, src[..npages];
      assert TakenFrom(w0, m.w, want, start, s0, n0, shareFails);
      LocksSelf(m.w);
      hide State, TakenFrom, LocksGrow;
      var addr := lo;
      while addr < hi
        invariant lo <= addr <= hi && npages == n0 + (addr - lo)
        invariant State(w0, m.mem, npages) && s0 <= src[..npages]
        invariant TakenFrom(w0, m.w, want, start, src[..npages], n0, shareFails) && LocksGrow(old(m.w), m.w)
        modifies `npages, `cpages, src, dst, m`w
      {
        ghost var w := m.w;
        AppendPte(w0, n0, shareFails);
        LocksTrans(old(m.w), w, m.w);
        addr := addr + 1;
      }
    }

    // migrate_vma_collect: the pieces of the walk in order
    method Collect(walk: seq<Piece>, shareFails: Addr -> bool)
      requires src != dst && src.Length == dst.Length && npages == 0 && cpages == 0
      requires Quiet(m.w, m.mem) && WalkFits(m.w, start, walk)
      requires start + TotalLen(walk) == end && TotalLen(walk) <= src.Length
      modifies this, src, dst, m`w
      ensures npages == old(end) - start && end == old(end)
      ensures State(old(m.w), m.mem, npages)
      ensures WalkTaken(old(m.w), m.w, want, start, walk, src[..npages], shareFails)
    {
      hide Collected, Quiet;
      ghost var w0 := m.w;
      CollectStart(w0, m.mem, start, want);
      assert src[..0] == [] && dst[..0] == [];
      assert State(w0, m.mem, 0);
      WalkTakenNone(w0, want, start, walk, shareFails);
      hide State, WalkFits, WalkTaken, PieceTaken, TakenAs, LocksGrow;
      var k := 0;
      while k < |walk|
        invariant 0 <= k <= |walk| && npages + TotalLen(walk[k..]) == end - start <= src.Length
        invariant State(w0, m.mem, npages) && WalkFits(m.w, start + npages, walk[k..])
        invariant npages == TotalLen(walk[..k]) && WalkTaken(w0, m.w, want, start, walk, src[..npages], shareFails)
        invariant end == old(end) && m.w.pages.Keys == w0.pages.Keys
      {
        TotalSplit(walk, k);
        ghost var w, s := m.w, src[..npages];
        assert walk[k..][0] == walk[k] && walk[k..][1..] == walk[k + 1..];
        assert walk[k..] == [walk[k]] + walk[k + 1..];
        CollectPiece(w0, walk[k], walk[k + 1..], shareFails);
        LocksKeys(w, m.w);
        WalkTakenStep(w0, w, m.w, want, start, walk, k, s, src[..npages], shareFails);
        k := k + 1;
      }
      end := start + npages;
    }

    method CollectPiece(ghost w0: World, piece: Piece, ghost rest: seq<Piece>, shareFails: Addr -> bool)
      requires State(w0, m.mem, npages) && WalkFits(m.w, start + npages, [piece] + rest)
      requires npages + piece.len <= src.Length
      modifies `npages, `cpages, src, dst, m`w
      ensures npages == old(npages) + piece.len && State(w0, m.mem, npages)
      ensures WalkFits(m.w, start + npages, rest)
      ensures old(src[..npages]) <= src[..npages] && LocksGrow(old(m.w), m.w)
      ensures PieceTaken(w0, m.w, want, start, piece, src[..npages], old(npages), shareFails)
    {
      hide Collected, WalkFits, TakenIfPossible, LocksGrow, MigrateSet;
      LocksSelf(m.w);
      ghost var w1, n1, s1, d1 := m.w, npages, src[..npages], dst[..npages];
      var lo := start + npages;
      FirstFits(m.w, lo, piece, rest);
      match piece {
        case Hole(len) => CollectHole(w0, lo, lo + len);
        case Skip(len) => CollectSkip(w0, lo, lo + len);
        case Ptes(len) => CollectPmd(w0, lo, lo + len, shareFails);
      }
      WalkAhead(w0, w1, m.w, m.mem, s1, d1, src[..npages], dst[..npages], start, want, rest);
    }

    // The body of the pte loop: what becomes of one entry
    method CollectPte(ghost w0: World, addr: Addr, shareFails: bool) returns (mpfn: Mpfn)
      requires addr == start + npages && npages < src.Length && State(w0, m.mem, npages)
      modifies `cpages, m`w
      ensures Collected(w0, m.w, m.mem, src[..npages] + [mpfn], dst[..npages] + [EMPTY], start, want)
      ensures cpages == old(cpages) + if mpfn.migrate then 1 else 0
      ensures LocksGrow(old(m.w), m.w)
      ensures TakenIfPossible(w0, m.w, want, addr, mpfn, shareFails)
    {
      hide SlotsCollected, InFlight, TakenIfPossible;
      ghost var w, s, d := m.w, src[..npages], dst[..npages];
      CandidateSame(w0, w, m.mem, s, d, start, want);
      CollectedInv(w0, w, m.mem, s, d, start, want);
      mpfn := DecodePte(addr);
      ghost var c := mpfn;
      var taken := mpfn.page.Some?;
      if taken {
        CandidateLive(w, m.mem, addr, want);
        taken := LockPte(addr, mpfn.page.value, mpfn.write, shareFails);
        if !taken { mpfn := EMPTY; }
      }
      if mpfn.migrate { cpages := cpages + 1; }
      CollectOne(w0, w, m.w, m.mem, s, d, start, want, c, taken, shareFails);
    }

    // Lines before get_page: the entry the pte would get if its page can be locked
    method DecodePte(addr: Addr) returns (mpfn: Mpfn)
      requires m.w.Inv(m.mem)
      ensures mpfn == Candidate(m.w, addr, want)
      ensures mpfn.page.Some? <==> Selected(m.w, addr, want)
      ensures mpfn == if Selected(m.w, addr, want) then Mpfn(Some(m.w.At(addr).page), true, m.w.At(addr).write)
                      else if (m.w.At(addr).NoPte? && want.vma.anonymous) || (m.w.At(addr).ZeroPte? && want.select.SelectSystem?)
                      then MIGRATE_ONLY else EMPTY
    {
      var page: Option<Pid> := None;
      mpfn := EMPTY;
      match m.w.At(addr) {
        case NoPte =>
          if want.vma.anonymous { mpfn := MIGRATE_ONLY; }
        case ZeroPte =>
          if want.select.SelectSystem? { mpfn := MIGRATE_ONLY; }
        case DevicePrivate(p, write) =>
          assert PteOk(m.w.pt[addr], m.w.pages);
          if want.select.SelectDevicePrivate? && m.w.pages[p].kind == Device(want.owner) {
            page, mpfn := Some(p), Mpfn(Some(p), true, write);
          }
        case Present(p, write) =>
          assert PteOk(m.w.pt[addr], m.w.pages);
          if want.select.SelectSystem? {
            page, mpfn := Some(p), Mpfn(Some(p), true, write);
          }
        case _ =>
      }
      if page.Some? && (m.w.pages[page.value].mapping == NoMapping || m.w.pages[page.value].compound) {
        mpfn := EMPTY;
      }
    }

    // From get_page on: pin the page, lock it, and install the migration entry
    method LockPte(addr: Addr, p: Pid, write: bool, shareFails: bool) returns (locked: bool)
      requires m.w.Live(p)
      modifies m`w
      ensures locked <==> old(m.w).pages[p].lock == Unlocked && !shareFails
      ensures m.w == if locked then Install(old(m.w), addr, p, write, npages) else old(m.w)
    {
      ghost var w := m.w;
      GetPut(w, p);
      m.w := m.w.GetPage(p);
      if m.w.pages[p].lock == Unlocked {
        m.w := m.w.SetLock(p, SrcSlot(npages));
        if shareFails {
          m.w := m.w.SetLock(p, Unlocked);
          m.w := m.w.PutPage(p);
          LockAndBack(w, p, SrcSlot(npages));
          return false;
        }
        m.w := m.w.SetPte(addr, Migration(p, write));
        m.w := m.w.PutPage(p);
        InstallInSteps(w, addr, p, write, npages);
        return true;
      }
      m.w := m.w.PutPage(p);
      return false;
    }
  }

  // Page locks taken stay taken during collect
  ghost predicate LocksGrow(w: World, w': World) {
    w'.pages.Keys == w.pages.Keys && forall p | p in w.pages && w.pages[p].lock != Unlocked :: w'.pages[p].lock != Unlocked
  }

  lemma LocksSelf(w: World)
    ensures LocksGrow(w, w)
  {}

  lemma LocksKeys(w: World, w': World)
    requires LocksGrow(w, w')
    ensures w'.pages.Keys == w.pages.Keys
  {}

  lemma LocksTrans(w: World, w1: World, w2: World)
    requires LocksGrow(w, w1) && LocksGrow(w1, w2)
    ensures LocksGrow(w, w2)
  {}

  lemma WalkTakenNone(w: World, want: Want, start: Addr, walk: seq<Piece>, shareFails: Addr -> bool)
    ensures WalkTaken(w, w, want, start, walk, [], shareFails)
  {}

  lemma WalkTakenStep(w0: World, w: World, w': World, want: Want, start: Addr, walk: seq<Piece>, k: nat,
                      s: seq<Mpfn>, s': seq<Mpfn>, shareFails: Addr -> bool)
    requires k < |walk| && |s| == TotalLen(walk[..k]) && |s'| == |s| + walk[k].len && s <= s'
    requires WalkTaken(w0, w, want, start, walk, s, shareFails) && LocksGrow(w, w')
    requires w.pages.Keys == w0.pages.Keys
    requires PieceTaken(w0, w', want, start, walk[k], s', |s|, shareFails)
    ensures WalkTaken(w0, w', want, start, walk, s', shareFails)
  {
    TotalSplit(walk, k);
    forall i | 0 <= i < |s'| ensures TakenAs(w0, w', want, start + i, s'[i], KindAt(walk, i), shareFails(start + i)) {
      if i < |s| {
        assert TakenAs(w0, w, want, start + i, s[i], KindAt(walk, i), shareFails(start + i));
      } else {
        assert TakenAs(w0, w', want, start + i, s'[i], walk[k], shareFails(start + i));
      }
    }
  }

  ghost predicate TakenFrom(w0: World, w: World, want: Want, start: Addr, s: seq<Mpfn>, lo: nat,
                            shareFails: Addr -> bool) {
    forall i {:trigger s[i]} | lo <= i < |s| :: TakenIfPossible(w0, w, want, start + i, s[i], shareFails(start + i))
  }

  lemma TakenStep(w0: World, w: World, w': World, want: Want, start: Addr, s: seq<Mpfn>, lo: nat,
                  shareFails: Addr -> bool, m: Mpfn)
    requires TakenFrom(w0, w, want, start, s, lo, shareFails) && LocksGrow(w, w')
    requires TakenIfPossible(w0, w', want, start + |s|, m, shareFails(start + |s|))
    requires w.pages.Keys == w0.pages.Keys
    ensures TakenFrom(w0, w', want, start, s + [m], lo, shareFails)
  {
    forall i | lo <= i < |s| ensures TakenIfPossible(w0, w', want, start + i, (s + [m])[i], shareFails(start + i)) {
      assert TakenIfPossible(w0, w, want, start + i, s[i], shareFails(start + i));
    }
  }

  lemma CandidateSame(w0: World, w: World, mem: Mem, s: seq<Mpfn>, d: seq<Mpfn>, start: Addr, want: Want)
    requires Collected(w0, w, mem, s, d, start, want)
    ensures Candidate(w, start + |s|, want) == Candidate(w0, start + |s|, want)
  {
    var e := w0.At(start + |s|);
    assert w.At(start + |s|) == e;
    assert e.Refers() && e.page in w0.pages ==> LocksOnly(w0.pages[e.page], w.pages[e.page]);
  }

  function Repeat<T>(x: T, n: nat): (r: seq<T>)
    ensures |r| == n && forall i | 0 <= i < n :: r[i] == x
  {
    seq(n, _ => x)
  }

  lemma StateKeys(w0: World, w: World, mem: Mem, s: seq<Mpfn>, d: seq<Mpfn>, start: Addr, want: Want)
    requires Collected(w0, w, mem, s, d, start, want)
    ensures w.pages.Keys == w0.pages.Keys
  {}

  lemma MigrateSetAppend(s: seq<Mpfn>, m: Mpfn)
    ensures |MigrateSet(s + [m])| == |MigrateSet(s)| + if m.migrate then 1 else 0
  {
    if m.migrate {
      assert MigrateSet(s + [m]) == MigrateSet(s) + {|s|};
    } else {
      assert MigrateSet(s + [m]) == MigrateSet(s);
    }
  }
}
