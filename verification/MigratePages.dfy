/**
  mm/migrate_device.c, third stage: move the struct page metadata to the new pages, and map new
  pages at addresses that had none.
*/
module MigratePages {
  import opened Kernel
  import opened KernelSteps
  import opened Txn
  import opened Accounts
  import opened MachineState
  import opened MigrateCollect
  import opened MigrateUnmap
  import opened MigrateFinalize

  // Does inserting at the slot's address succeed (page table and anon_vma allocation, memcg,
  // userfaultfd), and does migrate_folio
  datatype PageFate = PageFate(inserts: bool, moves: bool)

  // The vma and the start address: absent when the range is given by device pfns
  datatype Place = Place(start: Addr, vma: Vma)

  predicate InsertAllowed(w: World, a: Addr, vma: Vma, fate: PageFate) {
    vma.anonymous && fate.inserts && (w.At(a).NoPte? || w.At(a).ZeroPte?)
  }

  // migrate_folio refuses a page with an unexpected reference; device memory takes only pages
  // without a file mapping
  predicate MoveAllowed(w: World, p: Pid, q: Pid, faultPage: Option<Pid>, fate: PageFate) {
    && p in w.pages && q in w.pages
    && !(w.pages[q].kind.Device? && w.pages[p].mapping.File?)
    && fate.moves && w.pages[p].pins == if faultPage == Some(p) then 1 else 0
  }

  // The slot after the stage, in terms of the state before it
  function SlotAfter(w: World, place: Option<Place>, i: nat, m: Mpfn, n: Mpfn, faultPage: Option<Pid>,
                     fate: PageFate): Mpfn {
    match (m.page, n.page)
    case (_, None) => m.(migrate := false)
    case (None, Some(_)) =>
      if !m.migrate then m
      else if place.Some? && InsertAllowed(w, place.value.start + i, place.value.vma, fate) then MIGRATE_ONLY
      else m.(migrate := false)
    case (Some(p), Some(q)) => if MoveAllowed(w, p, q, faultPage, fate) then m else m.(migrate := false)
  }

  function PagesOne(w: World, place: Option<Place>, i: nat, m: Mpfn, n: Mpfn, faultPage: Option<Pid>,
                    fate: PageFate): World
    requires m.page.Some? ==> m.page.value in w.pages
    requires n.page.Some? ==> n.page.value in w.pages
  {
    match (m.page, n.page)
    case (None, Some(q)) =>
      if m.migrate && place.Some? && InsertAllowed(w, place.value.start + i, place.value.vma, fate)
      then Insert(w, place.value.start + i, q, place.value.vma.writable) else w
    case (Some(p), Some(q)) =>
      if MoveAllowed(w, p, q, faultPage, fate) then MoveMapping(w, p, q) else w
    case _ => w
  }

  // ----- the state between the stages

  function BaseOf(place: Option<Place>): Option<Addr> {
    match place
    case None => None
    case Some(pl) => Some(pl.start)
  }

  // A new device page mapped by this stage stays where it was put
  predicate InsertedOk(w: World, place: Option<Place>, i: nat, m: Mpfn, n: Mpfn) {
    m.page == None && m.migrate && n.page.Some? ==>
      && place.Some? && n.page.value in w.pages
      && (w.pages[n.page.value].kind.Device? ==>
            w.At(place.value.start + i) == DevicePrivate(n.page.value, place.value.vma.writable))
  }

  // Not yet reached: frozen source, fresh destination
  predicate SlotReady(w: World, m: Mpfn, n: Mpfn) {
    (m.page.Some? ==> m.migrate && Frozen(w, m.page.value)) && DstReady(w, m, n)
  }

  predicate SlotMoved(w: World, place: Option<Place>, i: nat, m: Mpfn, n: Mpfn) {
    Finalizable(w, m, n) && InsertedOk(w, place, i, m, n)
  }

  ghost predicate SlotsMoved(w: World, place: Option<Place>, s: seq<Mpfn>, d: seq<Mpfn>, k: nat) {
    && |s| == |d|
    && (forall j {:trigger s[j]} | 0 <= j < |s| ::
          if j < k then SlotMoved(w, place, j, s[j], d[j]) else SlotReady(w, s[j], d[j]))
  }

  // The mirror may still hold a zero page entry where a page was inserted
  predicate AtInserted(place: Option<Place>, s: seq<Mpfn>, d: seq<Mpfn>, k: nat, a: Addr) {
    && place.Some? && place.value.start <= a < place.value.start + k && a - place.value.start < |s|
    && a - place.value.start < |d|
    && s[a - place.value.start].page == None && s[a - place.value.start].migrate
    && d[a - place.value.start].page.Some?
  }

  ghost predicate MirrorMid(w: World, place: Option<Place>, s: seq<Mpfn>, d: seq<Mpfn>, k: nat) {
    forall a | a in w.mirror :: w.EntryOk(a, w.mirror[a]) || AtInserted(place, s, d, k, a)
  }

  ghost predicate PagesState(w: World, mem: Mem, place: Option<Place>, s: seq<Mpfn>, d: seq<Mpfn>, k: nat) {
    && Held(w, mem, s, d, BaseOf(place)) && MirrorHome(w, BaseOf(place))
    && SlotsMoved(w, place, s, d, k) && MirrorMid(w, place, s, d, k)
  }

  // ----- frames

  // Only reference counts and mappings of pages change
  predicate SoftSame(g: Page, g': Page) {
    SameBits(g, g') && g'.lock == g.lock && g'.lru == g.lru && g'.pins == g.pins
  }

  ghost predicate SoftWorld(w: World, w': World) {
    && w'.pt == w.pt && w'.mirror == w.mirror && w'.pages.Keys == w.pages.Keys
    && forall p | p in w.pages :: SoftSame(w.pages[p], w'.pages[p])
  }

  lemma SoftKeepsHeld(w: World, w': World, mem: Mem, s: seq<Mpfn>, d: seq<Mpfn>, base: Option<Addr>)
    requires Held(w, mem, s, d, base) && MirrorHome(w, base) && SoftWorld(w, w') && w'.Inv(mem)
    ensures Held(w', mem, s, d, base) && MirrorHome(w', base)
  {
    hide World.Inv;
    forall p | p in w.pages ensures w'.pages[p].lock == w.pages[p].lock && w'.pages[p].lru == w.pages[p].lru
        && w'.pages[p].kind == w.pages[p].kind {
      assert SoftSame(w.pages[p], w'.pages[p]);
    }
    SlotsSame(w, w', s, d);
    forall a | a in w'.mirror && w'.At(a).Migration? ensures AtHome(w', base, a) {
      assert AtHome(w, base, a);
    }
  }

  lemma SoftStorage(w: World, w': World)
    requires SoftWorld(w, w')
    ensures SameStorage(w.pages, w'.pages) && SameRefs(w.pt, w'.pt)
  {
    forall p | p in w.pages ensures SameBits(w.pages[p], w'.pages[p]) {
      assert SoftSame(w.pages[p], w'.pages[p]);
    }
  }

  lemma SoftKeepsMirror(w: World, w': World, place: Option<Place>, s: seq<Mpfn>, d: seq<Mpfn>, k: nat)
    requires MirrorMid(w, place, s, d, k) && SoftWorld(w, w')
    ensures MirrorMid(w', place, s, d, k)
  {
    SoftStorage(w, w');
    hide SoftWorld, SameStorage;
    forall a | a in w'.mirror ensures w'.EntryOk(a, w'.mirror[a]) || AtInserted(place, s, d, k, a) {
      if w.EntryOk(a, w.mirror[a]) { EntrySame(w, w', a, w.mirror[a]); }
    }
  }

  lemma SoftKeepsMoved(w: World, w': World, place: Option<Place>, i: nat, m: Mpfn, n: Mpfn)
    requires SlotMoved(w, place, i, m, n) && SoftWorld(w, w')
    ensures SlotMoved(w', place, i, m, n)
  {
    MappersOfPt(w, w');
    SoftStorage(w, w');
    if m.page.Some? {
      DataSame(w, w', m.page.value);
      assert SoftSame(w.pages[m.page.value], w'.pages[m.page.value]);
    }
    if n.page.Some? {
      DataSame(w, w', n.page.value);
      assert n.page.value in w.pages ==> SoftSame(w.pages[n.page.value], w'.pages[n.page.value]);
    }
  }

  lemma SoftKeepsReady(w: World, w': World, m: Mpfn, n: Mpfn)
    requires SlotReady(w, m, n) && SoftWorld(w, w')
    requires n.page.Some? ==> w'.pages[n.page.value] == w.pages[n.page.value]
    ensures SlotReady(w', m, n)
  {
    MappersOfPt(w, w');
    SoftStorage(w, w');
    if m.page.Some? {
      DataSame(w, w', m.page.value);
      assert SoftSame(w.pages[m.page.value], w'.pages[m.page.value]);
    }
    if n.page.Some? { DataSame(w, w', n.page.value); }
  }

  lemma MoveSoft(w: World, p: Pid, q: Pid)
    requires p in w.pages && q in w.pages && p != q
    ensures SoftWorld(w, MoveMapping(w, p, q))
    ensures forall r | r in w.pages && r != p && r != q :: MoveMapping(w, p, q).pages[r] == w.pages[r]
  {}

  lemma InsertFrame(w: World, mem: Mem, a: Addr, q: Pid, write: bool)
    requires q in w.pages && w.Mappers(q) == {} && !w.At(a).Refers() && w.pages[q].lock.DstSlot?
    ensures var w' := Insert(w, a, q, write);
            && Outside(w, w', {q}) && w'.pages[q].lock == w.pages[q].lock
            && (w'.pages[q].lru == Isolated ==> w.pages[q].lru == Isolated)
            && (forall b: Addr | b != a :: w'.At(b) == w.At(b)) && w'.At(a) == w.MapTo(q, write)
  {
    var w' := Insert(w, a, q, write);
    forall r | r != q ensures w'.Mappers(r) == w.Mappers(r) {}
  }

  // Slots other than i do not notice what happens to pages outside theirs.
  lemma OutsideKeepsReady(w: World, w': World, X: set<Pid>, m: Mpfn, n: Mpfn)
    requires SlotReady(w, m, n) && Outside(w, w', X)
    requires m.page.Some? ==> m.page.value !in X && w.pages[m.page.value].lock.Ours()
    requires n.page.Some? ==> n.page.value !in X && w.pages[n.page.value].lock.Ours()
    ensures SlotReady(w', m, n)
  {
    if m.page.Some? {
      assert OutsideAt(w, w', m.page.value);
      DataSame(w, w', m.page.value);
    }
    if n.page.Some? {
      assert OutsideAt(w, w', n.page.value);
      DataSame(w, w', n.page.value);
    }
  }

  lemma OutsideKeepsMoved(w: World, w': World, X: set<Pid>, place: Option<Place>, i: nat, m: Mpfn, n: Mpfn)
    requires SlotMoved(w, place, i, m, n) && Outside(w, w', X)
    requires m.page.Some? ==> m.page.value !in X && m.page.value in w.pages && w.pages[m.page.value].lock.Ours()
    requires n.page.Some? ==> n.page.value !in X && n.page.value in w.pages && w.pages[n.page.value].lock.Ours()
    requires place.Some? ==> w'.At(place.value.start + i) == w.At(place.value.start + i)
    ensures SlotMoved(w', place, i, m, n)
  {
    if m.page.Some? {
      assert OutsideAt(w, w', m.page.value);
      DataSame(w, w', m.page.value);
    }
    if n.page.Some? {
      assert OutsideAt(w, w', n.page.value);
      assert SameBits(w.pages[n.page.value], w'.pages[n.page.value]);
      DataSame(w, w', n.page.value);
    }
  }

  lemma InsertSlots(w: World, w': World, place: Place, s: seq<Mpfn>, d: seq<Mpfn>, i: nat, q: Pid)
    requires Slots(w, s, d) && SlotsMoved(w, Some(place), s, d, i) && i < |s| && s[i].page == None
    requires d[i].page == Some(q)
    requires Outside(w, w', {q}) && forall b: Addr | b != place.start + i :: w'.At(b) == w.At(b)
    requires q in w.pages && w'.At(place.start + i) == w.MapTo(q, place.vma.writable)
    ensures SlotsMoved(w', Some(place), s[i := MIGRATE_ONLY], d, i + 1)
  {
    var s' := s[i := MIGRATE_ONLY];
    forall j | 0 <= j < |s'|
      ensures if j < i + 1 then SlotMoved(w', Some(place), j, s'[j], d[j]) else SlotReady(w', s'[j], d[j])
    {
      if j == i {
        assert SameBits(w.pages[q], w'.pages[q]);
      } else {
        SlotHolds(w, s, d, i);
        SlotHolds(w, s, d, j);
        assert if j < i then SlotMoved(w, Some(place), j, s[j], d[j]) else SlotReady(w, s[j], d[j]);
        if j < i {
          OutsideKeepsMoved(w, w', {q}, Some(place), j, s[j], d[j]);
        } else {
          OutsideKeepsReady(w, w', {q}, s[j], d[j]);
        }
      }
    }
  }

  lemma InsertHeld(w: World, w': World, mem: Mem, start: Addr, s: seq<Mpfn>, d: seq<Mpfn>, i: nat, q: Pid)
    requires Held(w, mem, s, d, Some(start)) && MirrorHome(w, Some(start)) && w'.Inv(mem)
    requires i < |s| && s[i].page == None && d[i].page == Some(q) && Outside(w, w', {q})
    requires w'.pages[q].lock == w.pages[q].lock && (w'.pages[q].lru == Isolated ==> w.pages[q].lru == Isolated)
    requires (forall b: Addr | b != start + i :: w'.At(b) == w.At(b)) && !w'.At(start + i).Migration?
    ensures Held(w', mem, s[i := MIGRATE_ONLY], d, Some(start)) && MirrorHome(w', Some(start))
  {
    hide World.Inv;
    forall p | p in w.pages ensures w'.pages[p].lock == w.pages[p].lock && w'.pages[p].kind == w.pages[p].kind
      && (w'.pages[p].lru == Isolated ==> w.pages[p].lru == Isolated) {
      assert SameBits(w.pages[p], w'.pages[p]);
      assert p != q ==> OutsideAt(w, w', p);
    }
    SlotsFlags(w, s, d, i, MIGRATE_ONLY);
    SlotsSame(w, w', s[i := MIGRATE_ONLY], d);
    hide Slots;
    forall a | a in w'.mirror && w'.At(a).Migration? ensures AtHome(w', Some(start), a) {
      assert AtHome(w, Some(start), a);
    }
  }

  lemma InsertMirror(w: World, w': World, place: Place, s: seq<Mpfn>, d: seq<Mpfn>, i: nat, q: Pid)
    requires MirrorMid(w, Some(place), s, d, i) && i < |s| == |d| && s[i].page == None && d[i].page == Some(q)
    requires Outside(w, w', {q}) && (forall b: Addr | b != place.start + i :: w'.At(b) == w.At(b))
    ensures MirrorMid(w', Some(place), s[i := MIGRATE_ONLY], d, i + 1)
  {
    forall a | a in w'.mirror
      ensures w'.EntryOk(a, w'.mirror[a]) || AtInserted(Some(place), s[i := MIGRATE_ONLY], d, i + 1, a)
    {
      if a != place.start + i && w.EntryOk(a, w.mirror[a]) { EntrySame(w, w', a, w.mirror[a]); }
    }
  }

  // ----- one turn

  lemma InsertStep(w: World, mem: Mem, place: Place, s: seq<Mpfn>, d: seq<Mpfn>, i: nat, q: Pid)
    requires PagesState(w, mem, Some(place), s, d, i) && i < |s| && s[i].page == None && d[i].page == Some(q)
    requires w.At(place.start + i).NoPte? || w.At(place.start + i).ZeroPte?
    ensures q in w.pages
    ensures PagesState(Insert(w, place.start + i, q, place.vma.writable), mem, Some(place), s[i := MIGRATE_ONLY], d, i + 1)
  {
    hide Slots, World.Inv, LruHeld, SlotPtes, MirrorHome, MirrorMid, SlotsMoved, Insert, World.Mappers, Outside,
         World.Data;
    InsertUnpack(w, mem, place, s, d, i, q);
    var w' := Insert(w, place.start + i, q, place.vma.writable);
    InsertKeeps(w, mem, place.start + i, q, place.vma.writable);
    InsertFrame(w, mem, place.start + i, q, place.vma.writable);
    InsertSlots(w, w', place, s, d, i, q);
    InsertHeld(w, w', mem, place.start, s, d, i, q);
    InsertMirror(w, w', place, s, d, i, q);
  }

  lemma InsertUnpack(w: World, mem: Mem, place: Place, s: seq<Mpfn>, d: seq<Mpfn>, i: nat, q: Pid)
    requires PagesState(w, mem, Some(place), s, d, i) && i < |s| && s[i].page == None && d[i].page == Some(q)
    ensures q in w.pages && w.pages[q].lock.DstSlot? && w.pages[q].mapping == NoMapping && w.Mappers(q) == {}
    ensures w.Data(q) == ZERO_DATA && |s| == |d|
  {
    hide World.Inv, LruHeld, SlotPtes, MirrorHome, MirrorMid;
    SlotHolds(w, s, d, i);
    assert SlotReady(w, s[i], d[i]);
  }

  // The page of slot i does not migrate, or slot i keeps its flags
  lemma FlagStep(w: World, mem: Mem, place: Option<Place>, s: seq<Mpfn>, d: seq<Mpfn>, i: nat, m: Mpfn)
    requires PagesState(w, mem, place, s, d, i) && i < |s|
    requires m == s[i].(migrate := false) || (m == s[i] && !s[i].migrate)
    ensures PagesState(w, mem, place, s[i := m], d, i + 1)
  {
    assert SlotReady(w, s[i], d[i]);
    hide World.Inv, LruHeld, MirrorHome, World.Mappers, World.EntryOk;
    SlotsFlags(w, s, d, i, m);
    FlagSlots(w, place, s, d, i, m);
    FlagMirror(w, place, s, d, i, m);
    hide Slots;
  }

  lemma FlagSlots(w: World, place: Option<Place>, s: seq<Mpfn>, d: seq<Mpfn>, i: nat, m: Mpfn)
    requires SlotsMoved(w, place, s, d, i) && i < |s| && m == s[i].(migrate := false)
    ensures SlotsMoved(w, place, s[i := m], d, i + 1)
  {
    forall j | 0 <= j < |s|
      ensures if j < i + 1 then SlotMoved(w, place, j, s[i := m][j], d[j]) else SlotReady(w, s[i := m][j], d[j])
    {
      assert if j < i then SlotMoved(w, place, j, s[j], d[j]) else SlotReady(w, s[j], d[j]);
    }
  }

  lemma FlagMirror(w: World, place: Option<Place>, s: seq<Mpfn>, d: seq<Mpfn>, i: nat, m: Mpfn)
    requires MirrorMid(w, place, s, d, i) && i < |s|
    ensures MirrorMid(w, place, s[i := m], d, i + 1)
  {
    forall a | a in w.mirror ensures w.EntryOk(a, w.mirror[a]) || AtInserted(place, s[i := m], d, i + 1, a) {
      assert w.EntryOk(a, w.mirror[a]) || AtInserted(place, s, d, i, a);
    }
  }

  lemma MoveStep(w: World, mem: Mem, place: Option<Place>, s: seq<Mpfn>, d: seq<Mpfn>, i: nat, p: Pid, q: Pid)
    requires PagesState(w, mem, place, s, d, i) && i < |s| && s[i].page == Some(p) && d[i].page == Some(q)
    ensures p in w.pages && q in w.pages && p != q
    ensures PagesState(MoveMapping(w, p, q), mem, place, s, d, i + 1)
  {
    SlotHolds(w, s, d, i);
    assert SlotReady(w, s[i], d[i]);
    var w' := MoveMapping(w, p, q);
    hide World.Inv, World.Mappers, MoveMapping;
    MoveMappingKeeps(w, mem, p, q);
    MoveSoft(w, p, q);
    MoveSlots(w, w', place, s, d, i, p, q);
    hide Slots, LruHeld, MirrorHome, SlotPtes, SlotsMoved, SoftWorld;
    SoftKeepsHeld(w, w', mem, s, d, BaseOf(place));
    SoftKeepsMirror(w, w', place, s, d, i);
    MirrorMidGrow(w', place, s, d, i);
  }

  lemma MirrorMidGrow(w: World, place: Option<Place>, s: seq<Mpfn>, d: seq<Mpfn>, k: nat)
    requires MirrorMid(w, place, s, d, k)
    ensures MirrorMid(w, place, s, d, k + 1)
  {
    forall a | a in w.mirror ensures w.EntryOk(a, w.mirror[a]) || AtInserted(place, s, d, k + 1, a) {
      assert w.EntryOk(a, w.mirror[a]) || AtInserted(place, s, d, k, a);
    }
  }

  lemma MoveSlots(w: World, w': World, place: Option<Place>, s: seq<Mpfn>, d: seq<Mpfn>, i: nat, p: Pid, q: Pid)
    requires Slots(w, s, d) && SlotsMoved(w, place, s, d, i) && i < |s| && s[i].page == Some(p) && d[i].page == Some(q)
    requires SoftWorld(w, w') && forall r | r in w.pages && r != p && r != q :: w'.pages[r] == w.pages[r]
    ensures SlotsMoved(w', place, s, d, i + 1)
  {
    forall j | 0 <= j < |s|
      ensures if j < i + 1 then SlotMoved(w', place, j, s[j], d[j]) else SlotReady(w', s[j], d[j])
    {
      SlotHolds(w, s, d, i);
      SlotHolds(w, s, d, j);
      assert if j < i then SlotMoved(w, place, j, s[j], d[j]) else SlotReady(w, s[j], d[j]);
      if j <= i {
        SoftKeepsMoved(w, w', place, j, s[j], d[j]);
      } else {
        SoftKeepsReady(w, w', s[j], d[j]);
      }
    }
  }

  // The method's turn, as the value of the state it leaves
  lemma PagesTurn(w: World, mem: Mem, place: Option<Place>, s: seq<Mpfn>, d: seq<Mpfn>, i: nat,
                  faultPage: Option<Pid>, fate: PageFate)
    requires PagesState(w, mem, place, s, d, i) && i < |s|
    requires place == None ==> s[i].page == None ==> d[i].page == None
    ensures s[i].page.Some? ==> s[i].page.value in w.pages
    ensures d[i].page.Some? ==> d[i].page.value in w.pages
    ensures var m := SlotAfter(w, place, i, s[i], d[i], faultPage, fate);
            PagesState(PagesOne(w, place, i, s[i], d[i], faultPage, fate), mem, place, s[i := m], d, i + 1)
  {
    hide Held, MirrorHome, MirrorMid, SlotsMoved, Insert, MoveMapping;
    PagesHolds(w, mem, place, s, d, i);
    var m := SlotAfter(w, place, i, s[i], d[i], faultPage, fate);
    if s[i].page == None && d[i].page.Some? && m == MIGRATE_ONLY && s[i].migrate {
      InsertStep(w, mem, place.value, s, d, i, d[i].page.value);
    } else if s[i].page.Some? && d[i].page.Some? && MoveAllowed(w, s[i].page.value, d[i].page.value, faultPage, fate) {
      MoveStep(w, mem, place, s, d, i, s[i].page.value, d[i].page.value);
      assert s[i := m] == s;
    } else {
      FlagStep(w, mem, place, s, d, i, m);
    }
  }

  lemma PagesHolds(w: World, mem: Mem, place: Option<Place>, s: seq<Mpfn>, d: seq<Mpfn>, i: nat)
    requires PagesState(w, mem, place, s, d, i) && i < |s|
    ensures |s| == |d|
    ensures s[i].page.Some? ==> HoldsLock(w, s[i].page.value, SrcSlot(i)) && s[i].migrate
    ensures d[i].page.Some? ==> HoldsLock(w, d[i].page.value, DstSlot(i)) && s[i].migrate
  {
    SlotHolds(w, s, d, i);
    assert SlotReady(w, s[i], d[i]);
  }

  // ----- what the whole stage did, in terms of the state before it

  datatype Fates = Fates(faultPage: Option<Pid>, fate: nat -> PageFate)

  // The entry at an address after the first k slots
  function PteAfter(w0: World, place: Option<Place>, s0: seq<Mpfn>, d: seq<Mpfn>, f: Fates, k: nat, a: Addr): Pte
    requires |s0| == |d|
  {
    if place.Some? && place.value.start <= a < place.value.start + k && a - place.value.start < |s0| then
      var i := a - place.value.start;
      if Inserts(w0, place, i, s0[i], d[i], f) then w0.MapTo(d[i].page.value, place.value.vma.writable) else w0.At(a)
    else w0.At(a)
  }

  predicate Inserts(w0: World, place: Option<Place>, i: nat, m: Mpfn, n: Mpfn, f: Fates) {
    && place.Some? && m.page == None && m.migrate && n.page.Some?
    && InsertAllowed(w0, place.value.start + i, place.value.vma, f.fate(i))
  }

  predicate SamePage(w: World, w': World, p: Option<Pid>) {
    p.Some? ==> p.value in w.pages && p.value in w'.pages && w'.pages[p.value] == w.pages[p.value]
  }

  predicate RelSlot(w0: World, w: World, place: Option<Place>, i: nat, m0: Mpfn, m: Mpfn, n: Mpfn, f: Fates,
                    done: bool) {
    if done then m == SlotAfter(w0, place, i, m0, n, f.faultPage, f.fate(i)) && PagesAfter(w0, w, place, i, m0, n, f)
    else m == m0 && SamePage(w0, w, m.page) && SamePage(w0, w, n.page)
  }

  // The struct pages of a slot afterwards: page->mapping goes from the old page to the new one, a
  // page that is mapped at an empty address becomes anonymous, and nothing else changes.
  predicate PagesAfter(w0: World, w: World, place: Option<Place>, i: nat, m: Mpfn, n: Mpfn, f: Fates) {
    match (m.page, n.page)
    case (Some(p), Some(q)) =>
      && p in w0.pages && q in w0.pages && p in w.pages && q in w.pages
      && if MoveAllowed(w0, p, q, f.faultPage, f.fate(i))
         then w.pages[p] == w0.pages[p].SetMapping(NoMapping) && w.pages[q] == w0.pages[q].SetMapping(w0.pages[p].mapping)
         else w.pages[p] == w0.pages[p] && w.pages[q] == w0.pages[q]
    case (None, Some(q)) =>
      && q in w0.pages && q in w.pages
      && if Inserts(w0, place, i, m, n, f) then w.pages[q] == AnonPage(w0.pages[q]) else w.pages[q] == w0.pages[q]
    case _ => SamePage(w0, w, m.page)
  }

  function AnonPage(g: Page): Page {
    g.(refs := g.refs + 1, mapping := Anon, lru := if g.kind.Device? then g.lru else OnLru)
  }

  ghost predicate PagesRel(w0: World, w: World, place: Option<Place>, s0: seq<Mpfn>, s: seq<Mpfn>, d: seq<Mpfn>,
                           f: Fates, k: nat) {
    && |s0| == |s| == |d| && w.mirror == w0.mirror && SameStorage(w0.pages, w.pages) && PinsKept(w0, w)
    && (forall j {:trigger s[j]} | 0 <= j < |s| :: RelSlot(w0, w, place, j, s0[j], s[j], d[j], f, j < k))
    && (forall a: Addr :: w.At(a) == PteAfter(w0, place, s0, d, f, k, a))
    && PinsExact(w0, w) && SameBackers(w0.pages, w.pages) && OthersSame(w0, w)
  }

  // Pages that no slot has locked are left alone.
  ghost predicate OthersSame(w: World, w': World) {
    forall p | p in w.pages && !w.pages[p].lock.Ours() :: p in w'.pages && w'.pages[p] == w.pages[p]
  }

  lemma RelTurn(w0: World, w: World, mem: Mem, place: Option<Place>, s0: seq<Mpfn>, s: seq<Mpfn>, d: seq<Mpfn>,
                f: Fates, i: nat)
    requires PagesRel(w0, w, place, s0, s, d, f, i) && i < |s| && PagesState(w, mem, place, s, d, i)
    ensures s[i].page.Some? ==> s[i].page.value in w.pages
    ensures d[i].page.Some? ==> d[i].page.value in w.pages
    ensures PagesRel(w0, PagesOne(w, place, i, s[i], d[i], f.faultPage, f.fate(i)), place, s0,
                     s[i := SlotAfter(w, place, i, s[i], d[i], f.faultPage, f.fate(i))], d, f, i + 1)
  {
    PagesHolds(w, mem, place, s, d, i);
    hide PinsExact, SameBackers, OthersSame, PagesAfter, SlotAfter, PinsKept, SameStorage, PteAfter, PagesState,
         PagesOne;
    RelSame(w0, w, place, s0, s, d, f, i);
    var w' := PagesOne(w, place, i, s[i], d[i], f.faultPage, f.fate(i));
    var m := SlotAfter(w, place, i, s[i], d[i], f.faultPage, f.fate(i));
    forall j | 0 <= j < |s| ensures RelSlot(w0, w', place, j, s0[j], s[i := m][j], d[j], f, j < i + 1) {
      assert RelSlot(w0, w, place, j, s0[j], s[j], d[j], f, j < i);
      if i < j { RelOther(w0, w, mem, place, s0, s, d, f, i, j); }
      if j < i { RelBefore(w0, w, mem, place, s0, s, d, f, i, j); }
      if j == i { RelOwn(w0, w, mem, place, s0, s, d, f, i); }
    }
    RelRest(w0, w, place, s0, s, d, f, i);
    RelPages(w0, w, mem, place, s0, s, d, f, i);
  }

  // The pages of slot i after its turn
  lemma RelOwn(w0: World, w: World, mem: Mem, place: Option<Place>, s0: seq<Mpfn>, s: seq<Mpfn>, d: seq<Mpfn>,
               f: Fates, i: nat)
    requires PagesRel(w0, w, place, s0, s, d, f, i) && i < |s| && PagesState(w, mem, place, s, d, i)
    requires s[i].page.Some? ==> s[i].page.value in w.pages
    requires d[i].page.Some? ==> d[i].page.value in w.pages
    ensures PagesAfter(w0, PagesOne(w, place, i, s[i], d[i], f.faultPage, f.fate(i)), place, i, s0[i], d[i], f)
  {
    hide PagesRel, PagesState, PagesOne, PagesAfter;
    RelHere(w0, w, place, s0, s, d, f, i);
    SlotApart(w, mem, place, s, d, i);
    OwnPages(w0, w, place, i, s[i], d[i], f);
  }

  lemma RelHere(w0: World, w: World, place: Option<Place>, s0: seq<Mpfn>, s: seq<Mpfn>, d: seq<Mpfn>, f: Fates, i: nat)
    requires PagesRel(w0, w, place, s0, s, d, f, i) && i < |s|
    ensures |s0| == |s| == |d| && s[i] == s0[i] && SamePage(w0, w, s[i].page) && SamePage(w0, w, d[i].page)
    ensures place.Some? ==> w.At(place.value.start + i) == w0.At(place.value.start + i)
  {
    hide PinsExact, SameBackers, OthersSame, PinsKept, SameStorage, PagesAfter;
    assert RelSlot(w0, w, place, i, s0[i], s[i], d[i], f, false);
    if place.Some? {
      assert w.At(place.value.start + i) == PteAfter(w0, place, s0, d, f, i, place.value.start + i);
    }
  }

  lemma OwnPages(w0: World, w: World, place: Option<Place>, i: nat, m: Mpfn, n: Mpfn, f: Fates)
    requires SamePage(w0, w, m.page) && SamePage(w0, w, n.page) && (m.page.Some? && n.page.Some? ==> m.page != n.page)
    requires place.Some? ==> w.At(place.value.start + i) == w0.At(place.value.start + i)
    ensures PagesAfter(w0, PagesOne(w, place, i, m, n, f.faultPage, f.fate(i)), place, i, m, n, f)
  {}

  lemma SlotApart(w: World, mem: Mem, place: Option<Place>, s: seq<Mpfn>, d: seq<Mpfn>, i: nat)
    requires PagesState(w, mem, place, s, d, i) && i < |s|
    ensures |s| == |d| && (s[i].page.Some? && d[i].page.Some? ==> s[i].page != d[i].page)
  {
    SlotHolds(w, s, d, i);
  }

  // ... stay as they are
  lemma RelBefore(w0: World, w: World, mem: Mem, place: Option<Place>, s0: seq<Mpfn>, s: seq<Mpfn>, d: seq<Mpfn>,
                  f: Fates, i: nat, j: nat)
    requires PagesRel(w0, w, place, s0, s, d, f, i) && j < i < |s| && PagesState(w, mem, place, s, d, i)
    requires s[i].page.Some? ==> s[i].page.value in w.pages
    requires d[i].page.Some? ==> d[i].page.value in w.pages
    ensures PagesAfter(w0, PagesOne(w, place, i, s[i], d[i], f.faultPage, f.fate(i)), place, j, s0[j], d[j], f)
  {
    hide PagesState, PagesRel, MoveAllowed, Inserts, InsertAllowed, PagesOne;
    RelDone(w0, w, place, s0, s, d, f, i, j);
    SlotsApart(w, mem, place, s, d, i, i, j);
    OneOthers(w, place, i, s[i], d[i], f);
  }

  lemma RelDone(w0: World, w: World, place: Option<Place>, s0: seq<Mpfn>, s: seq<Mpfn>, d: seq<Mpfn>, f: Fates,
                k: nat, j: nat)
    requires PagesRel(w0, w, place, s0, s, d, f, k) && j < k && j < |s|
    ensures |s0| == |s| == |d| && s[j].page == s0[j].page && PagesAfter(w0, w, place, j, s0[j], d[j], f)
    ensures s[j] == SlotAfter(w0, place, j, s0[j], d[j], f.faultPage, f.fate(j))
  {
    hide PinsExact, SameBackers, OthersSame, PinsKept, SameStorage, PagesAfter, PteAfter;
    assert RelSlot(w0, w, place, j, s0[j], s[j], d[j], f, true);
  }

  lemma SlotsApart(w: World, mem: Mem, place: Option<Place>, s: seq<Mpfn>, d: seq<Mpfn>, k: nat, i: nat, j: nat)
    requires PagesState(w, mem, place, s, d, k) && i < |s| && j < |s| && i != j
    ensures |s| == |d|
    ensures s[j].page.Some? ==> s[j].page != s[i].page && s[j].page != d[i].page
    ensures d[j].page.Some? ==> d[j].page != s[i].page && d[j].page != d[i].page
  {
    SlotHolds(w, s, d, i);
    SlotHolds(w, s, d, j);
  }

  // One turn changes the pages of its slot only.
  lemma OneOthers(w: World, place: Option<Place>, i: nat, m: Mpfn, n: Mpfn, f: Fates)
    requires m.page.Some? ==> m.page.value in w.pages
    requires n.page.Some? ==> n.page.value in w.pages
    ensures var w' := PagesOne(w, place, i, m, n, f.faultPage, f.fate(i));
            && w'.pages.Keys == w.pages.Keys
            && forall p | p in w.pages && !m.On(p) && !n.On(p) :: w'.pages[p] == w.pages[p]
  {}

  lemma RelPages(w0: World, w: World, mem: Mem, place: Option<Place>, s0: seq<Mpfn>, s: seq<Mpfn>, d: seq<Mpfn>,
                 f: Fates, i: nat)
    requires PagesRel(w0, w, place, s0, s, d, f, i) && i < |s| && PagesState(w, mem, place, s, d, i)
    requires s[i].page.Some? ==> s[i].page.value in w.pages
    requires d[i].page.Some? ==> d[i].page.value in w.pages
    ensures var w' := PagesOne(w, place, i, s[i], d[i], f.faultPage, f.fate(i));
            PinsExact(w0, w') && SameBackers(w0.pages, w'.pages) && OthersSame(w0, w')
  {
    hide SlotAfter, PagesAfter, PteAfter, PinsKept, SameStorage, PagesState, PagesOne, PinsExact, SameBackers;
    PagesHolds(w, mem, place, s, d, i);
    RelHere(w0, w, place, s0, s, d, f, i);
    OneOthers(w, place, i, s[i], d[i], f);
    StateInv(w, mem, place, s, d, i);
    SlotApart(w, mem, place, s, d, i);
    OnePins(w, mem, place, i, s[i], d[i], f);
    PinsExactTrans(w0, w, PagesOne(w, place, i, s[i], d[i], f.faultPage, f.fate(i)));
    BackersTrans(w0.pages, w.pages, PagesOne(w, place, i, s[i], d[i], f.faultPage, f.fate(i)).pages);
  }

  lemma StateInv(w: World, mem: Mem, place: Option<Place>, s: seq<Mpfn>, d: seq<Mpfn>, k: nat)
    requires PagesState(w, mem, place, s, d, k)
    ensures w.Inv(mem)
  {}

  lemma PageBalanced(w: World, mem: Mem, p: Pid)
    requires w.Inv(mem) && p in w.pages
    ensures w.BalancedAt(p)
  {}

  lemma OnePins(w: World, mem: Mem, place: Option<Place>, i: nat, m: Mpfn, n: Mpfn, f: Fates)
    requires w.Inv(mem) && (m.page.Some? && n.page.Some? ==> m.page != n.page)
    requires m.page.Some? ==> m.page.value in w.pages && w.pages[m.page.value].lock.Ours()
    requires n.page.Some? ==> n.page.value in w.pages && w.pages[n.page.value].lock.Ours()
    ensures var w' := PagesOne(w, place, i, m, n, f.faultPage, f.fate(i));
            PinsExact(w, w') && SameBackers(w.pages, w'.pages)
  {
    hide World.Inv, MoveAllowed, InsertAllowed, World.Mappers, PinsExact;
    var w' := PagesOne(w, place, i, m, n, f.faultPage, f.fate(i));
    if m.page.Some? { PageBalanced(w, mem, m.page.value); }
    if n.page.Some? { PageBalanced(w, mem, n.page.value); }
    forall p | p in w.pages ensures w'.pages[p].pins == w.pages[p].pins && w'.pages[p].backing == w.pages[p].backing
      && w'.pages[p].kind == w.pages[p].kind && (w'.pages[p].refs > 0 <==> w.pages[p].refs > 0) {}
    hide PagesOne;
    forall q ensures (LiveDevice(q, w'.pages) <==> LiveDevice(q, w.pages))
                     && (LiveDevice(q, w.pages) ==> w'.pages[q].backing == w.pages[q].backing) {}
    PinsOf(w, w');
  }

  // Slot i finds the state it would have found at the start.
  lemma RelSame(w0: World, w: World, place: Option<Place>, s0: seq<Mpfn>, s: seq<Mpfn>, d: seq<Mpfn>, f: Fates, i: nat)
    requires PagesRel(w0, w, place, s0, s, d, f, i) && i < |s|
    ensures s[i] == s0[i]
    ensures SlotAfter(w, place, i, s[i], d[i], f.faultPage, f.fate(i))
         == SlotAfter(w0, place, i, s0[i], d[i], f.faultPage, f.fate(i))
  {
    assert RelSlot(w0, w, place, i, s0[i], s[i], d[i], f, false);
    if place.Some? {
      assert w.At(place.value.start + i) == PteAfter(w0, place, s0, d, f, i, place.value.start + i);
    }
  }

  lemma RelOther(w0: World, w: World, mem: Mem, place: Option<Place>, s0: seq<Mpfn>, s: seq<Mpfn>, d: seq<Mpfn>,
                 f: Fates, i: nat, j: nat)
    requires PagesRel(w0, w, place, s0, s, d, f, i) && i < j < |s| && PagesState(w, mem, place, s, d, i)
    requires s[i].page.Some? ==> s[i].page.value in w.pages
    requires d[i].page.Some? ==> d[i].page.value in w.pages
    ensures var w' := PagesOne(w, place, i, s[i], d[i], f.faultPage, f.fate(i));
            SamePage(w0, w', s[j].page) && SamePage(w0, w', d[j].page)
  {
    hide PinsExact, SameBackers, OthersSame, PagesAfter, PteAfter, PinsKept, SameStorage;
    hide World.Inv, LruHeld, MirrorHome, MirrorMid, SlotPtes;
    assert RelSlot(w0, w, place, j, s0[j], s[j], d[j], f, false);
    SlotHolds(w, s, d, i);
    SlotHolds(w, s, d, j);
  }

  lemma RelRest(w0: World, w: World, place: Option<Place>, s0: seq<Mpfn>, s: seq<Mpfn>, d: seq<Mpfn>, f: Fates, i: nat)
    requires PagesRel(w0, w, place, s0, s, d, f, i) && i < |s|
    requires s[i].page.Some? ==> s[i].page.value in w.pages
    requires d[i].page.Some? ==> d[i].page.value in w.pages
    ensures var w' := PagesOne(w, place, i, s[i], d[i], f.faultPage, f.fate(i));
            && w'.mirror == w0.mirror && SameStorage(w0.pages, w'.pages) && PinsKept(w0, w')
            && forall a: Addr :: w'.At(a) == PteAfter(w0, place, s0, d, f, i + 1, a)
  {
    hide PinsExact, SameBackers, OthersSame, PagesAfter;
    RelStorage(w0, w, place, i, s[i], d[i], f);
    RelPins(w0, w, place, i, s[i], d[i], f);
    RelSame(w0, w, place, s0, s, d, f, i);
    var w' := PagesOne(w, place, i, s[i], d[i], f.faultPage, f.fate(i));
    hide SameStorage, PinsKept;
    forall a: Addr ensures w'.At(a) == PteAfter(w0, place, s0, d, f, i + 1, a) {
      assert w.At(a) == PteAfter(w0, place, s0, d, f, i, a);
      if d[i].page.Some? { StorageBits(w0.pages, w.pages, d[i].page.value); }
    }
  }

  lemma RelPins(w0: World, w: World, place: Option<Place>, i: nat, m: Mpfn, n: Mpfn, f: Fates)
    requires PinsKept(w0, w)
    requires m.page.Some? ==> m.page.value in w.pages
    requires n.page.Some? ==> n.page.value in w.pages
    ensures PinsKept(w0, PagesOne(w, place, i, m, n, f.faultPage, f.fate(i)))
  {
    var w' := PagesOne(w, place, i, m, n, f.faultPage, f.fate(i));
    forall p | p in w.pages ensures PinKept(w, w', p) {}
    PinsTrans(w0, w, w');
  }

  lemma StorageBits(pages: map<Pid, Page>, pages': map<Pid, Page>, p: Pid)
    requires SameStorage(pages, pages') && p in pages'
    ensures p in pages && SameBits(pages[p], pages'[p])
  {}

  lemma RelStorage(w0: World, w: World, place: Option<Place>, i: nat, m: Mpfn, n: Mpfn, f: Fates)
    requires SameStorage(w0.pages, w.pages) && w.mirror == w0.mirror
    requires m.page.Some? ==> m.page.value in w.pages
    requires n.page.Some? ==> n.page.value in w.pages
    ensures var w' := PagesOne(w, place, i, m, n, f.faultPage, f.fate(i));
            SameStorage(w0.pages, w'.pages) && w'.mirror == w0.mirror
  {
    hide PinsExact, SameBackers, OthersSame, PagesAfter;
    var w' := PagesOne(w, place, i, m, n, f.faultPage, f.fate(i));
    forall p | p in w0.pages ensures SameBits(w0.pages[p], w'.pages[p]) {
      assert SameBits(w0.pages[p], w.pages[p]);
    }
  }

  lemma RelStart(w: World, place: Option<Place>, s: seq<Mpfn>, d: seq<Mpfn>, f: Fates)
    requires Slots(w, s, d)
    ensures PagesRel(w, w, place, s, s, d, f, 0)
  {
    forall j | 0 <= j < |s| ensures RelSlot(w, w, place, j, s[j], s[j], d[j], f, false) {
      SlotHolds(w, s, d, j);
    }
    hide Slots;
  }

  // ----- the loop

  ghost predicate PagesBoth(w0: World, w: World, mem: Mem, place: Option<Place>, s0: seq<Mpfn>, s: seq<Mpfn>,
                            d: seq<Mpfn>,
                            f: Fates, k: nat) {
    PagesState(w, mem, place, s, d, k) && PagesRel(w0, w, place, s0, s, d, f, k)
  }

  lemma BothTurn(w0: World, w: World, mem: Mem, place: Option<Place>, s0: seq<Mpfn>, s: seq<Mpfn>, d: seq<Mpfn>,
                 f: Fates, i: nat)
    requires PagesBoth(w0, w, mem, place, s0, s, d, f, i) && i < |s|
    requires place == None ==> s[i].page == None ==> d[i].page == None
    ensures |d| == |s|
    ensures s[i].page.Some? ==> s[i].page.value in w.pages
    ensures d[i].page.Some? ==> d[i].page.value in w.pages
    ensures PagesBoth(w0, PagesOne(w, place, i, s[i], d[i], f.faultPage, f.fate(i)), mem, place, s0,
                      s[i := SlotAfter(w, place, i, s[i], d[i], f.faultPage, f.fate(i))], d, f, i + 1)
  {
    hide PagesState, PagesRel, PagesOne, SlotAfter;
    PagesHolds(w, mem, place, s, d, i);
    PagesTurn(w, mem, place, s, d, i, f.faultPage, f.fate(i));
    RelTurn(w0, w, mem, place, s0, s, d, f, i);
  }

  // One turn of the loop, in the order of the source
  method PagesSlot(m: Machine, page: Mpfn, newpage: Mpfn, i: nat, place: Option<Place>, f: Fates) returns (after: Mpfn)
    requires page.page.Some? ==> page.page.value in m.w.pages
    requires newpage.page.Some? ==> newpage.page.value in m.w.pages
    requires place == None ==> page.page == None ==> newpage.page == None
    modifies m`w
    ensures m.w == PagesOne(old(m.w), place, i, page, newpage, f.faultPage, f.fate(i))
    ensures after == SlotAfter(old(m.w), place, i, page, newpage, f.faultPage, f.fate(i))
  {
    if newpage.page == None {
      return page.(migrate := false);
    }
    var q := newpage.page.value;
    if page.page == None {
      if !page.migrate {
        return page;
      }
      // VM_BUG_ON(!migrate)
      assert place.Some?;
      after := InsertPage(m, place.value, place.value.start + i, q, page, f.fate(i));
      return;
    }
    var p := page.page.value;
    if m.w.pages[q].kind.Device? && m.w.pages[p].mapping.File? {
      return page.(migrate := false);
    }
    var moved := f.fate(i).moves && m.w.pages[p].pins == if f.faultPage == Some(p) then 1 else 0;
    if moved {
      m.w := MoveMapping(m.w, p, q);
    }
    after := if moved then page else page.(migrate := false);
  }

  // migrate_vma_insert_page
  method InsertPage(m: Machine, place: Place, a: Addr, q: Pid, page: Mpfn, fate: PageFate) returns (after: Mpfn)
    requires q in m.w.pages
    modifies m`w
    ensures m.w == if InsertAllowed(old(m.w), a, place.vma, fate) then Insert(old(m.w), a, q, place.vma.writable) else old(m.w)
    ensures after == if InsertAllowed(old(m.w), a, place.vma, fate) then MIGRATE_ONLY else page.(migrate := false)
  {
    after := page.(migrate := false);
    if !place.vma.anonymous || !fate.inserts {
      return;
    }
    match m.w.At(a) {
      case NoPte =>
      case ZeroPte =>
      case _ => return;
    }
    ghost var w := m.w;
    var entry := m.w.MapTo(q, place.vma.writable);
    var g := m.w.pages[q];
    m.w := m.w.SetPage(q, g.(refs := g.refs + 1, mapping := Anon, lru := if g.kind.Device? then g.lru else OnLru));
    m.w := m.w.SetPte(a, entry);
    after := MIGRATE_ONLY;
  }

  method MigrateDevicePages(m: Machine, src: array<Mpfn>, dst: array<Mpfn>, npages: nat, place: Option<Place>, f: Fates)
    requires src != dst && npages <= src.Length && npages <= dst.Length
    requires PagesState(m.w, m.mem, place, src[..npages], dst[..npages], 0)
    requires place == None ==> NoOrphans(src[..npages], dst[..npages], 0)
    modifies m`w, src
    ensures PagesState(m.w, m.mem, place, src[..npages], dst[..npages], npages)
    ensures PagesRel(old(m.w), m.w, place, old(src[..npages]), src[..npages], dst[..npages], f, npages)
    ensures src[npages..] == old(src[npages..])
  {
    ghost var w0, s0, d := m.w, src[..npages], dst[..npages];
    hide PagesBoth, PagesState, PagesRel, NoOrphans;
    BothStart(w0, m.mem, place, s0, d, f);
    var i := 0;
    while i < npages
      invariant 0 <= i <= npages && dst[..npages] == d && src[npages..] == old(src[npages..])
      invariant PagesBoth(w0, m.w, m.mem, place, s0, src[..npages], d, f, i)
      invariant place == None ==> NoOrphans(src[..npages], d, i)
    {
      PagesStep(m, src, dst, npages, i, place, f, w0, s0);
      i := i + 1;
    }
    BothEnd(w0, m.w, m.mem, place, s0, src[..npages], d, f, npages);
  }

  // Without a vma there is no new page for an empty slot: VM_BUG_ON(!migrate) cannot fire.
  ghost predicate NoOrphans(s: seq<Mpfn>, d: seq<Mpfn>, k: nat) {
    |s| == |d| && forall i | k <= i < |s| :: s[i].page == None ==> d[i].page == None
  }

  lemma BothStart(w: World, mem: Mem, place: Option<Place>, s: seq<Mpfn>, d: seq<Mpfn>, f: Fates)
    requires PagesState(w, mem, place, s, d, 0)
    ensures PagesBoth(w, w, mem, place, s, s, d, f, 0)
  {
    RelStart(w, place, s, d, f);
  }

  lemma BothEnd(w0: World, w: World, mem: Mem, place: Option<Place>, s0: seq<Mpfn>, s: seq<Mpfn>, d: seq<Mpfn>,
                f: Fates, k: nat)
    requires PagesBoth(w0, w, mem, place, s0, s, d, f, k)
    ensures PagesState(w, mem, place, s, d, k) && PagesRel(w0, w, place, s0, s, d, f, k)
  {}

  method PagesStep(m: Machine, src: array<Mpfn>, dst: array<Mpfn>, npages: nat, i: nat, place: Option<Place>, f: Fates,
                   ghost w0: World, ghost s0: seq<Mpfn>)
    requires src != dst && i < npages <= src.Length && npages <= dst.Length
    requires PagesBoth(w0, m.w, m.mem, place, s0, src[..npages], dst[..npages], f, i)
    requires place == None ==> NoOrphans(src[..npages], dst[..npages], i)
    modifies m`w, src
    ensures PagesBoth(w0, m.w, m.mem, place, s0, src[..npages], dst[..npages], f, i + 1)
    ensures place == None ==> NoOrphans(src[..npages], dst[..npages], i + 1)
    ensures src[npages..] == old(src[npages..])
  {
    hide PagesBoth, PagesOne, SlotAfter;
    ghost var s := src[..npages];
    BothTurn(w0, m.w, m.mem, place, s0, s, dst[..npages], f, i);
    var after := PagesSlot(m, src[i], dst[i], i, place, f);
    src[i] := after;
    assert src[..npages] == s[i := after];
  }
}