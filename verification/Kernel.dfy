/**
  The part of the kernel that page migration acts on: page table entries, struct pages with
  their reference counts, locks and LRU state, and the device mirror's page table.

  A page lock remembers which migration slot took it, so that the arrays of a migration and the
  page locks can be checked against each other.  `pins` counts references that belong to
  somebody else: get_user_pages users, a faulting thread, or the device page a backing page
  belongs to.
*/
module Kernel {

  type Pid = nat       // a page frame
  type Addr = nat      // a virtual page; also stands for pages of other address spaces
  type PageData = nat  // the contents of one page, read as one number

  const ZERO_DATA: PageData := 0

  datatype Option<+T> = None | Some(value: T)

  datatype Pte =
    | NoPte
    | ZeroPte                               // read-only mapping of the shared zero page
    | Present(page: Pid, write: bool)
    | DevicePrivate(page: Pid, write: bool) // device private swap entry
    | Migration(page: Pid, write: bool)     // migration swap entry
    | OtherPte(content: PageData)           // swapped out, or special: never collected
  {
    predicate Refers() {
      Present? || DevicePrivate? || Migration?
    }

    predicate Maps(p: Pid) {
      (Present? || DevicePrivate?) && page == p
    }

    predicate Migrates(p: Pid) {
      Migration? && page == p
    }
  }

  datatype Holder = Unlocked | Theirs | SrcSlot(i: nat) | DstSlot(i: nat) {
    predicate Ours() {
      SrcSlot? || DstSlot?
    }
  }

  datatype Lru = OffLru | OnLru | Isolated

  datatype Mapping = NoMapping | Anon | File(hasPrivate: bool)

  datatype Kind = System | Device(owner: nat)

  datatype Page = Page(kind: Kind, refs: nat, pins: nat, lock: Holder, lru: Lru,
                       mapping: Mapping, compound: bool, data: PageData, backing: Pid)
  {
    // References held by page->mapping: the page cache and private buffers
    function CacheRefs(): nat {
      match mapping
      case File(hasPrivate) => if hasPrivate then 2 else 1
      case _ => 0
    }

    function HeldRefs(): nat {
      if lock.Ours() then 1 else 0
    }

    // page->mapping is set or cleared together with the references it holds
    function SetMapping(m: Mapping): Page {
      var g := this.(mapping := m);
      var bare := if CacheRefs() <= refs then refs - CacheRefs() else 0;
      g.(refs := bare + g.CacheRefs())
    }

    // One reference less, and unlocked; a page that is freed leaves the LRU
    function Dropped(): Page
      requires refs > 0
    {
      this.(refs := refs - 1, lock := Unlocked, lru := if refs == 1 then OffLru else lru)
    }
  }

  // What the mirror page table stores: a frame the device may touch directly, with a tag
  datatype Frame = ZeroFrame | PageFrame(pid: Pid)

  datatype Tag = Untagged | AtomicTag | WriteTag

  datatype Entry = Entry(frame: Frame, tag: Tag)

  datatype World = World(pt: map<Addr, Pte>, pages: map<Pid, Page>, mirror: map<Addr, Entry>) {

    function At(a: Addr): Pte {
      if a in pt then pt[a] else NoPte
    }

    function Mappers(p: Pid): set<Addr> {
      set a | a in pt && pt[a].Maps(p)
    }

    function MigAddrs(p: Pid): set<Addr> {
      set a | a in pt && pt[a].Migrates(p)
    }

    predicate Live(p: Pid) {
      p in pages && pages[p].refs > 0
    }

    predicate Free(p: Pid) {
      p in pages && pages[p].refs == 0
    }

    // BACKING_PAGE: where the contents of a page are stored
    function BackingOf(p: Pid): Pid
      requires p in pages
    {
      if pages[p].kind.Device? then pages[p].backing else p
    }

    function Data(p: Pid): PageData {
      if p in pages && BackingOf(p) in pages then pages[BackingOf(p)].data else ZERO_DATA
    }

    // What the process reads at an address; a device or migration entry reads as its page
    function Read(a: Addr): PageData {
      match At(a)
      case NoPte => ZERO_DATA
      case ZeroPte => ZERO_DATA
      case Present(p, _) => Data(p)
      case DevicePrivate(p, _) => Data(p)
      case Migration(p, _) => Data(p)
      case OtherPte(c) => c
    }

    // The entry that maps page q with the given permission
    function MapTo(q: Pid, write: bool): Pte {
      if q in pages && pages[q].kind.Device? then DevicePrivate(q, write) else Present(q, write)
    }

    // ----- primitive kernel operations

    function SetPage(p: Pid, g: Page): World {
      this.(pages := pages[p := g])
    }

    function SetPte(a: Addr, e: Pte): World {
      this.(pt := pt[a := e])
    }

    function SetLock(p: Pid, h: Holder): World
      requires p in pages
    {
      SetPage(p, pages[p].(lock := h))
    }

    function SetLru(p: Pid, l: Lru): World
      requires p in pages
    {
      SetPage(p, pages[p].(lru := l))
    }

    function GetPage(p: Pid): World
      requires p in pages
    {
      SetPage(p, pages[p].(refs := pages[p].refs + 1))
    }

    // put_page: the last reference frees the page, and a device page frees its backing page.
    // A page must be unlocked before its last reference goes.
    function PutPage(p: Pid): World
      requires Live(p)
      requires pages[p].refs == 1 ==> !pages[p].lock.Ours()
    {
      var g := pages[p];
      if g.refs > 1 then SetPage(p, g.(refs := g.refs - 1))
      else
        var w := SetPage(p, g.(refs := 0, lru := OffLru));
        if g.kind.Device? && g.backing in pages && g.backing != p then
          w.SetPage(g.backing, pages[g.backing].(refs := 0, pins := 0))
        else w
    }

    // try_to_migrate: mappings outside `keep` become migration entries; mirrors are notified of each
    function TryToMigrate(p: Pid, keep: set<Addr>): World
      requires p in pages
    {
      var gone := Mappers(p) - keep;
      World(map a | a in pt :: if a in gone then Migration(p, pt[a].write) else pt[a],
            pages[p := pages[p].(refs := if |gone| <= pages[p].refs then pages[p].refs - |gone| else 0)],
            mirror - Notified(Mappers(p)))
    }

    // remove_migration_ptes: every migration entry of p maps q again
    function RemoveMigrationPtes(p: Pid, q: Pid): World
      requires q in pages
    {
      World(map a | a in pt :: if pt[a].Migrates(p) then MapTo(q, pt[a].write) else pt[a],
            pages[q := pages[q].(refs := pages[q].refs + |MigAddrs(p)|)],
            mirror)
    }

    function MirrorStore(a: Addr, e: Entry): World {
      this.(mirror := mirror[a := e])
    }

    function MirrorErase(a: Addr): World {
      this.(mirror := mirror - {a})
    }

    // ----- what always holds

    // Every reference is accounted for
    ghost predicate Balanced() {
      forall p | p in pages :: BalancedAt(p)
    }

    predicate BalancedAt(p: Pid)
      requires p in pages
    {
      pages[p].refs == |Mappers(p)| + pages[p].pins + pages[p].CacheRefs() + pages[p].HeldRefs()
    }

    ghost predicate Flat(mem: map<Addr, PageData>) {
      forall a: Addr :: Read(a) == MemAt(mem, a)
    }

    ghost predicate Inv(mem: map<Addr, PageData>) {
      Kinds(pt, pages) && Balanced() && Backed(pages) && Exclusive(pt) && Flat(mem)
    }

    // ----- mirror coherence

    predicate EntryOk(a: Addr, e: Entry) {
      match At(a)
      case ZeroPte => e.frame == ZeroFrame && e.tag != WriteTag
      case Present(p, write) => FrameOk(p, write, e)
      case DevicePrivate(p, write) => FrameOk(p, write, e)
      case Migration(p, write) => FrameOk(p, write, e)
      case _ => false
    }

    predicate FrameOk(p: Pid, write: bool, e: Entry) {
      p in pages && e.frame == PageFrame(BackingOf(p)) && (e.tag == WriteTag ==> write)
    }

    ghost predicate MirrorOk() {
      forall a | a in mirror :: EntryOk(a, mirror[a])
    }
  }

  ghost predicate Kinds(pt: map<Addr, Pte>, pages: map<Pid, Page>) {
    forall a | a in pt :: PteOk(pt[a], pages)
  }

  predicate PteOk(e: Pte, pages: map<Pid, Page>) {
    match e
    case Present(p, _) => p in pages && pages[p].kind.System?
    case DevicePrivate(p, _) => p in pages && pages[p].kind.Device?
    case Migration(p, _) => p in pages && pages[p].lock.SrcSlot?
    case _ => true
  }

  predicate LiveDevice(p: Pid, pages: map<Pid, Page>) {
    p in pages && pages[p].refs > 0 && pages[p].kind.Device?
  }

  // A live device page owns a backing page of its own
  ghost predicate Backed(pages: map<Pid, Page>) {
    && (forall p | LiveDevice(p, pages) :: BackingOk(p, pages))
    && (forall p, q | LiveDevice(p, pages) && LiveDevice(q, pages) && p != q :: pages[p].backing != pages[q].backing)
  }

  predicate BackingOk(p: Pid, pages: map<Pid, Page>)
    requires p in pages
  {
    var b := pages[p].backing;
    b in pages && pages[b].kind.System? && pages[b].refs == 1 && pages[b].pins == 1
  }

  // A writable mapping is the only mapping of its page (private memory, copy on write)
  ghost predicate Exclusive(pt: map<Addr, Pte>) {
    forall a, b | a in pt && b in pt && a != b && pt[a].Refers() && pt[b].Refers() && pt[a].page == pt[b].page
      :: !pt[a].write
  }

  // dmirror_do_update for each of these pages: the last pfn is part of the range, so that the entry
  // of the page after it goes as well
  function Notified(pages: set<Addr>): set<Addr> {
    pages + set a | a in pages :: a + 1
  }

  // The abstract memory: a map with zero pages everywhere else
  function MemAt(mem: map<Addr, PageData>, a: Addr): PageData {
    if a in mem then mem[a] else ZERO_DATA
  }

  // One entry of the src or dst array: MIGRATE_PFN_VALID is page.Some?
  datatype Mpfn = Mpfn(page: Option<Pid>, migrate: bool, write: bool) {
    predicate On(p: Pid) {
      page == Some(p)
    }
  }

  const EMPTY := Mpfn(None, false, false)

  // The arrays say exactly which locks the migration holds.
  ghost predicate Slots(w: World, s: seq<Mpfn>, d: seq<Mpfn>) {
    && |s| == |d|
    && (forall i {:trigger s[i]} | 0 <= i < |s| && s[i].page.Some? :: HoldsLock(w, s[i].page.value, SrcSlot(i)))
    && (forall i {:trigger d[i]} | 0 <= i < |d| && d[i].page.Some? :: HoldsLock(w, d[i].page.value, DstSlot(i)))
    && (forall p | p in w.pages && w.pages[p].lock.Ours() :: SlotOf(w.pages[p].lock, p, s, d))
  }

  predicate HoldsLock(w: World, p: Pid, h: Holder) {
    p in w.pages && w.pages[p].lock == h
  }

  predicate SlotOf(h: Holder, p: Pid, s: seq<Mpfn>, d: seq<Mpfn>) {
    match h
    case SrcSlot(i) => i < |s| && s[i].On(p)
    case DstSlot(i) => i < |d| && d[i].On(p)
    case _ => true
  }
}
