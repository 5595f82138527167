/**
  hmm.c: the device page allocator.  Free pages form a list that runs through the same field that,
  for a page in use, names its backing page.
*/
module Allocator {

  // page->zone_device_data: a pointer without a tag in the program
  datatype ZoneData = NoData | Link(page: Page) | Rpage(rpage: nat)

  class Chunk {
    const first: nat
    const count: nat
    var remove: bool

    constructor (first: nat, count: nat)
      ensures this.first == first && this.count == count && !remove
    {
      this.first := first;
      this.count := count;
      this.remove := false;
    }
  }

  class Page {
    const pfn: nat
    const chunk: Chunk
    var zoneDeviceData: ZoneData

    constructor (pfn: nat, chunk: Chunk)
      ensures this.pfn == pfn && this.chunk == chunk
    {
      this.pfn := pfn;
      this.chunk := chunk;
      this.zoneDeviceData := NoData;
    }
  }

  function Next(free: seq<Page>, i: nat): ZoneData {
    if i + 1 < |free| then Link(free[i + 1]) else NoData
  }

  ghost predicate Linked(free: seq<Page>)
    reads free
  {
    forall i | 0 <= i < |free| :: free[i].zoneDeviceData == Next(free, i)
  }

  ghost predicate Distinct(free: seq<Page>) {
    forall i, j | 0 <= i < j < |free| :: free[i] != free[j]
  }

  // The place after the last page of the chunk
  function Cut(free: seq<Page>, c: Chunk): (k: nat)
    ensures k <= |free| && (k > 0 ==> free[k - 1].chunk == c)
    ensures forall j | k <= j < |free| :: free[j].chunk != c
  {
    if free == [] then 0
    else if free[|free| - 1].chunk == c then |free|
    else Cut(free[..|free| - 1], c)
  }

  // What dmirror_remove_free_pages leaves, and what it takes off the list
  function After(free: seq<Page>, c: Chunk): seq<Page> {
    free[Cut(free, c)..]
  }

  function Dropped(free: seq<Page>, c: Chunk): set<Page> {
    set p | p in free[..Cut(free, c)]
  }

  datatype AddFate = NoMemory | NoRegion | NoGrow | NoMap | Added

  const RESERVE: nat := 16

  // A failed krealloc matters only if the chunk array is full.
  predicate CanAdd(fate: AddFate, chunks: nat, capacity: nat) {
    fate.Added? || (fate.NoGrow? && chunks < capacity)
  }

  // The last page of a new chunk, with the others behind it in falling order
  ghost predicate NewestOf(page: Page, rest: seq<Page>, first: nat, count: nat) {
    && page.pfn == first + count - 1 && page.chunk.first == first && page.chunk.count == count && |rest| == count - 1
    && forall i | 0 <= i < |rest| :: rest[i].pfn == first + count - 2 - i && rest[i].chunk == page.chunk
  }

  class Device {
    var freePages: Page?
    var calloc: nat
    var cfree: nat
    var chunks: seq<Chunk>
    var capacity: nat

    // The free list, the pages handed out, and the pages that a removal has lost
    ghost var Free: seq<Page>
    ghost var Used: set<Page>
    ghost var Lost: set<Page>
    // All pages and chunks ever added, and the chunks being removed
    ghost var Pages: set<Page>
    ghost var Known: set<Chunk>
    ghost var Dead: set<Chunk>
    // Frees that were not counted because the chunk was being removed
    ghost var uncounted: nat

    // The list is the finite sequence Free, without duplicates
    ghost predicate ListOk()
      reads this, Free
    {
      freePages == First(Free) && Linked(Free) && Distinct(Free)
    }

    ghost predicate BooksOk()
      reads this
    {
      Books(Free, Used, Lost, Known, Dead, chunks, calloc, cfree, uncounted) && |chunks| <= capacity
    }

    // Every page of every chunk is free, in use, or lost by a removal
    ghost predicate Partition()
      reads this
    {
      Parted(Pages, Free, Used, Lost) && Whole(Pages, Known)
    }

    // As if the page were at the head of the list, with the frees counted so far
    ghost predicate AtHead(page: Page, frees: nat)
      reads this
    {
      && page !in Free && |chunks| <= capacity
      && Books([page] + Free, Used, Lost, Known, Dead, chunks, calloc, frees, uncounted)
      && Parted(Pages, [page] + Free, Used, Lost) && Whole(Pages, Known)
    }

    ghost predicate Flags()
      reads this, Known
    {
      forall c | c in Known :: c.remove <==> c in Dead
    }

    ghost predicate Valid()
      reads this, Free, Used, Known
    {
      ListOk() && BooksOk() && Flags() && Backed(Used) && Partition()
    }

    constructor ()
      ensures Valid() && Free == [] && Used == {} && Lost == {} && Known == {} && uncounted == 0
    {
      freePages, calloc, cfree, chunks, capacity := null, 0, 0, [], 0;
      Free, Used, Lost, Pages, Known, Dead, uncounted := [], {}, {}, {}, {}, {}, 0;
    }

    // page->zone_device_data = free_pages; free_pages = page
    method Push(page: Page)
      requires ListOk() && page !in Free
      modifies `freePages, `Free, page`zoneDeviceData
      ensures ListOk() && Free == [page] + old(Free)
    {
      page.zoneDeviceData := if freePages == null then NoData else Link(freePages);
      freePages := page;
      Free := [page] + Free;
    }

    method Pop() returns (page: Page)
      requires ListOk() && Free != []
      modifies `freePages, `Free
      ensures ListOk() && page == old(Free)[0] && page !in Free && Free == old(Free)[1..]
    {
      page := freePages;
      assert page.zoneDeviceData == Next(Free, 0);
      freePages := Target(page.zoneDeviceData);
      Free := Free[1..];
    }

    // ----- dmirror_allocate_chunk

    // The chunk array grows; false stands for a failed krealloc
    method Grow(fails: bool) returns (ok: bool)
      requires |chunks| <= capacity
      modifies `capacity
      ensures ok <==> !(fails && |chunks| == old(capacity))
      ensures |chunks| <= capacity && (ok ==> |chunks| < capacity)
      ensures capacity == old(capacity) || capacity == old(capacity) + RESERVE
    {
      if |chunks| == capacity {
        if fails {
          return false;
        }
        capacity := capacity + RESERVE;
      }
      return true;
    }

    // The pages of a new chunk go in front of the list, the last one first.
    method AddPages(c: Chunk) returns (ghost added: seq<Page>)
      requires ListOk()
      modifies `freePages, `Free
      ensures ListOk() && Free == Reversed(added) + old(Free)
      ensures OfChunk(added, c) && forall p | p in added :: fresh(p)
    {
      hide Linked, Distinct, Reversed;
      added := [];
      ReversedNone();
      var pfn := c.first;
      while pfn < c.first + c.count
        invariant c.first <= pfn <= c.first + c.count && |added| == pfn - c.first
        invariant ListOk() && Free == Reversed(added) + old(Free)
        invariant forall i | 0 <= i < |added| :: fresh(added[i]) && added[i].pfn == c.first + i && added[i].chunk == c
      {
        var page := new Page(pfn, c);
        ReversedElements(added);
        assert page !in Free;
        Push(page);
        ReversedMore(added, page, old(Free));
        added := added + [page];
        pfn := pfn + 1;
      }
    }

    // The chunk and its pages are ready
    method AddChunk(first: nat, count: nat) returns (ghost c: Chunk, ghost added: seq<Page>)
      requires Valid() && |chunks| < capacity
      modifies `freePages, `Free, `chunks, `Known, `Pages
      ensures Valid() && fresh(c) && c.first == first && c.count == count && OfChunk(added, c)
      ensures Free == Reversed(added) + old(Free) && chunks == old(chunks) + [c] && Known == old(Known) + {c}
      ensures forall p | p in added :: fresh(p)
    {
      hide Linked, Distinct, Reversed, Books, Whole, Elements, Parted, OfChunk;
      var chunk := new Chunk(first, count);
      added := AddPages(chunk);
      ChunkOf(added, chunk);
      BooksAdd(old(Free), Used, Lost, Known, Dead, chunks, calloc, cfree, uncounted, chunk, added);
      chunks := chunks + [chunk];
      PagesAdd(Pages, Known, old(Free), Used, Lost, chunk, added);
      Known := Known + {chunk};
      Pages := Pages + Elements(added);
      c := chunk;
    }

    method AllocateChunk(first: nat, count: nat, fate: AddFate) returns (ok: bool, ghost c: Chunk?,
                         ghost added: seq<Page>)
      requires Valid() && count > 0
      modifies `freePages, `Free, `chunks, `capacity, `Known, `Pages
      ensures Valid() && (ok <==> CanAdd(fate, |old(chunks)|, old(capacity)))
      ensures !ok ==> Free == old(Free) && chunks == old(chunks) && Known == old(Known)
      ensures ok ==>
        && c != null && fresh(c) && c.first == first && c.count == count && OfChunk(added, c)
        && Free == Reversed(added) + old(Free) && chunks == old(chunks) + [c] && Known == old(Known) + {c}
        && forall p | p in added :: fresh(p)
    {
      hide Linked, Distinct, Reversed, Books, OfChunk;
      ok, c, added := false, null, [];
      if fate.NoMemory? || fate.NoRegion? {
        return;
      }
      var grown := Grow(fate.NoGrow?);
      if !grown || fate.NoMap? {
        return;
      }
      c, added := AddChunk(first, count);
      ok := true;
    }

    // ----- dmirror_devmem_alloc_page

    // A page from the list, or the first one of a new chunk; null if there is neither
    method TakePage(first: nat, count: nat, fate: AddFate) returns (page: Page?)
      requires Valid() && count > 0
      modifies `freePages, `Free, `chunks, `capacity, `Known, `Pages
      ensures Flags() && Backed(Used) && ListOk()
      ensures page == null ==> Valid() && Free == old(Free) && old(Free) == [] && chunks == old(chunks)
      ensures page != null ==>
        (page in old(Free) || fresh(page)) && AtHead(page, cfree)
      ensures old(Free) != [] ==> page == old(Free)[0] && Free == old(Free)[1..] && chunks == old(chunks)
      ensures page != null <==> old(Free) != [] || CanAdd(fate, |old(chunks)|, old(capacity))
      ensures old(Free) == [] && page != null ==> NewestOf(page, Free, first, count) && chunks == old(chunks) + [page.chunk]
    {
      hide Linked, Distinct, Reversed, Books, Whole, Elements, Parted;
      if freePages == null {
        ghost var added, c;
        var ok;
        ok, c, added := AllocateChunk(first, count, fate);
        if !ok {
          return null;
        }
        ReversedElements(added);
        NewestFirst(added, c);
      }
      ghost var free := Free;
      page := Pop();
      assert free == [page] + Free;
    }

    // Without a backing page there is no device page.
    method AllocPage(rpage: Option, first: nat, count: nat, fate: AddFate) returns (page: Page?)
      requires Valid() && count > 0
      modifies this, Free
      ensures Valid()
      ensures page == null ==> Free == old(Free) && Used == old(Used) && calloc == old(calloc) && chunks == old(chunks)
      ensures page != null ==>
        && (page in old(Free) || fresh(page)) && page !in old(Used) && page.chunk !in Dead
        && Used == old(Used) + {page} && calloc == old(calloc) + 1
        && rpage.Some? && page.zoneDeviceData == Rpage(rpage.value)
      ensures cfree == old(cfree) && Lost == old(Lost) && Dead == old(Dead) && uncounted == old(uncounted)
      ensures rpage.Some? && old(Free) != [] ==> page == old(Free)[0] && Free == old(Free)[1..]
      ensures page != null <==> rpage.Some? && (old(Free) != [] || CanAdd(fate, |old(chunks)|, old(capacity)))
      ensures page != null && old(Free) == [] ==> NewestOf(page, Free, first, count) && chunks == old(chunks) + [page.chunk]
    {
      hide Linked, Distinct, Books, Whole, Elements, Parted;
      if rpage.None? {
        return null;
      }
      page := TakePage(first, count, fate);
      if page != null {
        Use(page, rpage.value);
      }
    }

    method Use(page: Page, rpage: nat)
      requires ListOk() && Flags() && Backed(Used) && AtHead(page, cfree)
      modifies `calloc, `Used, page`zoneDeviceData
      ensures Valid() && page !in old(Used) && page.chunk !in Dead
      ensures Used == old(Used) + {page} && calloc == old(calloc) + 1 && page.zoneDeviceData == Rpage(rpage)
    {
      hide Linked, Distinct, Books, Whole, Elements, Parted;
      PartedUse(Pages, Free, Used, Lost, page);
      BooksUse(page, Free, Used, Lost, Known, Dead, chunks, calloc, cfree, uncounted);
      calloc := calloc + 1;
      page.zoneDeviceData := Rpage(rpage);
      Used := Used + {page};
    }

    // ----- dmirror_devmem_free

    method FreePage(page: Page) returns (rpage: nat)
      requires Valid() && page in Used
      modifies `freePages, `Free, `Used, `Lost, `cfree, `uncounted, page`zoneDeviceData
      ensures Valid() && Used == old(Used) - {page} && Rpage(rpage) == old(page.zoneDeviceData)
      ensures if page.chunk in Dead
              then Free == old(Free) && Lost == old(Lost) + {page} && cfree == old(cfree)
              else Free == [page] + old(Free) && Lost == old(Lost) && cfree == old(cfree) + 1
    {
      hide Linked, Distinct, Books, Whole, Elements, Parted;
      BooksFree(page, Free, Used, Lost, Known, Dead, chunks, calloc, cfree, uncounted);
      PartedFree(Pages, Free, Used, Lost, page);
      rpage := page.zoneDeviceData.rpage;
      Used := Used - {page};
      if !page.chunk.remove {
        GiveBack(page);
      } else {
        Lost, uncounted := Lost + {page}, uncounted + 1;
      }
    }

    method GiveBack(page: Page)
      requires ListOk() && Flags() && Backed(Used) && page !in Used && AtHead(page, cfree + 1)
      modifies `freePages, `Free, `cfree, page`zoneDeviceData
      ensures Valid() && Free == [page] + old(Free) && cfree == old(cfree) + 1
    {
      hide Linked, Distinct, Books, Whole, Elements, Parted;
      cfree := cfree + 1;
      Push(page);
    }

    // ----- dmirror_remove_free_pages

    method RemoveFreePages(c: Chunk)
      requires ListOk()
      modifies `freePages, `Free
      ensures ListOk() && Free == After(old(Free), c)
    {
      hide Linked, Distinct, Cut;
      ghost var all := Free;
      ghost var i, k := 0, 0;
      var page := freePages;
      while page != null
        invariant 0 <= k <= i <= |all| && page == First(all[i..])
        invariant Linked(all) && Free == all[k..] && freePages == First(all[k..])
        invariant forall j | k <= j < i :: all[j].chunk != c
        invariant k > 0 ==> all[k - 1].chunk == c
        decreases |all| - i
      {
        NextAt(all, i);
        var next := Target(page.zoneDeviceData);
        if page.chunk == c {
          freePages := next;
          k := i + 1;
          Free := all[k..];
        }
        page := next;
        i := i + 1;
      }
      CutIs(all, c, k);
      LinkedAfter(all, k);
    }

    // The spin-locked part of dmirror_device_remove_chunks for one chunk: pages of other chunks in
    // front of the chunk's last free page are lost with it.
    method RemoveChunk(c: Chunk)
      requires Valid() && c in Known
      modifies this, c`remove
      ensures Valid() && Dead == old(Dead) + {c} && Free == After(old(Free), c)
      ensures Used == old(Used) && Lost == old(Lost) + Dropped(old(Free), c)
      ensures calloc == old(calloc) && cfree == old(cfree) && chunks == old(chunks) && Known == old(Known)
      ensures Pages == old(Pages)
    {
      hide Linked, Distinct, After, Books, Whole, Elements, Parted;
      c.remove := true;
      ghost var all := Free;
      RemoveFreePages(c);
      BooksRemove(all, Used, Lost, Known, Dead, chunks, calloc, cfree, uncounted, c);
      PartedRemove(Pages, all, Used, Lost, c);
      Lost := Lost + Dropped(all, c);
      Dead := Dead + {c};
    }

    // The end of dmirror_device_remove_chunks, when every chunk has been through RemoveChunk
    method Forget()
      requires Valid() && forall c | c in chunks :: c in Dead
      modifies `chunks, `capacity, `freePages
      ensures Valid() && Free == [] && chunks == []
    {
      hide Linked, Distinct, Whole, Elements, Parted, Books;
      BooksForget(Free, Used, Lost, Known, Dead, chunks, calloc, cfree, uncounted);
      chunks, capacity := [], 0;
      freePages := null;
    }

    // Frees of pages in use, one after the other
    method FreePages(pages: seq<Page>)
      requires Valid() && Puttable(pages, Used)
      modifies `freePages, `Free, `Used, `Lost, `cfree, `uncounted, pages
      ensures Valid() && Used == old(Used) - Elements(pages)
    {
      hide Linked, Distinct, Books, Whole, Parted, Elements;
      NoElements();
      var i := 0;
      while i < |pages|
        invariant 0 <= i <= |pages| && Valid() && Used == old(Used) - Elements(pages[..i])
      {
        NextPut(pages, old(Used), i);
        var rpage := FreePage(pages[i]);
        i := i + 1;
      }
      assert pages[..i] == pages;
    }

    // dmirror_device_remove_chunks; after the removal of chunk i the pages puts[i] are freed: those
    // that its eviction has emptied, and any others that lose their last user in the meantime
    method RemoveChunks(puts: seq<seq<Page>>)
      requires Valid() && |puts| == |chunks| && PutsOk(puts, Used)
      modifies this, chunks, Used
      ensures Valid() && Free == [] && chunks == [] && Used == old(Used) - AllPut(puts)
      ensures Lost == old(Lost) + Elements(old(Free)) + AllPut(puts)
      ensures Dead == old(Dead) + ChunkSet(old(chunks)) && calloc == old(calloc)
    {
      hide Linked, Distinct, After, Dropped, Books, Whole, Elements, Parted, Puttable;
      UsedLater(puts, Used);
      BooksApart(Free, Used, Lost, Known, Dead, chunks, calloc, cfree, uncounted);
      var i := 0;
      while i < |chunks|
        invariant 0 <= i <= |chunks| && chunks == old(chunks) && Valid() && PutsOk(puts[i..], Used)
        invariant Dead == old(Dead) + ChunkSet(chunks[..i]) && Used <= old(Used)
        invariant Used - AllPut(puts[i..]) == old(Used) - AllPut(puts)
        invariant calloc == old(calloc) && Known == old(Known) && Pages == old(Pages)
      {
        ChunkKnown(Free, Used, Lost, Known, Dead, chunks, calloc, cfree, uncounted, i);
        PutsFirst(puts, Used, i);
        RemoveChunk(chunks[i]);
        FreePages(puts[i]);
        ChunkSetMore(chunks, i);
        i := i + 1;
      }
      assert chunks[..i] == chunks;
      assert puts[i..] == [];
      Forget();
      BooksApart(Free, Used, Lost, Known, Dead, chunks, calloc, cfree, uncounted);
      AllLost(Pages, old(Free), old(Used), old(Lost), Used, Lost, AllPut(puts));
    }
  }

  // ----- pages that are freed

  ghost predicate Puttable(pages: seq<Page>, used: set<Page>) {
    Distinct(pages) && Elements(pages) <= used
  }

  // Every page that is freed is in use at that time.
  ghost predicate PutsOk(puts: seq<seq<Page>>, used: set<Page>) {
    puts == [] || (Puttable(puts[0], used) && PutsOk(puts[1..], used - Elements(puts[0])))
  }

  function AllPut(puts: seq<seq<Page>>): set<Page> {
    if puts == [] then {} else Elements(puts[0]) + AllPut(puts[1..])
  }

  // ----- the pages of the chunks, on values

  function Elements(s: seq<Page>): set<Page> {
    set p | p in s
  }

  predicate Parted(pages: set<Page>, free: seq<Page>, used: set<Page>, lost: set<Page>) {
    pages == Elements(free) + used + lost
  }

  // Each chunk has one page for each of its pfns
  ghost predicate Whole(pages: set<Page>, known: set<Chunk>) {
    && (forall p | p in pages :: p.chunk in known && p.chunk.first <= p.pfn < p.chunk.first + p.chunk.count)
    && (forall p, q | p in pages && q in pages && p.chunk == q.chunk && p.pfn == q.pfn :: p == q)
    && (forall c, pfn: nat | c in known && c.first <= pfn < c.first + c.count :: HasPage(pages, c, pfn))
  }

  ghost predicate HasPage(pages: set<Page>, c: Chunk, pfn: nat) {
    exists p | p in pages :: p.chunk == c && p.pfn == pfn
  }

  lemma NoElements()
    ensures Elements([]) == {}
  {}

  lemma NextPut(pages: seq<Page>, used: set<Page>, i: nat)
    requires Puttable(pages, used) && i < |pages|
    ensures pages[i] in used - Elements(pages[..i])
    ensures Elements(pages[..i + 1]) == Elements(pages[..i]) + {pages[i]}
  {
    assert pages[i] in Elements(pages);
    assert pages[..i + 1] == pages[..i] + [pages[i]];
  }

  lemma PutsFirst(puts: seq<seq<Page>>, used: set<Page>, i: nat)
    requires i < |puts| && PutsOk(puts[i..], used)
    ensures Puttable(puts[i], used) && PutsOk(puts[i + 1..], used - Elements(puts[i]))
    ensures forall p | p in puts[i] :: p in used
    ensures AllPut(puts[i..]) == Elements(puts[i]) + AllPut(puts[i + 1..])
  {
    assert puts[i..][1..] == puts[i + 1..];
    forall p | p in puts[i] ensures p in used { assert p in Elements(puts[i]); }
  }

  lemma {:induction false} UsedLater(puts: seq<seq<Page>>, used: set<Page>)
    requires PutsOk(puts, used)
    ensures AllPut(puts) <= used && puts[0..] == puts
  {
    if puts != [] { UsedLater(puts[1..], used - Elements(puts[0])); }
  }

  // With an empty list every page that is not in use is lost.
  lemma AllLost(pages: set<Page>, free0: seq<Page>, used0: set<Page>, lost0: set<Page>, used: set<Page>,
                lost: set<Page>,
                put: set<Page>)
    requires Parted(pages, free0, used0, lost0) && Parted(pages, [], used, lost) && used !! lost
    requires used == used0 - put && put <= used0 && used0 !! lost0 && (forall p | p in free0 :: p !in used0)
    ensures lost == lost0 + Elements(free0) + put
  {}

  lemma PartedUse(pages: set<Page>, free: seq<Page>, used: set<Page>, lost: set<Page>, p: Page)
    requires Parted(pages, [p] + free, used, lost)
    ensures Parted(pages, free, used + {p}, lost)
  {
    assert Elements([p] + free) == {p} + Elements(free);
  }

  lemma PartedFree(pages: set<Page>, free: seq<Page>, used: set<Page>, lost: set<Page>, p: Page)
    requires Parted(pages, free, used, lost) && p in used
    ensures Parted(pages, [p] + free, used - {p}, lost) && Parted(pages, free, used - {p}, lost + {p})
  {
    assert Elements([p] + free) == {p} + Elements(free);
  }

  lemma PartedRemove(pages: set<Page>, free: seq<Page>, used: set<Page>, lost: set<Page>, c: Chunk)
    requires Parted(pages, free, used, lost)
    ensures Parted(pages, After(free, c), used, lost + Dropped(free, c))
  {
    assert free == free[..Cut(free, c)] + After(free, c);
    assert Elements(free) == Elements(After(free, c)) + Dropped(free, c);
  }

  lemma PagesAdd(pages: set<Page>, known: set<Chunk>, free: seq<Page>, used: set<Page>, lost: set<Page>, c: Chunk,
                 added: seq<Page>)
    requires Whole(pages, known) && c !in known && OfChunk(added, c) && Parted(pages, free, used, lost)
    ensures Whole(pages + Elements(added), known + {c})
    ensures Parted(pages + Elements(added), Reversed(added) + free, used, lost)
  {
    ReversedElements(added);
    WholeAdd(pages, known, c, added);
    hide Whole, OfChunk, Reversed;
    assert Elements(Reversed(added) + free) == Elements(added) + Elements(free);
  }

  lemma WholeAdd(pages: set<Page>, known: set<Chunk>, c: Chunk, added: seq<Page>)
    requires Whole(pages, known) && c !in known && OfChunk(added, c)
    ensures Whole(pages + Elements(added), known + {c})
  {
    var all := pages + Elements(added);
    forall d, pfn: nat | d in known + {c} && d.first <= pfn < d.first + d.count ensures HasPage(all, d, pfn) {
      if d == c {
        assert added[pfn - c.first] in added;
      } else {
        assert HasPage(pages, d, pfn);
      }
    }
  }

  // ----- the books, on values

  ghost predicate Books(free: seq<Page>, used: set<Page>, lost: set<Page>, known: set<Chunk>, dead: set<Chunk>,
                        chunks: seq<Chunk>, calloc: nat, cfree: nat, uncounted: nat) {
    && (forall p | p in free :: p !in used && p !in lost && p.chunk in chunks && p.chunk !in dead)
    && used !! lost
    && (forall p | p in used :: p.chunk in known && (p.chunk in dead || p.chunk in chunks))
    && (forall c | c in chunks :: c in known) && dead <= known
    && calloc == cfree + |used| + uncounted
    && (dead == {} ==> lost == {} && uncounted == 0)
  }

  lemma BooksApart(free: seq<Page>, used: set<Page>, lost: set<Page>, known: set<Chunk>, dead: set<Chunk>,
                   chunks: seq<Chunk>, calloc: nat, cfree: nat, uncounted: nat)
    requires Books(free, used, lost, known, dead, chunks, calloc, cfree, uncounted)
    ensures used !! lost && forall p | p in free :: p !in used
  {}

  lemma BooksAdd(free: seq<Page>, used: set<Page>, lost: set<Page>, known: set<Chunk>, dead: set<Chunk>,
                 chunks: seq<Chunk>, calloc: nat, cfree: nat, uncounted: nat, c: Chunk, added: seq<Page>)
    requires Books(free, used, lost, known, dead, chunks, calloc, cfree, uncounted) && c !in known
    requires forall p | p in added :: p !in used && p !in lost && p.chunk == c
    ensures Books(Reversed(added) + free, used, lost, known + {c}, dead, chunks + [c], calloc, cfree, uncounted)
  {
    ReversedElements(added);
  }

  lemma BooksUse(page: Page, free: seq<Page>, used: set<Page>, lost: set<Page>, known: set<Chunk>, dead: set<Chunk>,
                 chunks: seq<Chunk>, calloc: nat, cfree: nat, uncounted: nat)
    requires Books([page] + free, used, lost, known, dead, chunks, calloc, cfree, uncounted) && page !in free
    ensures Books(free, used + {page}, lost, known, dead, chunks, calloc + 1, cfree, uncounted)
    ensures page !in used && page.chunk !in dead
  {
    assert page in [page] + free;
  }

  lemma BooksFree(page: Page, free: seq<Page>, used: set<Page>, lost: set<Page>, known: set<Chunk>, dead: set<Chunk>,
                  chunks: seq<Chunk>, calloc: nat, cfree: nat, uncounted: nat)
    requires Books(free, used, lost, known, dead, chunks, calloc, cfree, uncounted) && page in used
    ensures page.chunk !in dead ==>
      Books([page] + free, used - {page}, lost, known, dead, chunks, calloc, cfree + 1, uncounted)
    ensures page.chunk in dead ==>
      Books(free, used - {page}, lost + {page}, known, dead, chunks, calloc, cfree, uncounted + 1)
    ensures page !in free && page.chunk in known
  {}

  lemma BooksForget(free: seq<Page>, used: set<Page>, lost: set<Page>, known: set<Chunk>, dead: set<Chunk>,
                    chunks: seq<Chunk>, calloc: nat, cfree: nat, uncounted: nat)
    requires Books(free, used, lost, known, dead, chunks, calloc, cfree, uncounted) && forall c | c in chunks :: c in dead
    ensures free == [] && Books(free, used, lost, known, dead, [], calloc, cfree, uncounted)
  {
    if free != [] {
      HasElement(free);
      assert false;
    }
  }

  lemma BooksRemove(free: seq<Page>, used: set<Page>, lost: set<Page>, known: set<Chunk>, dead: set<Chunk>,
                    chunks: seq<Chunk>, calloc: nat, cfree: nat, uncounted: nat, c: Chunk)
    requires Books(free, used, lost, known, dead, chunks, calloc, cfree, uncounted) && c in known && Distinct(free)
    ensures Books(After(free, c), used, lost + Dropped(free, c), known, dead + {c}, chunks, calloc, cfree, uncounted)
  {
    AfterElements(free, c);
    hide After;
  }

  lemma AfterElements(free: seq<Page>, c: Chunk)
    requires Distinct(free)
    ensures forall p | p in After(free, c) :: p in free && p.chunk != c && p !in Dropped(free, c)
    ensures forall p | p in Dropped(free, c) :: p in free
  {
    var k := Cut(free, c);
    forall p | p in After(free, c) ensures p in free && p.chunk != c && p !in free[..k] {
      var i :| 0 <= i < |free| - k && free[k..][i] == p;
      assert free[k + i] == p;
    }
  }

  datatype Option = None | Some(value: nat)

  function First(s: seq<Page>): Page? {
    if s == [] then null else s[0]
  }

  function Target(d: ZoneData): Page? {
    match d case Link(p) => p case _ => null
  }

  ghost predicate Backed(used: set<Page>)
    reads used
  {
    forall p | p in used :: p.zoneDeviceData.Rpage?
  }

  predicate OfChunk(added: seq<Page>, c: Chunk) {
    |added| == c.count && forall i | 0 <= i < |added| :: added[i].pfn == c.first + i && added[i].chunk == c
  }

  function Reversed(s: seq<Page>): (r: seq<Page>)
    ensures |r| == |s|
  {
    seq(|s|, i requires 0 <= i < |s| => s[|s| - 1 - i])
  }

  lemma HasElement(s: seq<Page>)
    requires s != []
    ensures exists p | p in s :: p == s[0]
  {
    assert s[0] in s;
  }

  lemma ChunkOf(added: seq<Page>, c: Chunk)
    requires OfChunk(added, c)
    ensures forall p | p in added :: p.chunk == c
  {}

  lemma ReversedNone()
    ensures Reversed([]) == []
  {}

  lemma ReversedMore(s: seq<Page>, p: Page, rest: seq<Page>)
    ensures Reversed(s + [p]) + rest == [p] + (Reversed(s) + rest)
  {}

  lemma ReversedElements(s: seq<Page>)
    ensures forall p {:trigger p in Reversed(s)} :: p in Reversed(s) <==> p in s
    ensures forall i | 0 <= i < |s| :: Reversed(s)[i] in s
  {
    forall p | p in s ensures p in Reversed(s) {
      var i :| 0 <= i < |s| && s[i] == p;
      assert Reversed(s)[|s| - 1 - i] == p;
    }
  }

  lemma NewestFirst(added: seq<Page>, c: Chunk)
    requires OfChunk(added, c) && c.count > 0
    ensures var free := Reversed(added) + [];
            free != [] && free[0].chunk == c && NewestOf(free[0], free[1..], c.first, c.count)
  {}

  lemma NextAt(free: seq<Page>, i: nat)
    requires Linked(free) && i < |free|
    ensures free[i].zoneDeviceData == Next(free, i) && Target(free[i].zoneDeviceData) == First(free[i + 1..])
  {}

  lemma LinkedAfter(free: seq<Page>, k: nat)
    requires Linked(free) && Distinct(free) && k <= |free|
    ensures Linked(free[k..]) && Distinct(free[k..])
  {
    forall i | 0 <= i < |free[k..]| ensures free[k..][i].zoneDeviceData == Next(free[k..], i) {
      assert free[k + i].zoneDeviceData == Next(free, k + i);
    }
  }

  lemma CutIs(free: seq<Page>, c: Chunk, k: nat)
    requires k <= |free| && (forall j | k <= j < |free| :: free[j].chunk != c) && (k > 0 ==> free[k - 1].chunk == c)
    ensures Cut(free, c) == k
  {}

  function ChunkSet(chunks: seq<Chunk>): set<Chunk> {
    set c | c in chunks
  }

  lemma ChunkSetMore(chunks: seq<Chunk>, i: nat)
    requires i < |chunks|
    ensures ChunkSet(chunks[..i + 1]) == ChunkSet(chunks[..i]) + {chunks[i]}
  {
    assert chunks[..i + 1] == chunks[..i] + [chunks[i]];
  }

  lemma ChunkKnown(free: seq<Page>, used: set<Page>, lost: set<Page>, known: set<Chunk>, dead: set<Chunk>,
                   chunks: seq<Chunk>, calloc: nat, cfree: nat, uncounted: nat, i: nat)
    requires Books(free, used, lost, known, dead, chunks, calloc, cfree, uncounted) && i < |chunks|
    ensures chunks[i] in known
  {}

  // Exactly when the removal of a chunk loses no page of another one: its free pages lead the list.
  lemma DroppedExact(free: seq<Page>, c: Chunk)
    ensures (forall p | p in Dropped(free, c) :: p.chunk == c)
       <==> (forall i, j | 0 <= i < j < |free| && free[j].chunk == c :: free[i].chunk == c)
  {
    var k := Cut(free, c);
    forall i | 0 <= i < k ensures free[i] in Dropped(free, c) {
      assert free[..k][i] == free[i];
    }
    if forall p | p in Dropped(free, c) :: p.chunk == c {
      forall i, j | 0 <= i < j < |free| && free[j].chunk == c ensures free[i].chunk == c {
        assert j < k && free[i] in Dropped(free, c);
      }
    }
  }

  // ----- the pfns of a chunk

  const PAGE: nat := 4096

  // Those that dmirror_allocate_chunk adds, and those that dmirror_device_evict_chunk migrates, for a
  // region of bytes start to end, both included
  function AddedPfns(start: nat, end: nat): (nat, nat)
    requires start <= end
  {
    (start / PAGE, start / PAGE + (end - start + 1) / PAGE)
  }

  function EvictedPfns(start: nat, end: nat): (nat, nat)
    requires start <= end
  {
    (start / PAGE, start / PAGE + (end / PAGE - start / PAGE + 1))
  }

  // They are the same exactly for regions of whole pages.
  lemma EvictExact(start: nat, end: nat)
    requires start <= end
    ensures EvictedPfns(start, end) == AddedPfns(start, end) <==> start % PAGE == 0 && (end + 1) % PAGE == 0
  {
    var s, r := start % PAGE, (end - start + 1) % PAGE;
    var q := (end - start + 1) / PAGE;
    assert end == start / PAGE * PAGE + q * PAGE + (s + r - 1);
  }
}
