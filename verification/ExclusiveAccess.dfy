/**
  hmm.c, dmirror_exclusive: mark pages for exclusive access by the device, in pieces of 64 pages.
*/
module ExclusiveAccess {
  import opened Kernel

  const CHUNK: nat := 64

  // What make_device_exclusive_range finds for one piece: the number of pages it could pin (negative
  // for an error) and the pages; then what invalidations erase before the next piece
  datatype Fate = Fate(pinned: int, page: nat -> Pid, marks: nat -> bool, erased: set<Addr>)

  // The pages returned: NULL where a page could not be locked or marked
  function Held(pages: seq<Option<Pid>>): multiset<Pid> {
    if pages == [] then multiset{}
    else (if pages[0].Some? then multiset{pages[0].value} else multiset{}) + Held(pages[1..])
  }

  lemma {:induction false} HeldMore(pages: seq<Option<Pid>>, p: Option<Pid>)
    ensures Held(pages + [p]) == Held(pages) + (if p.Some? then multiset{p.value} else multiset{})
  {
    if pages == [] {
      assert pages + [p] == [p] && Held([]) == multiset{};
    } else {
      HeldMore(pages[1..], p);
      assert (pages + [p])[1..] == pages[1..] + [p];
    }
  }

  // Every page of a piece of n pages can be had: pinned, markable, and not locked by anybody else nor
  // twice in the piece
  ghost predicate Obtainable(locks: multiset<Pid>, fate: Fate, n: nat) {
    fate.pinned >= n && forall i: nat | i < n :: Gets(locks, fate, i)
  }

  ghost predicate Gets(locks: multiset<Pid>, fate: Fate, i: nat) {
    fate.marks(i) && fate.page(i) !in locks && forall j: nat | j < i && Gets(locks, fate, j) :: fate.page(j) != fate.page(i)
  }

  // In one sentence: all pinned, all markable, none locked, no page twice
  lemma ObtainableIs(locks: multiset<Pid>, fate: Fate, n: nat)
    ensures Obtainable(locks, fate, n) <==> fate.pinned >= n && AllFree(locks, fate, n) && AllApart(fate, n)
  {
    if AllFree(locks, fate, n) && AllApart(fate, n) {
      forall i: nat | i < n ensures Gets(locks, fate, i) {
        assert forall j: nat | j < i && Gets(locks, fate, j) :: fate.page(j) != fate.page(i);
      }
    }
    if Obtainable(locks, fate, n) {
      forall i: nat, j: nat {:trigger fate.page(i), fate.page(j)} | i < j < n ensures fate.page(i) != fate.page(j) {
        assert Gets(locks, fate, i) && Gets(locks, fate, j);
      }
      forall i: nat | i < n ensures fate.marks(i) && fate.page(i) !in locks {
        assert Gets(locks, fate, i);
      }
    }
  }

  predicate AllFree(locks: multiset<Pid>, fate: Fate, n: nat) {
    forall i: nat | i < n :: fate.marks(i) && fate.page(i) !in locks
  }

  predicate AllApart(fate: Fate, n: nat) {
    forall i: nat, j: nat | i < j < n :: fate.page(i) != fate.page(j)
  }

  // The pages returned are those that could be had
  ghost predicate Returned(locks: multiset<Pid>, fate: Fate, pages: seq<Option<Pid>>) {
    forall i | 0 <= i < |pages| :: pages[i] == if Gets(locks, fate, i) then Some(fate.page(i)) else None
  }

  lemma {:induction false} HeldIn(pages: seq<Option<Pid>>, p: Pid)
    ensures p in Held(pages) <==> Some(p) in pages
  {
    if pages != [] {
      HeldIn(pages[1..], p);
      assert pages == [pages[0]] + pages[1..];
    }
  }

  lemma GetsNext(locks0: multiset<Pid>, locks: multiset<Pid>, fate: Fate, pages: seq<Option<Pid>>)
    requires Returned(locks0, fate, pages) && Grew(locks0, locks, pages)
    ensures var p := fate.page(|pages|);
            var got := p !in locks && fate.marks(|pages|);
            Returned(locks0, fate, pages + [if got then Some(p) else None])
  {
    var p := fate.page(|pages|);
    HeldIn(pages, p);
    hide Held;
    if Some(p) in pages {
      var j :| 0 <= j < |pages| && pages[j] == Some(p);
      assert Gets(locks0, fate, j);
    }
    forall j: nat | j < |pages| && Gets(locks0, fate, j) && fate.page(j) == p ensures Some(p) in pages {
      assert pages[j] == Some(p);
    }
  }

  lemma ReturnedAll(locks: multiset<Pid>, fate: Fate, pages: seq<Option<Pid>>)
    requires Returned(locks, fate, pages) && fate.pinned >= |pages|
    ensures (forall i | 0 <= i < |pages| :: pages[i].Some?) <==> Obtainable(locks, fate, |pages|)
  {
    forall i: nat | i < |pages| ensures pages[i].Some? <==> Gets(locks, fate, i) {}
    hide Gets;
  }

  lemma ReturnedAt(locks: multiset<Pid>, fate: Fate, pages: seq<Option<Pid>>, i: nat)
    requires Returned(locks, fate, pages) && i < |pages|
    ensures pages[i] == if Gets(locks, fate, i) then Some(fate.page(i)) else None
  {}

  lemma PinnedFew(locks: multiset<Pid>, fate: Fate, n: nat)
    ensures Obtainable(locks, fate, n) ==> fate.pinned >= n
  {}

  // m is m0 with one more for each page returned
  predicate Grew(m0: multiset<Pid>, m: multiset<Pid>, pages: seq<Option<Pid>>) {
    m == m0 + Held(pages)
  }

  lemma GrewNone(m0: multiset<Pid>, m: multiset<Pid>)
    ensures Grew(m0, m, []) <==> m == m0
  {}

  lemma GrewMore(m0: multiset<Pid>, m: multiset<Pid>, pages: seq<Option<Pid>>, p: Pid)
    requires Grew(m0, m, pages)
    ensures Grew(m0, m + multiset{p}, pages + [Some(p)]) && Grew(m0, m, pages + [None])
  {
    HeldMore(pages, Some(p));
    HeldMore(pages, None);
  }

  lemma GrewLess(m0: multiset<Pid>, m: multiset<Pid>, pages: seq<Option<Pid>>, i: nat)
    requires i < |pages| && Grew(m0, m, pages[i..])
    ensures pages[i].Some? ==> pages[i].value in m && Grew(m0, m - multiset{pages[i].value}, pages[i + 1..])
    ensures pages[i].None? ==> Grew(m0, m, pages[i + 1..])
  {
    assert pages[i..][1..] == pages[i + 1..];
  }

  // How many pages were returned
  function Count(pages: seq<Option<Pid>>): (n: nat)
    ensures n <= |pages| && (n == |pages| <==> forall i | 0 <= i < |pages| :: pages[i].Some?)
  {
    if pages == [] then 0
    else Count(pages[..|pages| - 1]) + if pages[|pages| - 1].Some? then 1 else 0
  }

  // The length of piece k
  function PieceLen(start: Addr, end: Addr, k: nat): nat
    requires start + k * CHUNK < end
  {
    if end < start + k * CHUNK + CHUNK then end - (start + k * CHUNK) else CHUNK
  }

  ghost predicate AllAtomic(pt: map<Addr, Entry>, lo: Addr, hi: Addr, except: set<Addr>) {
    forall a: Addr | lo <= a < hi && a !in except :: Atomic(pt, a)
  }

  predicate Atomic(pt: map<Addr, Entry>, a: Addr) {
    a in pt && pt[a].tag == AtomicTag
  }

  // ----- what the mirror holds afterwards

  // The page of address a, as the pieces reach it
  function PageOf(fates: nat -> Fate, start: Addr, a: Addr): Pid
    requires start <= a
  {
    fates((a - start) / CHUNK).page((a - start) % CHUNK)
  }

  // Enough pages of a's piece were pinned, and its own could be had.
  ghost predicate Marked(locks: multiset<Pid>, fates: nat -> Fate, start: Addr, end: Addr, a: Addr) {
    start <= a < end &&
    var k := (a - start) / CHUNK;
    start + k * CHUNK < end && fates(k).pinned >= PieceLen(start, end, k) && Gets(locks, fates(k), (a - start) % CHUNK)
  }

  // Erased after piece j, with the first e pieces done
  ghost predicate Erased(fates: nat -> Fate, j: nat, e: nat, a: Addr) {
    exists m: nat :: j <= m < e && a in fates(m).erased
  }

  // After n pieces, the first e of them complete: marked addresses hold their page, all others what
  // they held before, unless an invalidation has erased them since
  ghost predicate Contents(pt0: map<Addr, Entry>, pt: map<Addr, Entry>, locks: multiset<Pid>, fates: nat -> Fate,
                           start: Addr, end: Addr, n: nat, e: nat) {
    forall a: Addr :: Content(pt0, pt, locks, fates, start, end, n, e, a)
  }

  ghost predicate Content(pt0: map<Addr, Entry>, pt: map<Addr, Entry>, locks: multiset<Pid>, fates: nat -> Fate,
                          start: Addr, end: Addr, n: nat, e: nat, a: Addr) {
    if Marked(locks, fates, start, end, a) && (a - start) / CHUNK < n then
      if Erased(fates, (a - start) / CHUNK, e, a) then a !in pt
      else a in pt && pt[a] == Entry(PageFrame(PageOf(fates, start, a)), AtomicTag)
    else if Erased(fates, 0, e, a) then a !in pt
    else (a in pt <==> a in pt0) && (a in pt ==> pt[a] == pt0[a])
  }

  // One piece from addr, before its invalidations
  ghost predicate PieceContent(pt0: map<Addr, Entry>, pt: map<Addr, Entry>, locks: multiset<Pid>, fate: Fate,
                               addr: Addr, next: Addr, a: Addr) {
    if addr <= a < next && fate.pinned >= next - addr && Gets(locks, fate, a - addr) then
      a in pt && pt[a] == Entry(PageFrame(fate.page(a - addr)), AtomicTag)
    else (a in pt <==> a in pt0) && (a in pt ==> pt[a] == pt0[a])
  }

  lemma ContentsNone(pt: map<Addr, Entry>, locks: multiset<Pid>, fates: nat -> Fate, start: Addr, end: Addr)
    ensures Contents(pt, pt, locks, fates, start, end, 0, 0)
  {}

  lemma ContentsPiece(pt0: map<Addr, Entry>, pt1: map<Addr, Entry>, pt: map<Addr, Entry>, locks: multiset<Pid>,
                      fates: nat -> Fate, start: Addr, end: Addr, k: nat, addr: Addr, next: Addr, fate: Fate)
    requires addr == start + k * CHUNK < end && Contents(pt0, pt1, locks, fates, start, end, k, k)
    requires next == addr + PieceLen(start, end, k) && fate == fates(k)
    requires forall a: Addr :: PieceContent(pt1, pt, locks, fate, addr, next, a)
    ensures Contents(pt0, pt, locks, fates, start, end, k + 1, k)
  {
    var n := k + 1;
    forall a: Addr ensures Content(pt0, pt, locks, fates, start, end, n, k, a) {
      assert Content(pt0, pt1, locks, fates, start, end, k, k, a);
      assert PieceContent(pt1, pt, locks, fate, addr, next, a);
      InPiece(start, end, k, next, a);
      hide Gets, PieceLen;
    }
  }

  lemma InPiece(start: Addr, end: Addr, k: nat, next: Addr, a: Addr)
    requires start + k * CHUNK < end && next == start + k * CHUNK + PieceLen(start, end, k)
    ensures start + k * CHUNK <= a < next ==> (a - start) / CHUNK == k && (a - start) % CHUNK == a - (start + k * CHUNK)
    ensures start <= a < end && (a - start) / CHUNK == k ==> start + k * CHUNK <= a < next
  {}

  lemma ContentsErased(pt0: map<Addr, Entry>, pt: map<Addr, Entry>, locks: multiset<Pid>, fates: nat -> Fate,
                       start: Addr, end: Addr, k: nat)
    requires Contents(pt0, pt, locks, fates, start, end, k + 1, k)
    ensures Contents(pt0, pt - fates(k).erased, locks, fates, start, end, k + 1, k + 1)
  {
    var pt1, n := pt - fates(k).erased, k + 1;
    forall a: Addr ensures Content(pt0, pt1, locks, fates, start, end, n, n, a) {
      assert Content(pt0, pt, locks, fates, start, end, n, k, a);
      ErasedMore(fates, 0, k, a);
      if Marked(locks, fates, start, end, a) && (a - start) / CHUNK <= k { ErasedMore(fates, (a - start) / CHUNK, k, a); }
      hide Marked, Erased;
    }
  }

  lemma ErasedMore(fates: nat -> Fate, j: nat, k: nat, a: Addr)
    requires j <= k
    ensures Erased(fates, j, k + 1, a) <==> Erased(fates, j, k, a) || a in fates(k).erased
  {}

  class Device {
    var pt: map<Addr, Entry>
    // Page locks held, and references
    var locks: multiset<Pid>
    var refs: multiset<Pid>

    constructor (pt: map<Addr, Entry>, locks: multiset<Pid>, refs: multiset<Pid>)
      ensures this.pt == pt && this.locks == locks && this.refs == refs
    {
      this.pt, this.locks, this.refs := pt, locks, refs;
    }

    // make_device_exclusive_range: pin, trylock and mark each page
    method MakeExclusive(n: nat, fate: Fate) returns (ret: int, pages: seq<Option<Pid>>)
      modifies `locks, `refs
      ensures ret == (if fate.pinned > n then n else fate.pinned) && |pages| == (if ret < 0 then 0 else ret)
      ensures Returned(old(locks), fate, pages)
      ensures Grew(old(locks), locks, pages) && Grew(old(refs), refs, pages)
    {
      hide Grew, Held, Gets;
      ret, pages := if fate.pinned > n then n else fate.pinned, [];
      GrewNone(locks, locks);
      GrewNone(refs, refs);
      while |pages| < ret
        invariant ret < 0 ==> |pages| == 0
        invariant 0 <= ret ==> |pages| <= ret
        invariant Returned(old(locks), fate, pages)
        invariant Grew(old(locks), locks, pages) && Grew(old(refs), refs, pages)
      {
        var p := fate.page(|pages|);
        GetsNext(old(locks), locks, fate, pages);
        GrewMore(old(locks), locks, pages, p);
        GrewMore(old(refs), refs, pages, p);
        if p !in locks && fate.marks(|pages|) {
          refs, locks := refs + multiset{p}, locks + multiset{p};
          pages := pages + [Some(p)];
        } else {
          // the page is unlocked and put at once
          pages := pages + [None];
        }
      }
    }

    // dmirror_atomic_map
    method AtomicMap(start: Addr, end: Addr, pages: seq<Option<Pid>>) returns (mapped: nat)
      requires start <= end && |pages| == end - start
      modifies `pt
      ensures mapped == Count(pages)
      ensures forall a: Addr | start <= a < end && pages[a - start].Some? ::
        a in pt && pt[a] == Entry(PageFrame(pages[a - start].value), AtomicTag)
      ensures forall a: Addr | a in old(pt) && !(start <= a < end && pages[a - start].Some?) ::
        a in pt && pt[a] == old(pt)[a]
      ensures forall a: Addr | a in pt :: a in old(pt) || (start <= a < end && pages[a - start].Some?)
    {
      mapped := 0;
      var i, pfn := 0, start;
      while pfn < end
        invariant start <= pfn <= end && i == pfn - start && mapped == Count(pages[..i])
        invariant forall a: Addr | start <= a < pfn && pages[a - start].Some? ::
          a in pt && pt[a] == Entry(PageFrame(pages[a - start].value), AtomicTag)
        invariant forall a: Addr | a in old(pt) && !(start <= a < pfn && pages[a - start].Some?) ::
          a in pt && pt[a] == old(pt)[a]
        invariant forall a: Addr | a in pt :: a in old(pt) || (start <= a < pfn && pages[a - start].Some?)
      {
        assert pages[..i + 1][..i] == pages[..i];
        if pages[i].Some? {
          pt := pt[pfn := Entry(PageFrame(pages[i].value), AtomicTag)];
          mapped := mapped + 1;
        }
        i, pfn := i + 1, pfn + 1;
      }
      assert pages[..i] == pages;
    }

    // unlock_page and put_page, once for every page returned
    method ReleaseAll(pages: seq<Option<Pid>>, ghost locks0: multiset<Pid>, ghost refs0: multiset<Pid>)
      requires Grew(locks0, locks, pages) && Grew(refs0, refs, pages)
      modifies `locks, `refs
      ensures locks == locks0 && refs == refs0
    {
      hide Grew, Held;
      var i := 0;
      assert pages[0..] == pages;
      while i < |pages|
        invariant 0 <= i <= |pages| && Grew(locks0, locks, pages[i..]) && Grew(refs0, refs, pages[i..])
      {
        GrewLess(locks0, locks, pages, i);
        GrewLess(refs0, refs, pages, i);
        if pages[i].Some? {
          locks := locks - multiset{pages[i].value};
          refs := refs - multiset{pages[i].value};
        }
        i := i + 1;
      }
      assert pages[i..] == [];
      GrewNone(locks0, locks);
      GrewNone(refs0, refs);
    }

    // One piece; false stands for -EBUSY
    method Piece(addr: Addr, next: Addr, fate: Fate) returns (ok: bool)
      requires addr < next
      modifies this
      ensures locks == old(locks) && refs == old(refs)
      ensures ok <==> Obtainable(old(locks), fate, next - addr)
      ensures ok ==> AllAtomic(pt, addr, next, {})
      ensures forall a: Addr | Atomic(old(pt), a) :: Atomic(pt, a)
      ensures forall a: Addr :: PieceContent(old(pt), pt, old(locks), fate, addr, next, a)
    {
      hide Grew, Held, Count, Gets, Obtainable, Returned;
      var ret, pages := MakeExclusive(next - addr, fate);
      PinnedFew(old(locks), fate, next - addr);
      var mapped := 0;
      if ret == next - addr {
        mapped := AtomicMap(addr, next, pages);
        ReturnedAll(old(locks), fate, pages);
        forall a: Addr ensures PieceContent(old(pt), pt, old(locks), fate, addr, next, a) {
          if addr <= a < next { ReturnedAt(old(locks), fate, pages, a - addr); }
        }
      }
      ReleaseAll(pages, old(locks), old(refs));
      ok := addr + mapped >= next;
    }

    method Exclusive(start: Addr, end: Addr, fates: nat -> Fate) returns (ok: bool, ghost gone: set<Addr>,
                     ghost done: nat)
      requires start <= end
      modifies this
      ensures locks == old(locks) && refs == old(refs)
      ensures ok <==> forall k: nat | start + k * CHUNK < end :: Obtainable(old(locks), fates(k), PieceLen(start, end, k))
      ensures ok ==> AllAtomic(pt, start, end, gone)
      ensures (forall k: nat :: fates(k).erased == {}) ==> gone == {}
      ensures ok ==> start + done * CHUNK >= end
      ensures Contents(old(pt), pt, old(locks), fates, start, end, if ok then done else done + 1, done)
    {
      hide Obtainable, Contents, PieceContent;
      gone, done := {}, 0;
      ContentsNone(pt, locks, fates, start, end);
      var addr, k := start, 0;
      while addr < end
        invariant addr == if start + k * CHUNK < end then start + k * CHUNK else end
        invariant forall j: nat | j < k && start + j * CHUNK < end :: Obtainable(old(locks), fates(j), PieceLen(start, end, j))
        invariant start <= addr <= end && locks == old(locks) && refs == old(refs)
        invariant AllAtomic(pt, start, addr, gone)
        invariant (forall j: nat :: fates(j).erased == {}) ==> gone == {}
        invariant done == k && Contents(old(pt), pt, old(locks), fates, start, end, k, k)
      {
        ghost var before := pt;
        var next := if end < addr + CHUNK then end else addr + CHUNK;
        ok := Piece(addr, next, fates(k));
        ContentsPiece(old(pt), before, pt, old(locks), fates, start, end, k, addr, next, fates(k));
        if !ok {
          return;
        }
        ContentsErased(old(pt), pt, old(locks), fates, start, end, k);
        pt := pt - fates(k).erased;
        gone := gone + fates(k).erased;
        addr, k, done := next, k + 1, done + 1;
      }
      return true, gone, done;
    }

    // dmirror_check_atomic; true stands for -EPERM
    method CheckAtomic(start: Addr, end: Addr) returns (eperm: bool)
      requires start <= end
      ensures eperm <==> exists a: Addr | start <= a < end :: Atomic(pt, a)
    {
      var pfn := start;
      while pfn < end
        invariant start <= pfn <= end && forall a: Addr | start <= a < pfn :: !Atomic(pt, a)
      {
        if pfn in pt && pt[pfn].tag == AtomicTag {
          assert Atomic(pt, pfn);
          return true;
        }
        pfn := pfn + 1;
      }
      return false;
    }
  }

  // After exclusive access, checks of any part of the range that was not all invalidated are refused.
  lemma CheckRefused(pt: map<Addr, Entry>, start: Addr, end: Addr, gone: set<Addr>, lo: Addr, hi: Addr, a: Addr)
    requires AllAtomic(pt, start, end, gone) && start <= lo <= a < hi <= end && a !in gone
    ensures exists b: Addr | lo <= b < hi :: Atomic(pt, b)
  {
    assert Atomic(pt, a);
  }
}
