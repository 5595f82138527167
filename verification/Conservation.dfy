/**
  The books after a whole undisturbed migration: a page that does not move is exactly as it was,
  a page that moves is given up and its new page has taken over what it had.
*/
module Conservation {
  import opened Kernel
  import opened KernelSteps
  import opened Txn
  import opened Accounts
  import opened MachineState
  import opened MigrateCollect
  import opened MigrateUnmap
  import opened MigrateFinalize
  import opened MigratePages
  import opened Outcome

  // In use, other than as backing page
  ghost predicate Known(w: World, p: Pid) {
    w.Live(p) && NotBacking(p, w.pages)
  }

  ghost predicate BooksExact(w0: World, w: World, moves: map<Pid, Pid>) {
    w.pages.Keys == w0.pages.Keys && forall p | Known(w0, p) :: BookedAt(w0, w, moves, p)
  }

  ghost predicate BookedAt(w0: World, w: World, moves: map<Pid, Pid>, p: Pid) {
    && p in w0.pages && p in w.pages
    && if p in moves then HandedOver(w0, w, p, moves[p]) else w.pages[p] == w0.pages[p]
  }

  // The old page keeps the references of others only, and is free without them; the new page has
  // its mappings and its page->mapping, and nothing else.
  ghost predicate HandedOver(w0: World, w: World, p: Pid, q: Pid)
    requires p in w0.pages && p in w.pages
  {
    && q in w.pages && w.pages[p].refs == w0.pages[p].pins && w.pages[p].mapping == NoMapping
    && w.pages[p].backing == w0.pages[p].backing
    && w.pages[q].refs == |w0.Mappers(p)| + w0.pages[p].CacheRefs()
    && w.pages[q].mapping == w0.pages[p].mapping && w.pages[q].pins == 0 && w.pages[q].lock == Unlocked
  }

  // The slots before the metadata is moved: every page in one migrates
  ghost predicate SlotsReady(w: World, s: seq<Mpfn>, d: seq<Mpfn>) {
    Slots(w, s, d) && forall i {:trigger s[i]} | 0 <= i < |s| && s[i].page.Some? :: s[i].migrate
  }

  // ----- a page that does not move

  lemma StageParts(w2: World, w3: World, w4: World, w5: World, place: Option<Place>, sa: seq<Mpfn>, s: seq<Mpfn>,
                   d: seq<Mpfn>, f: Fates)
    requires Stages(w2, w3, w4, w5, place, sa, s, d, f)
    ensures |sa| == |s| == |d| && Slots(w3, s, d) && AllFinalizable(w3, s, d) && Backed(w3.pages)
    ensures Kinds(w3.pt, w3.pages)
    ensures w4.pt == w3.pt && w4.pages == w3.pages && Ended(w4, w5) && Finalized(w4, w5, s, d, |s|)
    ensures PagesRel(w2, w3, place, sa, s, d, f, |s|)
  {}

  lemma RelParts(w2: World, w3: World, place: Option<Place>, sa: seq<Mpfn>, s: seq<Mpfn>, d: seq<Mpfn>, f: Fates)
    requires PagesRel(w2, w3, place, sa, s, d, f, |s|)
    ensures PinsExact(w2, w3) && SameBackers(w2.pages, w3.pages) && OthersSame(w2, w3)
    ensures SameStorage(w2.pages, w3.pages)
  {}

  lemma UnmovedSame(w2: World, w3: World, w4: World, w5: World, place: Option<Place>, sa: seq<Mpfn>, s: seq<Mpfn>,
                    d: seq<Mpfn>, f: Fates, p: Pid)
    requires Stages(w2, w3, w4, w5, place, sa, s, d, f) && SlotsReady(w2, sa, d) && InUse(w2, p)
    requires |s| == |d| && p !in Moves(s, d)
    ensures p in w3.pages && w3.pages[p] == w2.pages[p] && NotBacking(p, w3.pages)
  {
    hide Stages, PagesRel, Moves, Finalized, Ended, Kinds, Backed, AllFinalizable, NotBacking, SameBackers, PinsExact,
         MoveAllowed;
    StageParts(w2, w3, w4, w5, place, sa, s, d, f);
    RelParts(w2, w3, place, sa, s, d, f);
    SameBacking(w2.pages, w3.pages, p);
    if w2.pages[p].lock.Ours() {
      var i := w2.pages[p].lock.i;
      assert SlotOf(w2.pages[p].lock, p, sa, d);
      hide Slots, OthersSame;
      RelDone(w2, w3, place, sa, s, d, f, |s|, i);
      MovesOwn(w3, s, d, i);
    }
  }

  // The record of a page in use, from the start to the end
  lemma UnmovedRecord(w0: World, w2: World, w3: World, w4: World, w5: World, place: Option<Place>, sa: seq<Mpfn>,
                      s: seq<Mpfn>, d: seq<Mpfn>, f: Fates, p: Pid)
    requires Stages(w2, w3, w4, w5, place, sa, s, d, f) && SlotsReady(w2, sa, d) && Carried(w0, w2) && InUse(w0, p)
    requires |s| == |d| && p !in Moves(s, d)
    ensures p in w5.pages && PageThrough(w0.pages[p], w5.pages[p])
  {
    hide Stages, Moves, Ended, PinsExact, NotBacking, SlotsReady, InUse, AllFinalizable, Backed, Kinds, Finalized,
         PagesRel;
    assert CarriedAt(w0, w2, p);
    UnmovedSame(w2, w3, w4, w5, place, sa, s, d, f, p);
    StageParts(w2, w3, w4, w5, place, sa, s, d, f);
    UsedNotDst(w2, p);
    EndedPage(w4, w5, p);
  }

  lemma UsedNotDst(w: World, p: Pid)
    requires InUse(w, p)
    ensures p in w.pages && !w.pages[p].lock.DstSlot?
  {}

  lemma EndedPage(w: World, w': World, p: Pid)
    requires Ended(w, w') && p in w.pages && NotBacking(p, w.pages)
    ensures p in w'.pages && NotBacking(p, w'.pages) && PageEnds(w.pages[p], w'.pages[p])
  {
    assert EndedAt(w, w', p);
  }

  predicate PageThrough(g: Page, g': Page) {
    && g' == g.(refs := g'.refs, lock := g'.lock, lru := g'.lru)
    && (g'.lock.Ours() || (g'.lock == Theirs <==> g.lock == Theirs))
    && (g'.refs > 0 ==> HomeLru(g'.lru) == HomeLru(g.lru))
  }

  // ----- who maps a page

  // The pages that a migration brings in are not in use before.
  lemma NewNotUsed(w2: World, w3: World, w4: World, w5: World, place: Option<Place>, sa: seq<Mpfn>, s: seq<Mpfn>,
                   d: seq<Mpfn>, f: Fates, p: Pid, i: nat)
    requires Stages(w2, w3, w4, w5, place, sa, s, d, f) && SlotsReady(w2, sa, d) && InUse(w2, p) && i < |s|
    ensures |d| == |s| && !d[i].On(p)
  {
    hide Stages, NotBacking;
    StageParts(w2, w3, w4, w5, place, sa, s, d, f);
    SlotHolds(w2, sa, d, i);
  }

  // An address maps a page that stays exactly if it referred to it before.
  lemma UnmovedMappers(w0: World, w2: World, w3: World, w4: World, w5: World, place: Option<Place>, sa: seq<Mpfn>,
                       s: seq<Mpfn>, d: seq<Mpfn>, f: Fates, p: Pid, a: Addr)
    requires Stages(w2, w3, w4, w5, place, sa, s, d, f) && SlotsReady(w2, sa, d) && InUse(w2, p) && |s| == |d|
    requires p !in Moves(s, d)
    requires SameView(w0, w2) && AllOrNothing(w0, w5, Moves(s, d), place, |s|) && !w0.At(a).Migration?
    ensures w5.At(a).Maps(p) <==> w0.At(a).Maps(p)
  {
    assert SameRef(w0.At(a), w2.At(a)) && PteMoved(Moves(s, d), place, |s|, a, w0.At(a), w5.At(a));
    hide Stages, NotBacking, Moves, SameView, AllOrNothing, SlotsReady, InUse;
    if w0.At(a).Refers() {
      if w0.At(a).page in Moves(s, d) {
        var j := MovedTo(s, d, w0.At(a).page);
        NewNotUsed(w2, w3, w4, w5, place, sa, s, d, f, p, j);
      }
    } else if w5.At(a).Maps(p) {
      EmptyFilled(w2, w3, w4, w5, place, sa, s, d, f, a);
      if i: nat :| i < |s| && d[i].On(w5.At(a).page) {
        NewNotUsed(w2, w3, w4, w5, place, sa, s, d, f, p, i);
      }
    }
  }

  lemma MovedTo(s: seq<Mpfn>, d: seq<Mpfn>, p: Pid) returns (j: nat)
    requires |s| == |d| && p in Moves(s, d)
    ensures j < |s| && Success(s[j], d[j]) && s[j].On(p) && d[j].On(Moves(s, d)[p])
  {
    MovesDomain(s, d, p);
    hide Moves;
    j :| 0 <= j < |s| && Success(s[j], d[j]) && s[j].On(p) && d[j].On(Moves(s, d)[p]);
  }

  // What an empty address holds afterwards is what it held, or the new page of a slot.
  lemma EmptyFilled(w2: World, w3: World, w4: World, w5: World, place: Option<Place>, sa: seq<Mpfn>, s: seq<Mpfn>,
                    d: seq<Mpfn>, f: Fates, a: Addr)
    requires Stages(w2, w3, w4, w5, place, sa, s, d, f) && !w2.At(a).Refers()
    ensures |d| == |s|
    ensures w5.At(a) == w2.At(a) || (w5.At(a).Refers() && exists i: nat :: i < |s| && d[i].On(w5.At(a).page))
  {
    hide Ended, PinsExact, SameBackers, OthersSame, PagesAfter, Backed, Kinds, Slots, AllFinalizable, PinsKept,
         SameStorage;
    assert w3.At(a) == PteAfter(w2, place, sa, d, f, |s|, a);
    assert w5.At(a) == FinalPte(w4, s, d, |s|, w4.At(a));
    if w3.At(a) != w2.At(a) {
      assert d[a - place.value.start].On(w3.At(a).page);
    }
  }

  // ----- the reference counts follow

  lemma QuietPage(w: World, mem: Mem, p: Pid)
    requires Quiet(w, mem) && p in w.pages
    ensures w.pages[p].refs == |w.Mappers(p)| + w.pages[p].pins + w.pages[p].CacheRefs()
    ensures !w.pages[p].lock.Ours() && w.pages[p].lru != Isolated
  {
    assert w.BalancedAt(p);
  }

  lemma NoMigration(w: World, mem: Mem, a: Addr)
    requires Quiet(w, mem)
    ensures !w.At(a).Migration?
  {
    if a in w.pt { assert PteOk(w.pt[a], w.pages); }
  }

  lemma MapsAt(w: World, p: Pid, a: Addr)
    ensures a in w.Mappers(p) <==> w.At(a).Maps(p)
  {}

  lemma CarriedUse(w: World, w': World, p: Pid)
    requires Carried(w, w') && InUse(w, p)
    ensures InUse(w', p)
  {
    assert CarriedAt(w, w', p);
  }

  lemma UnmovedBooks(w0: World, mem0: Mem, w2: World, w3: World, w4: World, w5: World, mem5: Mem, place: Option<Place>,
                     sa: seq<Mpfn>, s: seq<Mpfn>, d: seq<Mpfn>, f: Fates, p: Pid)
    requires Quiet(w0, mem0) && Carried(w0, w2) && SameView(w0, w2) && SlotsReady(w2, sa, d) && Quiet(w5, mem5)
    requires Stages(w2, w3, w4, w5, place, sa, s, d, f) && |s| == |d| && AllOrNothing(w0, w5, Moves(s, d), place, |s|)
    requires InUse(w0, p) && p !in Moves(s, d)
    ensures p in w0.pages && p in w5.pages && w5.pages[p] == w0.pages[p]
  {
    hide Quiet, Carried, SameView, SlotsReady, Stages, AllOrNothing, Moves, World.Mappers, NotBacking;
    UnmovedRecord(w0, w2, w3, w4, w5, place, sa, s, d, f, p);
    CarriedUse(w0, w2, p);
    forall a ensures a in w5.Mappers(p) <==> a in w0.Mappers(p) {
      NoMigration(w0, mem0, a);
      UnmovedMappers(w0, w2, w3, w4, w5, place, sa, s, d, f, p, a);
      MapsAt(w5, p, a);
      MapsAt(w0, p, a);
    }
    assert w5.Mappers(p) == w0.Mappers(p);
    QuietPage(w0, mem0, p);
    QuietPage(w5, mem5, p);
  }

  // ----- a page that moves

  lemma MovedRecord(w0: World, w2: World, w3: World, w4: World, w5: World, place: Option<Place>, sa: seq<Mpfn>,
                    s: seq<Mpfn>, d: seq<Mpfn>, f: Fates, p: Pid)
    requires Stages(w2, w3, w4, w5, place, sa, s, d, f) && SlotsReady(w2, sa, d) && Carried(w0, w2) && InUse(w0, p)
    requires |s| == |d| && p in Moves(s, d) && FreshDst(w2, d)
    ensures p in w5.pages && w5.pages[p].pins == w0.pages[p].pins && w5.pages[p].mapping == NoMapping
    ensures w5.pages[p].backing == w0.pages[p].backing
    ensures Moves(s, d)[p] in w5.pages && w5.pages[Moves(s, d)[p]].mapping == w0.pages[p].mapping
    ensures w5.pages[Moves(s, d)[p]].pins == 0
  {
    hide Stages, Moves, Ended, PinsExact, NotBacking, InUse, Kinds, Finalized, PagesRel, MoveAllowed, Backed,
         SameBackers, AllFinalizable, OthersSame, SameStorage, Slots, SlotsReady;
    assert CarriedAt(w0, w2, p);
    StageParts(w2, w3, w4, w5, place, sa, s, d, f);
    RelParts(w2, w3, place, sa, s, d, f);
    var i := MovedTo(s, d, p);
    RelDone(w2, w3, place, sa, s, d, f, |s|, i);
    var q := d[i].page.value;
    MovedAllowed(w2, place, sa, s, d, f, i);
    UsedNotBacking(w2, p);
    SameBacking(w2.pages, w3.pages, p);
    DstNotBacking(w3, s, d, i);
    EndedPage(w4, w5, p);
    EndedPage(w4, w5, q);
    DstPins(w2, w3, w4, w5, d, i);
  }

  // Nobody else holds a new page.
  ghost predicate FreshDst(w: World, d: seq<Mpfn>) {
    forall i {:trigger d[i]} | 0 <= i < |d| && d[i].page.Some? ::
      d[i].page.value in w.pages && OutsidePins(w.pages, d[i].page.value) == 0
  }

  lemma DstNotBacking(w: World, s: seq<Mpfn>, d: seq<Mpfn>, i: nat)
    requires Backed(w.pages) && AllFinalizable(w, s, d) && i < |s| && Success(s[i], d[i])
    ensures d[i].page.value in w.pages && NotBacking(d[i].page.value, w.pages)
  {
    assert Finalizable(w, s[i], d[i]);
    forall b | LiveDevice(b, w.pages) ensures w.pages[b].backing != d[i].page.value { assert BackingOk(b, w.pages); }
  }

  lemma DstPins(w2: World, w3: World, w4: World, w5: World, d: seq<Mpfn>, i: nat)
    requires FreshDst(w2, d) && i < |d| && d[i].page.Some? && PinsExact(w2, w3) && w4.pages == w3.pages && Ended(w4, w5)
    requires d[i].page.value in w5.pages && NotBacking(d[i].page.value, w5.pages)
    ensures w5.pages[d[i].page.value].pins == 0
  {
    hide NotBacking, EndedAt;
    var q := d[i].page.value;
    assert OutsidePins(w2.pages, q) == 0;
    assert OutsidePins(w3.pages, q) == 0;
    assert OutsidePins(w5.pages, q) == 0;
  }

  lemma UsedNotBacking(w: World, p: Pid)
    requires InUse(w, p)
    ensures NotBacking(p, w.pages) && w.Live(p)
  {}

  lemma MovedAllowed(w2: World, place: Option<Place>, sa: seq<Mpfn>, s: seq<Mpfn>, d: seq<Mpfn>, f: Fates, i: nat)
    requires i < |sa| == |s| == |d| && Success(s[i], d[i]) && s[i].page == sa[i].page
    requires s[i] == SlotAfter(w2, place, i, sa[i], d[i], f.faultPage, f.fate(i))
    ensures MoveAllowed(w2, s[i].page.value, d[i].page.value, f.faultPage, f.fate(i))
  {}

  // The new page is mapped where the old one was, and the old one nowhere.
  lemma MovedMappers(w0: World, w2: World, w3: World, w4: World, w5: World, place: Option<Place>, sa: seq<Mpfn>,
                     s: seq<Mpfn>, d: seq<Mpfn>, f: Fates, p: Pid, a: Addr)
    requires Stages(w2, w3, w4, w5, place, sa, s, d, f) && SlotsReady(w2, sa, d) && InUse(w2, p) && |s| == |d|
    requires p in Moves(s, d)
    requires SameView(w0, w2) && AllOrNothing(w0, w5, Moves(s, d), place, |s|) && !w0.At(a).Migration?
    ensures w5.At(a).Maps(Moves(s, d)[p]) <==> w0.At(a).Maps(p)
    ensures !w5.At(a).Maps(p)
  {
    hide Stages, NotBacking, Moves, SlotsReady, InUse, PteMoved, AllOrNothing, SameView, Unreferenced;
    MovedParts(w0, w2, w5, Moves(s, d), place, |s|, p, a);
    if w0.At(a).Refers() {
      MovedReferred(w0, w2, w3, w4, w5, place, sa, s, d, f, p, a);
    } else {
      EmptyOther(w2, w3, w4, w5, place, sa, s, d, f, p, a);
    }
  }

  lemma MovedParts(w0: World, w2: World, w5: World, moves: map<Pid, Pid>, place: Option<Place>, n: nat, p: Pid, a: Addr)
    requires SameView(w0, w2) && AllOrNothing(w0, w5, moves, place, n) && p in moves
    ensures SameRef(w0.At(a), w2.At(a)) && PteMoved(moves, place, n, a, w0.At(a), w5.At(a))
    ensures Unreferenced(w0, moves[p])
  {}

  lemma MovedReferred(w0: World, w2: World, w3: World, w4: World, w5: World, place: Option<Place>, sa: seq<Mpfn>,
                      s: seq<Mpfn>, d: seq<Mpfn>, f: Fates, p: Pid, a: Addr)
    requires Stages(w2, w3, w4, w5, place, sa, s, d, f) && SlotsReady(w2, sa, d) && InUse(w2, p) && |s| == |d|
    requires p in Moves(s, d)
    requires w0.At(a).Refers() && !w0.At(a).Migration? && Unreferenced(w0, Moves(s, d)[p])
    requires PteMoved(Moves(s, d), place, |s|, a, w0.At(a), w5.At(a))
    ensures w5.At(a).Maps(Moves(s, d)[p]) <==> w0.At(a).Maps(p)
    ensures !w5.At(a).Maps(p)
  {
    hide Stages, NotBacking, Moves, SlotsReady, InUse;
    var i := MovedTo(s, d, p);
    NewNotUsed(w2, w3, w4, w5, place, sa, s, d, f, p, i);
    var r := w0.At(a).page;
    if r in Moves(s, d) {
      if r != p { MovesApart(w2, w3, w4, w5, place, sa, s, d, f, p, r); }
      var j := MovedTo(s, d, r);
      NewNotUsed(w2, w3, w4, w5, place, sa, s, d, f, p, j);
    }
  }

  lemma MovesApart(w2: World, w3: World, w4: World, w5: World, place: Option<Place>, sa: seq<Mpfn>, s: seq<Mpfn>,
                   d: seq<Mpfn>, f: Fates, p: Pid, r: Pid)
    requires Stages(w2, w3, w4, w5, place, sa, s, d, f) && |s| == |d| && p in Moves(s, d) && r in Moves(s, d) && p != r
    ensures Moves(s, d)[p] != Moves(s, d)[r]
  {
    hide Stages, Moves, Slots;
    StageParts(w2, w3, w4, w5, place, sa, s, d, f);
    MovesInjective(w3, s, d, p, r);
  }

  // An empty address gets a page of its own.
  lemma EmptyOther(w2: World, w3: World, w4: World, w5: World, place: Option<Place>, sa: seq<Mpfn>, s: seq<Mpfn>,
                   d: seq<Mpfn>, f: Fates, p: Pid, a: Addr)
    requires Stages(w2, w3, w4, w5, place, sa, s, d, f) && SlotsReady(w2, sa, d) && |s| == |d| && p in Moves(s, d)
    requires InUse(w2, p) && !w2.At(a).Refers()
    ensures !w5.At(a).Maps(Moves(s, d)[p]) && !w5.At(a).Maps(p)
  {
    var i := MovedTo(s, d, p);
    NewNotUsed(w2, w3, w4, w5, place, sa, s, d, f, p, i);
    EmptySlot(w2, w3, w4, w5, place, sa, s, d, f, a);
    hide Stages, SlotsReady, Moves, InUse, NotBacking;
    if w5.At(a) != w2.At(a) {
      var j: nat :| j < |s| && s[j].page == None && d[j].On(w5.At(a).page);
      NewNotUsed(w2, w3, w4, w5, place, sa, s, d, f, p, j);
      NewApart(w2, w3, w4, w5, place, sa, s, d, f, i, j);
    }
  }

  lemma NewApart(w2: World, w3: World, w4: World, w5: World, place: Option<Place>, sa: seq<Mpfn>, s: seq<Mpfn>,
                 d: seq<Mpfn>, f: Fates, i: nat, j: nat)
    requires Stages(w2, w3, w4, w5, place, sa, s, d, f) && SlotsReady(w2, sa, d) && i < |s| && j < |s| && i != j
    requires |d| == |s| && d[i].page.Some?
    ensures d[j].page != d[i].page
  {
    hide Stages;
    StageParts(w2, w3, w4, w5, place, sa, s, d, f);
    SlotHolds(w2, sa, d, i);
    SlotHolds(w2, sa, d, j);
  }

  lemma EmptySlot(w2: World, w3: World, w4: World, w5: World, place: Option<Place>, sa: seq<Mpfn>, s: seq<Mpfn>,
                  d: seq<Mpfn>, f: Fates, a: Addr)
    requires Stages(w2, w3, w4, w5, place, sa, s, d, f) && !w2.At(a).Refers()
    ensures |d| == |s|
    ensures w5.At(a) == w2.At(a)
         || (w5.At(a).Refers() && exists j: nat :: j < |s| && s[j].page == None && d[j].On(w5.At(a).page))
  {
    hide Ended, PinsExact, SameBackers, OthersSame, PagesAfter, Backed, Kinds, Slots, AllFinalizable, PinsKept,
         SameStorage;
    assert w3.At(a) == PteAfter(w2, place, sa, d, f, |s|, a);
    assert w5.At(a) == FinalPte(w4, s, d, |s|, w4.At(a));
    if w3.At(a) != w2.At(a) {
      var j := a - place.value.start;
      assert RelSlot(w2, w3, place, j, sa[j], s[j], d[j], f, true);
      assert s[j].page == None && d[j].On(w3.At(a).page);
    }
  }

  lemma MovedBooks(w0: World, mem0: Mem, w2: World, w3: World, w4: World, w5: World, mem5: Mem, place: Option<Place>,
                   sa: seq<Mpfn>, s: seq<Mpfn>, d: seq<Mpfn>, f: Fates, p: Pid)
    requires Quiet(w0, mem0) && Carried(w0, w2) && SameView(w0, w2) && SlotsReady(w2, sa, d) && Quiet(w5, mem5)
    requires Stages(w2, w3, w4, w5, place, sa, s, d, f) && |s| == |d| && AllOrNothing(w0, w5, Moves(s, d), place, |s|)
    requires InUse(w0, p) && p in Moves(s, d) && FreshDst(w2, d)
    ensures p in w0.pages && p in w5.pages && HandedOver(w0, w5, p, Moves(s, d)[p])
  {
    hide Quiet, Carried, SameView, SlotsReady, Stages, AllOrNothing, Moves, World.Mappers, NotBacking, FreshDst;
    MovedRecord(w0, w2, w3, w4, w5, place, sa, s, d, f, p);
    CarriedUse(w0, w2, p);
    var q := Moves(s, d)[p];
    forall a ensures (a in w5.Mappers(q) <==> a in w0.Mappers(p)) && a !in w5.Mappers(p) {
      NoMigration(w0, mem0, a);
      MovedMappers(w0, w2, w3, w4, w5, place, sa, s, d, f, p, a);
      MapsAt(w5, q, a);
      MapsAt(w5, p, a);
      MapsAt(w0, p, a);
    }
    assert w5.Mappers(q) == w0.Mappers(p) && w5.Mappers(p) == {};
    QuietPage(w0, mem0, p);
    QuietPage(w5, mem5, p);
    QuietPage(w5, mem5, q);
    MovedLock(w0, w2, w3, w4, w5, place, sa, s, d, f, p);
  }

  lemma MovedLock(w0: World, w2: World, w3: World, w4: World, w5: World, place: Option<Place>, sa: seq<Mpfn>,
                  s: seq<Mpfn>, d: seq<Mpfn>, f: Fates, p: Pid)
    requires Stages(w2, w3, w4, w5, place, sa, s, d, f) && |s| == |d| && p in Moves(s, d)
    ensures Moves(s, d)[p] in w5.pages
    ensures w5.pages[Moves(s, d)[p]].lock.Ours() || w5.pages[Moves(s, d)[p]].lock == Unlocked
  {
    hide Stages, Moves, Ended, NotBacking, Slots, PagesRel, AllFinalizable, Backed;
    StageParts(w2, w3, w4, w5, place, sa, s, d, f);
    var i := MovedTo(s, d, p);
    DstNotBacking(w3, s, d, i);
    EndedPage(w4, w5, d[i].page.value);
    SlotHolds(w3, s, d, i);
  }

  // Without interference the books are exact.
  lemma BooksDone(w0: World, mem0: Mem, w2: World, w3: World, w4: World, w5: World, mem5: Mem, place: Option<Place>,
                  sa: seq<Mpfn>, s: seq<Mpfn>, d: seq<Mpfn>, f: Fates)
    requires Quiet(w0, mem0) && Carried(w0, w2) && SameView(w0, w2) && SlotsReady(w2, sa, d) && Quiet(w5, mem5)
    requires Stages(w2, w3, w4, w5, place, sa, s, d, f) && |s| == |d| && AllOrNothing(w0, w5, Moves(s, d), place, |s|)
    requires FreshDst(w2, d)
    ensures BooksExact(w0, w5, Moves(s, d))
  {
    hide Quiet, Carried, SameView, SlotsReady, Stages, AllOrNothing, Moves, NotBacking, FreshDst, HandedOver, InUse;
    KeysThrough(w0, w2, w3, w4, w5, place, sa, s, d, f);
    forall p | Known(w0, p) ensures BookedAt(w0, w5, Moves(s, d), p) {
      KnownUsed(w0, mem0, p);
      if p in Moves(s, d) {
        MovedBooks(w0, mem0, w2, w3, w4, w5, mem5, place, sa, s, d, f, p);
      } else {
        UnmovedBooks(w0, mem0, w2, w3, w4, w5, mem5, place, sa, s, d, f, p);
      }
    }
  }

  lemma KnownUsed(w: World, mem: Mem, p: Pid)
    requires Quiet(w, mem) && Known(w, p)
    ensures InUse(w, p)
  {}

  lemma KeysThrough(w0: World, w2: World, w3: World, w4: World, w5: World, place: Option<Place>, sa: seq<Mpfn>,
                    s: seq<Mpfn>, d: seq<Mpfn>, f: Fates)
    requires Carried(w0, w2) && Stages(w2, w3, w4, w5, place, sa, s, d, f)
    ensures w5.pages.Keys == w0.pages.Keys
  {}

  // With no migration in flight nothing keeps a page in use but those who use it.
  lemma InUseExactly(w: World, mem: Mem, p: Pid)
    requires Quiet(w, mem) && p in w.pages
    ensures w.Live(p) <==>
      w.Mappers(p) != {} || w.pages[p].CacheRefs() > 0 || OutsidePins(w.pages, p) > 0 || !NotBacking(p, w.pages)
  {
    QuietPage(w, mem, p);
    if !NotBacking(p, w.pages) { BackingLive(w, mem, p); }
    hide Quiet, NotBacking;
  }

  // Over any run, what others hold of a page changes with what they took and dropped of it alone:
  // a page they did not touch and that nothing refers to any more is free.
  lemma NoLeak(w0: World, h0: seq<Event>, w: World, mem: Mem, h: seq<Event>, p: Pid)
    requires Ledger(w0, h0, w, h) && h0 <= h && Quiet(w, mem) && p in w0.pages
    requires forall k | |h0| <= k < |h| :: h[k].Delta(p) == 0
    ensures p in w.pages && OutsidePins(w.pages, p) == OutsidePins(w0.pages, p)
    ensures OutsidePins(w0.pages, p) == 0 && w.Mappers(p) == {} && w.pages[p].CacheRefs() == 0 && NotBacking(p, w.pages) ==>
      w.Free(p)
  {
    NetSame(h0, h, p);
    InUseExactly(w, mem, p);
    hide Quiet, NotBacking, OutsidePins;
  }

  lemma {:induction false} NetSame(h0: seq<Event>, h: seq<Event>, p: Pid)
    requires h0 <= h && forall k | |h0| <= k < |h| :: h[k].Delta(p) == 0
    ensures Net(h, p) == Net(h0, p)
  {
    if |h0| < |h| {
      NetSame(h0, h[..|h| - 1], p);
    } else {
      assert h == h0;
    }
  }

  lemma BackingLive(w: World, mem: Mem, p: Pid)
    requires Quiet(w, mem) && p in w.pages && !NotBacking(p, w.pages)
    ensures w.Live(p)
  {
    var d :| LiveDevice(d, w.pages) && w.pages[d].backing == p;
    assert BackingOk(d, w.pages);
  }
}
