/**
  The result of a whole migration, from the state before migrate_vma_setup to the state after
  migrate_vma_finalize: every page moves completely or not at all, with its permissions.
*/
module Outcome {
  import opened Kernel
  import opened KernelSteps
  import opened Txn
  import opened Accounts
  import opened MachineState
  import opened MigrateCollect
  import opened MigrateUnmap
  import opened MigrateFinalize
  import opened MigratePages
  import opened Driver

  // Which page goes where
  function Moves(s: seq<Mpfn>, d: seq<Mpfn>): map<Pid, Pid>
    requires |s| == |d|
    decreases |s|
  {
    if s == [] then map[]
    else
      var rest := Moves(s[..|s| - 1], d[..|d| - 1]);
      var m, n := s[|s| - 1], d[|d| - 1];
      if Success(m, n) then rest[m.page.value := n.page.value] else rest
  }

  lemma {:induction false} MovesDomain(s: seq<Mpfn>, d: seq<Mpfn>, p: Pid)
    requires |s| == |d|
    ensures p in Moves(s, d) ==>
      exists i :: 0 <= i < |s| && Success(s[i], d[i]) && s[i].On(p) && d[i].On(Moves(s, d)[p])
    decreases |s|
  {
    if s != [] {
      var k := |s| - 1;
      MovesDomain(s[..k], d[..k], p);
      if p in Moves(s, d) {
        if Success(s[k], d[k]) && s[k].On(p) {
          assert d[k].On(Moves(s, d)[p]);
        } else {
          var i :| 0 <= i < k && Success(s[..k][i], d[..k][i]) && s[..k][i].On(p) && d[..k][i].On(Moves(s[..k], d[..k])[p]);
          assert Success(s[i], d[i]);
        }
      }
    }
  }

  lemma {:induction false} MovesSlot(s: seq<Mpfn>, d: seq<Mpfn>, i: nat)
    requires |s| == |d| && i < |s| && Success(s[i], d[i])
    ensures s[i].page.value in Moves(s, d)
    decreases |s|
  {
    if i < |s| - 1 { MovesSlot(s[..|s| - 1], d[..|d| - 1], i); }
  }

  // Slots hold different pages, so Moves is the slots' own assignment.
  lemma MovesOwn(w: World, s: seq<Mpfn>, d: seq<Mpfn>, i: nat)
    requires Slots(w, s, d) && i < |s| && s[i].page.Some?
    ensures s[i].page.value in Moves(s, d) <==> Success(s[i], d[i])
    ensures Success(s[i], d[i]) ==> Moves(s, d)[s[i].page.value] == d[i].page.value
  {
    var p := s[i].page.value;
    MovesDomain(s, d, p);
    if Success(s[i], d[i]) { MovesSlot(s, d, i); }
    SlotHolds(w, s, d, i);
    forall j | 0 <= j < |s| && s[j].On(p) ensures j == i { SlotHolds(w, s, d, j); }
  }

  // The entry of one address before and after
  predicate PteMoved(moves: map<Pid, Pid>, place: Option<Place>, n: nat, a: Addr, e: Pte, e': Pte) {
    if e.Refers() then
      e'.Refers() && !e'.Migration? && e'.write == e.write && e'.page == (if e.page in moves then moves[e.page] else e.page)
    else
      || e' == e
      || (place.Some? && place.value.start <= a < place.value.start + n && place.value.vma.anonymous
          && (e.NoPte? || e.ZeroPte?) && e'.Refers() && !e'.Migration? && e'.write == place.value.vma.writable)
  }

  ghost predicate Unreferenced(w: World, q: Pid) {
    forall a: Addr :: w.At(a).Refers() ==> w.At(a).page != q
  }

  // Every page moves as a whole, to a page of its own that nobody used, keeping permissions
  ghost predicate AllOrNothing(w0: World, w: World, moves: map<Pid, Pid>, place: Option<Place>, n: nat) {
    && (forall a: Addr :: PteMoved(moves, place, n, a, w0.At(a), w.At(a)))
    && (forall p | p in moves :: Unreferenced(w0, moves[p]))
    && (forall p, r | p in moves && r in moves && p != r :: moves[p] != moves[r])
  }

  // The last three stages of one migration without interference
  ghost predicate Stages(w2: World, w3: World, w4: World, w5: World,
                         place: Option<Place>, s0: seq<Mpfn>, s: seq<Mpfn>, d: seq<Mpfn>, f: Fates) {
    && |s0| == |s| == |d|
    && PagesRel(w2, w3, place, s0, s, d, f, |s|)
    && w4.pt == w3.pt && w4.pages == w3.pages
    && Finalized(w4, w5, s, d, |s|)
    && Kinds(w3.pt, w3.pages) && Slots(w3, s, d) && AllFinalizable(w3, s, d)
    && Backed(w3.pages) && Ended(w4, w5)
  }

  lemma StageAddr(w2: World, w3: World, w4: World, w5: World,
                  place: Option<Place>, s0: seq<Mpfn>, s: seq<Mpfn>, d: seq<Mpfn>, f: Fates, a: Addr)
    requires Stages(w2, w3, w4, w5, place, s0, s, d, f)
    ensures PteMoved(Moves(s, d), place, |s|, a, w2.At(a), w5.At(a))
  {
    hide Ended, PinsExact, SameBackers, OthersSame, PagesAfter, Backed;
    hide Kinds, Slots, AllFinalizable;
    assert w3.At(a) == PteAfter(w2, place, s0, d, f, |s|, a);
    assert w5.At(a) == FinalPte(w4, s, d, |s|, w4.At(a));
    if w2.At(a).Refers() { ReferredAddr(w3, s, d, a); }
  }

  // An address that refers to a page before finalize
  lemma ReferredAddr(w: World, s: seq<Mpfn>, d: seq<Mpfn>, a: Addr)
    requires Kinds(w.pt, w.pages) && Slots(w, s, d) && AllFinalizable(w, s, d) && w.At(a).Refers()
    ensures var e := FinalPte(w, s, d, |s|, w.At(a)); var p := w.At(a).page;
            && e.Refers() && !e.Migration? && e.write == w.At(a).write
            && e.page == if p in Moves(s, d) then Moves(s, d)[p] else p
  {
    var p := w.At(a).page;
    assert PteOk(w.pt[a], w.pages);
    if w.At(a).Migration? {
      assert SlotOf(w.pages[p].lock, p, s, d);
      MovesOwn(w, s, d, w.pages[p].lock.i);
    } else {
      MovedUnmapped(w, s, d, p);
      assert a in w.Mappers(p);
    }
  }

  lemma MovedUnmapped(w: World, s: seq<Mpfn>, d: seq<Mpfn>, p: Pid)
    requires AllFinalizable(w, s, d) && Slots(w, s, d)
    ensures p in Moves(s, d) ==> w.Mappers(p) == {}
    ensures p in Moves(s, d) ==> w.Mappers(Moves(s, d)[p]) == {} && Moves(s, d)[p] in w.pages
    ensures p in Moves(s, d) ==> w.pages[Moves(s, d)[p]].lock.DstSlot?
  {
    MovesDomain(s, d, p);
    if p in Moves(s, d) {
      var i :| 0 <= i < |s| && Success(s[i], d[i]) && s[i].On(p) && d[i].On(Moves(s, d)[p]);
      assert Finalizable(w, s[i], d[i]);
      SlotHolds(w, s, d, i);
    }
  }

  lemma NewUnreferenced(w2: World, w3: World, w4: World, w5: World,
                        place: Option<Place>, s0: seq<Mpfn>, s: seq<Mpfn>, d: seq<Mpfn>, f: Fates, p: Pid)
    requires Stages(w2, w3, w4, w5, place, s0, s, d, f) && p in Moves(s, d)
    ensures Unreferenced(w2, Moves(s, d)[p])
  {
    hide Ended, PinsExact, SameBackers, OthersSame, PagesAfter, Backed;
    hide Kinds, Slots, AllFinalizable, Moves, World.Mappers;
    MovedUnmapped(w3, s, d, p);
    var q := Moves(s, d)[p];
    forall a: Addr ensures w2.At(a).Refers() ==> w2.At(a).page != q {
      assert w3.At(a) == PteAfter(w2, place, s0, d, f, |s|, a);
      if w2.At(a).Refers() { Unreferred(w3, q, a); }
    }
  }

  lemma MovesInjective(w: World, s: seq<Mpfn>, d: seq<Mpfn>, p: Pid, r: Pid)
    requires Slots(w, s, d) && p in Moves(s, d) && r in Moves(s, d) && p != r
    ensures Moves(s, d)[p] != Moves(s, d)[r]
  {
    MovesDomain(s, d, p);
    MovesDomain(s, d, r);
    var i :| 0 <= i < |s| && Success(s[i], d[i]) && s[i].On(p) && d[i].On(Moves(s, d)[p]);
    var j :| 0 <= j < |s| && Success(s[j], d[j]) && s[j].On(r) && d[j].On(Moves(s, d)[r]);
    SlotHolds(w, s, d, i);
    SlotHolds(w, s, d, j);
  }

  lemma StagesMove(w2: World, w3: World, w4: World, w5: World,
                   place: Option<Place>, s0: seq<Mpfn>, s: seq<Mpfn>, d: seq<Mpfn>, f: Fates)
    requires Stages(w2, w3, w4, w5, place, s0, s, d, f)
    ensures AllOrNothing(w2, w5, Moves(s, d), place, |s|)
  {
    forall a: Addr { StageAddr(w2, w3, w4, w5, place, s0, s, d, f, a); }
    forall p | p in Moves(s, d) { NewUnreferenced(w2, w3, w4, w5, place, s0, s, d, f, p); }
    forall p, r | p in Moves(s, d) && r in Moves(s, d) && p != r { MovesInjective(w3, s, d, p, r); }
    hide PteMoved, Unreferenced, Moves;
  }

  // Collect and unmap change how an address refers to its page, not which page it is.
  lemma AllOrNothingFrom(w0: World, w2: World, w5: World, moves: map<Pid, Pid>, place: Option<Place>, n: nat)
    requires SameView(w0, w2) && AllOrNothing(w2, w5, moves, place, n)
    ensures AllOrNothing(w0, w5, moves, place, n)
  {
    forall a: Addr ensures PteMoved(moves, place, n, a, w0.At(a), w5.At(a)) {
      assert SameRef(w0.At(a), w2.At(a)) && PteMoved(moves, place, n, a, w2.At(a), w5.At(a));
    }
    forall p | p in moves ensures Unreferenced(w0, moves[p]) {
      assert Unreferenced(w2, moves[p]);
      forall a: Addr ensures w0.At(a).Refers() ==> w0.At(a).page != moves[p] {
        assert SameRef(w0.At(a), w2.At(a));
      }
    }
  }

  // No page with an outside reference ever moves; the page that a fault handler holds may.
  lemma MovedUnpinned(w2: World, w3: World, place: Option<Place>, s0: seq<Mpfn>, s: seq<Mpfn>, d: seq<Mpfn>, f: Fates,
                      p: Pid)
    requires |s0| == |s| == |d| && PagesRel(w2, w3, place, s0, s, d, f, |s|) && p in Moves(s, d)
    ensures p in w2.pages && w2.pages[p].pins == if f.faultPage == Some(p) then 1 else 0
  {
    hide PinsExact, SameBackers, OthersSame, PagesAfter;
    MovesDomain(s, d, p);
    var i :| 0 <= i < |s| && Success(s[i], d[i]) && s[i].On(p) && d[i].On(Moves(s, d)[p]);
    assert RelSlot(w2, w3, place, i, s0[i], s[i], d[i], f, true);
  }

  // ----- which addresses turned into system memory

  // Every device page that moved is mapped as system memory afterwards, and no other is
  ghost predicate Converts(w0: World, w: World, moves: map<Pid, Pid>) {
    forall a: Addr | w0.At(a).Refers() && IsDevicePage(w0, Some(w0.At(a).page)) :: w.At(a).Present? <==> w0.At(a).page in moves
  }

  // Each page that moved was found at an address of the range
  ghost predicate FromRange(w0: World, moves: map<Pid, Pid>, start: Addr, n: nat) {
    forall p | p in moves :: FoundIn(w0, p, start, n)
  }

  ghost predicate FoundIn(w: World, p: Pid, start: Addr, n: nat) {
    IsDevicePage(w, Some(p)) && exists a: Addr :: start <= a < start + n && w.At(a).Refers() && w.At(a).page == p
  }

  // Slots with a new page hold a device page, and the new page is system memory
  ghost predicate SystemTargets(w: World, s: seq<Mpfn>, d: seq<Mpfn>) {
    |s| == |d| && forall i {:trigger d[i]} | 0 <= i < |d| && d[i].page.Some? ::
      IsDevicePage(w, s[i].page) && IsSystemPage(w, d[i].page)
  }

  lemma StageConverts(w2: World, w3: World, w4: World, w5: World,
                      place: Option<Place>, s0: seq<Mpfn>, s: seq<Mpfn>, d: seq<Mpfn>, f: Fates, a: Addr)
    requires Stages(w2, w3, w4, w5, place, s0, s, d, f) && SystemTargets(w3, s, d)
    requires w2.At(a).Refers() && IsDevicePage(w2, Some(w2.At(a).page))
    ensures w5.At(a).Present? <==> w2.At(a).page in Moves(s, d)
  {
    hide Ended, PinsExact, SameBackers, OthersSame, PagesAfter, Backed;
    hide AllFinalizable;
    var p := w2.At(a).page;
    assert w3.At(a) == PteAfter(w2, place, s0, d, f, |s|, a);
    assert w5.At(a) == FinalPte(w4, s, d, |s|, w4.At(a));
    assert SameBits(w2.pages[p], w3.pages[p]);
    assert PteOk(w3.pt[a], w3.pages);
    if w3.At(a).Migration? {
      assert SlotOf(w3.pages[p].lock, p, s, d);
      MovesOwn(w3, s, d, w3.pages[p].lock.i);
    } else {
      MovedUnmapped(w3, s, d, p);
      assert a in w3.Mappers(p);
    }
  }

  // Going to the system no new page is mapped at an empty address.
  lemma StageNoInsert(w2: World, w3: World, w4: World, w5: World,
                      place: Option<Place>, s0: seq<Mpfn>, s: seq<Mpfn>, d: seq<Mpfn>, f: Fates, a: Addr)
    requires Stages(w2, w3, w4, w5, place, s0, s, d, f) && SystemTargets(w3, s, d) && !w2.At(a).Refers()
    ensures w5.At(a) == w2.At(a)
  {
    hide Ended, PinsExact, SameBackers, OthersSame, PagesAfter, Backed;
    hide AllFinalizable, Kinds, Slots;
    assert w3.At(a) == PteAfter(w2, place, s0, d, f, |s|, a);
    assert w5.At(a) == FinalPte(w4, s, d, |s|, w4.At(a));
    if place.Some? && place.value.start <= a < place.value.start + |s| {
      var i := a - place.value.start;
      assert RelSlot(w2, w3, place, i, s0[i], s[i], d[i], f, true);
    }
  }

  // The result of a migration to the system
  ghost predicate SystemMove(w0: World, w: World, moves: map<Pid, Pid>, start: Addr, n: nat) {
    Converts(w0, w, moves) && FromRange(w0, moves, start, n) && NoneInserted(w0, w)
  }

  ghost predicate NoneInserted(w0: World, w: World) {
    forall a: Addr | !w0.At(a).Refers() :: w.At(a) == w0.At(a)
  }

  lemma StagesConvert(w2: World, w3: World, w4: World, w5: World,
                      place: Place, s0: seq<Mpfn>, s: seq<Mpfn>, d: seq<Mpfn>, f: Fates)
    requires Stages(w2, w3, w4, w5, Some(place), s0, s, d, f) && SystemTargets(w3, s, d)
    requires SlotPtes(w2, s0, Some(place.start))
    ensures SystemMove(w2, w5, Moves(s, d), place.start, |s|)
  {
    forall a: Addr | !w2.At(a).Refers() ensures w5.At(a) == w2.At(a) {
      StageNoInsert(w2, w3, w4, w5, Some(place), s0, s, d, f, a);
    }
    hide Stages;
    forall a: Addr | w2.At(a).Refers() && IsDevicePage(w2, Some(w2.At(a).page))
      ensures w5.At(a).Present? <==> w2.At(a).page in Moves(s, d)
    {
      StageConverts(w2, w3, w4, w5, Some(place), s0, s, d, f, a);
    }
    forall p | p in Moves(s, d) ensures FoundIn(w2, p, place.start, |s|) {
      MovedFound(w2, w3, place, s0, s, d, f, p);
    }
  }

  lemma MovedFound(w2: World, w3: World, place: Place, s0: seq<Mpfn>, s: seq<Mpfn>, d: seq<Mpfn>, f: Fates, p: Pid)
    requires |s0| == |s| == |d| && PagesRel(w2, w3, Some(place), s0, s, d, f, |s|) && SystemTargets(w3, s, d)
    requires SlotPtes(w2, s0, Some(place.start)) && p in Moves(s, d)
    ensures FoundIn(w2, p, place.start, |s|)
  {
    hide PinsExact, SameBackers, OthersSame, PagesAfter;
    MovesDomain(s, d, p);
    var i :| 0 <= i < |s| && Success(s[i], d[i]) && s[i].On(p) && d[i].On(Moves(s, d)[p]);
    assert RelSlot(w2, w3, Some(place), i, s0[i], s[i], d[i], f, true);
    assert s0[i].page == Some(p);
    assert w2.At(place.start + i) == Migration(p, s0[i].write);
    assert p in w2.pages ==> SameBits(w2.pages[p], w3.pages[p]);
  }

  // The entries of a range that were device memory and are now system memory
  function Turned(w0: World, w: World, start: Addr, end: Addr): set<Addr> {
    set a: Addr | start <= a < end && w0.At(a).DevicePrivate? && w.At(a).Present?
  }

  // No page is mapped twice within the range
  ghost predicate Unshared(w: World, start: Addr, end: Addr) {
    forall a, b: Addr | start <= a < end && start <= b < end && RefersTo(w.At(a), w.At(b)) :: a == b
  }

  lemma {:induction false} PagesCount(w: World, addrs: set<Addr>, ps: set<Pid>)
    requires forall a | a in addrs :: w.At(a).Refers() && w.At(a).page in ps
    requires forall a, b | a in addrs && b in addrs && RefersTo(w.At(b), w.At(a)) :: a == b
    requires forall p | p in ps :: exists a | a in addrs :: w.At(a).Refers() && w.At(a).page == p
    ensures |addrs| == |ps|
  {
    if ps != {} {
      var p :| p in ps;
      var a :| a in addrs && w.At(a).Refers() && w.At(a).page == p;
      PagesCount(w, addrs - {a}, ps - {p});
    }
  }

  lemma TurnedCount(w0: World, w: World, mem: Mem, moves: map<Pid, Pid>, start: Addr, n: nat)
    requires Quiet(w0, mem) && Unshared(w0, start, start + n) && SystemMove(w0, w, moves, start, n)
    ensures |Turned(w0, w, start, start + n)| == |moves|
  {
    var addrs := Turned(w0, w, start, start + n);
    forall a | a in addrs ensures w0.At(a).page in moves.Keys { assert PteOk(w0.pt[a], w0.pages); }
    forall p | p in moves.Keys ensures exists a | a in addrs :: w0.At(a).Refers() && w0.At(a).page == p {
      assert FoundIn(w0, p, start, n);
      var a: Addr :| start <= a < start + n && w0.At(a).Refers() && w0.At(a).page == p;
      assert PteOk(w0.pt[a], w0.pages);
      assert a in addrs;
    }
    PagesCount(w0, addrs, moves.Keys);
  }

  // Collect and unmap do not change which addresses are meant.
  lemma ConvertsFrom(w0: World, w2: World, w5: World, mem: Mem, moves: map<Pid, Pid>, start: Addr, n: nat)
    requires w0.Inv(mem) && SameView(w0, w2) && PinsKept(w0, w2)
    requires SystemMove(w2, w5, moves, start, n)
    ensures SystemMove(w0, w5, moves, start, n)
  {
    forall a: Addr | !w0.At(a).Refers() ensures w5.At(a) == w0.At(a) { assert SameRef(w0.At(a), w2.At(a)); }
    forall a: Addr | w0.At(a).Refers() && IsDevicePage(w0, Some(w0.At(a).page))
      ensures w5.At(a).Present? <==> w0.At(a).page in moves
    {
      assert SameRef(w0.At(a), w2.At(a)) && PinKept(w0, w2, w0.At(a).page);
    }
    forall p | p in moves ensures FoundIn(w0, p, start, n) {
      assert FoundIn(w2, p, start, n);
      var a: Addr :| start <= a < start + n && w2.At(a).Refers() && w2.At(a).page == p;
      assert SameRef(w0.At(a), w2.At(a));
      assert PteOk(w0.pt[a], w0.pages) && PinKept(w0, w2, p);
    }
  }

  // ----- dmirror_successful_migrated_pages

  // Every slot that still migrates has its new page
  ghost predicate HavePages(s: seq<Mpfn>, d: seq<Mpfn>) {
    |s| == |d| && forall i {:trigger s[i]} | 0 <= i < |s| && s[i].page.Some? && s[i].migrate :: d[i].page.Some?
  }

  ghost predicate DistinctPages(s: seq<Mpfn>) {
    forall i, j | 0 <= i < j < |s| && s[i].page.Some? && s[j].page.Some? :: s[i].page != s[j].page
  }

  lemma SlotsDistinct(w: World, s: seq<Mpfn>, d: seq<Mpfn>)
    requires Slots(w, s, d)
    ensures DistinctPages(s)
  {
    forall i, j | 0 <= i < j < |s| && s[i].page.Some? && s[j].page.Some? ensures s[i].page != s[j].page {
      SlotHolds(w, s, d, i);
      SlotHolds(w, s, d, j);
    }
  }

  lemma {:induction false} MovesCount(s: seq<Mpfn>, d: seq<Mpfn>)
    requires HavePages(s, d) && DistinctPages(s)
    ensures |Moves(s, d)| == |SuccessSet(s)|
    decreases |s|
  {
    if s != [] {
      var k := |s| - 1;
      MovesCount(s[..k], d[..k]);
      SuccessStep(s, k);
      MovesStep(s, d, k);
    }
  }

  lemma SuccessStep(s: seq<Mpfn>, k: nat)
    requires |s| == k + 1
    ensures |SuccessSet(s)| == |SuccessSet(s[..k])| + if s[k].page.Some? && s[k].migrate then 1 else 0
  {
    if s[k].page.Some? && s[k].migrate {
      assert SuccessSet(s) == SuccessSet(s[..k]) + {k};
    } else {
      assert SuccessSet(s) == SuccessSet(s[..k]);
    }
  }

  lemma MovesStep(s: seq<Mpfn>, d: seq<Mpfn>, k: nat)
    requires HavePages(s, d) && DistinctPages(s) && |s| == k + 1
    ensures |Moves(s, d)| == |Moves(s[..k], d[..k])| + if s[k].page.Some? && s[k].migrate then 1 else 0
  {
    if Success(s[k], d[k]) {
      var p := s[k].page.value;
      MovesDomain(s[..k], d[..k], p);
      assert Moves(s, d).Keys == Moves(s[..k], d[..k]).Keys + {p};
    }
  }

  lemma PagesBacked(w0: World, w: World, place: Option<Place>, s0: seq<Mpfn>, s: seq<Mpfn>, d: seq<Mpfn>, f: Fates)
    requires PagesRel(w0, w, place, s0, s, d, f, |s|)
    ensures HavePages(s, d)
  {
    hide PinsExact, SameBackers, OthersSame, PagesAfter;
    forall i | 0 <= i < |s| && s[i].page.Some? && s[i].migrate ensures d[i].page.Some? {
      assert RelSlot(w0, w, place, i, s0[i], s[i], d[i], f, true);
    }
  }

  method SuccessfulPages(src: array<Mpfn>, npages: nat) returns (cpages: nat)
    requires npages <= src.Length
    ensures cpages == |SuccessSet(src[..npages])|
  {
    cpages := 0;
    var i := 0;
    while i < npages
      invariant 0 <= i <= npages && cpages == |SuccessSet(src[..i])|
    {
      if src[i].page.Some? && src[i].migrate {
        assert SuccessSet(src[..i + 1]) == SuccessSet(src[..i]) + {i};
        cpages := cpages + 1;
      } else {
        assert SuccessSet(src[..i + 1]) == SuccessSet(src[..i]);
      }
      i := i + 1;
    }
  }
}
