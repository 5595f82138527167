/**
  hmm.c: device accesses through the mirror page table.  dmirror_read and dmirror_write copy what
  they can, drop the lock, fault the rest in and resume; others run in between.
*/
module Transfer {
  import opened Kernel
  import opened KernelSteps
  import opened Txn
  import opened Accounts
  import opened MachineState
  import opened MigrateUnmap
  import opened Environment
  import opened Faulting

  // ----- one attempt: copy until an entry is missing

  method DoRead(m: Machine, base: Addr, start: Addr, end: Addr, bounce: array<PageData>,
                cpages: nat) returns (ok: bool, copied: nat)
    requires Quiet(m.w, m.mem) && start == base + cpages && start <= end && end - base <= bounce.Length
    modifies bounce
    ensures cpages <= copied <= end - base && (ok <==> copied == end - base)
    ensures Covered(m.w, start, base + copied, false) && (!ok ==> !Accessible(m.w, base + copied, false))
    ensures forall i | cpages <= i < copied :: bounce[i] == MemAt(m.mem, base + i)
    ensures forall i | 0 <= i < bounce.Length && !(cpages <= i < copied) :: bounce[i] == old(bounce[i])
  {
    hide Quiet;
    copied := cpages;
    var ptr, pfn := start - base, start;
    while pfn < end
      invariant start <= pfn <= end && ptr == copied == pfn - base
      invariant Covered(m.w, start, pfn, false)
      invariant forall i | cpages <= i < copied :: bounce[i] == MemAt(m.mem, base + i)
      invariant forall i | 0 <= i < bounce.Length && !(cpages <= i < copied) :: bounce[i] == old(bounce[i])
    {
      if pfn !in m.w.mirror {
        return false, copied;
      }
      EntryReads(m.w, m.mem, pfn);
      bounce[ptr] := FrameData(m.w, m.w.mirror[pfn].frame);
      ptr, copied, pfn := ptr + 1, copied + 1, pfn + 1;
    }
    return true, copied;
  }

  // The writes of pages lo to hi of a buffer
  function WriteLog(base: Addr, data: seq<PageData>, lo: nat, hi: nat): (r: seq<Event>)
    requires lo <= hi <= |data|
    ensures |r| == hi - lo
  {
    seq(hi - lo, i requires 0 <= i < hi - lo => Wrote(base + lo + i, data[lo + i]))
  }

  lemma LogNone(base: Addr, data: seq<PageData>, lo: nat)
    requires lo <= |data|
    ensures WriteLog(base, data, lo, lo) == []
  {}

  lemma LogStep(base: Addr, data: seq<PageData>, lo: nat, hi: nat)
    requires lo <= hi < |data|
    ensures WriteLog(base, data, lo, hi + 1) == WriteLog(base, data, lo, hi) + [Wrote(base + hi, data[hi])]
  {}

  lemma LogJoin(h: seq<Event>, base: Addr, data: seq<PageData>, lo: nat, hi: nat)
    requires lo <= hi <= |data|
    ensures h + WriteLog(base, data, 0, lo) + WriteLog(base, data, lo, hi) == h + WriteLog(base, data, 0, hi)
  {}

  // A store through the mirror changes the contents of pages and nothing else.
  ghost predicate DataOnly(w: World, w': World) {
    w'.pt == w.pt && w'.mirror == w.mirror && w'.pages.Keys == w.pages.Keys
    && forall p | p in w.pages :: w'.pages[p] == w.pages[p].(data := w'.pages[p].data)
  }

  lemma DataLedger(w0: World, h0: seq<Event>, w: World, h: seq<Event>, w': World, h': seq<Event>)
    requires Ledger(w0, h0, w, h) && DataOnly(w, w') && forall p :: Net(h', p) == Net(h, p)
    ensures Ledger(w0, h0, w', h')
  {
    forall d ensures (LiveDevice(d, w'.pages) <==> LiveDevice(d, w.pages))
                     && (LiveDevice(d, w.pages) ==> w'.pages[d].backing == w.pages[d].backing) {}
    PinsOf(w, w');
    hide OutsidePins;
  }

  method DoWrite(m: Machine, base: Addr, start: Addr, end: Addr, data: seq<PageData>, cpages: nat) returns (ok: bool,
                 copied: nat)
    requires Quiet(m.w, m.mem) && m.Recorded() && start == base + cpages && start <= end && end - base <= |data|
    modifies m
    ensures Quiet(m.w, m.mem) && m.Recorded() && DataOnly(old(m.w), m.w)
    ensures cpages <= copied <= end - base && (ok <==> copied == end - base)
    ensures Covered(m.w, start, base + copied, true) && (!ok ==> !Accessible(m.w, base + copied, true))
    ensures m.history == old(m.history) + WriteLog(base, data, cpages, copied)
    ensures Ledger(old(m.w), old(m.history), m.w, m.history)
  {
    hide Quiet, WriteLog, DataOnly, Ledger, Covered;
    ghost var h := m.history;
    DataSelf(m.w);
    LedgerSelf(m.w, h);
    CoveredNone(m.w, start, true);
    copied := cpages;
    LogNone(base, data, cpages);
    var ptr, pfn := start - base, start;
    while pfn < end
      invariant start <= pfn <= end && ptr == copied == pfn - base
      invariant Quiet(m.w, m.mem) && m.Recorded() && DataOnly(old(m.w), m.w)
      invariant Covered(m.w, start, pfn, true)
      invariant m.history == h + WriteLog(base, data, cpages, copied) && Ledger(old(m.w), h, m.w, m.history)
    {
      if !Accessible(m.w, pfn, true) {
        return false, copied;
      }
      ghost var w, h1 := m.w, m.history;
      EntryWrites(m.w, m.mem, pfn, data[ptr]);
      m.w := Stored(m.w, m.w.mirror[pfn].frame.pid, data[ptr]);
      m.Record(Wrote(pfn, data[ptr]));
      LogStep(base, data, cpages, copied);
      assert m.history == h + WriteLog(base, data, cpages, copied + 1);
      StoredData(w, w.mirror[pfn].frame.pid, data[ptr]);
      DataTrans(old(m.w), w, m.w);
      DataLedger(old(m.w), h, w, h1, m.w, m.history);
      CoveredData(w, m.w, start, pfn, true);
      CoveredOne(w, m.w, start, pfn, true);
      ptr, copied, pfn := ptr + 1, copied + 1, pfn + 1;
    }
    return true, copied;
  }

  lemma StoredData(w: World, p: Pid, v: PageData)
    requires p in w.pages
    ensures DataOnly(w, Stored(w, p, v))
  {}

  lemma CoveredOne(w: World, w': World, lo: Addr, a: Addr, write: bool)
    requires lo <= a && Covered(w', lo, a, write) && Accessible(w, a, write) && DataOnly(w, w')
    ensures Covered(w', lo, a + 1, write)
  {}

  // ----- the resumable loops

  // One failed attempt is followed by one fault; then others run before the next attempt
  datatype Round = Round(fault: FaultFate, after: seq<Action>)
  {
    // How often others take away what the fault for [start, end) brings into the mirror
    function Hits(start: Addr, end: Addr): nat
      requires start <= end
    {
      PieceHits(fault.ranges, start, Pieces(end - start)) + HitCount(after, start, end)
    }

    predicate Calm(start: Addr, end: Addr)
      requires start <= end
    {
      fault.alive && Hits(start, end) == 0
    }

    // Nobody else runs
    ghost predicate Alone() {
      fault.Alone() && after == []
    }

    // No page of a parent becomes one of the range
    ghost predicate NoChildren(start: Addr, end: Addr) {
      Faulting.NoChildren(fault, start, end) && NoChild(after, start, end)
    }

    // The fault meets nobody; then the page before the range is unmapped, and nothing of the range
    predicate Unmaps(start: Addr) {
      start > 0 && fault.alive && after == [Unmap(start - 1)]
    }

    ghost predicate Undercuts(w: World, start: Addr) {
      Unmaps(start) && fault.Alone() && InPlace(w, start - 1)
    }

    // The process has exited and nobody else runs
    predicate Dead() {
      !fault.alive && after == []
    }
  }

  ghost predicate AllAlone(rounds: seq<Round>, n: nat) {
    forall k | 0 <= k < n && k < |rounds| :: rounds[k].Alone()
  }

  predicate AllDead(rounds: seq<Round>, n: nat) {
    forall k | 0 <= k < n && k < |rounds| :: rounds[k].Dead()
  }

  lemma RoundsStep(rounds: seq<Round>, n: nat)
    requires n < |rounds|
    ensures AllAlone(rounds, n + 1) <==> AllAlone(rounds, n) && rounds[n].Alone()
    ensures AllDead(rounds, n + 1) <==> AllDead(rounds, n) && rounds[n].Dead()
    ensures AllAlone(rounds, |rounds|) ==> rounds[n].Alone()
    ensures AllDead(rounds, |rounds|) ==> rounds[n].Dead()
  {
    hide Round.Alone, Round.Dead;
  }

  lemma RoundsSofar(rounds: seq<Round>, n: nat)
    ensures AllAlone(rounds, |rounds|) ==> AllAlone(rounds, n)
    ensures AllDead(rounds, |rounds|) ==> AllDead(rounds, n)
  {
    hide Round.Alone, Round.Dead;
  }

  lemma NoRounds(rounds: seq<Round>, t: nat)
    ensures AllAlone(rounds, 0) && AllDead(rounds, 0) && LateFrom([], t)
  {}

  // All of it happened when the history was at least t events long
  predicate LateFrom(times: seq<nat>, t: nat) {
    forall i | 0 <= i < |times| :: t <= times[i]
  }

  lemma LateMore(times: seq<nat>, t: nat, x: nat, n: nat)
    requires LateFrom(times, t) && t <= x
    ensures LateFrom(times + Repeated(x, n), t) && LateFrom(times + UpFrom(x, n), t)
  {}

  // Pending: the loop is still running when the rounds are over
  datatype Outcome = Done | Failed | Pending | Raw

  // Page i was read when the history was t events long
  predicate ReadAt(history: seq<Event>, base: Addr, data: seq<PageData>, i: nat, t: nat) {
    i < |data| && t <= |history| && data[i] == MemAt(Replay(history[..t]), base + i)
  }

  predicate Rising(times: seq<nat>) {
    forall i, j | 0 <= i < j < |times| :: times[i] <= times[j]
  }

  ghost predicate ReadThen(history: seq<Event>, base: Addr, data: seq<PageData>, times: seq<nat>) {
    (forall i | 0 <= i < |times| :: ReadAt(history, base, data, i, times[i])) && Rising(times)
  }

  // Page i was written by event times[i]
  ghost predicate WroteThen(history: seq<Event>, base: Addr, data: seq<PageData>, times: seq<nat>) {
    && |times| <= |data|
    && (forall i | 0 <= i < |times| :: times[i] < |history| && history[times[i]] == Wrote(base + i, data[i]))
    && (forall i, j | 0 <= i < j < |times| :: times[i] < times[j])
  }

  function Repeated(x: nat, n: nat): (r: seq<nat>)
    ensures |r| == n
  {
    seq(n, i => x)
  }

  function UpFrom(x: nat, n: nat): (r: seq<nat>)
    ensures |r| == n
  {
    seq(n, i requires 0 <= i < n => x + i)
  }

  lemma ReadLater(h: seq<Event>, h': seq<Event>, base: Addr, data: seq<PageData>, times: seq<nat>)
    requires ReadThen(h, base, data, times) && h <= h'
    ensures ReadThen(h', base, data, times)
  {
    forall i | 0 <= i < |times| ensures ReadAt(h', base, data, i, times[i]) {
      assert ReadAt(h, base, data, i, times[i]);
      assert h'[..times[i]] == h[..times[i]];
    }
  }

  lemma ReadMore(m: map<Addr, PageData>, h: seq<Event>, base: Addr, data: seq<PageData>, data': seq<PageData>,
                 times: seq<nat>, copied: nat)
    requires ReadThen(h, base, data, times) && m == Replay(h) && |times| <= copied <= |data'| && |data'| == |data|
    requires forall i | 0 <= i < |times| :: data'[i] == data[i]
    requires forall i | |times| <= i < copied :: data'[i] == MemAt(m, base + i)
    ensures ReadThen(h, base, data', times + Repeated(|h|, copied - |times|))
  {
    var times' := times + Repeated(|h|, copied - |times|);
    RisingMore(times, |h|, copied - |times|, h, base, data);
    hide Rising, MemAt, Replay, ReadAt;
    forall i | 0 <= i < |times'| ensures ReadAt(h, base, data', i, times'[i]) {
      if i < |times| {
        assert times'[i] == times[i];
        ReadSame(h, base, data, data', i, times[i]);
      } else {
        ReadNow(m, h, base, data', i);
      }
    }
  }

  lemma ReadSame(h: seq<Event>, base: Addr, data: seq<PageData>, data': seq<PageData>, i: nat, t: nat)
    requires ReadAt(h, base, data, i, t) && i < |data'| && data'[i] == data[i]
    ensures ReadAt(h, base, data', i, t)
  {}

  lemma ReadNow(m: map<Addr, PageData>, h: seq<Event>, base: Addr, data: seq<PageData>, i: nat)
    requires m == Replay(h) && i < |data| && data[i] == MemAt(m, base + i)
    ensures ReadAt(h, base, data, i, |h|)
  {
    assert h[..|h|] == h;
  }

  lemma RisingMore(times: seq<nat>, t: nat, n: nat, h: seq<Event>, base: Addr, data: seq<PageData>)
    requires ReadThen(h, base, data, times) && t == |h|
    ensures Rising(times + Repeated(t, n))
  {
    forall i | 0 <= i < |times| ensures times[i] <= t { assert ReadAt(h, base, data, i, times[i]); }
    hide ReadAt;
  }

  lemma WroteMore(h: seq<Event>, base: Addr, data: seq<PageData>, times: seq<nat>, copied: nat)
    requires WroteThen(h, base, data, times) && |times| <= copied <= |data|
    ensures WroteThen(h + WriteLog(base, data, |times|, copied), base, data, times + UpFrom(|h|, copied - |times|))
  {}

  method QuietRun(m: Machine, acts: seq<Action>)
    requires Quiet(m.w, m.mem) && m.Recorded()
    modifies m
    ensures Quiet(m.w, m.mem) && m.Recorded() && old(m.history) <= m.history
    ensures Ledger(old(m.w), old(m.history), m.w, m.history) && MissedSpared(old(m.w), m.w, acts)
    ensures StaysMappable(old(m.w), m.w, acts) && m.w == ActAll(old(m.w), acts)
    ensures acts == [] ==> m.w == old(m.w) && m.mem == old(m.mem) && m.history == old(m.history)
  {
    hide Quiet, World.Inv, EnvRel, Ledger, MissedSpared, StaysMappable, ActAll;
    ghost var w0, mem0 := m.w, m.mem;
    QuietParts(w0, mem0);
    Interfere(m, acts);
    EnvKeepsQuiet(w0, m.w, mem0, m.mem);
  }

  // What a fault for the range comes to, and what it leaves after others have run
  ghost predicate FaultMade(w: World, w': World, start: Addr, end: Addr, write: bool, round: Round, f: Fault)
    requires start <= end
  {
    && (round.fault.Alone() && round.fault.alive && Provided(w, round.fault, start, end, write) ==>
          && (f.StoredRaw? <==> RawFirst(w, start, end, write)) && (f.Faulted? <==> !StoresRaw(w, start, end)))
    && (!write && AllMappable(w, start, end) && round.NoChildren(start, end) ==>
          f.Faulted? && AllMappable(w', start, end))
    && (f.Faulted? && start < end && round.Undercuts(w, start) ==> !Accessible(w', start, write))
  }

  // A failed attempt: fault the rest in, and others run before the next attempt
  method FaultRound(m: Machine, start: Addr, end: Addr, write: bool, round: Round) returns (r: Fault)
    requires start <= end && Quiet(m.w, m.mem) && m.Recorded()
    modifies m
    ensures m.Recorded() && old(m.history) <= m.history && if r.StoredRaw? then !m.w.MirrorOk() else Quiet(m.w, m.mem)
    ensures Ledger(old(m.w), old(m.history), m.w, m.history)
    ensures r.Faulted? && round.Calm(start, end) ==> Covered(m.w, start, end, write)
    ensures round.Alone() && CanFetch(old(m.w), round.fault, start, end, write) ==> r.Faulted?
    ensures round.Alone() ==> m.history == old(m.history)
    ensures FaultMade(old(m.w), m.w, start, end, write, round, r)
    ensures round.Dead() ==> r.Faulted? && m.w == old(m.w) && m.history == old(m.history)
  {
    hide Quiet, Covered, World.Inv, Ledger, MissedSpared, AllMappable, Plenty, FaultFate.Alone, StoresRaw, Provided,
         RawFirst, StaysMappable, NoChildren, NoChild, ActAll, SameOutside, InPlace, Accessible;
    ghost var w0, h0 := m.w, m.history;
    r := DmirrorFault(m, start, end, write, round.fault);
    if r.Faulted? {
      ghost var w, mem, h := m.w, m.mem, m.history;
      QuietRun(m, round.after);
      LedgerTrans(w0, h0, w, h, m.w, m.history);
      if AllMappable(w, start, end) && round.NoChildren(start, end) { StaysAt(w, m.w, round.after, start, end); }
      if start < end && round.Undercuts(w0, start) { Undercut(w0, w, mem, m.w, start, end, write); }
      if round.Calm(start, end) {
        SparedAt(w, m.w, round.after, start, end);
        CoveredSpared(w, m.w, start, end, write);
      }
    }
  }

  // The page before is unmapped, and the entry of the first page of the range goes with it.
  lemma Undercut(w0: World, w: World, mem: Mem, w': World, start: Addr, end: Addr, write: bool)
    requires 0 < start < end && InPlace(w0, start - 1) && SameOutside(w0, w, start, end) && Quiet(w, mem)
    requires w' == ActAll(w, [Unmap(start - 1)])
    ensures !Accessible(w', start, write)
  {
    var x := Unmap(start - 1);
    assert [x][..0] == [] && [x][0] == x && ActAll(w, []) == w;
    assert w.At(start - 1) == w0.At(start - 1);
    StillInPlace(w, mem, start - 1);
    hide Quiet;
    assert start - 1 + 1 in Notified({start - 1});
    assert w' == Act(View(w, map[]), x).w;
    hide Effect;
  }

  lemma StillInPlace(w: World, mem: Mem, a: Addr)
    requires Quiet(w, mem) && (w.At(a).Present? || w.At(a).DevicePrivate?)
    ensures InPlace(w, a)
  {}

  lemma SparedAt(w: World, w': World, acts: seq<Action>, lo: Addr, hi: Addr)
    requires MissedSpared(w, w', acts) && HitCount(acts, lo, hi) == 0
    ensures Spared(w, w', lo, hi)
  {}

  // The fault for the range finds all it needs.
  ghost predicate CanFetch(w: World, fate: FaultFate, start: Addr, end: Addr, write: bool) {
    AllMappable(w, start, end) && (write ==> Plenty(w, fate, start, start, end))
  }

  // Wherever in the range it starts
  ghost predicate FetchesAll(w: World, fate: FaultFate, start: Addr, end: Addr, write: bool) {
    forall a: Addr | start <= a <= end :: CanFetch(w, fate, a, end, write)
  }

  lemma FetchSame(w0: World, w: World, fate: FaultFate, start: Addr, end: Addr, write: bool)
    requires CanFetch(w0, fate, start, end, write) && DataOnly(w0, w)
    ensures CanFetch(w, fate, start, end, write)
  {
    hide AllocAt;
    assert AllMappable(w, start, end) by {
      forall a: Addr | start <= a < end
        ensures w.At(a).NoPte? || w.At(a).ZeroPte? || w.At(a).Present?
      {
        assert w.At(a) == w0.At(a);
      }
    }
    if write { PlentySame(w0, w, fate, start, end); }
  }

  lemma PlentySame(w0: World, w: World, fate: FaultFate, start: Addr, end: Addr)
    requires Plenty(w0, fate, start, start, end) && DataOnly(w0, w)
    ensures Plenty(w, fate, start, start, end)
  {
    hide AllocAt;
    forall a: Addr ensures Needs(w, a) <==> Needs(w0, a) { assert w.At(a) == w0.At(a); }
    hide Needs;
    forall a: Addr | start <= a < end && Needs(w, a) ensures FreeSystem(w, AllocAt(fate, start, a)) {
      var q := AllocAt(fate, start, a);
      assert FreeSystem(w0, q);
      assert w.pages[q] == w0.pages[q].(data := w.pages[q].data);
    }
  }

  // ----- how often the loops fault: marks[k] pages were done when fault k was issued

  ghost predicate MarksOk(rounds: seq<Round>, marks: seq<nat>, n: nat) {
    |marks| <= |rounds| && Rising(marks) && forall k | 0 <= k < |marks| :: marks[k] <= n
  }

  // Each of the first k faults was followed by somebody hitting what was still to be copied.
  predicate Rough(rounds: seq<Round>, marks: seq<nat>, base: Addr, n: nat, k: nat) {
    forall j | 0 <= j < k && j < |marks| && j < |rounds| && marks[j] <= n :: !rounds[j].Calm(base + marks[j], base + n)
  }

  // All but the last fault of a transfer that is done, and all of one that is not
  ghost predicate Retries(rounds: seq<Round>, marks: seq<nat>, base: Addr, n: nat, done: bool) {
    MarksOk(rounds, marks, n) && Rough(rounds, marks, base, n, if done && |marks| > 0 then |marks| - 1 else |marks|)
  }

  // The hits on the range that the faults of a transfer met
  function TotalHits(rounds: seq<Round>, marks: seq<nat>, base: Addr, n: nat): nat {
    if marks == [] then 0
    else
      var k := |marks| - 1;
      TotalHits(rounds, marks[..k], base, n)
      + if k < |rounds| && marks[k] <= n then rounds[k].Hits(base + marks[k], base + n) else 0
  }

  // The mm is there in each of the first n faults.
  predicate AllAlive(rounds: seq<Round>, n: nat) {
    forall k | 0 <= k < n && k < |rounds| :: rounds[k].fault.alive
  }

  // With the mm alive there is at most one fault more than there are hits on the range.
  predicate FewFaults(rounds: seq<Round>, marks: seq<nat>, base: Addr, n: nat, done: bool) {
    AllAlive(rounds, |marks|) ==> |marks| <= TotalHits(rounds, marks, base, n) + if done then 1 else 0
  }

  lemma RetryBound(rounds: seq<Round>, marks: seq<nat>, base: Addr, n: nat, done: bool)
    requires Retries(rounds, marks, base, n, done)
    ensures FewFaults(rounds, marks, base, n, done)
  {
    if !AllAlive(rounds, |marks|) { return; }
    if done && |marks| > 0 {
      RoughBound(rounds, marks[..|marks| - 1], base, n);
    } else {
      RoughBound(rounds, marks, base, n);
    }
  }

  lemma {:induction false} RoughBound(rounds: seq<Round>, marks: seq<nat>, base: Addr, n: nat)
    requires |marks| <= |rounds| && Rough(rounds, marks, base, n, |marks|)
    requires forall k | 0 <= k < |marks| :: marks[k] <= n && rounds[k].fault.alive
    ensures |marks| <= TotalHits(rounds, marks, base, n)
  {
    if marks != [] {
      RoughBound(rounds, marks[..|marks| - 1], base, n);
    }
  }

  // The first fault meets nobody and finds all it needs.
  ghost predicate Easy(w0: World, rounds: seq<Round>, base: Addr, n: nat, write: bool) {
    && |rounds| > 0 && rounds[0].fault.alive && rounds[0].Alone()
    && FetchesAll(w0, rounds[0].fault, base, base + n, write)
  }

  // Between two attempts
  ghost predicate Going(w: World, rounds: seq<Round>, marks: seq<nat>, base: Addr, n: nat, cpages: nat, write: bool,
                        easy: bool) {
    && cpages <= n && MarksOk(rounds, marks, cpages) && (marks == [] ==> cpages == 0)
    && Rough(rounds, marks, base, n, if marks == [] then 0 else |marks| - 1)
    && (marks != [] && rounds[|marks| - 1].Calm(base + marks[|marks| - 1], base + n) ==>
          Covered(w, base + cpages, base + n, write))
    && (easy ==> |marks| <= 1 && (marks != [] ==> rounds[0].Calm(base + marks[0], base + n)))
  }

  lemma GoingNone(w: World, rounds: seq<Round>, base: Addr, n: nat, write: bool, easy: bool)
    ensures Going(w, rounds, [], base, n, 0, write, easy)
  {}

  // An attempt that succeeds
  lemma GoingDone(w: World, rounds: seq<Round>, marks: seq<nat>, base: Addr, n: nat, cpages: nat, write: bool,
                  easy: bool)
    requires Going(w, rounds, marks, base, n, cpages, write, easy)
    ensures Retries(rounds, marks, base, n, true) && FewFaults(rounds, marks, base, n, true) && (easy ==> |marks| <= 1)
  {
    hide Round.Calm, Covered, FewFaults;
    RetryBound(rounds, marks, base, n, true);
  }

  // An attempt that stops short of the end shows that the fault before it met a hit.
  lemma GoingShort(w: World, rounds: seq<Round>, marks: seq<nat>, base: Addr, n: nat, cpages: nat, write: bool,
                   easy: bool)
    requires Going(w, rounds, marks, base, n, cpages, write, easy) && !Covered(w, base + cpages, base + n, write)
    ensures Retries(rounds, marks, base, n, false) && MarksOk(rounds, marks, cpages) && (easy ==> marks == [])
    ensures FewFaults(rounds, marks, base, n, false)
  {
    hide Round.Calm, Covered, FewFaults;
    RetryBound(rounds, marks, base, n, false);
  }

  lemma GoingOn(w: World, rounds: seq<Round>, marks: seq<nat>, base: Addr, n: nat, c: nat, cpages: nat, write: bool,
                easy: bool)
    requires Retries(rounds, marks, base, n, false) && MarksOk(rounds, marks, c) && (easy ==> marks == [])
    requires c <= cpages <= n && |marks| < |rounds|
    requires rounds[|marks|].Calm(base + cpages, base + n) ==> Covered(w, base + cpages, base + n, write)
    requires easy ==> rounds[0].Calm(base + cpages, base + n)
    ensures Going(w, rounds, marks + [cpages], base, n, cpages, write, easy)
  {
    hide Round.Calm, Covered;
    var marks' := marks + [cpages];
    forall j | 0 <= j < |marks| ensures !rounds[j].Calm(base + marks'[j], base + n) {
      assert marks'[j] == marks[j];
    }
  }

  lemma AloneCalm(round: Round, start: Addr, end: Addr)
    requires round.fault.alive && round.Alone() && start <= end
    ensures round.Calm(start, end)
  {
    AlonePieces(round.fault, start, Pieces(end - start));
  }

  lemma {:induction false} AlonePieces(fate: FaultFate, start: Addr, k: nat)
    requires fate.Alone()
    ensures PieceHits(fate.ranges, start, k) == 0
  {
    if k > 0 { AlonePieces(fate, start, k - 1); }
  }

  lemma EasyFetch(w0: World, w: World, rounds: seq<Round>, base: Addr, n: nat, c: nat, write: bool)
    requires Easy(w0, rounds, base, n, write) && DataOnly(w0, w) && c <= n
    ensures rounds[0].Alone() && CanFetch(w, rounds[0].fault, base + c, base + n, write)
    ensures rounds[0].Calm(base + c, base + n)
  {
    hide AllocAt, Round.Calm, Round.Alone, CanFetch, DataOnly;
    AloneCalm(rounds[0], base + c, base + n);
    FetchSame(w0, w, rounds[0].fault, base + c, base + n, write);
  }

  // The first fault meets nobody, and between the first missing page and the end lies a private page
  // of the device.  Raw: the first one is stored; otherwise it is mapped read-only and stops a write.
  ghost predicate PrivateAhead(w: World, rounds: seq<Round>, base: Addr, end: Addr, write: bool, raw: bool) {
    && |rounds| > 0 && rounds[0].fault.alive && rounds[0].fault.Alone()
    && exists c: Addr | base <= c < end :: PrivateFrom(w, rounds[0].fault, base, c, end, write, raw)
  }

  ghost predicate PrivateFrom(w: World, fate: FaultFate, base: Addr, c: Addr, end: Addr, write: bool, raw: bool)
    requires c <= end
  {
    && Covered(w, base, c, write) && !Accessible(w, c, write) && Provided(w, fate, c, end, write)
    && StoresRaw(w, c, end) && (RawFirst(w, c, end, write) <==> raw)
  }

  lemma PrivateMeets(w: World, rounds: seq<Round>, base: Addr, c: Addr, end: Addr, write: bool, raw: bool)
    requires PrivateAhead(w, rounds, base, end, write, raw) && base <= c <= end && Covered(w, base, c, write)
    ensures c < end && |rounds| > 0 && rounds[0].fault.alive && rounds[0].fault.Alone()
    ensures !Accessible(w, c, write) ==> PrivateFrom(w, rounds[0].fault, base, c, end, write, raw)
  {
    hide StoresRaw, FaultFate.Alone, Provided, RawFirst, Accessible;
    var c0: Addr :| base <= c0 < end && PrivateFrom(w, rounds[0].fault, base, c0, end, write, raw);
    assert c0 < c ==> Accessible(w, c0, write);
    assert c < c0 ==> Accessible(w, c, write);
  }

  // Stores through the mirror do not change that.
  lemma PrivateSame(w: World, w': World, fate: FaultFate, c: Addr, end: Addr, write: bool)
    requires Unmoved(w, w', write) && c <= end
    ensures Provided(w, fate, c, end, write) ==> Provided(w', fate, c, end, write)
    ensures StoresRaw(w', c, end) <==> StoresRaw(w, c, end)
    ensures RawFirst(w', c, end, write) <==> RawFirst(w, c, end, write)
  {
    if write {
      hide AllocAt;
      forall a: Addr ensures (Rawly(w', a) <==> Rawly(w, a)) && (Blocks(w', a, write) <==> Blocks(w, a, write)) {}
      forall a: Addr ensures OpenTo(w', c, a, write) <==> OpenTo(w, c, a, write) {}
      if Provided(w, fate, c, end, write) { ProvidedSame(w, w', fate, c, end); }
    }
  }

  lemma ProvidedSame(w: World, w': World, fate: FaultFate, start: Addr, end: Addr)
    requires DataOnly(w, w') && start <= end && Provided(w, fate, start, end, true)
    ensures Provided(w', fate, start, end, true)
  {
    forall a: Addr | start <= a < end ensures !w'.At(a).OtherPte? { assert w'.At(a) == w.At(a); }
    PlentySame(w, w', fate, start, end);
  }

  // ----- what holds between two attempts

  // A read leaves the state alone, a write changes contents only.
  ghost predicate Unmoved(w0: World, w: World, write: bool) {
    if write then DataOnly(w0, w) else w == w0
  }

  ghost predicate DeadSofar(w0: World, w: World, rounds: seq<Round>, base: Addr, faults: nat, cpages: nat,
                            write: bool) {
    AllDead(rounds, faults) ==> Unmoved(w0, w, write) && Covered(w0, base, base + cpages, write)
  }

  // Before attempt number faults
  ghost predicate Before(w0: World, w: World, rounds: seq<Round>, base: Addr, n: nat, faults: nat, cpages: nat,
                         write: bool) {
    && (Covered(w0, base, base + n, write) ==> faults == 0) && (faults == 0 ==> w == w0 && cpages == 0)
    && DeadSofar(w0, w, rounds, base, faults, cpages, write)
  }

  lemma BeforeFirst(w: World, rounds: seq<Round>, base: Addr, n: nat, write: bool)
    ensures Before(w, w, rounds, base, n, 0, 0, write)
  {
    DataSelf(w);
    hide Accessible, DataOnly;
  }

  lemma BeforeNext(w0: World, w: World, w': World, rounds: seq<Round>, base: Addr, n: nat, faults: nat, cpages: nat,
                   write: bool)
    requires !Covered(w0, base, base + n, write) && DeadSofar(w0, w, rounds, base, faults, cpages, write)
    requires faults < |rounds| && (rounds[faults].Dead() ==> w' == w)
    ensures Before(w0, w', rounds, base, n, faults + 1, cpages, write)
  {
    RoundsStep(rounds, faults);
    hide Covered, AllDead, Unmoved, Round.Dead;
  }

  lemma AttemptDone(w0: World, w: World, w': World, rounds: seq<Round>, base: Addr, n: nat, faults: nat, c: nat,
                    write: bool)
    requires Before(w0, w, rounds, base, n, faults, c, write) && faults <= |rounds| && c <= n
    requires Unmoved(w, w', write) && Covered(w', base + c, base + n, write)
    ensures Covered(w0, base, base + n, write) ==> faults == 0 && Unmoved(w0, w', write)
    ensures AllDead(rounds, |rounds|) ==> Unmoved(w0, w', write) && Covered(w0, base, base + n, write)
  {
    RoundsSofar(rounds, faults);
    UnmovedTrans(w0, w, w', write);
    hide Covered, AllDead, Unmoved;
    if Unmoved(w0, w, write) {
      UnmovedCovers(w0, w', base + c, base + n, write);
      CoveredJoin(w0, base, base + c, base + n, write);
    }
  }

  lemma AttemptShort(w0: World, w: World, w': World, rounds: seq<Round>, base: Addr, n: nat, faults: nat, c: nat,
                     cpages: nat, write: bool)
    requires Before(w0, w, rounds, base, n, faults, c, write) && faults <= |rounds| && c <= cpages < n
    requires Unmoved(w, w', write) && Covered(w', base + c, base + cpages, write)
    requires !Accessible(w', base + cpages, write)
    ensures !Covered(w0, base, base + n, write) && !Covered(w, base + c, base + n, write)
    ensures DeadSofar(w0, w', rounds, base, faults, cpages, write)
    ensures AllDead(rounds, |rounds|) ==> Unmoved(w0, w', write)
  {
    RoundsSofar(rounds, faults);
    UnmovedTrans(w0, w, w', write);
    hide Covered, AllDead, Unmoved, Accessible;
    UnmovedCovers(w, w', base + c, base + n, write);
    CoveredNot(w', base + c, base + c, base + n, base + cpages, write);
    if Unmoved(w0, w, write) {
      UnmovedCovers(w0, w', base + c, base + cpages, write);
      CoveredJoin(w0, base, base + c, base + cpages, write);
    }
  }

  lemma UnmovedTrans(w0: World, w: World, w': World, write: bool)
    requires Unmoved(w, w', write)
    ensures Unmoved(w0, w, write) ==> Unmoved(w0, w', write)
  {
    if write { DataTrans(w0, w, w'); }
    hide DataOnly;
  }

  lemma UnmovedCovers(w: World, w': World, lo: Addr, hi: Addr, write: bool)
    requires Unmoved(w, w', write)
    ensures Covered(w, lo, hi, write) <==> Covered(w', lo, hi, write)
  {
    CoveredData(w, w', lo, hi, write);
    hide DataOnly, Covered;
  }

  // The first attempt finds the state of the start.
  lemma FirstMeets(w0: World, w: World, w': World, rounds: seq<Round>, base: Addr, n: nat, c: nat, cpages: nat,
                   write: bool, raw: bool)
    requires Before(w0, w, rounds, base, n, 0, c, write) && PrivateAhead(w0, rounds, base, base + n, write, raw)
    requires c <= cpages <= n && Unmoved(w, w', write) && Covered(w', base + c, base + cpages, write)
    ensures cpages < n && |rounds| > 0 && rounds[0].fault.alive && rounds[0].fault.Alone()
    ensures !Accessible(w', base + cpages, write) ==>
      && Provided(w', rounds[0].fault, base + cpages, base + n, write)
      && StoresRaw(w', base + cpages, base + n) && (RawFirst(w', base + cpages, base + n, write) <==> raw)
  {
    hide PrivateAhead, Covered, StoresRaw, FaultFate.Alone, DeadSofar, Accessible, Provided, RawFirst, Unmoved;
    UnmovedCovers(w, w', base + c, base + cpages, write);
    PrivateMeets(w0, rounds, base, base + cpages, base + n, write, raw);
    PrivateSame(w0, w', rounds[0].fault, base + cpages, base + n, write);
    UnmovedAt(w0, w', base + cpages, write);
  }

  lemma UnmovedAt(w: World, w': World, a: Addr, write: bool)
    requires Unmoved(w, w', write)
    ensures Accessible(w', a, write) <==> Accessible(w, a, write)
  {}

  lemma EasyFirst(w0: World, w: World, w': World, rounds: seq<Round>, base: Addr, n: nat, c: nat, cpages: nat,
                  write: bool)
    requires Easy(w0, rounds, base, n, write) && Before(w0, w, rounds, base, n, 0, c, write) && cpages <= n
    requires Unmoved(w, w', write)
    ensures rounds[0].Alone() && CanFetch(w', rounds[0].fault, base + cpages, base + n, write)
    ensures rounds[0].Calm(base + cpages, base + n)
  {
    DataSelf(w0);
    hide Covered, DeadSofar, Easy, DataOnly, CanFetch, Round.Calm, Round.Alone;
    EasyRounds(w0, rounds, base, n, write);
    EasyFetch(w0, w', rounds, base, n, cpages, write);
  }

  // Ordinary memory, and no page of a parent becomes part of it
  ghost predicate Ordinary(w: World, rounds: seq<Round>, base: Addr, n: nat) {
    && AllMappable(w, base, base + n)
    && forall k | 0 <= k < |rounds| :: rounds[k].NoChildren(base, base + n)
  }

  lemma OrdinaryRest(w: World, rounds: seq<Round>, base: Addr, n: nat, cpages: nat, k: nat)
    requires Ordinary(w, rounds, base, n) && cpages <= n && k < |rounds|
    ensures AllMappable(w, base + cpages, base + n) && rounds[k].NoChildren(base + cpages, base + n)
  {
    assert rounds[k].NoChildren(base, base + n);
    forall j: nat ensures NoChild(rounds[k].fault.ranges(j).acts, base + cpages, base + n) {
      assert NoChild(rounds[k].fault.ranges(j).acts, base, base + n);
    }
  }

  // What is still to be read stays ordinary.
  ghost predicate Plain(w0: World, w: World, rounds: seq<Round>, base: Addr, n: nat, cpages: nat)
    requires cpages <= n
  {
    Ordinary(w0, rounds, base, n) ==> AllMappable(w, base + cpages, base + n)
  }

  lemma PlainFirst(w: World, rounds: seq<Round>, base: Addr, n: nat)
    ensures Plain(w, w, rounds, base, n, 0)
  {}

  lemma PlainNext(w0: World, w: World, rounds: seq<Round>, base: Addr, n: nat, c: nat, cpages: nat, k: nat)
    requires c <= cpages <= n && Plain(w0, w, rounds, base, n, c) && k < |rounds|
    ensures Plain(w0, w, rounds, base, n, cpages)
    ensures Ordinary(w0, rounds, base, n) ==>
      AllMappable(w, base + cpages, base + n) && rounds[k].NoChildren(base + cpages, base + n)
  {
    if Ordinary(w0, rounds, base, n) {
      OrdinaryRest(w0, rounds, base, n, cpages, k);
      hide Round.NoChildren;
    }
  }

  // The first page is missing, and after the first fault the page before it is unmapped: the entry of
  // the first page is gone again.
  ghost predicate Hindered(w: World, rounds: seq<Round>, base: Addr, n: nat, write: bool) {
    n > 0 && |rounds| > 0 && !Accessible(w, base, write) && rounds[0].Undercuts(w, base)
  }

  ghost predicate Stuck(w0: World, w: World, rounds: seq<Round>, base: Addr, n: nat, faults: nat, cpages: nat,
                        write: bool) {
    Hindered(w0, rounds, base, n, write) && faults <= 1 ==> cpages == 0 && !Accessible(w, base, write)
  }

  lemma StuckFirst(w: World, rounds: seq<Round>, base: Addr, n: nat, write: bool)
    ensures Stuck(w, w, rounds, base, n, 0, 0, write)
  {}

  // An attempt then gets nowhere.
  lemma StuckStops(w0: World, w: World, w': World, rounds: seq<Round>, base: Addr, n: nat, faults: nat, c: nat,
                   cpages: nat, write: bool)
    requires Stuck(w0, w, rounds, base, n, faults, c, write) && c <= cpages <= n && Unmoved(w, w', write)
    requires Covered(w', base + c, base + cpages, write)
    ensures Stuck(w0, w', rounds, base, n, faults, cpages, write)
    ensures Hindered(w0, rounds, base, n, write) && faults <= 1 ==> cpages == 0 < n
  {
    hide Round.Undercuts;
    UnmovedAt(w, w', base, write);
    assert cpages > 0 && c == 0 ==> Accessible(w', base, write);
  }

  // Between two attempts, what decides how the transfer ends
  ghost predicate Course(w0: World, w: World, rounds: seq<Round>, base: Addr, n: nat, faults: nat, cpages: nat,
                         write: bool)
    requires cpages <= n
  {
    && (PrivateAhead(w0, rounds, base, base + n, write, true) || PrivateAhead(w0, rounds, base, base + n, write, false) ==>
          faults == 0)
    && Stuck(w0, w, rounds, base, n, faults, cpages, write) && (!write ==> Plain(w0, w, rounds, base, n, cpages))
  }

  lemma CourseFirst(w: World, rounds: seq<Round>, base: Addr, n: nat, write: bool)
    ensures Course(w, w, rounds, base, n, 0, 0, write)
  {
    StuckFirst(w, rounds, base, n, write);
    PlainFirst(w, rounds, base, n);
    hide Stuck, Plain, PrivateAhead;
  }

  // An attempt that ends at page cpages
  lemma CourseAttempt(w0: World, w: World, w': World, rounds: seq<Round>, base: Addr, n: nat, faults: nat, c: nat,
                      cpages: nat, write: bool)
    requires c <= cpages <= n && Course(w0, w, rounds, base, n, faults, c, write)
    requires Before(w0, w, rounds, base, n, faults, c, write) && Unmoved(w, w', write)
    requires Covered(w', base + c, base + cpages, write)
    ensures Course(w0, w', rounds, base, n, faults, cpages, write)
    ensures cpages == n && Hindered(w0, rounds, base, n, write) ==> faults >= 2
    ensures PrivateAhead(w0, rounds, base, base + n, write, true) ==> cpages < n && faults < |rounds|
    ensures PrivateAhead(w0, rounds, base, base + n, write, false) ==> cpages < n && faults < |rounds|
  {
    hide Stuck, Plain, PrivateAhead, Before, Unmoved, Covered, Hindered, Provided, StoresRaw, RawFirst,
         FaultFate.Alone, Accessible;
    StuckStops(w0, w, w', rounds, base, n, faults, c, cpages, write);
    if !write { PlainLess(w0, w, w', rounds, base, n, c, cpages); }
    if PrivateAhead(w0, rounds, base, base + n, write, true) {
      FirstMeets(w0, w, w', rounds, base, n, c, cpages, write, true);
    }
    if PrivateAhead(w0, rounds, base, base + n, write, false) {
      FirstMeets(w0, w, w', rounds, base, n, c, cpages, write, false);
    }
  }

  lemma PlainLess(w0: World, w: World, w': World, rounds: seq<Round>, base: Addr, n: nat, c: nat, cpages: nat)
    requires c <= cpages <= n && Plain(w0, w, rounds, base, n, c) && Unmoved(w, w', false)
    ensures Plain(w0, w', rounds, base, n, cpages)
  {
    hide Ordinary;
  }

  // The fault that follows it
  lemma CourseFault(w0: World, w: World, w1: World, w2: World, rounds: seq<Round>, base: Addr, n: nat, faults: nat,
                    c: nat, cpages: nat, write: bool, f: Fault)
    requires c <= cpages < n && Course(w0, w, rounds, base, n, faults, c, write) && faults < |rounds|
    requires Course(w0, w1, rounds, base, n, faults, cpages, write)
    requires Before(w0, w, rounds, base, n, faults, c, write) && Unmoved(w, w1, write)
    requires Covered(w1, base + c, base + cpages, write) && !Accessible(w1, base + cpages, write)
    requires FaultMade(w1, w2, base + cpages, base + n, write, rounds[faults], f)
    ensures PrivateAhead(w0, rounds, base, base + n, write, true) ==> f.StoredRaw?
    ensures PrivateAhead(w0, rounds, base, base + n, write, false) ==> f.FaultFailed?
    ensures !write && Ordinary(w0, rounds, base, n) ==> f.Faulted?
    ensures f.Faulted? ==> Course(w0, w2, rounds, base, n, faults + 1, cpages, write)
  {
    hide Stuck, Plain, PrivateAhead, Before, Unmoved, Covered, Hindered, Provided, StoresRaw, RawFirst,
         FaultFate.Alone, Accessible, Ordinary, AllMappable, Round.NoChildren, FaultMade, Round.Undercuts;
    if PrivateAhead(w0, rounds, base, base + n, write, true) {
      FirstMeets(w0, w, w1, rounds, base, n, c, cpages, write, true);
      MadePrivate(w1, w2, base + cpages, base + n, write, rounds[faults], f);
    }
    if PrivateAhead(w0, rounds, base, base + n, write, false) {
      FirstMeets(w0, w, w1, rounds, base, n, c, cpages, write, false);
      MadePrivate(w1, w2, base + cpages, base + n, write, rounds[faults], f);
    }
    if !write {
      PlainNext(w0, w1, rounds, base, n, cpages, cpages, faults);
      MadePlain(w0, w1, w2, rounds, base, n, cpages, faults, f);
    }
    if f.Faulted? {
      if faults == 0 && Hindered(w0, rounds, base, n, write) { FirstUndercut(w0, w, w1, rounds, base, n, c, write); }
      MadeStuck(w0, w1, w2, rounds, base, n, faults, cpages, write, f);
    }
  }

  lemma FirstUndercut(w0: World, w: World, w': World, rounds: seq<Round>, base: Addr, n: nat, c: nat, write: bool)
    requires Before(w0, w, rounds, base, n, 0, c, write) && Unmoved(w, w', write)
    requires Hindered(w0, rounds, base, n, write)
    ensures |rounds| > 0 && rounds[0].Undercuts(w', base)
  {
    hide DeadSofar, Covered, FaultFate.Alone, Accessible;
    assert w'.At(base - 1) == w0.At(base - 1);
  }

  lemma MadePrivate(w: World, w': World, start: Addr, end: Addr, write: bool, round: Round, f: Fault)
    requires start <= end && FaultMade(w, w', start, end, write, round, f) && round.fault.Alone() && round.fault.alive
    requires Provided(w, round.fault, start, end, write) && StoresRaw(w, start, end)
    ensures if RawFirst(w, start, end, write) then f.StoredRaw? else f.FaultFailed?
  {
    hide Provided, StoresRaw, RawFirst, FaultFate.Alone, AllMappable, Round.NoChildren, Accessible;
  }

  lemma MadePlain(w0: World, w: World, w': World, rounds: seq<Round>, base: Addr, n: nat, cpages: nat, k: nat, f: Fault)
    requires cpages <= n && k < |rounds| && FaultMade(w, w', base + cpages, base + n, false, rounds[k], f)
    requires Ordinary(w0, rounds, base, n) ==>
      AllMappable(w, base + cpages, base + n) && rounds[k].NoChildren(base + cpages, base + n)
    ensures Ordinary(w0, rounds, base, n) ==> f.Faulted?
    ensures Plain(w0, w', rounds, base, n, cpages)
  {
    hide Provided, StoresRaw, RawFirst, FaultFate.Alone, AllMappable, Round.NoChildren, Accessible, Ordinary;
  }

  lemma MadeStuck(w0: World, w: World, w': World, rounds: seq<Round>, base: Addr, n: nat, faults: nat, cpages: nat,
                  write: bool, f: Fault)
    requires cpages < n && faults < |rounds| && Stuck(w0, w, rounds, base, n, faults, cpages, write) && f.Faulted?
    requires FaultMade(w, w', base + cpages, base + n, write, rounds[faults], f)
    requires faults == 0 && Hindered(w0, rounds, base, n, write) ==> rounds[0].Undercuts(w, base)
    ensures Stuck(w0, w', rounds, base, n, faults + 1, cpages, write)
  {
    hide Provided, StoresRaw, RawFirst, FaultFate.Alone, AllMappable, Round.NoChildren, Accessible, Round.Undercuts;
  }

  // The pages read so far, and the history
  ghost predicate ReadSofar(w0: World, h0: seq<Event>, w: World, h: seq<Event>, rounds: seq<Round>, base: Addr,
                            data: seq<PageData>, times: seq<nat>, faults: nat) {
    && h0 <= h && Ledger(w0, h0, w, h) && |times| <= |data| && ReadThen(h, base, data, times) && LateFrom(times, |h0|)
    && (AllAlone(rounds, faults) ==> h == h0)
  }

  lemma ReadAttempt(w0: World, h0: seq<Event>, w: World, mem: Mem, h: seq<Event>, rounds: seq<Round>, base: Addr,
                    data: seq<PageData>, data': seq<PageData>, times: seq<nat>, faults: nat, copied: nat)
    requires ReadSofar(w0, h0, w, h, rounds, base, data, times, faults) && mem == Replay(h)
    requires |times| <= copied <= |data'| && |data'| == |data|
    requires forall i | 0 <= i < |times| :: data'[i] == data[i]
    requires forall i | |times| <= i < copied :: data'[i] == MemAt(mem, base + i)
    ensures ReadSofar(w0, h0, w, h, rounds, base, data', times + Repeated(|h|, copied - |times|), faults)
  {
    hide ReadThen, LateFrom, Ledger, AllAlone, MemAt, Replay;
    ReadMore(mem, h, base, data, data', times, copied);
    LateMore(times, |h0|, |h|, copied - |times|);
  }

  lemma ReadFault(w0: World, h0: seq<Event>, w: World, h: seq<Event>, w': World, h': seq<Event>, rounds: seq<Round>,
                  base: Addr, data: seq<PageData>, times: seq<nat>, faults: nat)
    requires ReadSofar(w0, h0, w, h, rounds, base, data, times, faults) && h <= h' && Ledger(w, h, w', h')
    requires faults < |rounds| && (rounds[faults].Alone() ==> h' == h)
    ensures ReadSofar(w0, h0, w', h', rounds, base, data, times, faults + 1)
  {
    hide ReadThen, LateFrom, Ledger, AllAlone, Round.Alone;
    LedgerTrans(w0, h0, w, h, w', h');
    ReadLater(h, h', base, data, times);
    RoundsStep(rounds, faults);
  }

  // The pages written so far, and the history
  ghost predicate WroteSofar(w0: World, h0: seq<Event>, w: World, h: seq<Event>, rounds: seq<Round>, base: Addr,
                             data: seq<PageData>, times: seq<nat>, faults: nat) {
    && h0 <= h && Ledger(w0, h0, w, h) && |times| <= |data| && WroteThen(h, base, data, times) && LateFrom(times, |h0|)
    && (AllAlone(rounds, faults) ==> h == h0 + WriteLog(base, data, 0, |times|))
  }

  lemma WroteAttempt(w0: World, h0: seq<Event>, w: World, h: seq<Event>, w': World, h': seq<Event>, rounds: seq<Round>,
                     base: Addr, data: seq<PageData>, times: seq<nat>, faults: nat, copied: nat)
    requires WroteSofar(w0, h0, w, h, rounds, base, data, times, faults) && |times| <= copied <= |data|
    requires h' == h + WriteLog(base, data, |times|, copied) && Ledger(w, h, w', h')
    ensures WroteSofar(w0, h0, w', h', rounds, base, data, times + UpFrom(|h|, copied - |times|), faults)
  {
    hide WroteThen, LateFrom, Ledger, AllAlone, WriteLog;
    LedgerTrans(w0, h0, w, h, w', h');
    LogJoin(h0, base, data, |times|, copied);
    WroteMore(h, base, data, times, copied);
    LateMore(times, |h0|, |h|, copied - |times|);
  }

  lemma WroteFault(w0: World, h0: seq<Event>, w: World, h: seq<Event>, w': World, h': seq<Event>, rounds: seq<Round>,
                   base: Addr, data: seq<PageData>, times: seq<nat>, faults: nat)
    requires WroteSofar(w0, h0, w, h, rounds, base, data, times, faults) && h <= h' && Ledger(w, h, w', h')
    requires faults < |rounds| && (rounds[faults].Alone() ==> h' == h)
    ensures WroteSofar(w0, h0, w', h', rounds, base, data, times, faults + 1)
  {
    hide WroteThen, LateFrom, Ledger, AllAlone, WriteLog, Round.Alone;
    LedgerTrans(w0, h0, w, h, w', h');
    WroteLater(h, h', base, data, times);
    RoundsStep(rounds, faults);
  }

  lemma SofarFirst(w: World, h: seq<Event>, rounds: seq<Round>, base: Addr, data: seq<PageData>)
    ensures ReadSofar(w, h, w, h, rounds, base, data, [], 0) && WroteSofar(w, h, w, h, rounds, base, data, [], 0)
  {
    LedgerSelf(w, h);
    NoRounds(rounds, |h|);
    ReadNone(h, base, data);
    LogNone(base, data, 0);
    hide ReadThen, WroteThen, LateFrom, Ledger, AllAlone, WriteLog;
  }

  // What they say when the transfer ends
  lemma ReadEnd(w0: World, h0: seq<Event>, w: World, h: seq<Event>, rounds: seq<Round>, base: Addr,
                data: seq<PageData>, times: seq<nat>, faults: nat)
    requires ReadSofar(w0, h0, w, h, rounds, base, data, times, faults)
    ensures h0 <= h && Ledger(w0, h0, w, h) && ReadThen(h, base, data, times) && LateFrom(times, |h0|)
    ensures AllAlone(rounds, |rounds|) ==> h == h0
  {
    hide ReadThen, LateFrom, Ledger, AllAlone;
    RoundsSofar(rounds, faults);
  }

  lemma WroteEnd(w0: World, h0: seq<Event>, w: World, h: seq<Event>, rounds: seq<Round>, base: Addr,
                 data: seq<PageData>, times: seq<nat>, faults: nat)
    requires WroteSofar(w0, h0, w, h, rounds, base, data, times, faults)
    ensures h0 <= h && Ledger(w0, h0, w, h) && |times| <= |data| && WroteThen(h, base, data, times)
    ensures LateFrom(times, |h0|) && (AllAlone(rounds, |rounds|) ==> h == h0 + WriteLog(base, data, 0, |times|))
  {
    hide WroteThen, LateFrom, Ledger, AllAlone, WriteLog;
    RoundsSofar(rounds, faults);
  }

  method DmirrorRead(m: Machine, base: Addr, n: nat, rounds: seq<Round>)
    returns (r: Outcome, bounce: array<PageData>, cpages: nat, faults: nat, ghost times: seq<nat>, ghost marks: seq<nat>)
    requires Quiet(m.w, m.mem) && m.Recorded()
    modifies m
    ensures m.Recorded() && old(m.history) <= m.history && if r.Raw? then !m.w.MirrorOk() else Quiet(m.w, m.mem)
    ensures Ledger(old(m.w), old(m.history), m.w, m.history)
    ensures bounce.Length == n && cpages == |times| <= n && (r.Done? ==> cpages == n)
    ensures ReadThen(m.history, base, bounce[..], times) && LateFrom(times, |old(m.history)|)
    ensures Covered(old(m.w), base, base + n, false) ==> r.Done? && faults == 0 && m.w == old(m.w)
    ensures AllAlone(rounds, |rounds|) ==> m.history == old(m.history)
    ensures faults == |marks| && Retries(rounds, marks, base, n, r.Done?) && (r.Pending? ==> faults == |rounds|)
    ensures FewFaults(rounds, marks, base, n, r.Done?)
    ensures Easy(old(m.w), rounds, base, n, false) ==> r.Done? && faults <= 1
    ensures PrivateAhead(old(m.w), rounds, base, base + n, false, true) ==> r.Raw?
    ensures PrivateAhead(old(m.w), rounds, base, base + n, false, false) ==> r.Failed?
    ensures Hindered(old(m.w), rounds, base, n, false) && r.Done? ==> faults >= 2
    ensures Ordinary(old(m.w), rounds, base, n) ==> r.Done? || r.Pending?
    ensures AllDead(rounds, |rounds|) ==>
      m.w == old(m.w) && r == if Covered(old(m.w), base, base + n, false) then Done else Pending
  {
    hide Quiet, Covered, ReadThen, World.Inv, EnvRel, Accessible, Round.Alone, Round.Dead, Round.Calm, AllAlone,
         AllDead, LateFrom, Ledger, PrivateAhead, StoresRaw, Provided, RawFirst, FaultFate.Alone, Hindered, Course,
         FaultMade, Ordinary, Plain, AllMappable, Round.NoChildren, Round.Undercuts, Going, Retries, FewFaults,
         MarksOk, Easy, DataOnly, CanFetch, ReadSofar, Before, DeadSofar;
    bounce := new PageData[n](_ => ZERO_DATA);
    cpages, faults, times, marks := 0, 0, [], [];
    ghost var w0, h0, easy := m.w, m.history, Easy(m.w, rounds, base, n, false);
    SofarFirst(w0, h0, rounds, base, bounce[..]);
    BeforeFirst(w0, rounds, base, n, false);
    CourseFirst(w0, rounds, base, n, false);
    GoingNone(w0, rounds, base, n, false, easy);
    while true
      invariant Quiet(m.w, m.mem) && m.Recorded() && cpages == |times| <= n && faults == |marks| <= |rounds|
      invariant ReadSofar(w0, h0, m.w, m.history, rounds, base, bounce[..], times, faults)
      invariant Before(w0, m.w, rounds, base, n, faults, cpages, false)
      invariant Going(m.w, rounds, marks, base, n, cpages, false, easy)
      invariant Course(w0, m.w, rounds, base, n, faults, cpages, false)
      decreases |rounds| - faults
    {
      ghost var data, c, w := bounce[..], cpages, m.w;
      var ok;
      ok, cpages := DoRead(m, base, base + cpages, base + n, bounce, cpages);
      ReadAttempt(w0, h0, m.w, m.mem, m.history, rounds, base, data, bounce[..], times, faults, cpages);
      times := times + Repeated(|m.history|, cpages - |times|);
      ReadEnd(w0, h0, m.w, m.history, rounds, base, bounce[..], times, faults);
      CourseAttempt(w0, m.w, m.w, rounds, base, n, faults, c, cpages, false);
      if ok {
        AttemptDone(w0, m.w, m.w, rounds, base, n, faults, c, false);
        GoingDone(m.w, rounds, marks, base, n, c, false, easy);
        return Done, bounce, cpages, faults, times, marks;
      }
      AttemptShort(w0, m.w, m.w, rounds, base, n, faults, c, cpages, false);
      GoingShort(m.w, rounds, marks, base, n, c, false, easy);
      EasyRounds(w0, rounds, base, n, false);
      if faults == |rounds| {
        return Pending, bounce, cpages, faults, times, marks;
      }
      ghost var h := m.history;
      if easy { EasyFirst(w0, w, w, rounds, base, n, c, cpages, false); }
      RoundsStep(rounds, faults);
      var f := FaultRound(m, base + cpages, base + n, false, rounds[faults]);
      CourseFault(w0, w, w, m.w, rounds, base, n, faults, c, cpages, false, f);
      ReadFault(w0, h0, w, h, m.w, m.history, rounds, base, bounce[..], times, faults);
      ReadEnd(w0, h0, m.w, m.history, rounds, base, bounce[..], times, faults + 1);
      if f.StoredRaw? {
        return Raw, bounce, cpages, faults, times, marks;
      }
      if f.FaultFailed? {
        return Failed, bounce, cpages, faults, times, marks;
      }
      BeforeNext(w0, w, m.w, rounds, base, n, faults, cpages, false);
      GoingOn(m.w, rounds, marks, base, n, c, cpages, false, easy);
      faults, marks := faults + 1, marks + [cpages];
    }
  }

  lemma EasyRounds(w: World, rounds: seq<Round>, base: Addr, n: nat, write: bool)
    ensures Easy(w, rounds, base, n, write) ==> |rounds| > 0
  {}

  lemma ReadNone(h: seq<Event>, base: Addr, data: seq<PageData>)
    ensures ReadThen(h, base, data, []) && WroteThen(h, base, data, [])
  {}

  lemma CoveredJoin(w: World, lo: Addr, a: Addr, hi: Addr, write: bool)
    requires lo <= a <= hi && Covered(w, a, hi, write)
    ensures Covered(w, lo, a, write) ==> Covered(w, lo, hi, write)
  {}

  lemma CoveredNot(w: World, lo: Addr, a: Addr, hi: Addr, c: Addr, write: bool)
    requires lo <= a <= c < hi && !Accessible(w, c, write)
    ensures !Covered(w, lo, hi, write) && !Covered(w, a, hi, write)
  {}

  method DmirrorWrite(m: Machine, base: Addr, data: seq<PageData>, rounds: seq<Round>)
    returns (r: Outcome, cpages: nat, faults: nat, ghost times: seq<nat>, ghost marks: seq<nat>)
    requires Quiet(m.w, m.mem) && m.Recorded()
    modifies m
    ensures m.Recorded() && old(m.history) <= m.history && if r.Raw? then !m.w.MirrorOk() else Quiet(m.w, m.mem)
    ensures Ledger(old(m.w), old(m.history), m.w, m.history)
    ensures cpages == |times| <= |data| && (r.Done? ==> cpages == |data|)
    ensures WroteThen(m.history, base, data, times) && LateFrom(times, |old(m.history)|)
    ensures Covered(old(m.w), base, base + |data|, true) ==> r.Done? && faults == 0 && DataOnly(old(m.w), m.w)
    ensures AllAlone(rounds, |rounds|) ==> m.history == old(m.history) + WriteLog(base, data, 0, cpages)
    ensures faults == |marks| && Retries(rounds, marks, base, |data|, r.Done?) && (r.Pending? ==> faults == |rounds|)
    ensures FewFaults(rounds, marks, base, |data|, r.Done?)
    ensures Easy(old(m.w), rounds, base, |data|, true) ==> r.Done? && faults <= 1
    ensures PrivateAhead(old(m.w), rounds, base, base + |data|, true, true) ==> r.Raw?
    ensures PrivateAhead(old(m.w), rounds, base, base + |data|, true, false) ==> r.Failed?
    ensures Hindered(old(m.w), rounds, base, |data|, true) && r.Done? ==> faults >= 2
    ensures AllDead(rounds, |rounds|) ==>
      r == if Covered(old(m.w), base, base + |data|, true) then Done else Pending
  {
    hide Quiet, Covered, WroteThen, World.Inv, EnvRel, Accessible, WriteLog, DataOnly, Round.Alone, Round.Dead,
         Round.Calm, AllAlone, AllDead, LateFrom, UpFrom, Ledger, PrivateAhead, StoresRaw, Provided, RawFirst,
         FaultFate.Alone, Hindered, Course, FaultMade, AllMappable, Round.NoChildren, Round.Undercuts, Going, Retries,
         FewFaults, MarksOk, Easy, CanFetch, WroteSofar, Before, DeadSofar;
    var n := |data|;
    cpages, faults, times, marks := 0, 0, [], [];
    ghost var w0, h0, easy := m.w, m.history, Easy(m.w, rounds, base, n, true);
    SofarFirst(w0, h0, rounds, base, data);
    BeforeFirst(w0, rounds, base, n, true);
    CourseFirst(w0, rounds, base, n, true);
    GoingNone(w0, rounds, base, n, true, easy);
    while true
      invariant Quiet(m.w, m.mem) && m.Recorded() && cpages == |times| <= n && faults == |marks| <= |rounds|
      invariant WroteSofar(w0, h0, m.w, m.history, rounds, base, data, times, faults)
      invariant Before(w0, m.w, rounds, base, n, faults, cpages, true)
      invariant Going(m.w, rounds, marks, base, n, cpages, true, easy)
      invariant Course(w0, m.w, rounds, base, n, faults, cpages, true)
      decreases |rounds| - faults
    {
      ghost var h, w, c := m.history, m.w, cpages;
      var ok;
      ok, cpages := DoWrite(m, base, base + cpages, base + n, data, cpages);
      WroteAttempt(w0, h0, w, h, m.w, m.history, rounds, base, data, times, faults, cpages);
      times := times + UpFrom(|h|, cpages - |times|);
      WroteEnd(w0, h0, m.w, m.history, rounds, base, data, times, faults);
      CourseAttempt(w0, w, m.w, rounds, base, n, faults, c, cpages, true);
      if ok {
        AttemptDone(w0, w, m.w, rounds, base, n, faults, c, true);
        GoingDone(w, rounds, marks, base, n, c, true, easy);
        return Done, cpages, faults, times, marks;
      }
      AttemptShort(w0, w, m.w, rounds, base, n, faults, c, cpages, true);
      GoingShort(w, rounds, marks, base, n, c, true, easy);
      EasyRounds(w0, rounds, base, n, true);
      if faults == |rounds| {
        return Pending, cpages, faults, times, marks;
      }
      if easy { EasyFirst(w0, w, m.w, rounds, base, n, c, cpages, true); }
      ghost var w1 := m.w;
      h := m.history;
      RoundsStep(rounds, faults);
      var f := FaultRound(m, base + cpages, base + n, true, rounds[faults]);
      CourseFault(w0, w, w1, m.w, rounds, base, n, faults, c, cpages, true, f);
      WroteFault(w0, h0, w1, h, m.w, m.history, rounds, base, data, times, faults);
      WroteEnd(w0, h0, m.w, m.history, rounds, base, data, times, faults + 1);
      if f.StoredRaw? {
        return Raw, cpages, faults, times, marks;
      }
      if f.FaultFailed? {
        return Failed, cpages, faults, times, marks;
      }
      BeforeNext(w0, w1, m.w, rounds, base, n, faults, cpages, true);
      GoingOn(m.w, rounds, marks, base, n, c, cpages, true, easy);
      faults, marks := faults + 1, marks + [cpages];
    }
  }

  lemma DataSelf(w: World)
    ensures DataOnly(w, w)
  {}

  lemma DataTrans(w0: World, w: World, w': World)
    requires DataOnly(w, w')
    ensures DataOnly(w0, w) ==> DataOnly(w0, w')
  {}

  lemma CoveredData(w: World, w': World, lo: Addr, hi: Addr, write: bool)
    ensures DataOnly(w, w') ==> (Covered(w, lo, hi, write) <==> Covered(w', lo, hi, write))
  {
    if DataOnly(w, w') {
      forall a: Addr ensures Accessible(w, a, write) == Accessible(w', a, write) {}
    }
  }

  lemma WroteLater(h: seq<Event>, h': seq<Event>, base: Addr, data: seq<PageData>, times: seq<nat>)
    requires WroteThen(h, base, data, times) && h <= h'
    ensures WroteThen(h', base, data, times)
  {}
}
