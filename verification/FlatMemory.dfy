/**
  Whole runs: any sequence of CPU activity, device reads and writes, migrations in both directions,
  CPU faults on device pages and evictions.  Every read returns what was last written.
*/
module FlatMemory {
  import opened Kernel
  import opened KernelSteps
  import opened Txn
  import opened Accounts
  import opened MachineState
  import opened Environment
  import opened MigratePages
  import opened MigrateCollect
  import opened MigrateSetup
  import O = Outcome
  import opened Exactness
  import opened Conservation
  import opened Commands
  import opened RangeCommands
  import opened DeviceCommands
  import opened Faulting
  import opened Transfer
  import opened RetryBounds

  datatype Command =
    | Others(acts: seq<Action>)
    | CpuRead(a: Addr)
    | DeviceRead(base: Addr, n: nat, rounds: seq<Round>)
    | DeviceWrite(base: Addr, data: seq<PageData>, rounds: seq<Round>)
    | ToDevice(mm: Mm, start: Addr, npages: nat, owner: nat, fates: nat -> ChunkFate)
    | ToSystem(mm: Mm, start: Addr, npages: nat, owner: nat, fates: nat -> ChunkFate)
    | TouchDevice(a: Addr, vma: Vma, owner: nat, fate: ChunkFate)
    | Evict(first: Pid, last: Pid, fate: ChunkFate)

  // A page that was read, and the value returned
  datatype Seen = Seen(a: Addr, v: PageData)

  // Read number i returned what the flat memory held when the history was times[i] events long.
  ghost predicate Faithful(history: seq<Event>, seen: seq<Seen>, times: seq<nat>) {
    |times| == |seen| && forall i | 0 <= i < |seen| :: FaithfulAt(history, seen[i], times[i])
  }

  predicate FaithfulAt(history: seq<Event>, s: Seen, t: nat) {
    t <= |history| && s.v == MemAt(Replay(history[..t]), s.a)
  }

  // What one command did: the pages it read and when, the events that are its writes, and the length
  // of the history before and after it
  datatype Episode = Episode(seen: seq<Seen>, times: seq<nat>, wrote: seq<nat>, before: nat, after: nat)

  ghost predicate EpisodeOk(history: seq<Event>, c: Command, e: Episode) {
    && e.before <= e.after <= |history| && Faithful(history, e.seen, e.times)
    && LateFrom(e.times, e.before) && (forall i | 0 <= i < |e.times| :: e.times[i] <= e.after)
    && LateFrom(e.wrote, e.before) && (forall i | 0 <= i < |e.wrote| :: e.wrote[i] < e.after)
    && Answers(history, c, e)
  }

  // Consecutive pages from base
  ghost predicate PagesFrom(seen: seq<Seen>, base: Addr, n: nat) {
    |seen| <= n && forall i | 0 <= i < |seen| :: seen[i].a == base + i
  }

  // The reads and writes are those the command asks for.
  ghost predicate Answers(history: seq<Event>, c: Command, e: Episode) {
    match c
    case CpuRead(a) => |e.seen| == 1 && e.seen[0].a == a && e.after == e.before && e.wrote == []
    case DeviceRead(base, n, _) => PagesFrom(e.seen, base, n) && e.wrote == []
    case DeviceWrite(base, data, _) => e.seen == [] && WroteThen(history, base, data, e.wrote)
    case ToDevice(_, start, n, _, _) => PagesFrom(e.seen, start, n) && e.wrote == []
    case _ => e.seen == [] && e.wrote == []
  }

  lemma EpisodeLater(h: seq<Event>, h': seq<Event>, c: Command, e: Episode)
    requires EpisodeOk(h, c, e) && h <= h'
    ensures EpisodeOk(h', c, e)
  {
    FaithfulLater(h, h', e.seen, e.times);
    hide Faithful, LateFrom, FaithfulAt;
    match c {
      case DeviceWrite(base, data, _) => WroteLater(h, h', base, data, e.wrote);
      case _ =>
    }
  }

  // That is the value last written to the page before the read, zero if there is none.
  lemma SeenLast(history: seq<Event>, s: Seen, t: nat, k: nat)
    requires FaithfulAt(history, s, t) && k < t && history[k].Wrote? && history[k].a == s.a
    requires forall j | k < j < t :: !history[j].Sets(s.a)
    ensures s.v == history[k].v
  {
    LastWritten(history[..t], k, s.a);
  }

  lemma SeenNever(history: seq<Event>, s: Seen, t: nat)
    requires FaithfulAt(history, s, t)
    requires forall j | 0 <= j < t :: !history[j].Sets(s.a)
    ensures s.v == ZERO_DATA
  {
    NeverWritten(history[..t], s.a);
  }

  // A read returns what an earlier write of the device stored, if nothing wrote the page in between.
  lemma ReadAfterWrite(history: seq<Event>, c: Command, e: Episode, c': Command, e': Episode, i: nat, j: nat)
    requires EpisodeOk(history, c, e) && c.DeviceWrite? && i < |e.wrote| && EpisodeOk(history, c', e')
    requires e.after <= e'.before
    requires j < |e'.seen| && e'.seen[j].a == c.base + i
    requires forall k | e.wrote[i] < k < e'.times[j] :: !history[k].Sets(c.base + i)
    ensures e'.seen[j].v == c.data[i]
  {
    SeenLast(history, e'.seen[j], e'.times[j], e.wrote[i]);
  }

  lemma FaithfulLater(h: seq<Event>, h': seq<Event>, seen: seq<Seen>, times: seq<nat>)
    requires Faithful(h, seen, times) && h <= h'
    ensures Faithful(h', seen, times)
  {
    forall i | 0 <= i < |seen| ensures FaithfulAt(h', seen[i], times[i]) {
      assert FaithfulAt(h, seen[i], times[i]) && h'[..times[i]] == h[..times[i]];
    }
  }

  function SeenPages(base: Addr, data: seq<PageData>): (r: seq<Seen>)
    ensures |r| == |data|
  {
    seq(|data|, i requires 0 <= i < |data| => Seen(base + i, data[i]))
  }

  lemma TransferFaithful(h: seq<Event>, base: Addr, data: seq<PageData>, times: seq<nat>)
    requires ReadThen(h, base, data, times) && |times| <= |data|
    ensures Faithful(h, SeenPages(base, data[..|times|]), times)
  {
    forall i | 0 <= i < |times| ensures FaithfulAt(h, SeenPages(base, data[..|times|])[i], times[i]) {
      assert ReadAt(h, base, data, i, times[i]);
    }
  }

  // ----- what one command achieves, in terms of the state before it

  // The mirror covers the range, or one undisturbed fault makes it do so.
  ghost predicate Prompt(w: World, rounds: seq<Round>, base: Addr, n: nat, write: bool) {
    Covered(w, base, base + n, write) || Easy(w, rounds, base, n, write)
  }

  // Ordinary memory of a living process, with more faults at hand than others can spoil
  ghost predicate Patient(w: World, rounds: seq<Round>, base: Addr, n: nat) {
    Ordinary(w, rounds, base, n) && AllAlive(rounds, |rounds|) && |rounds| > Disturbances(rounds, base, n)
  }

  ghost predicate ReadDone(w0: World, h0: seq<Event>, w: World, h: seq<Event>, base: Addr, n: nat, rounds: seq<Round>,
                           e: Episode, raw: bool) {
    && (Prompt(w0, rounds, base, n, false) || Patient(w0, rounds, base, n) ==> |e.seen| == n && !raw)
    && (PrivateAhead(w0, rounds, base, base + n, false, true) ==> raw)
    && (PrivateAhead(w0, rounds, base, base + n, false, false) ==> !raw)
    && (Covered(w0, base, base + n, false) ==> w == w0)
    && (AllAlone(rounds, |rounds|) ==> h == h0)
  }

  ghost predicate WriteDone(w0: World, h0: seq<Event>, h: seq<Event>, base: Addr, data: seq<PageData>,
                            rounds: seq<Round>, e: Episode, raw: bool) {
    && |e.wrote| <= |data| && (Prompt(w0, rounds, base, |data|, true) ==> |e.wrote| == |data| && !raw)
    && (PrivateAhead(w0, rounds, base, base + |data|, true, true) ==> raw)
    && (PrivateAhead(w0, rounds, base, base + |data|, true, false) ==> !raw)
    && (AllAlone(rounds, |rounds|) ==> h == h0 + WriteLog(base, data, 0, |e.wrote|))
  }

  // The pieces of the range, as far as it may be migrated, one after the other
  ghost predicate Migrated(w0: World, w: World, mm: Mm, start: Addr, end: Addr, select: Select, owner: nat,
                           fates: nat -> ChunkFate) {
    exists cuts, at: Addr, states :: MigratedBy(w0, w, mm, start, end, select, owner, fates, cuts, at, states)
  }

  ghost predicate MigratedBy(w0: World, w: World, mm: Mm, start: Addr, end: Addr, select: Select, owner: nat,
                             fates: nat -> ChunkFate, cuts: seq<Cut>, at: Addr, states: seq<World>) {
    && start <= at <= end && Cuts(mm.vmas, end, cuts, start, at) && Chain(states, w0, w, cuts, select, owner, fates)
    && (if !mm.alive then at == start
        else if AllMigratable(mm.vmas, start, end) then at == end
        else at < end && !Migratable(mm.vmas, at))
  }

  ghost predicate ToDeviceDone(w0: World, h0: seq<Event>, w: World, h: seq<Event>, mm: Mm, start: Addr, n: nat,
                               owner: nat, fates: nat -> ChunkFate, e: Episode) {
    && (AllUndisturbed(fates) ==> h == h0 && Migrated(w0, w, mm, start, start + n, SelectSystem, owner, fates))
    && |e.seen| == (if mm.alive && AllMigratable(mm.vmas, start, start + n) && Covered(w, start, start + n, false)
                    then n else 0)
  }

  ghost predicate ToSystemDone(w0: World, h0: seq<Event>, w: World, h: seq<Event>, mm: Mm, start: Addr, n: nat,
                               owner: nat, fates: nat -> ChunkFate) {
    AllUndisturbed(fates) ==> h == h0 && Migrated(w0, w, mm, start, start + n, SelectDevicePrivate, owner, fates)
  }

  // A touch of anything but a private page of the device is none of the driver's business.
  ghost predicate TouchDone(w0: World, h0: seq<Event>, w: World, h: seq<Event>, a: Addr, vma: Vma, owner: nat,
                            fate: ChunkFate) {
    if w0.At(a).DevicePrivate? && ArgsOk(vma, a, a + 1) then
      fate.Undisturbed() ==> h == h0 && exists moves :: TouchedBy(w0, w, a, vma, owner, fate, moves)
    else w == w0 && h == h0
  }

  ghost predicate TouchedBy(w0: World, w: World, a: Addr, vma: Vma, owner: nat, fate: ChunkFate, moves: map<Pid, Pid>)
    requires w0.At(a).DevicePrivate?
  {
    && O.AllOrNothing(w0, w, moves, Some(Place(a, vma)), 1) && moves.Keys <= {w0.At(a).page} && BooksExact(w0, w, moves)
    && w.At(a) == (if FaultMoves(w0, a, owner, fate) then Present(fate.source(0).value.q, w0.At(a).write) else w0.At(a))
    && (FaultCopies(w0, a, owner, fate) ==> a !in w.mirror)
  }

  ghost predicate EvictDone(w0: World, h0: seq<Event>, w: World, h: seq<Event>, first: Pid, last: Pid,
                            fate: ChunkFate) {
    if first <= last && DeviceRange(w0, first, last - first + 1) then
      fate.Undisturbed() ==> h == h0 && exists moves, d :: EvictedBy(w0, w, first, last, fate, moves, d)
    else w == w0 && h == h0
  }

  ghost predicate EvictedBy(w0: World, w: World, first: Pid, last: Pid, fate: ChunkFate, moves: map<Pid, Pid>,
                            d: seq<Mpfn>)
    requires first <= last
  {
    && O.AllOrNothing(w0, w, moves, None, last - first + 1) && BooksExact(w0, w, moves)
    && EvictExact(w0, fate, first, last - first + 1, moves, d)
  }

  ghost predicate Achieved(w0: World, h0: seq<Event>, w: World, h: seq<Event>, c: Command, e: Episode,
                           raw: bool) {
    match c
    case Others(acts) => w == ActAll(w0, acts) && (acts == [] ==> h == h0)
    case CpuRead(a) => w == w0 && h == h0 && e.seen == [Seen(a, w0.Read(a))]
    case DeviceRead(base, n, rounds) => ReadDone(w0, h0, w, h, base, n, rounds, e, raw)
    case DeviceWrite(base, data, rounds) => WriteDone(w0, h0, h, base, data, rounds, e, raw)
    case ToDevice(mm, start, n, owner, fates) => ToDeviceDone(w0, h0, w, h, mm, start, n, owner, fates, e)
    case ToSystem(mm, start, n, owner, fates) => ToSystemDone(w0, h0, w, h, mm, start, n, owner, fates)
    case TouchDevice(a, vma, owner, fate) => TouchDone(w0, h0, w, h, a, vma, owner, fate)
    case Evict(first, last, fate) => EvictDone(w0, h0, w, h, first, last, fate)
  }

  // A transfer for ordinary memory ends before its faults run out.
  lemma PatientRead(w: World, rounds: seq<Round>, marks: seq<nat>, base: Addr, n: nat, r: Transfer.Outcome)
    requires Patient(w, rounds, base, n) && (Ordinary(w, rounds, base, n) ==> r.Done? || r.Pending?)
    requires r.Pending? ==> |marks| == |rounds|
    requires FewFaults(rounds, marks, base, n, r.Done?) && Retries(rounds, marks, base, n, r.Done?)
    ensures r.Done?
  {
    MarksBound(rounds, marks, base, n, r.Done?);
    TotalWider(rounds, marks, base, n);
    DisturbedMore(rounds, base, n, |marks|);
  }

  // ----- one command

  // The vmas of the process are disjoint
  ghost predicate Sound(c: Command) {
    match c
    case ToDevice(mm, _, _, _, _) => VmasOk(mm.vmas)
    case ToSystem(mm, _, _, _, _) => VmasOk(mm.vmas)
    case _ => true
  }

  lemma FaithfulNone(h: seq<Event>)
    ensures Faithful(h, [], [])
  {}

  lemma CpuSees(w: World, mem: Mem, h: seq<Event>, a: Addr)
    requires Quiet(w, mem) && mem == Replay(h)
    ensures EpisodeOk(h, CpuRead(a), Episode([Seen(a, w.Read(a))], [|h|], [], |h|, |h|))
  {
    assert h[..|h|] == h && w.Read(a) == MemAt(mem, a);
  }

  // A command that shows nothing
  lemma SilentOk(h: seq<Event>, c: Command, before: nat)
    requires before <= |h| && (c.Others? || c.ToDevice? || c.ToSystem? || c.TouchDevice? || c.Evict?)
    ensures EpisodeOk(h, c, Episode([], [], [], before, |h|))
  {}

  // dmirror_migrate_to_device returns the range as the mirror shows it, if all of it is there.
  method ReadBack(m: Machine, base: Addr, n: nat) returns (ok: bool, seen: seq<Seen>, ghost times: seq<nat>)
    requires Quiet(m.w, m.mem) && m.Recorded()
    ensures Faithful(m.history, seen, times) && PagesFrom(seen, base, n) && |seen| == (if ok then n else 0)
    ensures forall i | 0 <= i < |times| :: times[i] == |m.history|
    ensures ok <==> Covered(m.w, base, base + n, false)
  {
    hide Quiet, Faithful;
    FaithfulNone(m.history);
    var bounce := new PageData[n](_ => ZERO_DATA);
    var copied;
    ok, copied := DoRead(m, base, base, base + n, bounce, 0);
    if !ok {
      return false, [], [];
    }
    seen, times := SeenPages(base, bounce[..]), Repeated(|m.history|, n);
    NowFaithful(m.mem, m.history, base, bounce[..]);
  }

  lemma NowFaithful(mem: Mem, h: seq<Event>, base: Addr, data: seq<PageData>)
    requires mem == Replay(h) && forall i | 0 <= i < |data| :: data[i] == MemAt(mem, base + i)
    ensures Faithful(h, SeenPages(base, data), Repeated(|h|, |data|))
  {
    assert h[..|h|] == h;
  }

  // A transfer that the device has to give up on may leave a private page of its own in the mirror.
  method ReadByDevice(m: Machine, base: Addr, n: nat, rounds: seq<Round>)
    returns (seen: seq<Seen>, raw: bool, ghost e: Episode)
    requires Quiet(m.w, m.mem) && m.Recorded()
    modifies m
    ensures m.Recorded() && old(m.history) <= m.history && if raw then !m.w.MirrorOk() else Quiet(m.w, m.mem)
    ensures Ledger(old(m.w), old(m.history), m.w, m.history)
    ensures EpisodeOk(m.history, DeviceRead(base, n, rounds), e) && e.seen == seen
    ensures e.before == |old(m.history)| && e.after == |m.history|
    ensures ReadDone(old(m.w), old(m.history), m.w, m.history, base, n, rounds, e, raw)
  {
    hide Quiet, ReadThen, Faithful, LateFrom, Covered, Ledger, Retries, FewFaults, Easy, AllAlone, AllDead, Patient,
         Hindered, PrivateAhead;
    ghost var w0 := m.w;
    var r, bounce, cpages, faults;
    ghost var times, marks;
    r, bounce, cpages, faults, times, marks := DmirrorRead(m, base, n, rounds);
    if Patient(w0, rounds, base, n) { PatientRead(w0, rounds, marks, base, n, r); }
    TransferFaithful(m.history, base, bounce[..], times);
    assert bounce[..][..cpages] == bounce[..cpages];
    seen, raw := SeenPages(base, bounce[..cpages]), r.Raw?;
    e := Episode(seen, times, [], |old(m.history)|, |m.history|);
    TimesBounded(m.history, seen, times);
    NoTimes(e.before);
  }

  lemma TimesBounded(h: seq<Event>, seen: seq<Seen>, times: seq<nat>)
    requires Faithful(h, seen, times)
    ensures forall i | 0 <= i < |times| :: times[i] <= |h|
  {
    forall i | 0 <= i < |times| ensures times[i] <= |h| { assert FaithfulAt(h, seen[i], times[i]); }
  }

  lemma NoTimes(t: nat)
    ensures LateFrom([], t)
  {}

  method WriteByDevice(m: Machine, base: Addr, data: seq<PageData>, rounds: seq<Round>)
    returns (raw: bool, ghost e: Episode)
    requires Quiet(m.w, m.mem) && m.Recorded()
    modifies m
    ensures m.Recorded() && old(m.history) <= m.history && if raw then !m.w.MirrorOk() else Quiet(m.w, m.mem)
    ensures Ledger(old(m.w), old(m.history), m.w, m.history)
    ensures EpisodeOk(m.history, DeviceWrite(base, data, rounds), e)
    ensures e.seen == [] && e.before == |old(m.history)| && e.after == |m.history|
    ensures WriteDone(old(m.w), old(m.history), m.history, base, data, rounds, e, raw)
  {
    hide Quiet, Faithful, LateFrom, Covered, Ledger, Retries, FewFaults, Easy, AllAlone, AllDead, Hindered,
         PrivateAhead;
    var r, cpages, faults;
    ghost var wrote, marks;
    r, cpages, faults, wrote, marks := DmirrorWrite(m, base, data, rounds);
    raw := r.Raw?;
    e := Episode([], [], wrote, |old(m.history)|, |m.history|);
    FaithfulNone(m.history);
    NoTimes(e.before);
  }

  method ShowToDevice(m: Machine, mm: Mm, start: Addr, n: nat, owner: nat, fates: nat -> ChunkFate)
    returns (seen: seq<Seen>, ghost e: Episode)
    requires Quiet(m.w, m.mem) && m.Recorded() && VmasOk(mm.vmas)
    modifies m
    ensures m.Recorded() && old(m.history) <= m.history && Quiet(m.w, m.mem)
    ensures Ledger(old(m.w), old(m.history), m.w, m.history)
    ensures EpisodeOk(m.history, ToDevice(mm, start, n, owner, fates), e) && e.seen == seen
    ensures e.before == |old(m.history)| && e.after == |m.history|
    ensures ToDeviceDone(old(m.w), old(m.history), m.w, m.history, mm, start, n, owner, fates, e)
  {
    hide Quiet, VmasOk, Faithful, AllCarried, Cuts, AllMigratable, Chain, Covered, Ledger, Migratable, Migrated;
    ghost var w0 := m.w;
    seen, e := [], Episode([], [], [], 0, 0);
    var ok;
    ghost var cuts, at, states, times := [], 0, [], [];
    ok, cuts, at, states := MigrateToDevice(m, mm, start, start + n, owner, fates);
    FaithfulNone(m.history);
    if AllUndisturbed(fates) {
      MigratedIs(w0, m.w, mm, start, start + n, SelectSystem, owner, fates, cuts, at, states);
    }
    if ok {
      ok, seen, times := ReadBack(m, start, n);
      TimesBounded(m.history, seen, times);
    }
    e := Episode(seen, times, [], |old(m.history)|, |m.history|);
  }

  lemma MigratedIs(w0: World, w: World, mm: Mm, start: Addr, end: Addr, select: Select, owner: nat,
                   fates: nat -> ChunkFate, cuts: seq<Cut>, at: Addr, states: seq<World>)
    requires MigratedBy(w0, w, mm, start, end, select, owner, fates, cuts, at, states)
    ensures Migrated(w0, w, mm, start, end, select, owner, fates)
  {
    hide MigratedBy;
  }

  method ShowToSystem(m: Machine, mm: Mm, start: Addr, n: nat, owner: nat, fates: nat -> ChunkFate)
    requires Quiet(m.w, m.mem) && m.Recorded() && VmasOk(mm.vmas)
    modifies m
    ensures m.Recorded() && old(m.history) <= m.history && Quiet(m.w, m.mem)
    ensures Ledger(old(m.w), old(m.history), m.w, m.history)
    ensures ToSystemDone(old(m.w), old(m.history), m.w, m.history, mm, start, n, owner, fates)
  {
    hide Quiet, VmasOk, AllCarried, Cuts, AllMigratable, Chain, Ledger, Migratable, Migrated;
    ghost var w0 := m.w;
    var ok, cpages;
    ghost var cuts, at, states;
    ok, cpages, cuts, at, states := MigrateToSystem(m, mm, start, start + n, owner, fates);
    if AllUndisturbed(fates) {
      MigratedIs(w0, m.w, mm, start, start + n, SelectDevicePrivate, owner, fates, cuts, at, states);
    }
  }

  // The CPU touches an address.
  method Touch(m: Machine, a: Addr, vma: Vma, owner: nat, fate: ChunkFate)
    requires Quiet(m.w, m.mem) && m.Recorded()
    modifies m
    ensures m.Recorded() && old(m.history) <= m.history && Quiet(m.w, m.mem)
    ensures Ledger(old(m.w), old(m.history), m.w, m.history)
    ensures TouchDone(old(m.w), old(m.history), m.w, m.history, a, vma, owner, fate)
  {
    hide Quiet, Ledger, BooksExact, FaultMoves, FaultCopies, O.AllOrNothing, ArgsOk;
    LedgerSelf(m.w, m.history);
    ghost var w0 := m.w;
    if m.w.At(a).DevicePrivate? {
      var ok;
      ghost var moves;
      ok, moves := CpuFault(m, a, vma, owner, fate);
      assert ok && fate.Undisturbed() ==> TouchedBy(w0, m.w, a, vma, owner, fate, moves);
    }
  }

  method EvictRange(m: Machine, first: Pid, last: Pid, fate: ChunkFate)
    requires Quiet(m.w, m.mem) && m.Recorded()
    modifies m
    ensures m.Recorded() && old(m.history) <= m.history && Quiet(m.w, m.mem)
    ensures Ledger(old(m.w), old(m.history), m.w, m.history)
    ensures EvictDone(old(m.w), old(m.history), m.w, m.history, first, last, fate)
  {
    hide Quiet, Ledger, BooksExact, EvictExact, O.AllOrNothing, DeviceRange;
    LedgerSelf(m.w, m.history);
    ghost var w0 := m.w;
    if first <= last && DeviceRange(m.w, first, last - first + 1) {
      ghost var moves, d := EvictChunk(m, first, last, fate);
      assert fate.Undisturbed() ==> EvictedBy(w0, m.w, first, last, fate, moves, d);
    }
  }

  // A CPU fault that gets as far as the copy has erased the mirror entry.  If the page does not move
  // in the end, the next read of the device stores the device page itself.
  method TouchThenRead(m: Machine, a: Addr, vma: Vma, owner: nat, fate: ChunkFate, round: Round) returns (raw: bool)
    requires Quiet(m.w, m.mem) && m.Recorded() && FaultCopies(m.w, a, owner, fate) && fate.Undisturbed()
    requires ArgsOk(vma, a, a + 1)
    requires round.fault.alive && round.Alone()
    modifies m
    ensures raw <==> !FaultMoves(old(m.w), a, owner, fate)
    ensures if raw then !m.w.MirrorOk() else Quiet(m.w, m.mem)
  {
    hide Quiet, ArgsOk, FaultCopies, O.AllOrNothing, Round.Alone, Ledger, BooksExact, Easy, PrivateAhead, AllAlone,
         AllDead, Covered, LateFrom, ReadThen, Retries;
    DeviceAt(m.w, a, owner, fate);
    ghost var w0 := m.w;
    var ok;
    ghost var moves;
    ok, moves := CpuFault(m, a, vma, owner, fate);
    if FaultMoves(w0, a, owner, fate) {
      EasyOne(m.w, round, a);
    } else {
      TouchedAt(w0, m.w, a, vma, moves);
      RawOne(m.w, round, a);
    }
    var r, bounce, cpages, faults;
    ghost var times, marks;
    r, bounce, cpages, faults, times, marks := DmirrorRead(m, a, 1, [round]);
    raw := r.Raw?;
  }

  lemma DeviceAt(w: World, a: Addr, owner: nat, fate: ChunkFate)
    requires FaultCopies(w, a, owner, fate)
    ensures w.At(a).DevicePrivate?
  {}

  lemma TouchedAt(w0: World, w: World, a: Addr, vma: Vma, moves: map<Pid, Pid>)
    requires !w.At(a).Present? && O.AllOrNothing(w0, w, moves, Some(Place(a, vma)), 1) && w0.At(a).DevicePrivate?
    requires w0.At(a).page !in moves
    ensures w.At(a).DevicePrivate?
  {
    assert O.PteMoved(moves, Some(Place(a, vma)), 1, a, w0.At(a), w.At(a));
  }

  lemma EasyOne(w: World, round: Round, a: Addr)
    requires round.fault.alive && round.Alone() && w.At(a).Present?
    ensures Easy(w, [round], a, 1, false)
  {}

  lemma RawOne(w: World, round: Round, a: Addr)
    requires round.fault.alive && round.Alone() && w.At(a).DevicePrivate? && a !in w.mirror
    ensures PrivateAhead(w, [round], a, a + 1, false, true)
  {
    assert Rawly(w, a) && OpenTo(w, a, a, false);
    assert PrivateFrom(w, round.fault, a, a, a + 1, false, true);
  }

  // So does a read after the page before was unmapped: the entry of the device page goes with the one
  // that was invalidated.
  method UnmapThenRead(m: Machine, a: Addr, round: Round) returns (raw: bool)
    requires Quiet(m.w, m.mem) && m.Recorded() && a > 0 && m.w.At(a).DevicePrivate? && a in m.w.mirror
    requires m.w.At(a - 1).Present? || m.w.At(a - 1).DevicePrivate?
    requires round.fault.alive && round.Alone()
    modifies m
    ensures raw && !m.w.MirrorOk()
  {
    hide Quiet, Round.Alone, Ledger, Easy, PrivateAhead, AllAlone, AllDead, Covered, LateFrom, ReadThen, Retries,
         FewFaults, Act, MissedSpared, StaysMappable, Hindered, Ordinary;
    StillInPlace(m.w, m.mem, a - 1);
    ghost var w0 := m.w;
    QuietRun(m, [Unmap(a - 1)]);
    UnmapMisses(w0, m.w, a);
    RawOne(m.w, round, a);
    var r, bounce, cpages, faults;
    ghost var times, marks;
    r, bounce, cpages, faults, times, marks := DmirrorRead(m, a, 1, [round]);
    raw := r.Raw?;
  }

  lemma UnmapMisses(w0: World, w: World, a: Addr)
    requires a > 0 && InPlace(w0, a - 1) && w == ActAll(w0, [Unmap(a - 1)])
    ensures a !in w.mirror && w.At(a) == w0.At(a)
  {
    var x := Unmap(a - 1);
    assert [x][..0] == [] && [x][0] == x && ActAll(w0, []) == w0;
    assert a - 1 + 1 in Notified({a - 1});
  }

  method Step(m: Machine, c: Command) returns (seen: seq<Seen>, raw: bool, ghost e: Episode)
    requires Quiet(m.w, m.mem) && m.Recorded() && Sound(c)
    modifies m
    ensures m.Recorded() && old(m.history) <= m.history
    ensures Ledger(old(m.w), old(m.history), m.w, m.history)
    ensures EpisodeOk(m.history, c, e) && e.seen == seen && e.before == |old(m.history)| && e.after == |m.history|
    ensures if raw then !m.w.MirrorOk() && (c.DeviceRead? || c.DeviceWrite?) else Quiet(m.w, m.mem)
    ensures Achieved(old(m.w), old(m.history), m.w, m.history, c, e, raw)
  {
    hide Quiet, VmasOk, DeviceRange, EpisodeOk, Ledger, MissedSpared, ReadDone, WriteDone, ToDeviceDone, ToSystemDone,
         TouchDone, EvictDone, ActAll;
    ghost var before := |m.history|;
    LedgerSelf(m.w, m.history);
    seen, raw, e := [], false, Episode([], [], [], before, before);
    match c {
    case Others(acts) =>
      QuietRun(m, acts);
    case CpuRead(a) =>
      CpuSees(m.w, m.mem, m.history, a);
      seen, e := [Seen(a, m.w.Read(a))], Episode([Seen(a, m.w.Read(a))], [before], [], before, before);
      return;
    case DeviceRead(base, n, rounds) =>
      seen, raw, e := ReadByDevice(m, base, n, rounds);
      return;
    case DeviceWrite(base, data, rounds) =>
      raw, e := WriteByDevice(m, base, data, rounds);
      return;
    case ToDevice(mm, start, n, owner, fates) =>
      seen, e := ShowToDevice(m, mm, start, n, owner, fates);
      return;
    case ToSystem(mm, start, n, owner, fates) =>
      ShowToSystem(m, mm, start, n, owner, fates);
    case TouchDevice(a, vma, owner, fate) =>
      Touch(m, a, vma, owner, fate);
    case Evict(first, last, fate) =>
      EvictRange(m, first, last, fate);
    }
    e := Episode([], [], [], before, |m.history|);
    SilentOk(m.history, c, before);
  }

  // ----- whole runs

  // One episode per command, one after the other
  ghost predicate Story(history: seq<Event>, commands: seq<Command>, done: nat, eps: seq<Episode>, start: nat) {
    done <= |commands| && |eps| == done && AllEpisodes(history, commands, eps) && Timeline(eps, start, |history|)
  }

  ghost predicate AllEpisodes(history: seq<Event>, commands: seq<Command>, eps: seq<Episode>) {
    |eps| <= |commands| && forall k {:trigger eps[k]} | 0 <= k < |eps| :: EpisodeOk(history, commands[k], eps[k])
  }

  // Each episode begins where the one before it ends.
  predicate Timeline(eps: seq<Episode>, start: nat, end: nat) {
    if eps == [] then end == start
    else
      var last := eps[|eps| - 1];
      last.before <= last.after == end && Timeline(eps[..|eps| - 1], start, last.before)
  }

  function AllSeen(eps: seq<Episode>): seq<Seen> {
    if eps == [] then [] else AllSeen(eps[..|eps| - 1]) + eps[|eps| - 1].seen
  }

  lemma StoryMore(h: seq<Event>, h': seq<Event>, commands: seq<Command>, done: nat, eps: seq<Episode>, start: nat,
                  e: Episode)
    requires Story(h, commands, done, eps, start) && done < |commands| && h <= h'
    requires EpisodeOk(h', commands[done], e) && e.before == |h| && e.after == |h'|
    ensures Story(h', commands, done + 1, eps + [e], start)
    ensures AllSeen(eps + [e]) == AllSeen(eps) + e.seen
  {
    forall k | 0 <= k < done ensures EpisodeOk(h', commands[k], eps[k]) {
      EpisodeLater(h, h', commands[k], eps[k]);
    }
    hide EpisodeOk;
    assert (eps + [e])[..done] == eps;
  }

  lemma {:induction false} TimelineOrder(eps: seq<Episode>, start: nat, end: nat, j: nat)
    requires Timeline(eps, start, end) && j < |eps|
    ensures eps[j].after <= end
  {
    if j < |eps| - 1 { TimelineOrder(eps[..|eps| - 1], start, eps[|eps| - 1].before, j); }
  }

  lemma {:induction false} StoryOrder(eps: seq<Episode>, start: nat, end: nat, j: nat, k: nat)
    requires Timeline(eps, start, end) && j < k < |eps|
    ensures eps[j].after <= eps[k].before
  {
    var last := |eps| - 1;
    if k < last {
      StoryOrder(eps[..last], start, eps[last].before, j, k);
    } else {
      TimelineOrder(eps[..last], start, eps[last].before, j);
    }
  }

  // In a run, a read returns what an earlier command of the device stored, if nothing wrote the page in between.
  lemma RunReadsWrites(h: seq<Event>, commands: seq<Command>, done: nat, eps: seq<Episode>, start: nat,
                       w: nat, i: nat, r: nat, j: nat)
    requires Story(h, commands, done, eps, start) && w < r < done && commands[w].DeviceWrite?
    requires i < |eps[w].wrote| && j < |eps[r].seen| && eps[r].seen[j].a == commands[w].base + i
    requires forall k | eps[w].wrote[i] < k < eps[r].times[j] :: !h[k].Sets(commands[w].base + i)
    ensures eps[r].seen[j].v == commands[w].data[i]
  {
    StoryOrder(eps, start, |h|, w, r);
    ReadAfterWrite(h, commands[w], eps[w], commands[r], eps[r], i, j);
  }

  // ----- what the commands of a run achieve

  // states[k] is the state before command k; only the last command may end with a raw entry.
  ghost predicate Progress(history: seq<Event>, commands: seq<Command>, eps: seq<Episode>, states: seq<World>,
                           raw: bool) {
    && |eps| <= |commands| && |states| == |eps| + 1
    && forall k {:trigger eps[k]} | 0 <= k < |eps| :: Stepped(history, commands, eps, states, raw, k)
  }

  ghost predicate Stepped(history: seq<Event>, commands: seq<Command>, eps: seq<Episode>, states: seq<World>, raw: bool,
                          k: nat)
    requires k < |eps| <= |commands| && |states| == |eps| + 1
  {
    var e := eps[k];
    && e.before <= |history| && e.after <= |history|
    && Achieved(states[k], history[..e.before], states[k + 1], history[..e.after], commands[k], e, raw && k == |eps| - 1)
  }

  lemma ProgressMore(h: seq<Event>, h': seq<Event>, commands: seq<Command>, eps: seq<Episode>, states: seq<World>,
                     e: Episode, w: World, raw: bool)
    requires Progress(h, commands, eps, states, false) && |eps| < |commands| && h <= h'
    requires e.before == |h| && e.after == |h'|
    requires Achieved(states[|eps|], h, w, h', commands[|eps|], e, raw)
    ensures Progress(h', commands, eps + [e], states + [w], raw)
  {
    hide Achieved;
    var all, ws := eps + [e], states + [w];
    forall k | 0 <= k < |all| ensures Stepped(h', commands, all, ws, raw, k) {
      if k < |eps| {
        assert Stepped(h, commands, eps, states, false, k);
        assert h'[..eps[k].before] == h[..eps[k].before] && h'[..eps[k].after] == h[..eps[k].after];
      } else {
        assert h'[..|h|] == h && h'[..|h'|] == h';
      }
    }
  }

  // A command that writes nothing when nobody interferes
  ghost predicate Silent(c: Command) {
    match c
    case Others(acts) => acts == []
    case CpuRead(_) => true
    case DeviceRead(_, _, rounds) => AllAlone(rounds, |rounds|)
    case DeviceWrite(_, data, _) => false
    case ToDevice(_, _, _, _, fates) => AllUndisturbed(fates)
    case ToSystem(_, _, _, _, fates) => AllUndisturbed(fates)
    case TouchDevice(_, _, _, fate) => fate.Undisturbed()
    case Evict(_, _, fate) => fate.Undisturbed()
  }

  method Run(m: Machine, commands: seq<Command>)
    returns (seen: seq<Seen>, done: nat, raw: bool, ghost eps: seq<Episode>, ghost states: seq<World>)
    requires Quiet(m.w, m.mem) && m.Recorded() && forall c | c in commands :: Sound(c)
    modifies m
    ensures m.Recorded() && old(m.history) <= m.history
    ensures Ledger(old(m.w), old(m.history), m.w, m.history)
    ensures Story(m.history, commands, done, eps, |old(m.history)|) && seen == AllSeen(eps)
    ensures if raw then !m.w.MirrorOk() else done == |commands| && Quiet(m.w, m.mem)
    ensures raw ==> done > 0 && (commands[done - 1].DeviceRead? || commands[done - 1].DeviceWrite?)
    ensures |states| == done + 1 && states[0] == old(m.w) && states[done] == m.w
    ensures Progress(m.history, commands, eps, states, raw)
  {
    hide Quiet, Story, EpisodeOk, Sound, Ledger, Progress, Achieved;
    seen, done, raw, eps, states := [], 0, false, [], [m.w];
    LedgerSelf(m.w, m.history);
    StoryNone(m.history, commands);
    ProgressNone(m.history, commands, m.w);
    while done < |commands| && !raw
      invariant done <= |commands| && m.Recorded() && old(m.history) <= m.history
      invariant Story(m.history, commands, done, eps, |old(m.history)|) && seen == AllSeen(eps)
      invariant Ledger(old(m.w), old(m.history), m.w, m.history)
      invariant if raw then !m.w.MirrorOk() else Quiet(m.w, m.mem)
      invariant raw ==> done > 0 && (commands[done - 1].DeviceRead? || commands[done - 1].DeviceWrite?)
      invariant |eps| == done && |states| == done + 1 && states[0] == old(m.w) && states[done] == m.w
      invariant Progress(m.history, commands, eps, states, raw)
    {
      ghost var w, h := m.w, m.history;
      var s;
      ghost var e;
      s, raw, e := Step(m, commands[done]);
      LedgerTrans(old(m.w), old(m.history), w, h, m.w, m.history);
      StoryMore(h, m.history, commands, done, eps, |old(m.history)|, e);
      ProgressMore(h, m.history, commands, eps, states, e, m.w, raw);
      seen, eps, states, done := seen + s, eps + [e], states + [m.w], done + 1;
    }
  }

  lemma StoryNone(h: seq<Event>, commands: seq<Command>)
    ensures Story(h, commands, 0, [], |h|)
  {}

  lemma ProgressNone(h: seq<Event>, commands: seq<Command>, w: World)
    ensures Progress(h, commands, [], [w], false)
  {}

  // ----- written data is read back

  lemma {:induction false} Next(eps: seq<Episode>, start: nat, end: nat, k: nat)
    requires Timeline(eps, start, end) && k + 1 < |eps|
    ensures eps[k].after == eps[k + 1].before
  {
    var last := |eps| - 1;
    if k + 1 < last {
      Next(eps[..last], start, eps[last].before, k);
    } else {
      assert eps[..last] != [] && eps[..last][|eps[..last]| - 1] == eps[k];
    }
  }

  lemma SilentSame(w0: World, h0: seq<Event>, w: World, h: seq<Event>, c: Command, e: Episode, raw: bool)
    requires Achieved(w0, h0, w, h, c, e, raw) && Silent(c)
    ensures h == h0
  {}

  lemma SilentStep(h: seq<Event>, commands: seq<Command>, eps: seq<Episode>, states: seq<World>, raw: bool, k: nat)
    requires Progress(h, commands, eps, states, raw) && k < |eps| && Silent(commands[k])
    ensures eps[k].before == eps[k].after
  {
    hide Achieved, Silent;
    var e := eps[k];
    assert Stepped(h, commands, eps, states, raw, k);
    SilentSame(states[k], h[..e.before], states[k + 1], h[..e.after], commands[k], e, raw && k == |eps| - 1);
  }

  lemma {:induction false} SilentSpan(h: seq<Event>, commands: seq<Command>, eps: seq<Episode>, states: seq<World>,
                                      raw: bool, start: nat, k: nat, r: nat)
    requires Progress(h, commands, eps, states, raw) && Timeline(eps, start, |h|) && k < r < |eps|
    requires forall j | k < j < r :: Silent(commands[j])
    ensures eps[k].after == eps[r].before
  {
    hide Progress, Silent, Timeline;
    Next(eps, start, |h|, r - 1);
    if k < r - 1 {
      SilentSpan(h, commands, eps, states, raw, start, k, r - 1);
      SilentStep(h, commands, eps, states, raw, r - 1);
    }
  }

  // What the device has written without interference a CPU or device read shows, whatever undisturbed
  // migrations, faults and evictions there were in between.
  lemma WriteThenRead(h: seq<Event>, commands: seq<Command>, done: nat, eps: seq<Episode>, states: seq<World>,
                      raw: bool, start: nat, k: nat, r: nat, i: nat, j: nat)
    requires Story(h, commands, done, eps, start) && Progress(h, commands, eps, states, raw) && k < r < done
    requires commands[k].DeviceWrite? && i < |commands[k].data|
    requires Prompt(states[k], commands[k].rounds, commands[k].base, |commands[k].data|, true)
    requires AllAlone(commands[k].rounds, |commands[k].rounds|)
    requires forall l | k < l <= r :: Silent(commands[l])
    requires j < |eps[r].seen| && eps[r].seen[j].a == commands[k].base + i
    ensures eps[r].seen[j].v == commands[k].data[i]
  {
    hide Progress, Prompt, AllAlone, Silent, Story, EpisodeOk, Timeline;
    EpisodeIs(h, commands, done, eps, start, k);
    var e := eps[k];
    EpisodeIs(h, commands, done, eps, start, r);
    SilentSpan(h, commands, eps, states, raw, start, k, r);
    SilentStep(h, commands, eps, states, raw, r);
    Written(h, commands, eps, states, raw, k);
    TimeIs(h, commands[r], eps[r], j);
    NoneBetween(h, commands[k], e, i, e.after);
    RunReadsWrites(h, commands, done, eps, start, k, i, r, j);
  }

  lemma EpisodeIs(h: seq<Event>, commands: seq<Command>, done: nat, eps: seq<Episode>, start: nat, k: nat)
    requires Story(h, commands, done, eps, start) && k < done
    ensures |eps| == done <= |commands| && Timeline(eps, start, |h|) && EpisodeOk(h, commands[k], eps[k])
  {
    hide EpisodeOk;
    var e := eps[k];
  }

  lemma NoneBetween(h: seq<Event>, c: Command, e: Episode, i: nat, t: nat)
    requires EpisodeOk(h, c, e) && c.DeviceWrite? && i < |c.data| == |e.wrote| && t == e.after
    requires e.before <= |h| && e.after <= |h| && h[..e.after] == h[..e.before] + WriteLog(c.base, c.data, 0, |c.data|)
    ensures forall l | e.wrote[i] < l < t :: !h[l].Sets(c.base + i)
  {
    hide Faithful;
    LogAt(h, e, c.base, c.data, i);
    forall l | e.wrote[i] < l < t ensures !h[l].Sets(c.base + i) {
      assert h[l] == h[..e.after][l] == WriteLog(c.base, c.data, 0, |c.data|)[l - e.before];
    }
  }

  lemma Written(h: seq<Event>, commands: seq<Command>, eps: seq<Episode>, states: seq<World>, raw: bool, k: nat)
    requires Progress(h, commands, eps, states, raw) && k < |eps| && commands[k].DeviceWrite?
    requires Prompt(states[k], commands[k].rounds, commands[k].base, |commands[k].data|, true)
    requires AllAlone(commands[k].rounds, |commands[k].rounds|)
    ensures var c, e := commands[k], eps[k];
            && |e.wrote| == |c.data| && e.before <= |h| && e.after <= |h|
            && h[..e.after] == h[..e.before] + WriteLog(c.base, c.data, 0, |c.data|)
  {
    assert Stepped(h, commands, eps, states, raw, k);
    hide Prompt, AllAlone, WriteLog, PrivateAhead;
  }

  // Page i was written by event i of the log.
  lemma LogAt(h: seq<Event>, e: Episode, base: Addr, data: seq<PageData>, i: nat)
    requires e.before <= |h| && e.after <= |h| && i < |data| == |e.wrote|
    requires h[..e.after] == h[..e.before] + WriteLog(base, data, 0, |data|)
    requires WroteThen(h, base, data, e.wrote) && LateFrom(e.wrote, e.before) && e.wrote[i] < e.after
    ensures e.wrote[i] == e.before + i && e.after == e.before + |data|
  {
    var l := e.wrote[i];
    assert h[l] == h[..e.after][l] == WriteLog(base, data, 0, |data|)[l - e.before];
  }

  lemma TimeIs(h: seq<Event>, c: Command, e: Episode, j: nat)
    requires EpisodeOk(h, c, e) && e.before == e.after && j < |e.seen|
    ensures j < |e.times| && e.times[j] == e.before
  {}

  // Reading by the CPU always shows something.
  lemma WriteThenCpuRead(h: seq<Event>, commands: seq<Command>, done: nat, eps: seq<Episode>, states: seq<World>,
                         raw: bool, start: nat, k: nat, r: nat, i: nat)
    requires Story(h, commands, done, eps, start) && Progress(h, commands, eps, states, raw) && k < r < done
    requires commands[k].DeviceWrite? && i < |commands[k].data| && commands[r] == CpuRead(commands[k].base + i)
    requires Prompt(states[k], commands[k].rounds, commands[k].base, |commands[k].data|, true)
    requires AllAlone(commands[k].rounds, |commands[k].rounds|)
    requires forall l | k < l < r :: Silent(commands[l])
    ensures eps[r].seen == [Seen(commands[k].base + i, commands[k].data[i])]
  {
    assert EpisodeOk(h, commands[r], eps[r]);
    hide Prompt, AllAlone, Progress;
    WriteThenRead(h, commands, done, eps, states, raw, start, k, r, i, 0);
  }

  // Memory that is mapped, writable for a write, is reached by one undisturbed fault.
  lemma MappedPrompt(w: World, rounds: seq<Round>, base: Addr, n: nat, write: bool)
    requires |rounds| > 0 && rounds[0].fault.alive && rounds[0].Alone()
    requires forall a: Addr | base <= a < base + n :: w.At(a).Present? && (write ==> w.At(a).write)
    ensures Prompt(w, rounds, base, n, write)
  {
    hide Round.Alone, Covered;
    var end := base + n;
    forall a: Addr | base <= a <= end ensures CanFetch(w, rounds[0].fault, a, end, write) {}
  }
}
