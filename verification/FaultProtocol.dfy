/**
  hmm.c: range faults against interval invalidations.  Any number of threads fault ranges into the
  mirror while any number of invalidations run; no stale entry is ever installed.

  The sequence numbers are those of the mmu interval notifier: `sub` is the address space's, odd
  while an invalidation is active; `mni` is the one the callback leaves in the mirror's notifier.
  Notifications of the device's own migrations do not reach this protocol.
*/
module FaultProtocol {
  import K = Kernel

  type Addr = nat
  type Page = nat

  datatype Cpu = NotMapped | Mapped(page: Page, write: bool)

  // A pfn as hmm_range_fault reports it, and an entry of the mirror
  datatype Entry = Entry(page: Page, write: bool)

  datatype Fault =
    | Idle
    | Waiting(lo: Addr, hi: Addr, write: bool, seqno: nat)                  // in mmu_interval_read_begin
    | Walking(lo: Addr, hi: Addr, write: bool, seqno: nat, since: nat, pfns: seq<Entry>)
    | Holding(lo: Addr, hi: Addr, write: bool, seqno: nat, since: nat, pfns: seq<Entry>) // has the mutex
    | Storing(lo: Addr, hi: Addr, write: bool, seqno: nat, since: nat, pfns: seq<Entry>, at: nat)
  {
    predicate Begun() {
      Walking? || Holding? || Storing?
    }

    predicate Locked() {
      Holding? || Storing?
    }
  }

  datatype Stage = Started | Locked | SeqSet | CalledBack

  datatype Invalidation = Invalidation(lo: Addr, hi: Addr, blockable: bool, seqno: nat, stage: Stage) {
    predicate Announced() {
      stage.SeqSet? || stage.CalledBack?
    }

    predicate Covers(a: Addr) {
      lo <= a < hi
    }
  }

  datatype Owner = Nobody | Faulter(t: nat) | Notifier(i: nat)

  // calls counts the callbacks that have set the notifier's sequence number
  datatype State = State(cpu: map<Addr, Cpu>, mirror: map<Addr, Entry>, mutex: Owner,
                         faults: map<nat, Fault>, invals: map<nat, Invalidation>, sub: nat, mni: nat, calls: nat)
  {
    function At(a: Addr): Cpu {
      if a in cpu then cpu[a] else NotMapped
    }

    function FaultOf(t: nat): Fault {
      if t in faults then faults[t] else Idle
    }

    function SetFault(t: nat, f: Fault): State {
      this.(faults := faults[t := f])
    }
  }

  // The same page, and writable if the entry says so
  predicate Agrees(c: Cpu, e: Entry) {
    c.Mapped? && c.page == e.page && (e.write ==> c.write)
  }

  ghost predicate Coherent(s: State) {
    forall a | a in s.mirror :: Agrees(s.At(a), s.mirror[a])
  }

  // ----- steps

  datatype Step =
    | ReadSeq(t: nat, lo: Addr, hi: Addr, write: bool)
    | Begin(t: nat)                       // no invalidation, or the one that was running is over
    | Walk(t: nat)                        // the next page of the range
    | GiveUp(t: nat)                      // an error, EBUSY or the timeout
    | Lock(t: nat)
    | Check(t: nat)                       // mmu_interval_read_retry
    | Store(t: nat)
    | Finish(t: nat)
    | InvStart(i: nat, lo: Addr, hi: Addr, blockable: bool)
    | InvLock(i: nat)
    | InvAbort(i: nat)                    // the mutex is taken and the invalidation may not block
    | InvSetSeq(i: nat)
    | InvUpdate(i: nat)
    | InvEnd(i: nat)
    | Change(i: nat, a: Addr, c: Cpu)     // the page table changes within an invalidation
    | Populate(a: Addr, page: Page, write: bool)
    | Upgrade(a: Addr)

  predicate Enabled(s: State, x: Step) {
    match x
    case ReadSeq(t, lo, hi, _) => s.FaultOf(t).Idle? && lo <= hi
    case Begin(t) => s.FaultOf(t).Waiting? && s.sub != s.FaultOf(t).seqno
    case Walk(t) =>
      var f := s.FaultOf(t);
      f.Walking? && f.lo + |f.pfns| < f.hi && s.At(f.lo + |f.pfns|).Mapped? && (f.write ==> s.At(f.lo + |f.pfns|).write)
    case GiveUp(t) => s.FaultOf(t).Waiting? || s.FaultOf(t).Walking?
    case Lock(t) => s.FaultOf(t).Walking? && s.FaultOf(t).lo + |s.FaultOf(t).pfns| == s.FaultOf(t).hi && s.mutex.Nobody?
    case Check(t) => s.FaultOf(t).Holding?
    case Store(t) => s.FaultOf(t).Storing? && s.FaultOf(t).at < |s.FaultOf(t).pfns|
    case Finish(t) => s.FaultOf(t).Storing? && s.FaultOf(t).at == |s.FaultOf(t).pfns|
    case InvStart(i, lo, hi, _) => i !in s.invals && lo <= hi
    case InvLock(i) => i in s.invals && s.invals[i].stage.Started? && s.mutex.Nobody?
    case InvAbort(i) => i in s.invals && s.invals[i].stage.Started? && !s.invals[i].blockable && !s.mutex.Nobody?
    case InvSetSeq(i) => i in s.invals && s.invals[i].stage.Locked?
    case InvUpdate(i) => i in s.invals && s.invals[i].stage.SeqSet?
    case InvEnd(i) => i in s.invals && s.invals[i].stage.CalledBack?
    case Change(i, a, _) => i in s.invals && s.invals[i].stage.CalledBack? && s.invals[i].Covers(a)
    case Populate(a, _, _) => s.At(a).NotMapped?
    case Upgrade(a) => s.At(a).Mapped?
  }

  // What dmirror_do_update erases: both ends included, so one page more than was invalidated
  function Updated(mirror: map<Addr, Entry>, lo: Addr, hi: Addr): map<Addr, Entry> {
    map a | a in mirror && !(lo <= a <= hi) :: mirror[a]
  }

  // It is what the notification of each of the pages erases in the kernel state.
  lemma UpdatedIs(mirror: map<Addr, Entry>, lo: Addr, hi: Addr)
    requires lo < hi
    ensures Updated(mirror, lo, hi) == mirror - K.Notified(Pages(lo, hi))
  {
    var pages := Pages(lo, hi);
    forall a: Addr ensures a in K.Notified(pages) <==> lo <= a <= hi {
      if lo < a <= hi { assert a - 1 in pages; }
    }
  }

  function Pages(lo: Addr, hi: Addr): (r: set<Addr>)
    requires lo <= hi
    ensures forall a: Addr :: a in r <==> lo <= a < hi
    decreases hi
  {
    if lo == hi then {} else Pages(lo, hi - 1) + {hi - 1}
  }

  // The end of an invalidation; the last one makes the sequence number even again
  function Ended(s: State, i: nat): State {
    var rest := s.invals - {i};
    s.(invals := rest, sub := if rest == map[] then s.sub + 1 else s.sub)
  }

  function SetStage(s: State, i: nat, stage: Stage): State
    requires i in s.invals
  {
    s.(invals := s.invals[i := s.invals[i].(stage := stage)])
  }

  function Next(s: State, x: Step): State
    requires Enabled(s, x)
  {
    match x
    case ReadSeq(t, lo, hi, write) => s.SetFault(t, Waiting(lo, hi, write, s.mni))
    case Begin(t) =>
      var f := s.FaultOf(t);
      s.SetFault(t, Walking(f.lo, f.hi, f.write, f.seqno, s.calls, []))
    case Walk(t) =>
      var f := s.FaultOf(t);
      var c := s.At(f.lo + |f.pfns|);
      s.SetFault(t, Walking(f.lo, f.hi, f.write, f.seqno, f.since, f.pfns + [Entry(c.page, c.write)]))
    case GiveUp(t) => s.SetFault(t, Idle)
    case Lock(t) =>
      var f := s.FaultOf(t);
      s.SetFault(t, Holding(f.lo, f.hi, f.write, f.seqno, f.since, f.pfns)).(mutex := Faulter(t))
    case Check(t) =>
      var f := s.FaultOf(t);
      if s.mni != f.seqno then s.SetFault(t, Idle).(mutex := Nobody)
      else s.SetFault(t, Storing(f.lo, f.hi, f.write, f.seqno, f.since, f.pfns, 0))
    case Store(t) =>
      var f := s.FaultOf(t);
      if f.write && !f.pfns[f.at].write then s.SetFault(t, Idle).(mutex := Nobody)
      else
        s.SetFault(t, Storing(f.lo, f.hi, f.write, f.seqno, f.since, f.pfns, f.at + 1))
         .(mirror := s.mirror[f.lo + f.at := f.pfns[f.at]])
    case Finish(t) => s.SetFault(t, Idle).(mutex := Nobody)
    case InvStart(i, lo, hi, blockable) =>
      var sub := if s.sub % 2 == 0 then s.sub + 1 else s.sub;
      s.(sub := sub, invals := s.invals[i := Invalidation(lo, hi, blockable, sub, Started)])
    case InvLock(i) => SetStage(s, i, Locked).(mutex := Notifier(i))
    case InvAbort(i) => Ended(s, i)
    case InvSetSeq(i) => SetStage(s, i, SeqSet).(mni := s.invals[i].seqno, calls := s.calls + 1)
    case InvUpdate(i) =>
      SetStage(s, i, CalledBack).(mutex := Nobody, mirror := Updated(s.mirror, s.invals[i].lo, s.invals[i].hi))
    case InvEnd(i) => Ended(s, i)
    case Change(i, a, c) => s.(cpu := s.cpu[a := c])
    case Populate(a, page, write) => s.(cpu := s.cpu[a := Mapped(page, write)])
    case Upgrade(a) => s.(cpu := s.cpu[a := Mapped(s.At(a).page, true)])
  }

  // ----- the invariant

  // The mutex has one owner, who is in a locked phase
  ghost predicate MutexOk(s: State) {
    && (forall t | t in s.faults && s.faults[t].Locked() :: s.mutex == Faulter(t))
    && (forall i | i in s.invals && (s.invals[i].stage.Locked? || s.invals[i].stage.SeqSet?) :: s.mutex == Notifier(i))
  }

  // Sequence numbers
  ghost predicate SeqOk(s: State) {
    InvalSeqOk(s) && (forall t | t in s.faults :: FaultSeqOk(s, s.faults[t]))
  }

  ghost predicate InvalSeqOk(s: State) {
    && s.mni <= s.sub && s.mni % 2 == 1 && (s.sub % 2 == 1 <==> s.invals != map[])
    && (forall i | i in s.invals :: s.invals[i].seqno == s.sub)
    && (forall i | i in s.invals && s.invals[i].Announced() :: s.mni == s.sub)
  }

  predicate FaultSeqOk(s: State, f: Fault) {
    match f
    case Idle => true
    case Waiting(_, _, _, seqno) => seqno <= s.mni
    case _ => f.seqno <= s.mni && f.seqno < s.sub && f.since <= s.calls && (f.since < s.calls ==> f.seqno < s.mni)
  }

  // What a fault has seen is still true unless it is going to retry
  ghost predicate FaultOk(s: State, f: Fault) {
    f.Begun() && f.seqno == s.mni ==> forall k | 0 <= k < |f.pfns| :: Agrees(s.At(f.lo + k), f.pfns[k])
  }

  ghost predicate FaultsOk(s: State) {
    forall t | t in s.faults :: FaultOk(s, s.faults[t]) && (s.faults[t].Storing? ==> s.faults[t].seqno == s.mni)
  }

  // An invalidation that has called back left nothing in its range
  ghost predicate Cleared(s: State) {
    forall i, a | i in s.invals && s.invals[i].stage.CalledBack? && s.invals[i].Covers(a) :: a !in s.mirror
  }

  ghost predicate Valid(s: State) {
    MutexOk(s) && SeqOk(s) && FaultsOk(s) && Cleared(s) && Coherent(s)
  }

  // No announced invalidation is running while a fault's sequence number is current.
  lemma Exclusion(s: State, t: nat)
    requires SeqOk(s) && t in s.faults && s.faults[t].Begun() && s.faults[t].seqno == s.mni
    ensures forall i | i in s.invals :: !s.invals[i].Announced()
  {
    assert FaultSeqOk(s, s.faults[t]);
  }

  lemma MutexStep(s: State, x: Step)
    requires MutexOk(s) && Enabled(s, x)
    ensures MutexOk(Next(s, x))
  {}

  lemma SeqStep(s: State, x: Step)
    requires SeqOk(s) && Enabled(s, x)
    ensures SeqOk(Next(s, x))
  {
    InvalSeqStep(s, x);
    var s' := Next(s, x);
    forall t | t in s'.faults ensures FaultSeqOk(s', s'.faults[t]) {
      assert t in s.faults ==> FaultSeqOk(s, s.faults[t]);
      FaultSeqStep(s, x, t);
    }
    hide InvalSeqOk, FaultSeqOk, Next;
  }

  lemma InvalSeqStep(s: State, x: Step)
    requires InvalSeqOk(s) && Enabled(s, x)
    ensures InvalSeqOk(Next(s, x))
  {
    if x.InvStart? {
      StartSeq(s, x);
    } else if x.InvAbort? || x.InvEnd? {
      EndSeq(s, x);
    } else {
      RestSeq(s, x);
    }
  }

  lemma StartSeq(s: State, x: Step)
    requires InvalSeqOk(s) && Enabled(s, x) && x.InvStart?
    ensures InvalSeqOk(Next(s, x))
  {}

  lemma EndSeq(s: State, x: Step)
    requires InvalSeqOk(s) && Enabled(s, x) && (x.InvAbort? || x.InvEnd?)
    ensures InvalSeqOk(Next(s, x))
  {}

  lemma RestSeq(s: State, x: Step)
    requires InvalSeqOk(s) && Enabled(s, x) && !x.InvStart? && !x.InvAbort? && !x.InvEnd?
    ensures InvalSeqOk(Next(s, x))
  {}

  lemma FaultSeqStep(s: State, x: Step, t: nat)
    requires InvalSeqOk(s) && FaultSeqOk(s, s.FaultOf(t)) && Enabled(s, x)
    ensures FaultSeqOk(Next(s, x), Next(s, x).FaultOf(t))
  {}

  lemma FaultsStep(s: State, x: Step)
    requires MutexOk(s) && SeqOk(s) && FaultsOk(s) && Enabled(s, x)
    ensures FaultsOk(Next(s, x))
  {
    var s' := Next(s, x);
    forall t | t in s'.faults
      ensures FaultOk(s', s'.faults[t]) && (s'.faults[t].Storing? ==> s'.faults[t].seqno == s'.mni)
    {
      FaultStep(s, x, t);
    }
    hide FaultOk, Next;
  }

  // A step of thread t itself
  predicate Own(x: Step, t: nat) {
    match x
    case ReadSeq(u, _, _, _) => u == t
    case Begin(u) => u == t
    case Walk(u) => u == t
    case GiveUp(u) => u == t
    case Lock(u) => u == t
    case Check(u) => u == t
    case Store(u) => u == t
    case Finish(u) => u == t
    case _ => false
  }

  ghost predicate FaultFine(s: State, t: nat) {
    FaultOk(s, s.FaultOf(t)) && (s.FaultOf(t).Storing? ==> s.FaultOf(t).seqno == s.mni)
  }

  lemma FaultStep(s: State, x: Step, t: nat)
    requires MutexOk(s) && SeqOk(s) && FaultsOk(s) && Enabled(s, x)
    ensures FaultFine(Next(s, x), t)
  {
    assert t in s.faults ==> FaultOk(s, s.faults[t]);
    hide MutexOk, SeqOk, FaultsOk, Enabled, Next, FaultFine;
    FineNow(s, t);
    if Own(x, t) {
      OwnStep(s, x, t);
    } else {
      OtherStep(s, x, t);
    }
  }

  lemma FineNow(s: State, t: nat)
    requires FaultsOk(s)
    ensures FaultFine(s, t)
  {}

  lemma OwnStep(s: State, x: Step, t: nat)
    requires FaultFine(s, t) && Enabled(s, x) && Own(x, t)
    ensures FaultFine(Next(s, x), t)
  {}

  lemma OtherStep(s: State, x: Step, t: nat)
    requires MutexOk(s) && SeqOk(s) && FaultFine(s, t) && Enabled(s, x) && !Own(x, t)
    ensures FaultFine(Next(s, x), t)
  {
    OtherSame(s, x, t);
    match x {
      case InvSetSeq(i) => SetSeqStep(s, i, t);
      case Change(i, a, c) => CpuStep(s, x, t);
      case Populate(a, page, write) => CpuStep(s, x, t);
      case Upgrade(a) => CpuStep(s, x, t);
      case _ =>
        hide MutexOk, SeqOk, FaultFine;
        SameFine(s, Next(s, x), t);
    }
  }

  lemma OtherSame(s: State, x: Step, t: nat)
    requires Enabled(s, x) && !Own(x, t)
    ensures var s' := Next(s, x);
            && s'.FaultOf(t) == s.FaultOf(t)
            && (!x.InvSetSeq? ==> s'.mni == s.mni)
            && (!x.Change? && !x.Populate? && !x.Upgrade? ==> s'.cpu == s.cpu)
  {}

  lemma SameFine(s: State, s': State, t: nat)
    requires FaultFine(s, t) && s'.FaultOf(t) == s.FaultOf(t) && s'.mni == s.mni && s'.cpu == s.cpu
    ensures FaultFine(s', t)
  {}

  lemma SetSeqStep(s: State, i: nat, t: nat)
    requires MutexOk(s) && SeqOk(s) && FaultFine(s, t) && Enabled(s, InvSetSeq(i))
    ensures FaultFine(Next(s, InvSetSeq(i)), t)
  {
    assert t in s.faults ==> FaultSeqOk(s, s.faults[t]);
  }

  lemma CpuStep(s: State, x: Step, t: nat)
    requires SeqOk(s) && FaultFine(s, t) && Enabled(s, x) && (x.Change? || x.Populate? || x.Upgrade?)
    ensures FaultFine(Next(s, x), t)
  {
    var f := s.FaultOf(t);
    if f.Begun() && f.seqno == s.mni { Exclusion(s, t); }
    hide SeqOk;
  }

  lemma ClearedStep(s: State, x: Step)
    requires MutexOk(s) && SeqOk(s) && FaultsOk(s) && Cleared(s) && Enabled(s, x)
    ensures Cleared(Next(s, x))
  {
    if x.Store? { Exclusion(s, x.t); }
  }

  lemma CoherentStep(s: State, x: Step)
    requires SeqOk(s) && FaultsOk(s) && Cleared(s) && Coherent(s) && Enabled(s, x)
    ensures Coherent(Next(s, x))
  {
    var s' := Next(s, x);
    forall a | a in s'.mirror ensures Agrees(s'.At(a), s'.mirror[a]) {
      if x.Store? {
        assert FaultOk(s, s.faults[x.t]);
      }
      assert a in s.mirror ==> Agrees(s.At(a), s.mirror[a]);
    }
  }

  // ----- all runs

  // Steps that are not enabled do nothing.
  function Run(s: State, steps: seq<Step>): State {
    if steps == [] then s
    else
      var s1 := Run(s, steps[..|steps| - 1]);
      var x := steps[|steps| - 1];
      if Enabled(s1, x) then Next(s1, x) else s1
  }

  // A fresh notifier is one sequence number behind its address space
  function Start(cpu: map<Addr, Cpu>): State {
    State(cpu, map[], Nobody, map[], map[], 2, 1, 0)
  }

  lemma StepValid(s: State, x: Step)
    requires Valid(s) && Enabled(s, x)
    ensures Valid(Next(s, x))
  {
    hide MutexOk, SeqOk, FaultsOk, Cleared, Coherent, Enabled, Next;
    MutexStep(s, x);
    SeqStep(s, x);
    FaultsStep(s, x);
    ClearedStep(s, x);
    CoherentStep(s, x);
  }

  lemma {:induction false} RunValid(cpu: map<Addr, Cpu>, steps: seq<Step>)
    ensures Valid(Run(Start(cpu), steps))
  {
    if steps != [] {
      RunValid(cpu, steps[..|steps| - 1]);
      var s := Run(Start(cpu), steps[..|steps| - 1]);
      var x := steps[|steps| - 1];
      hide Valid;
      if Enabled(s, x) { StepValid(s, x); }
    }
  }

  // In every run every mirror entry agrees with the CPU page table.
  lemma NoStaleEntry(cpu: map<Addr, Cpu>, steps: seq<Step>, a: Addr)
    ensures var s := Run(Start(cpu), steps); a in s.mirror ==> Agrees(s.At(a), s.mirror[a])
  {
    RunValid(cpu, steps);
  }

  // A callback between the end of read_begin and the check forces a retry.
  lemma RetryForced(cpu: map<Addr, Cpu>, steps: seq<Step>, t: nat)
    requires var s := Run(Start(cpu), steps); s.FaultOf(t).Holding? && s.FaultOf(t).since < s.calls
    ensures var s := Run(Start(cpu), steps); Enabled(s, Check(t)) && Next(s, Check(t)).FaultOf(t).Idle?
  {
    RunValid(cpu, steps);
    var s := Run(Start(cpu), steps);
    assert FaultSeqOk(s, s.faults[t]);
  }

  lemma {:induction false} RunAppend(s: State, a: seq<Step>, b: seq<Step>)
    ensures Run(s, a + b) == Run(Run(s, a), b)
  {
    if b == [] {
      assert a + b == a;
    } else {
      var n := |b| - 1;
      RunAppend(s, a, b[..n]);
      assert (a + b)[..|a| + n] == a + b[..n];
    }
  }

  lemma RunOne(s: State, x: Step)
    requires Enabled(s, x)
    ensures Run(s, [x]) == Next(s, x)
  {
    assert [x][..0] == [];
    assert Run(s, []) == s;
  }

  // ----- when the check retries

  // A callback of the run leaves a number that was not there before.
  ghost predicate SetsNew(s: State, steps: seq<Step>) {
    exists k | 0 <= k < |steps| :: NewAt(s, steps, k)
  }

  predicate NewAt(s: State, steps: seq<Step>, k: nat)
    requires k < |steps|
  {
    var s1 := Run(s, steps[..k]);
    steps[k].InvSetSeq? && Enabled(s1, steps[k]) && s1.mni != s1.invals[steps[k].i].seqno
  }

  // The check passes exactly if no callback has set a new number since the fault read it.
  lemma CheckExact(cpu: map<Addr, Cpu>, before: seq<Step>, x: Step, after: seq<Step>)
    requires x.ReadSeq? && Enabled(Run(Start(cpu), before), x)
    requires forall k | 0 <= k < |after| :: !(after[k].ReadSeq? && after[k].t == x.t)
    requires Run(Next(Run(Start(cpu), before), x), after).FaultOf(x.t).Holding?
    ensures var s1 := Next(Run(Start(cpu), before), x);
            var s2 := Run(s1, after);
            Enabled(s2, Check(x.t)) &&
            var s3 := Next(s2, Check(x.t));
            && s3.FaultOf(x.t) == (if SetsNew(s1, after) then Idle
                                   else Storing(x.lo, x.hi, x.write, s1.mni, s2.FaultOf(x.t).since, s2.FaultOf(x.t).pfns, 0))
            && s3.mutex == (if SetsNew(s1, after) then Nobody else Faulter(x.t))
            && s3.mirror == s2.mirror
  {
    var s0 := Run(Start(cpu), before);
    RunValid(cpu, before);
    hide MutexOk, FaultsOk, Cleared, Coherent;
    SeqStep(s0, x);
    assert MutexOk(Next(s0, x)) by { MutexStep(s0, x); }
    SinceRead(Next(s0, x), x.t, after);
    MutexHeld(Run(Next(s0, x), after), x.t);
  }

  lemma MutexHeld(s: State, t: nat)
    requires MutexOk(s) && s.FaultOf(t).Holding?
    ensures s.mutex == Faulter(t)
  {}

  lemma {:induction false} SinceRead(s: State, t: nat, steps: seq<Step>)
    requires SeqOk(s) && MutexOk(s) && s.FaultOf(t).Waiting? && s.FaultOf(t).seqno == s.mni
    requires forall k | 0 <= k < |steps| :: !(steps[k].ReadSeq? && steps[k].t == t)
    ensures var s' := Run(s, steps);
            && SeqOk(s') && MutexOk(s') && s.mni <= s'.mni && (s.mni < s'.mni <==> SetsNew(s, steps))
            && SameRequest(s.FaultOf(t), s'.FaultOf(t))
  {
    if steps != [] {
      var n := |steps| - 1;
      SinceRead(s, t, steps[..n]);
      var s1 := Run(s, steps[..n]);
      NewMore(s, steps);
      hide MutexOk, SetsNew, Enabled;
      if Enabled(s1, steps[n]) {
        SeqStep(s1, steps[n]);
        MutexStep(s1, steps[n]);
        NumberStep(s1, steps[n], s.FaultOf(t), t);
      }
    }
  }

  predicate SameRequest(f: Fault, f': Fault)
    requires !f.Idle?
  {
    f'.Idle? || (f'.lo == f.lo && f'.hi == f.hi && f'.write == f.write && f'.seqno == f.seqno)
  }

  lemma NumberStep(s: State, x: Step, f: Fault, t: nat)
    requires SeqOk(s) && Enabled(s, x) && !(x.ReadSeq? && x.t == t) && !f.Idle? && SameRequest(f, s.FaultOf(t))
    ensures var s' := Next(s, x);
            && s.mni <= s'.mni && (s.mni < s'.mni <==> x.InvSetSeq? && s.mni != s.invals[x.i].seqno)
            && SameRequest(f, s'.FaultOf(t))
  {
    RequestStep(s, x, f, t);
    hide SameRequest;
  }

  lemma RequestStep(s: State, x: Step, f: Fault, t: nat)
    requires Enabled(s, x) && !(x.ReadSeq? && x.t == t) && !f.Idle? && SameRequest(f, s.FaultOf(t))
    ensures SameRequest(f, Next(s, x).FaultOf(t))
  {
    if !Own(x, t) { OtherSame(s, x, t); }
  }

  lemma NewMore(s: State, steps: seq<Step>)
    requires steps != []
    ensures SetsNew(s, steps) <==> SetsNew(s, steps[..|steps| - 1]) || NewAt(s, steps, |steps| - 1)
  {
    var n := |steps| - 1;
    forall k | 0 <= k < n ensures NewAt(s, steps, k) <==> NewAt(s, steps[..n], k) {
      assert steps[..n][..k] == steps[..k];
    }
  }

  // ----- what the steps of one party do when nobody interferes

  function Repeat(x: Step, n: nat): (r: seq<Step>)
    ensures |r| == n
  {
    if n == 0 then [] else Repeat(x, n - 1) + [x]
  }

  // All steps of a fault of t
  function WholeFault(t: nat, lo: Addr, hi: Addr, write: bool): seq<Step>
    requires lo <= hi
  {
    [ReadSeq(t, lo, hi, write)] + [Begin(t)] + Repeat(Walk(t), hi - lo) + [Lock(t)] + [Check(t)]
    + Repeat(Store(t), hi - lo) + [Finish(t)]
  }

  predicate Faultable(s: State, lo: Addr, hi: Addr, write: bool) {
    forall a: Addr {:trigger s.At(a)} | lo <= a < hi :: s.At(a).Mapped? && (write ==> s.At(a).write)
  }

  // What the fault reports: the pages as they are mapped
  function Reported(s: State, lo: Addr, n: nat): (r: seq<Entry>)
    requires Faultable(s, lo, lo + n, false)
    ensures |r| == n && forall k | 0 <= k < n :: r[k] == Entry(s.At(lo + k).page, s.At(lo + k).write)
  {
    seq(n, k requires 0 <= k < n => Entry(s.At(lo + k).page, s.At(lo + k).write))
  }

  function Stored(mirror: map<Addr, Entry>, lo: Addr, pfns: seq<Entry>, n: nat): map<Addr, Entry>
    requires n <= |pfns|
  {
    if n == 0 then mirror else Stored(mirror, lo, pfns, n - 1)[lo + n - 1 := pfns[n - 1]]
  }

  lemma {:induction false} StoredAt(mirror: map<Addr, Entry>, lo: Addr, pfns: seq<Entry>, n: nat, a: Addr)
    requires n <= |pfns|
    ensures var m := Stored(mirror, lo, pfns, n);
            if lo <= a < lo + n then a in m && m[a] == pfns[a - lo]
            else (a in m <==> a in mirror) && (a in m ==> m[a] == mirror[a])
  {
    if n > 0 { StoredAt(mirror, lo, pfns, n - 1, a); }
  }

  function Begun(s: State, t: nat, lo: Addr, hi: Addr, write: bool, pfns: seq<Entry>): State {
    s.SetFault(t, Walking(lo, hi, write, s.mni, s.calls, pfns))
  }

  function StoredTo(s: State, t: nat, lo: Addr, hi: Addr, write: bool, pfns: seq<Entry>, n: nat): State
    requires n <= |pfns|
  {
    s.SetFault(t, Storing(lo, hi, write, s.mni, s.calls, pfns, n))
     .(mutex := Faulter(t), mirror := Stored(s.mirror, lo, pfns, n))
  }

  lemma Begins(s: State, t: nat, lo: Addr, hi: Addr, write: bool)
    requires s.mni != s.sub && s.FaultOf(t).Idle? && lo <= hi
    ensures Run(s, [ReadSeq(t, lo, hi, write)] + [Begin(t)]) == Begun(s, t, lo, hi, write, [])
  {
    var x := ReadSeq(t, lo, hi, write);
    RunAppend(s, [x], [Begin(t)]);
    RunOne(s, x);
    RunOne(Next(s, x), Begin(t));
    SetTwice(s, t, Next(s, x).FaultOf(t), Walking(lo, hi, write, s.mni, s.calls, []));
  }

  lemma SetTwice(s: State, t: nat, f: Fault, g: Fault)
    ensures s.SetFault(t, f).SetFault(t, g) == s.SetFault(t, g)
  {
    assert s.faults[t := f][t := g] == s.faults[t := g];
  }

  lemma Checks(s: State, t: nat, lo: Addr, hi: Addr, write: bool, pfns: seq<Entry>)
    requires s.mutex.Nobody? && lo + |pfns| == hi
    ensures Run(Begun(s, t, lo, hi, write, pfns), [Lock(t)] + [Check(t)]) == StoredTo(s, t, lo, hi, write, pfns, 0)
  {
    var s1 := Begun(s, t, lo, hi, write, pfns);
    RunAppend(s1, [Lock(t)], [Check(t)]);
    RunOne(s1, Lock(t));
    RunOne(Next(s1, Lock(t)), Check(t));
    var f, g := Holding(lo, hi, write, s.mni, s.calls, pfns), Storing(lo, hi, write, s.mni, s.calls, pfns, 0);
    SetTwice(s, t, s1.FaultOf(t), f);
    SetTwice(s, t, f, g);
    assert Stored(s.mirror, lo, pfns, 0) == s.mirror;
  }

  // The number a fault would read now does not belong to an invalidation that is still running.
  predicate Undisturbed(s: State) {
    s.invals == map[] || s.mni != s.sub
  }

  // Then, with the mutex free, a fault of mapped pages, writable if that is asked, ends with exactly the
  // entries of the CPU page table in its range.
  lemma FaultCompletes(s: State, t: nat, lo: Addr, hi: Addr, write: bool)
    requires Valid(s) && s.FaultOf(t).Idle? && Undisturbed(s) && s.mutex.Nobody?
    requires lo <= hi && Faultable(s, lo, hi, write)
    ensures var s' := Run(s, WholeFault(t, lo, hi, write));
            && s'.FaultOf(t).Idle? && s'.mutex.Nobody? && s'.cpu == s.cpu && s'.invals == s.invals
            && (forall a | lo <= a < hi :: a in s'.mirror && s'.mirror[a] == Entry(s.At(a).page, s.At(a).write))
            && (forall a | !(lo <= a < hi) :: a in s'.mirror <==> a in s.mirror)
            && (forall a | !(lo <= a < hi) && a in s.mirror :: s'.mirror[a] == s.mirror[a])
  {
    hide Run, Enabled, Next, Repeat, Valid, Stored;
    var n := hi - lo;
    var pfns := Reported(s, lo, n);
    var first, walks := [ReadSeq(t, lo, hi, write)] + [Begin(t)], Repeat(Walk(t), n);
    var check, stores := [Lock(t)] + [Check(t)], Repeat(Store(t), n);
    ValidSeq(s);
    Begins(s, t, lo, hi, write);
    RunAppend(s, first, walks);
    Walks(s, t, lo, hi, write, n);
    RunAppend(s, first + walks, check);
    Checks(s, t, lo, hi, write, pfns);
    RunAppend(s, first + walks + check, stores);
    Stores(s, t, lo, hi, write, pfns, n);
    RunAppend(s, first + walks + check + stores, [Finish(t)]);
    Finishes(StoredTo(s, t, lo, hi, write, pfns, n), t);
    forall a: Addr {
      StoredAt(s.mirror, lo, pfns, n, a);
    }
    assert WholeFault(t, lo, hi, write) == first + walks + check + stores + [Finish(t)];
  }

  lemma ValidSeq(s: State)
    requires Valid(s)
    ensures InvalSeqOk(s)
  {}

  lemma WalkOne(s: State, t: nat, lo: Addr, hi: Addr, write: bool, k: nat)
    requires lo + k < hi && Faultable(s, lo, hi, write)
    ensures var s1 := Begun(s, t, lo, hi, write, Reported(s, lo, k));
            Enabled(s1, Walk(t)) && Next(s1, Walk(t)) == Begun(s, t, lo, hi, write, Reported(s, lo, k + 1))
  {
    var s1 := Begun(s, t, lo, hi, write, Reported(s, lo, k));
    assert s1.At(lo + k) == s.At(lo + k);
    var e := Entry(s.At(lo + k).page, s.At(lo + k).write);
    assert Reported(s, lo, k + 1) == Reported(s, lo, k) + [e];
    SetTwice(s, t, s1.FaultOf(t), Walking(lo, hi, write, s.mni, s.calls, Reported(s, lo, k + 1)));
  }

  lemma {:induction false} Walks(s: State, t: nat, lo: Addr, hi: Addr, write: bool, n: nat)
    requires lo + n <= hi && Faultable(s, lo, hi, write)
    ensures Run(Begun(s, t, lo, hi, write, []), Repeat(Walk(t), n)) == Begun(s, t, lo, hi, write, Reported(s, lo, n))
  {
    hide Enabled, Next, Reported, Begun;
    if n == 0 {
      assert Reported(s, lo, 0) == [];
    } else {
      Walks(s, t, lo, hi, write, n - 1);
      assert Repeat(Walk(t), n)[..n - 1] == Repeat(Walk(t), n - 1);
      WalkOne(s, t, lo, hi, write, n - 1);
    }
  }

  predicate AllWrite(pfns: seq<Entry>) {
    forall k | 0 <= k < |pfns| :: pfns[k].write
  }

  lemma StoreOne(s: State, t: nat, lo: Addr, hi: Addr, write: bool, pfns: seq<Entry>, k: nat)
    requires k < |pfns| && (write ==> AllWrite(pfns))
    ensures var s1 := StoredTo(s, t, lo, hi, write, pfns, k);
            Enabled(s1, Store(t)) && Next(s1, Store(t)) == StoredTo(s, t, lo, hi, write, pfns, k + 1)
  {
    var s1 := StoredTo(s, t, lo, hi, write, pfns, k);
    SetTwice(s, t, s1.FaultOf(t), Storing(lo, hi, write, s.mni, s.calls, pfns, k + 1));
  }

  lemma {:induction false} Stores(s: State, t: nat, lo: Addr, hi: Addr, write: bool, pfns: seq<Entry>, n: nat)
    requires n <= |pfns| && (write ==> AllWrite(pfns))
    ensures Run(StoredTo(s, t, lo, hi, write, pfns, 0), Repeat(Store(t), n)) == StoredTo(s, t, lo, hi, write, pfns, n)
  {
    if n > 0 {
      Stores(s, t, lo, hi, write, pfns, n - 1);
      assert Repeat(Store(t), n)[..n - 1] == Repeat(Store(t), n - 1);
      StoreOne(s, t, lo, hi, write, pfns, n - 1);
      hide Enabled, Next, StoredTo;
    }
  }

  lemma Finishes(s: State, t: nat)
    requires s.FaultOf(t).Storing? && s.FaultOf(t).at == |s.FaultOf(t).pfns|
    ensures Run(s, [Finish(t)]) == s.SetFault(t, Idle).(mutex := Nobody)
  {
    RunOne(s, Finish(t));
  }

  // After a page was mapped, or made writable, a fault stores what the CPU page table has now.
  lemma MappedThenFault(s: State, t: nat, a: Addr, x: Step, write: bool)
    requires Valid(s) && s.FaultOf(t).Idle? && Undisturbed(s) && s.mutex.Nobody?
    requires (x.Populate? || x.Upgrade?) && x.a == a
    requires if x.Populate? then s.At(a).NotMapped? && (write ==> x.write) else s.At(a).Mapped?
    ensures var s' := Run(s, [x] + WholeFault(t, a, a + 1, write));
            && a in s'.mirror && s'.FaultOf(t).Idle?
            && s'.mirror[a] == if x.Populate? then Entry(x.page, x.write) else Entry(s.At(a).page, true)
  {
    hide Run, Valid;
    RunAppend(s, [x], WholeFault(t, a, a + 1, write));
    RunOne(s, x);
    StepValid(s, x);
    FaultCompletes(Next(s, x), t, a, a + 1, write);
  }

  // All steps of invalidation i, within which the entry of a changes to c
  function WholeInvalidation(i: nat, lo: Addr, hi: Addr, blockable: bool, a: Addr, c: Cpu): seq<Step> {
    [InvStart(i, lo, hi, blockable), InvLock(i), InvSetSeq(i), InvUpdate(i), Change(i, a, c), InvEnd(i)]
  }

  // The state when invalidation v has been started and come to its stage
  function Invalidating(s: State, i: nat, v: Invalidation): State {
    s.(invals := s.invals[i := v], sub := v.seqno)
  }

  function CalledBackState(s: State, i: nat, v: Invalidation): State {
    Invalidating(s, i, v.(stage := CalledBack))
      .(mutex := Nobody, mni := v.seqno, calls := s.calls + 1, mirror := Updated(s.mirror, v.lo, v.hi))
  }

  lemma Restages(s: State, i: nat, v: Invalidation, stage: Stage)
    ensures SetStage(Invalidating(s, i, v), i, stage) == Invalidating(s, i, v.(stage := stage))
  {
    assert s.invals[i := v][i := v.(stage := stage)] == s.invals[i := v.(stage := stage)];
  }

  lemma CallsBack(s: State, i: nat, v: Invalidation)
    requires s.mutex.Nobody? && v.stage.Started?
    ensures Run(Invalidating(s, i, v), [InvLock(i), InvSetSeq(i), InvUpdate(i)]) == CalledBackState(s, i, v)
  {
    hide Run, Updated, SetStage;
    var steps := [InvLock(i), InvSetSeq(i), InvUpdate(i)];
    Restages(s, i, v, Locked);
    var s1 := Invalidating(s, i, v);
    RunFirst(s1, steps);
    var s2 := Invalidating(s.(mutex := Notifier(i)), i, v.(stage := Locked));
    assert Next(s1, steps[0]) == s2;
    Restages(s.(mutex := Notifier(i)), i, v.(stage := Locked), SeqSet);
    RunFirst(s2, steps[1..]);
    var s3 := Invalidating(s.(mutex := Notifier(i), mni := v.seqno, calls := s.calls + 1), i, v.(stage := SeqSet));
    assert Next(s2, steps[1]) == s3;
    Restages(s.(mutex := Notifier(i), mni := v.seqno, calls := s.calls + 1), i, v.(stage := SeqSet), CalledBack);
    assert steps[1..][1..] == [steps[2]];
    RunOne(s3, steps[2]);
  }

  lemma Ends(s: State, i: nat, a: Addr, c: Cpu)
    requires i in s.invals && s.invals[i].stage.CalledBack? && s.invals[i].Covers(a)
    ensures Run(s, [Change(i, a, c), InvEnd(i)]) == Ended(s.(cpu := s.cpu[a := c]), i)
  {
    var steps := [Change(i, a, c), InvEnd(i)];
    RunFirst(s, steps);
    assert steps[1..] == [steps[1]];
    RunOne(Next(s, steps[0]), steps[1]);
  }

  // With the mutex free an invalidation comes to its end: the range and the page after it are
  // erased, the page table may change inside the range, and a new number is left if no other runs.
  lemma InvalidationCompletes(s: State, i: nat, lo: Addr, hi: Addr, blockable: bool, a: Addr, c: Cpu)
    requires Valid(s) && i !in s.invals && s.mutex.Nobody? && lo <= a < hi
    ensures var s' := Run(s, WholeInvalidation(i, lo, hi, blockable, a, c));
            && s'.cpu == s.cpu[a := c] && s'.mirror == s.mirror - K.Notified(Pages(lo, hi)) && s'.mutex.Nobody?
            && s'.invals == s.invals && s'.faults == s.faults
            && s'.mni == (if s.invals == map[] then s.sub + 1 else s.sub)
  {
    var sub := if s.sub % 2 == 0 then s.sub + 1 else s.sub;
    var v := Invalidation(lo, hi, blockable, sub, Started);
    var s4 := CalledBackState(s, i, v);
    ValidSeq(s);
    hide Valid;
    UpdatedIs(s.mirror, lo, hi);
    StartsAndCalls(s, i, v, a, c);
    assert s.invals[i := v.(stage := CalledBack)] - {i} == s.invals;
    hide Run, Updated, K.Notified;
    Ends(s4, i, a, c);
  }

  lemma StartsAndCalls(s: State, i: nat, v: Invalidation, a: Addr, c: Cpu)
    requires i !in s.invals && s.mutex.Nobody? && v.lo <= v.hi
    requires v.stage.Started? && v.seqno == if s.sub % 2 == 0 then s.sub + 1 else s.sub
    ensures Run(s, WholeInvalidation(i, v.lo, v.hi, v.blockable, a, c)) ==
            Run(CalledBackState(s, i, v), [Change(i, a, c), InvEnd(i)])
  {
    var steps := WholeInvalidation(i, v.lo, v.hi, v.blockable, a, c);
    var s1 := Invalidating(s, i, v);
    hide Run, CalledBackState;
    RunFirst(s, steps);
    assert Next(s, steps[0]) == s1;
    hide Next, Enabled, Invalidating;
    CallsBack(s, i, v);
    RunAppend(s1, [InvLock(i), InvSetSeq(i), InvUpdate(i)], [Change(i, a, c), InvEnd(i)]);
    assert [InvLock(i), InvSetSeq(i), InvUpdate(i)] + [Change(i, a, c), InvEnd(i)] == steps[1..];
  }

  // One that may not block and finds the mutex taken backs out and leaves only its turn of the
  // address space's number behind.
  lemma InvalidationBacksOut(s: State, i: nat, lo: Addr, hi: Addr)
    requires Valid(s) && i !in s.invals && !s.mutex.Nobody? && lo <= hi
    ensures Run(s, [InvStart(i, lo, hi, false), InvAbort(i)]) == s.(sub := if s.invals == map[] then s.sub + 2 else s.sub)
  {
    var steps := [InvStart(i, lo, hi, false), InvAbort(i)];
    ValidSeq(s);
    hide Run, Valid;
    RunFirst(s, steps);
    assert steps[1..] == [InvAbort(i)];
    RunOne(Next(s, steps[0]), InvAbort(i));
    assert Next(s, steps[0]).invals - {i} == s.invals;
  }

  lemma RunFirst(s: State, steps: seq<Step>)
    requires steps != [] && Enabled(s, steps[0])
    ensures Run(s, steps) == Run(Next(s, steps[0]), steps[1..])
  {
    RunAppend(s, [steps[0]], steps[1..]);
    RunOne(s, steps[0]);
    assert [steps[0]] + steps[1..] == steps;
  }

  // ----- the number of an overlapping callback

  const OVERLAP: seq<Step> := [
    InvStart(0, 0, 1, true), InvStart(1, 0, 1, true), InvLock(0), InvSetSeq(0), InvUpdate(0), ReadSeq(7, 0, 0, false)]

  const OVER: seq<Step> := [
    InvLock(1), InvSetSeq(1), InvUpdate(1), InvEnd(0), InvEnd(1), Begin(7), Lock(7)]

  function Between(): State {
    State(map[], map[], Nobody, map[7 := Waiting(0, 0, false, 3)],
          map[0 := Invalidation(0, 1, true, 3, CalledBack), 1 := Invalidation(0, 1, true, 3, Started)], 3, 3, 1)
  }

  // A callback after the number was read does not always make the check retry: invalidations that
  // overlap leave the same number, and the fault has waited for both to end.
  lemma OverlappingCallback()
    ensures var s := Run(Run(Start(map[]), OVERLAP), OVER);
            && Run(Start(map[]), OVERLAP).calls == 1 && s.calls == 2
            && Enabled(s, Check(7)) && Next(s, Check(7)).FaultOf(7).Storing?
  {
    OverlapBegins();
    OverlapEnds();
  }

  lemma OverlapBegins()
    ensures Run(Start(map[]), OVERLAP) == Between()
  {
    var s0 := Start(map[]);
    var v0, v1 := Invalidation(0, 1, true, 3, Started), Invalidation(0, 1, true, 3, Started);
    var s1 := s0.(invals := map[0 := v0], sub := 3);
    var s2 := s1.(invals := map[0 := v0, 1 := v1]);
    var s5 := CalledBackState(s2, 0, v0);
    hide Run;
    RunFirst(s0, OVERLAP);
    RunFirst(s1, OVERLAP[1..]);
    assert Next(s1, OVERLAP[1]) == s2;
    assert Invalidating(s2, 0, v0) == s2;
    CallsBack(s2, 0, v0);
    RunAppend(s2, OVERLAP[2..5], OVERLAP[5..]);
    assert OVERLAP[1..][1..] == OVERLAP[2..5] + OVERLAP[5..];
    assert OVERLAP[2..5] == [InvLock(0), InvSetSeq(0), InvUpdate(0)] && OVERLAP[5..] == [OVERLAP[5]];
    RunOne(s5, OVERLAP[5]);
  }

  lemma OverlapEnds()
    ensures var s := Run(Between(), OVER);
            s.calls == 2 && s.FaultOf(7) == Holding(0, 0, false, 3, 2, []) && s.mni == 3
  {
    var s0, v1 := Between(), Invalidation(0, 1, true, 3, Started);
    hide Run;
    assert Invalidating(s0, 1, v1) == s0;
    CallsBack(s0, 1, v1);
    RunAppend(s0, OVER[..3], OVER[3..]);
    assert OVER[..3] == [InvLock(1), InvSetSeq(1), InvUpdate(1)] && OVER[..3] + OVER[3..] == OVER;
    var s3 := CalledBackState(s0, 1, v1);
    BothEnd(s3);
  }

  lemma BothEnd(s: State)
    requires s.invals == map[0 := Invalidation(0, 1, true, 3, CalledBack), 1 := Invalidation(0, 1, true, 3, CalledBack)]
    requires s.sub == 3 && s.mni == 3 && s.calls == 2 && s.mutex.Nobody? && s.FaultOf(7) == Waiting(0, 0, false, 3)
    ensures var s' := Run(s, OVER[3..]);
            s'.calls == 2 && s'.FaultOf(7) == Holding(0, 0, false, 3, 2, []) && s'.mni == 3
  {
    hide Run;
    RunFirst(s, OVER[3..]);
    var s4 := Next(s, InvEnd(0));
    assert 1 in s4.invals;
    RunFirst(s4, OVER[4..]);
    var s5 := Next(s4, InvEnd(1));
    assert s5.invals == map[];
    hide Ended;
    RunFirst(s5, OVER[5..]);
    var s6 := Next(s5, Begin(7));
    assert OVER[6..] == [Lock(7)];
    RunOne(s6, Lock(7));
  }

  // ----- dmirror_do_update

  class Mirror {
    var pt: map<Addr, Entry>

    constructor (pt: map<Addr, Entry>)
      ensures this.pt == pt
    {
      this.pt := pt;
    }

    method DoUpdate(lo: Addr, hi: Addr)
      requires lo <= hi
      modifies this
      ensures pt == Updated(old(pt), lo, hi)
    {
      var pfn := lo;
      while pfn <= hi
        invariant lo <= pfn <= hi + 1
        invariant forall a :: a in pt <==> a in old(pt) && !(lo <= a < pfn)
        invariant forall a | a in pt :: pt[a] == old(pt)[a]
      {
        if pfn in pt {
          pt := pt - {pfn};
        }
        pfn := pfn + 1;
      }
    }
  }
}
