/**
  How often a device read or write faults (hmm.c, dmirror_read and dmirror_write).  dmirror_do_update
  erases the page after each invalidated range as well, so that an invalidation of the page just
  before the part still to be done costs a fault, too.
*/
module RetryBounds {
  import opened Kernel
  import opened Txn
  import opened Accounts
  import opened MachineState
  import opened Environment
  import opened Faulting
  import opened Transfer

  // ----- the bound by the actions inside the range

  // No action of the round changes the page just before start.
  ghost predicate NoneBeside(round: Round, start: Addr) {
    NoneBefore(round.after, start) && forall k: nat :: NoneBefore(round.fault.ranges(k).acts, start)
  }

  function PieceInside(ranges: nat -> RangeFate, start: Addr, k: nat): nat {
    if k == 0 then 0
    else PieceInside(ranges, start, k - 1) + InsideCount(ranges(k - 1).acts, start, start + CHUNK * (k - 1))
  }

  function RoundInside(round: Round, start: Addr, end: Addr): nat
    requires start <= end
  {
    PieceInside(round.fault.ranges, start, Pieces(end - start)) + InsideCount(round.after, start, end)
  }

  // The actions inside the part still to be done that the faults of a transfer met
  function TotalInside(rounds: seq<Round>, marks: seq<nat>, base: Addr, n: nat): nat {
    if marks == [] then 0
    else
      var k := |marks| - 1;
      TotalInside(rounds, marks[..k], base, n)
      + if k < |rounds| && marks[k] <= n then RoundInside(rounds[k], base + marks[k], base + n) else 0
  }

  lemma {:induction false} PieceSame(round: Round, start: Addr, k: nat)
    requires NoneBeside(round, start)
    ensures PieceHits(round.fault.ranges, start, k) == PieceInside(round.fault.ranges, start, k)
  {
    if k > 0 {
      PieceSame(round, start, k - 1);
      HitsInside(round.fault.ranges(k - 1).acts, start, start + CHUNK * (k - 1));
    }
  }

  lemma RoundSame(round: Round, start: Addr, end: Addr)
    requires start <= end && NoneBeside(round, start)
    ensures round.Hits(start, end) == RoundInside(round, start, end)
  {
    PieceSame(round, start, Pieces(end - start));
    HitsInside(round.after, start, end);
  }

  // Nobody changes the page just before the part that a fault is for.
  ghost predicate AllClear(rounds: seq<Round>, marks: seq<nat>, base: Addr) {
    forall k | 0 <= k < |marks| && k < |rounds| :: NoneBeside(rounds[k], base + marks[k])
  }

  lemma {:induction false} TotalSame(rounds: seq<Round>, marks: seq<nat>, base: Addr, n: nat)
    requires AllClear(rounds, marks, base)
    ensures TotalHits(rounds, marks, base, n) == TotalInside(rounds, marks, base, n)
  {
    hide NoneBeside;
    if marks != [] {
      var k := |marks| - 1;
      TotalSame(rounds, marks[..k], base, n);
      if k < |rounds| && marks[k] <= n { RoundSame(rounds[k], base + marks[k], base + n); }
    }
  }

  // Then there is at most one fault more than there are actions inside that part.
  lemma InsideBound(rounds: seq<Round>, marks: seq<nat>, base: Addr, n: nat, done: bool)
    requires FewFaults(rounds, marks, base, n, done) && AllAlive(rounds, |marks|) && AllClear(rounds, marks, base)
    ensures |marks| <= TotalInside(rounds, marks, base, n) + if done then 1 else 0
  {
    TotalSame(rounds, marks, base, n);
  }

  // ----- the bound before the transfer begins

  // Whatever a fault has still to do, an action that hits it hits the range or the page before it.
  lemma HitWider(x: Action, lo: Addr, hi: Addr, lo': Addr, hi': Addr)
    requires lo' <= lo && hi <= hi' && Hit(x, lo, hi)
    ensures Hit(x, lo', hi')
  {}

  lemma {:induction false} CountWider(acts: seq<Action>, lo: Addr, hi: Addr, lo': Addr, hi': Addr)
    requires lo' <= lo && hi <= hi'
    ensures HitCount(acts, lo, hi) <= HitCount(acts, lo', hi')
  {
    if acts != [] {
      var x := acts[|acts| - 1];
      CountWider(acts[..|acts| - 1], lo, hi, lo', hi');
      if Hit(x, lo, hi) { HitWider(x, lo, hi, lo', hi'); }
    }
  }

  // All the actions of the first k pieces of a fault that hit the range
  function PieceAll(ranges: nat -> RangeFate, lo: Addr, hi: Addr, k: nat): nat {
    if k == 0 then 0 else PieceAll(ranges, lo, hi, k - 1) + HitCount(ranges(k - 1).acts, lo, hi)
  }

  function RoundAll(round: Round, base: Addr, n: nat): nat {
    PieceAll(round.fault.ranges, base, base + n, Pieces(n)) + HitCount(round.after, base, base + n)
  }

  function Disturbances(rounds: seq<Round>, base: Addr, n: nat): nat {
    if rounds == [] then 0 else Disturbances(rounds[..|rounds| - 1], base, n) + RoundAll(rounds[|rounds| - 1], base, n)
  }

  lemma {:induction false} PieceWider(ranges: nat -> RangeFate, start: Addr, lo: Addr, hi: Addr, k: nat)
    requires lo <= start && (k > 0 ==> start + CHUNK * (k - 1) <= hi)
    ensures PieceHits(ranges, start, k) <= PieceAll(ranges, lo, hi, k)
  {
    if k > 0 {
      PieceWider(ranges, start, lo, hi, k - 1);
      CountWider(ranges(k - 1).acts, start, start + CHUNK * (k - 1), lo, hi);
    }
  }

  lemma {:induction false} PieceMore(ranges: nat -> RangeFate, lo: Addr, hi: Addr, k: nat, l: nat)
    requires k <= l
    ensures PieceAll(ranges, lo, hi, k) <= PieceAll(ranges, lo, hi, l)
    decreases l
  {
    if k < l { PieceMore(ranges, lo, hi, k, l - 1); }
  }

  lemma PiecesLess(m: nat, n: nat)
    requires m <= n
    ensures Pieces(m) <= Pieces(n) && (m > 0 ==> CHUNK * (Pieces(m) - 1) <= m) && Pieces(0) == 0
  {}

  lemma RoundWider(round: Round, base: Addr, n: nat, mark: nat)
    requires mark <= n
    ensures round.Hits(base + mark, base + n) <= RoundAll(round, base, n)
  {
    PiecesLess(n - mark, n);
    PieceWider(round.fault.ranges, base + mark, base, base + n, Pieces(n - mark));
    PieceMore(round.fault.ranges, base, base + n, Pieces(n - mark), Pieces(n));
    CountWider(round.after, base + mark, base + n, base, base + n);
  }

  lemma {:induction false} TotalWider(rounds: seq<Round>, marks: seq<nat>, base: Addr, n: nat)
    requires |marks| <= |rounds|
    ensures TotalHits(rounds, marks, base, n) <= Disturbances(rounds[..|marks|], base, n)
  {
    if marks != [] {
      var k := |marks| - 1;
      TotalWider(rounds, marks[..k], base, n);
      assert rounds[..|marks|][..k] == rounds[..k] && rounds[..|marks|][k] == rounds[k];
      if marks[k] <= n { RoundWider(rounds[k], base, n, marks[k]); }
    }
  }

  lemma {:induction false} DisturbedMore(rounds: seq<Round>, base: Addr, n: nat, k: nat)
    requires k <= |rounds|
    ensures Disturbances(rounds[..k], base, n) <= Disturbances(rounds, base, n)
  {
    if k < |rounds| {
      DisturbedMore(rounds[..|rounds| - 1], base, n, k);
      assert rounds[..|rounds| - 1][..k] == rounds[..k];
    } else {
      assert rounds[..k] == rounds;
    }
  }

  // A read of ordinary memory ends, as soon as there are more rounds than disturbances: the number of
  // its faults is at most one more than that of the actions that hit the range or the page before.
  method ReadOrdinary(m: Machine, base: Addr, n: nat, rounds: seq<Round>)
    returns (bounce: array<PageData>, faults: nat, ghost times: seq<nat>)
    requires Quiet(m.w, m.mem) && m.Recorded() && Ordinary(m.w, rounds, base, n) && AllAlive(rounds, |rounds|)
    requires |rounds| > Disturbances(rounds, base, n)
    modifies m
    ensures Quiet(m.w, m.mem) && m.Recorded() && old(m.history) <= m.history
    ensures bounce.Length == |times| == n && ReadThen(m.history, base, bounce[..], times)
    ensures LateFrom(times, |old(m.history)|) && faults <= Disturbances(rounds, base, n) + 1
    ensures Hindered(old(m.w), rounds, base, n, false) ==> faults >= 2
  {
    hide Quiet, Ordinary, ReadThen, LateFrom, Ledger, Retries, Easy, AllAlone, AllDead, Covered, PrivateAhead,
         Hindered;
    var r, cpages;
    ghost var marks;
    r, bounce, cpages, faults, times, marks := DmirrorRead(m, base, n, rounds);
    MarksBound(rounds, marks, base, n, r.Done?);
    TotalWider(rounds, marks, base, n);
    DisturbedMore(rounds, base, n, |marks|);
  }

  lemma MarksBound(rounds: seq<Round>, marks: seq<nat>, base: Addr, n: nat, done: bool)
    requires Retries(rounds, marks, base, n, done)
    ensures |marks| <= |rounds|
  {}

  // ----- the page before the range

  // Two pages of ordinary memory
  function TwoPages(): World {
    World(map[0 := Present(0, true), 1 := Present(1, true)],
          map[0 := Page(System, 1, 0, Unlocked, OnLru, Anon, false, ZERO_DATA, 0),
              1 := Page(System, 1, 0, Unlocked, OnLru, Anon, false, ZERO_DATA, 0)],
          map[])
  }

  lemma TwoPagesQuiet()
    ensures Quiet(TwoPages(), map[])
  {
    var w := TwoPages();
    assert w.Mappers(0) == {0} && w.Mappers(1) == {1};
    assert w.BalancedAt(0) && w.BalancedAt(1);
    forall a: Addr ensures w.Read(a) == MemAt(map[], a) {}
  }

  // The device reads page 1 alone.  After its fault somebody unmaps page 0, and nobody does anything
  // else; the read faults twice, although no action is inside the range.
  method TwoFaults() returns (rounds: seq<Round>, faults: nat)
    ensures |rounds| == 2 && faults == 2 && Disturbances(rounds, 1, 1) == 1
    ensures forall marks: seq<nat> | |marks| == 2 :: TotalInside(rounds, marks, 1, 1) == 0
  {
    TwoPagesQuiet();
    var m := new Machine(TwoPages());
    var alone := FaultFate(true, k => RangeFate([], i => 0));
    rounds := [Round(alone, [Unmap(0)]), Round(alone, [])];
    TwoRounds(m.w, rounds, alone);
    var bounce;
    ghost var times;
    hide Quiet;
    bounce, faults, times := ReadOrdinary(m, 1, 1, rounds);
    forall marks: seq<nat> | |marks| == 2 ensures TotalInside(rounds, marks, 1, 1) == 0 {
      NothingInside(rounds, alone, marks);
    }
  }

  lemma TwoRounds(w: World, rounds: seq<Round>, alone: FaultFate)
    requires w == TwoPages() && rounds == [Round(alone, [Unmap(0)]), Round(alone, [])] && alone.alive
    requires forall k: nat :: alone.ranges(k).acts == []
    ensures Ordinary(w, rounds, 1, 1) && AllAlive(rounds, 2) && Hindered(w, rounds, 1, 1, false)
    ensures Disturbances(rounds, 1, 1) == 1
  {
    AloneAll(alone, Pieces(1));
    assert rounds[..1] == [rounds[0]] && rounds[..1][..0] == [];
    assert [Unmap(0)][..0] == [] && [Unmap(0)][0] == Unmap(0);
    assert HitCount([Unmap(0)], 1, 2) == 1;
    assert Disturbances(rounds[..1], 1, 1) == RoundAll(rounds[0], 1, 1);
  }

  lemma {:induction false} AloneAll(alone: FaultFate, k: nat)
    requires forall j: nat :: alone.ranges(j).acts == []
    ensures PieceAll(alone.ranges, 1, 2, k) == 0
    ensures forall start: Addr :: PieceInside(alone.ranges, start, k) == 0
  {
    if k > 0 { AloneAll(alone, k - 1); }
  }

  lemma NothingInside(rounds: seq<Round>, alone: FaultFate, marks: seq<nat>)
    requires rounds == [Round(alone, [Unmap(0)]), Round(alone, [])] && |marks| == 2
    requires forall k: nat :: alone.ranges(k).acts == []
    ensures TotalInside(rounds, marks, 1, 1) == 0
  {
    AloneAll(alone, Pieces(0));
    AloneAll(alone, Pieces(1));
    assert [Unmap(0)][..0] == [] && [Unmap(0)][0] == Unmap(0);
    assert forall lo: Addr | lo >= 1 :: InsideCount([Unmap(0)], lo, 2) == 0;
    assert marks[..1][..0] == [] && marks[..1][0] == marks[0];
    assert TotalInside(rounds, marks[..1], 1, 1) == 0;
  }
}
