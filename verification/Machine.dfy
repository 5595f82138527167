/**
  The kernel state as an object, together with the history of what the process and its devices
  wrote.  The flat memory the process should see is the replay of that history.
*/
module MachineState {
  import opened Kernel

  // A write to one page, a page shared with a child, or a reference to a page taken or dropped by
  // somebody else
  datatype Event = Wrote(a: Addr, v: PageData) | Shared(a: Addr, b: Addr) | TookRef(p: Pid) | DroppedRef(p: Pid) {
    // The address holds something else afterwards
    predicate Sets(x: Addr) {
      match this
      case Wrote(a, _) => a == x
      case Shared(_, b) => b == x
      case _ => false
    }

    // What becomes of the references of others to a page
    function Delta(x: Pid): int {
      match this
      case TookRef(p) => if p == x then 1 else 0
      case DroppedRef(p) => if p == x then -1 else 0
      case _ => 0
    }
  }

  function Apply(mem: map<Addr, PageData>, e: Event): map<Addr, PageData> {
    match e
    case Wrote(a, v) => mem[a := v]
    case Shared(a, b) => mem[b := MemAt(mem, a)]
    case _ => mem
  }

  // References to a page taken, less those dropped
  function Net(history: seq<Event>, p: Pid): int {
    if history == [] then 0 else Net(history[..|history| - 1], p) + history[|history| - 1].Delta(p)
  }

  function Replay(history: seq<Event>): map<Addr, PageData> {
    if history == [] then map[] else Apply(Replay(history[..|history| - 1]), history[|history| - 1])
  }

  // The value an address holds is the one last written to it, zero if there is none.
  lemma {:induction false} LastWritten(history: seq<Event>, k: nat, a: Addr)
    requires k < |history| && history[k].Wrote? && history[k].a == a
    requires forall j | k < j < |history| :: !history[j].Sets(a)
    ensures MemAt(Replay(history), a) == history[k].v
  {
    if k < |history| - 1 {
      LastWritten(history[..|history| - 1], k, a);
    }
  }

  lemma {:induction false} NeverWritten(history: seq<Event>, a: Addr)
    requires forall j | 0 <= j < |history| :: !history[j].Sets(a)
    ensures MemAt(Replay(history), a) == ZERO_DATA
  {
    if history != [] {
      NeverWritten(history[..|history| - 1], a);
    }
  }

  class Machine {
    var w: World
    ghost var mem: map<Addr, PageData>
    ghost var history: seq<Event>

    // mem is what the history says
    ghost predicate Recorded()
      reads this
    {
      mem == Replay(history)
    }

    constructor (w: World)
      ensures this.w == w && history == [] && mem == map[] && Recorded()
    {
      this.w := w;
      this.mem := map[];
      this.history := [];
    }

    // A write by the process or the device is entered in the history.
    ghost method Record(e: Event)
      requires Recorded()
      modifies `mem, `history
      ensures Recorded() && mem == Apply(old(mem), e) && history == old(history) + [e]
      ensures forall p :: Net(history, p) == Net(old(history), p) + e.Delta(p)
    {
      mem := Apply(mem, e);
      history := history + [e];
      assert history[..|history| - 1] == old(history);
    }
  }
}
