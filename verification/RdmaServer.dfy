/**
  mm/nmsg_rdma_server.c: the server end.  The serving thread blocks twice per round, so one round is
  two steps: from the advertisement to the posted read, and from the read completion to the go-ahead.
*/
module RdmaServer {
  import opened RdmaWire

  datatype Server = Server(state: NmsgState, remote: Advert, key: Byte, recvBuf: Data, rdmaBuf: Message, sq: seq<Wr>,
                           recvs: nat, sends: nat, readMsgs: nat, base: nat, order: Order)

  // server_recv
  function Recv(state: NmsgState): NmsgState {
    if state.Rank() <= Connected.Rank() || state.RdmaWriteComplete? then RdmaReadAdv else RdmaWriteAdv
  }

  datatype Next = Go(s: Server) | Stop(s: Server)

  // One turn of the polling loop
  function Handle(s: Server, wc: Wc, reposts: bool): Next {
    if wc.status.Flushed? then Go(s)
    else if wc.status.Failure? then Stop(s.(state := Error))
    else match wc.opcode
      case SendDone => Go(s.(sends := s.sends + 1))
      case ReadDone => Go(s.(readMsgs := s.readMsgs + 1, state := RdmaReadComplete))
      case RecvDone =>
        if wc.byteLen != DATA_SIZE then Stop(s.(state := Error))
        else
          var s1 := s.(remote := Decode(s.order, s.recvBuf), state := Recv(s.state));
          if reposts then Go(s1.(recvs := s1.recvs + 1)) else Stop(s1.(state := Error))
      case OtherOpcode => Stop(s.(state := Error))
  }

  function Poll(s: Server, wcs: seq<Wc>, pollError: bool, reposts: seq<bool>): Server
    requires |reposts| == |wcs|
    decreases |wcs|
  {
    if wcs == [] then (if pollError then s.(state := Error) else s)
    else match Handle(s, wcs[0], reposts[0])
      case Stop(s1) => s1
      case Go(s1) => Poll(s1, wcs[1..], pollError, reposts[1..])
  }

  // All completions before the first that fails are counted; a failing one, or the poll, leaves
  // ERROR, and otherwise the last read or receive decides the state.  A receive of the right size is
  // decoded even if its buffer cannot be posted again.
  ghost predicate Polled(s: Server, wcs: seq<Wc>, pollError: bool, reposts: seq<bool>, r: Server)
    requires |reposts| == |wcs|
  {
    var k := Before(wcs, reposts, false);
    var signals := Signalled(wcs[..k]);
    && r.sends == s.sends + Count(wcs[..k], SendDone)
    && r.readMsgs == s.readMsgs + Count(wcs[..k], ReadDone)
    && r.recvs == s.recvs + Count(wcs[..k], RecvDone)
    && r.remote == (if RecvDone in signals || (k < |wcs| && Arrives(wcs[k])) then Decode(s.order, s.recvBuf) else s.remote)
    && r.state == (if k < |wcs| || pollError then Error else After(s.state, signals))
    && r == s.(state := r.state, remote := r.remote, recvs := r.recvs, sends := r.sends, readMsgs := r.readMsgs)
  }

  // The last one counts: a receive is an advertisement in its turn only if nothing came before it.
  function After(state: NmsgState, signals: seq<Opcode>): NmsgState {
    if signals == [] then state
    else if signals[|signals| - 1].ReadDone? then RdmaReadComplete
    else if |signals| == 1 && (state.Rank() <= Connected.Rank() || state.RdmaWriteComplete?) then RdmaReadAdv
    else RdmaWriteAdv
  }

  lemma AfterStep(state: NmsgState, x: Opcode, signals: seq<Opcode>)
    requires x.ReadDone? || x.RecvDone?
    ensures After(if x.ReadDone? then RdmaReadComplete else Recv(state), signals) == After(state, [x] + signals)
  {}

  predicate Arrives(wc: Wc) {
    wc.status.Success? && wc.opcode.RecvDone? && wc.byteLen == DATA_SIZE
  }

  lemma {:induction false} PollExact(s: Server, wcs: seq<Wc>, pollError: bool, reposts: seq<bool>)
    requires |reposts| == |wcs|
    ensures Polled(s, wcs, pollError, reposts, Poll(s, wcs, pollError, reposts))
    decreases |wcs|
  {
    hide Decode, After;
    if wcs == [] {
      AfterNone(s.state);
    } else if !Fails(wcs[0], reposts[0], false) {
      var s1 := Handle(s, wcs[0], reposts[0]).s;
      PollExact(s1, wcs[1..], pollError, reposts[1..]);
      PolledStep(s, wcs, pollError, reposts, Poll(s1, wcs[1..], pollError, reposts[1..]));
    }
  }

  lemma AfterNone(state: NmsgState)
    ensures After(state, []) == state
  {}

  lemma PolledStep(s: Server, wcs: seq<Wc>, pollError: bool, reposts: seq<bool>, r: Server)
    requires |reposts| == |wcs| > 0 && !Fails(wcs[0], reposts[0], false)
    requires Polled(Handle(s, wcs[0], reposts[0]).s, wcs[1..], pollError, reposts[1..], r)
    ensures Polled(s, wcs, pollError, reposts, r)
  {
    var k := Before(wcs[1..], reposts[1..], false);
    assert Before(wcs, reposts, false) == k + 1;
    assert wcs[..k + 1][1..] == wcs[1..][..k];
    hide Decode, Before, After;
    if wcs[0].status.Success? && !wcs[0].opcode.SendDone? {
      AfterStep(s.state, wcs[0].opcode, Signalled(wcs[1..][..k]));
    }
  }

  function Register(s: Server, posts: bool): Server {
    var key := NextKey(s.key);
    if posts then s.(key := key, sq := s.sq + [RegMr(Rkey(s.base, key))]) else s.(key := key, state := Error)
  }

  // The read, chained with a fenced local invalidation
  function Chain(s: Server): seq<Wr> {
    var lkey := Rkey(s.base, s.key);
    [Read(s.remote.rkey, s.remote.addr, s.remote.len, lkey), LocalInv(lkey)]
  }

  // nmsg_run_server up to the second wait: the result and whether it goes on
  function StartRead(s: Server, registers: bool, posts: bool): (Server, bool) {
    if !s.state.RdmaReadAdv? then (s, false)
    else
      var s1 := Register(s, registers);
      if posts then (s1.(sq := s1.sq + Chain(s1)), true) else (s1, false)
  }

  // nmsg_run_server after the second wait
  function GoAhead(s: Server, posts: bool): Server {
    if !s.state.RdmaReadComplete? then s
    else
      var s1 := s.(state := Connected);
      if posts then s1.(sq := s1.sq + [SendWithInv(s1.remote.rkey)]) else s1
  }

  // ESTABLISHED leaves the state alone
  function Cma(state: NmsgState, event: CmEvent): NmsgState {
    match event
    case AddrResolvedEvent => AddrResolved
    case RouteResolvedEvent => RouteResolved
    case ConnectRequestEvent => ConnectRequest
    case Established => state
    case OtherEvent => state
    case _ => Error
  }

  function CmaAll(state: NmsgState, events: seq<CmEvent>): NmsgState {
    if events == [] then state else Cma(CmaAll(state, events[..|events| - 1]), events[|events| - 1])
  }

  // No connection event brings the server to CONNECTED: the wait in nmsg_accept ends with the first
  // advertisement, or with an error.
  lemma {:induction false} NeverConnected(state: NmsgState, events: seq<CmEvent>)
    requires state.Rank() < Connected.Rank()
    ensures CmaAll(state, events).Rank() < Connected.Rank() || CmaAll(state, events).Error?
    ensures Recv(CmaAll(state, events)) == if CmaAll(state, events).Error? then RdmaWriteAdv else RdmaReadAdv
  {
    if events != [] { NeverConnected(state, events[..|events| - 1]); }
  }

  // Event k is the last one that changes the state.
  predicate Decides(events: seq<CmEvent>, k: nat) {
    k < |events| && !Ignored(events[k]) && forall j | k < j < |events| :: Ignored(events[j])
  }

  predicate Ignored(event: CmEvent) {
    event.Established? || event.OtherEvent?
  }

  // It alone decides: an error, the client's request, or a step of the address resolution.
  lemma {:induction false} CmaDecided(state: NmsgState, events: seq<CmEvent>, k: nat)
    requires Decides(events, k)
    ensures CmaAll(state, events).Error? <==> events[k].Failed? || events[k].Disconnected? || events[k].Removal?
    ensures CmaAll(state, events).ConnectRequest? <==> events[k].ConnectRequestEvent?
    ensures CmaAll(state, events).AddrResolved? <==> events[k].AddrResolvedEvent?
    ensures CmaAll(state, events).RouteResolved? <==> events[k].RouteResolvedEvent?
  {
    if k < |events| - 1 {
      assert Decides(events[..|events| - 1], k);
      CmaDecided(state, events[..|events| - 1], k);
    }
  }

  // After the request of the client ESTABLISHED changes nothing.
  lemma {:induction false} RequestStays(state: NmsgState, events: seq<CmEvent>, k: nat)
    requires k < |events| && events[k].ConnectRequestEvent?
    requires forall j | k < j < |events| :: events[j].Established? || events[j].OtherEvent?
    ensures CmaAll(state, events).ConnectRequest?
  {
    if k < |events| - 1 { RequestStays(state, events[..|events| - 1], k); }
  }

  // The serving thread goes on with an advertisement exactly if it came after the go-ahead of the
  // round before; an earlier one makes it stop.
  lemma AdvertAccepted(s: Server)
    ensures var s1 := Handle(s, Wc(Success, RecvDone, DATA_SIZE), true).s;
            && s1.remote == Decode(s.order, s.recvBuf) && s1.recvs == s.recvs + 1
            && (StartRead(s1, true, true).1 <==> s.state.Rank() <= Connected.Rank() || s.state.RdmaWriteComplete?)
  {}

  class Handler {
    var state: NmsgState
    var remote: Advert
    var key: Byte
    var recvBuf: Data
    var rdmaBuf: Message
    var sq: seq<Wr>
    var recvs: nat
    var sends: nat
    var readMsgs: nat
    const base: nat
    const order: Order

    function View(): Server
      reads this
    {
      Server(state, remote, key, recvBuf, rdmaBuf, sq, recvs, sends, readMsgs, base, order)
    }

    constructor (base: nat, order: Order, key: Byte)
      ensures View() == Server(Idle, Advert(0, 0, 0), key, Data([], [], []), [], [], 0, 0, 0, base, order)
    {
      state, remote, this.key, recvBuf, rdmaBuf := Idle, Advert(0, 0, 0), key, Data([], [], []), [];
      sq, recvs, sends, readMsgs := [], 0, 0, 0;
      this.base, this.order := base, order;
    }

    method ServerRecv(wc: Wc) returns (ok: bool)
      modifies `state, `remote
      ensures ok <==> wc.byteLen == DATA_SIZE
      ensures ok ==> remote == Decode(order, recvBuf) && state == Recv(old(state))
      ensures !ok ==> remote == old(remote) && state == old(state)
    {
      if wc.byteLen != DATA_SIZE {
        return false;
      }
      remote := Decode(order, recvBuf);
      if state.Rank() <= Connected.Rank() || state.RdmaWriteComplete? {
        state := RdmaReadAdv;
      } else {
        state := RdmaWriteAdv;
      }
      return true;
    }

    // One polled completion; false stands for goto error
    method HandleOne(wc: Wc, reposts: bool) returns (ok: bool)
      modifies `state, `remote, `recvs, `sends, `readMsgs
      ensures match Handle(old(View()), wc, reposts)
              case Go(s) => ok && View() == s
              case Stop(s) => !ok && View().(state := Error) == s
    {
      if wc.status.Flushed? {
        return true;
      }
      if wc.status.Failure? {
        return false;
      }
      match wc.opcode
      case SendDone =>
        sends := sends + 1;
        return true;
      case ReadDone =>
        readMsgs := readMsgs + 1;
        state := RdmaReadComplete;
        return true;
      case RecvDone =>
        ok := ServerRecv(wc);
        if !ok {
          return false;
        }
        if !reposts {
          return false;
        }
        recvs := recvs + 1;
        return true;
      case OtherOpcode =>
        return false;
    }

    method CqEvent(polled: seq<Wc>, pollError: bool, reposts: seq<bool>)
      requires |reposts| == |polled|
      modifies `state, `remote, `recvs, `sends, `readMsgs
      ensures View() == if old(state).Error? then old(View()) else Poll(old(View()), polled, pollError, reposts)
      ensures !old(state).Error? ==> Polled(old(View()), polled, pollError, reposts, View())
    {
      if state.Error? {
        return;
      }
      PollExact(View(), polled, pollError, reposts);
      var i := 0;
      while i < |polled|
        invariant 0 <= i <= |polled|
        invariant Poll(View(), polled[i..], pollError, reposts[i..]) == Poll(old(View()), polled, pollError, reposts)
      {
        var ok := HandleOne(polled[i], reposts[i]);
        assert polled[i..][1..] == polled[i + 1..] && reposts[i..][1..] == reposts[i + 1..];
        if !ok {
          state := Error;
          return;
        }
        i := i + 1;
      }
      if pollError {
        state := Error;
      }
    }

    method RdmaRkey(posts: bool) returns (rkey: nat)
      modifies `key, `sq, `state
      ensures View() == Register(old(View()), posts) && rkey == Rkey(base, key)
    {
      key := NextKey(key);
      rkey := Rkey(base, key);
      if posts {
        sq := sq + [RegMr(rkey)];
      } else {
        state := Error;
      }
    }

    // After wait_event(state >= RDMA_READ_ADV)
    method RunServerRead(registers: bool, posts: bool) returns (ok: bool)
      modifies `key, `sq, `state
      ensures (View(), ok) == StartRead(old(View()), registers, posts)
      ensures ok <==> old(state).RdmaReadAdv? && posts
      ensures key == if old(state).RdmaReadAdv? then NextKey(old(key)) else old(key)
      ensures state == if old(state).RdmaReadAdv? && !registers then Error else old(state)
      ensures sq == old(sq) + (if old(state).RdmaReadAdv? && registers then [RegMr(Rkey(base, key))] else []) +
        (if ok then [Read(remote.rkey, remote.addr, remote.len, Rkey(base, key)), LocalInv(Rkey(base, key))] else [])
    {
      if !state.RdmaReadAdv? {
        return false;
      }
      var lkey := RdmaRkey(registers);
      if !posts {
        return false;
      }
      sq := sq + [Read(remote.rkey, remote.addr, remote.len, lkey), LocalInv(lkey)];
      return true;
    }

    // After wait_event(state >= RDMA_READ_COMPLETE): back to CONNECTED before the go-ahead is posted
    method RunServerGoAhead(posts: bool)
      modifies `sq, `state
      ensures View() == GoAhead(old(View()), posts)
      ensures state == if old(state).RdmaReadComplete? then Connected else old(state)
      ensures sq == old(sq) + if old(state).RdmaReadComplete? && posts then [SendWithInv(remote.rkey)] else []
    {
      if !state.RdmaReadComplete? {
        return;
      }
      state := Connected;
      if posts {
        sq := sq + [SendWithInv(remote.rkey)];
      }
    }

    method CmaEvent(event: CmEvent)
      modifies `state
      ensures state == Cma(old(state), event)
    {
      match event
      case AddrResolvedEvent => state := AddrResolved;
      case RouteResolvedEvent => state := RouteResolved;
      case ConnectRequestEvent => state := ConnectRequest;
      case Established =>
      case OtherEvent =>
      case _ => state := Error;
    }
  }
}
