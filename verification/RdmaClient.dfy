/**
  mm/nmsg_rdma_client.c: the client end.  Posted work requests are kept in sq until the device takes
  them; recvs counts the receive buffers that are posted.
*/
module RdmaClient {
  import opened RdmaWire

  // The handler as a value
  datatype Client = Client(state: NmsgState, key: Byte, startBuf: Message, sendBuf: Data, sq: seq<Wr>, recvs: nat,
      sends: nat,
                           base: nat, addr: nat, size: nat, order: Order)

  function Recv(state: NmsgState): NmsgState {
    if state.RdmaReadAdv? then RdmaWriteAdv else RdmaWriteComplete
  }

  datatype Next = Go(c: Client) | Stop(c: Client)

  // One turn of the polling loop; reposts says whether ib_post_recv succeeds
  function Handle(c: Client, wc: Wc, reposts: bool): Next {
    if wc.status.Flushed? then Go(c)
    else if wc.status.Failure? then Stop(c.(state := Error))
    else match wc.opcode
      case SendDone => Go(c.(sends := c.sends + 1))
      case RecvDone =>
        if wc.byteLen != DATA_SIZE then Stop(c.(state := Error))
        else if !reposts then Stop(c.(state := Error))
        else Go(c.(state := Recv(c.state), recvs := c.recvs + 1))
      case _ => Stop(c.(state := Error))
  }

  function Poll(c: Client, wcs: seq<Wc>, pollError: bool, reposts: seq<bool>): Client
    requires |reposts| == |wcs|
    decreases |wcs|
  {
    if wcs == [] then (if pollError then c.(state := Error) else c)
    else match Handle(c, wcs[0], reposts[0])
      case Stop(c1) => c1
      case Go(c1) => Poll(c1, wcs[1..], pollError, reposts[1..])
  }

  // All completions before the first that fails are counted; a failing one, or the poll, leaves
  // ERROR, and otherwise the receives decide the state.
  ghost predicate Polled(c: Client, wcs: seq<Wc>, pollError: bool, reposts: seq<bool>, r: Client)
    requires |reposts| == |wcs|
  {
    var k := Before(wcs, reposts, true);
    var received := Count(wcs[..k], RecvDone);
    && r.sends == c.sends + Count(wcs[..k], SendDone)
    && r.recvs == c.recvs + received
    && r.state == (if k < |wcs| || pollError then Error
                   else if received == 0 then c.state
                   else if received == 1 && c.state.RdmaReadAdv? then RdmaWriteAdv
                   else RdmaWriteComplete)
    && r == c.(state := r.state, recvs := r.recvs, sends := r.sends)
  }

  lemma {:induction false} PollExact(c: Client, wcs: seq<Wc>, pollError: bool, reposts: seq<bool>)
    requires |reposts| == |wcs|
    ensures Polled(c, wcs, pollError, reposts, Poll(c, wcs, pollError, reposts))
    decreases |wcs|
  {
    if wcs != [] && !Fails(wcs[0], reposts[0], true) {
      var k := Before(wcs[1..], reposts[1..], true);
      assert wcs[..k + 1][1..] == wcs[1..][..k];
      PollExact(Handle(c, wcs[0], reposts[0]).c, wcs[1..], pollError, reposts[1..]);
    }
  }

  // nmsg_rdma_rkey
  function Register(c: Client, posts: bool): Client {
    var key := NextKey(c.key);
    if posts then c.(key := key, sq := c.sq + [RegMr(Rkey(c.base, key))]) else c.(key := key, state := Error)
  }

  function AdvertOf(c: Client): Advert {
    Advert(c.addr, Rkey(c.base, c.key), c.size)
  }

  // nmsg_start_client: the result and whether it is 0
  function Start(c: Client, message: Message, registers: bool, sends: bool): (Client, bool) {
    var c1 := Register(c.(state := RdmaReadAdv, startBuf := message), registers);
    var c2 := c1.(sendBuf := Encode(c1.order, AdvertOf(c1)));
    if !registers then (c2, false)
    else if !sends then (c2, false)
    else (c2.(sq := c2.sq + [Send(c2.sendBuf)]), true)
  }

  function Cma(state: NmsgState, event: CmEvent): NmsgState {
    match event
    case AddrResolvedEvent => AddrResolved
    case RouteResolvedEvent => RouteResolved
    case ConnectRequestEvent => ConnectRequest
    case Established => Connected
    case OtherEvent => state
    case _ => Error
  }

  function CmaAll(state: NmsgState, events: seq<CmEvent>): NmsgState {
    if events == [] then state else Cma(CmaAll(state, events[..|events| - 1]), events[|events| - 1])
  }

  // Event k is the last one that says anything.
  predicate Last(events: seq<CmEvent>, k: nat) {
    k < |events| && !events[k].OtherEvent? && forall j | k < j < |events| :: events[j].OtherEvent?
  }

  predicate Ends(events: seq<CmEvent>, what: set<CmEvent>) {
    exists k: nat | k < |events| :: Last(events, k) && events[k] in what
  }

  const ERRORS: set<CmEvent> := {Failed, Disconnected, Removal}

  // Only the last event counts: an error does not last, and neither does a connection.
  lemma {:induction false} CmaLast(state: NmsgState, events: seq<CmEvent>, k: nat)
    requires Last(events, k)
    ensures CmaAll(state, events) == Cma(state, events[k])
  {
    if k < |events| - 1 {
      assert Last(events[..|events| - 1], k);
      CmaLast(state, events[..|events| - 1], k);
    }
  }

  lemma {:induction false} CmaNone(state: NmsgState, events: seq<CmEvent>)
    requires forall j | 0 <= j < |events| :: events[j].OtherEvent?
    ensures CmaAll(state, events) == state
  {
    if events != [] { CmaNone(state, events[..|events| - 1]); }
  }

  lemma {:induction false} HasLast(events: seq<CmEvent>)
    ensures (forall j | 0 <= j < |events| :: events[j].OtherEvent?) || exists k: nat :: Last(events, k)
  {
    if events != [] {
      var n := |events| - 1;
      if events[n].OtherEvent? {
        HasLast(events[..n]);
        if k: nat :| Last(events[..n], k) { assert Last(events, k); }
      } else {
        assert Last(events, n);
      }
    }
  }

  // The wait for the connection is over exactly if the last event is ESTABLISHED or an error, and
  // it finds the connection exactly if that is ESTABLISHED.
  lemma ConnectEnds(state: NmsgState, events: seq<CmEvent>)
    requires state.Rank() < Connected.Rank()
    ensures CmaAll(state, events).Connected? <==> Ends(events, {Established})
    ensures CmaAll(state, events).Error? <==> Ends(events, ERRORS)
    ensures CmaAll(state, events).RouteResolved? <==>
      Ends(events, {RouteResolvedEvent}) || (state.RouteResolved? && forall j | 0 <= j < |events| :: events[j].OtherEvent?)
    ensures CmaAll(state, events).Rank() <= Connected.Rank() || CmaAll(state, events).Error?
  {
    HasLast(events);
    if k: nat :| Last(events, k) {
      CmaLast(state, events, k);
      assert forall j: nat | Last(events, j) :: j == k;
    } else {
      CmaNone(state, events);
    }
  }

  datatype Wakeup = Through | Refused | Waiting

  class Handler {
    var state: NmsgState
    var key: Byte
    var startBuf: Message
    var sendBuf: Data
    var sq: seq<Wr>
    var recvs: nat
    var sends: nat
    const base: nat
    const addr: nat
    const size: nat
    const order: Order

    function View(): Client
      reads this
    {
      Client(state, key, startBuf, sendBuf, sq, recvs, sends, base, addr, size, order)
    }

    constructor (base: nat, addr: nat, size: nat, order: Order, key: Byte)
      ensures View() == Client(Idle, key, [], Data([], [], []), [], 0, 0, base, addr, size, order)
    {
      state, this.key, startBuf, sendBuf, sq, recvs, sends := Idle, key, [], Data([], [], []), [], 0, 0;
      this.base, this.addr, this.size, this.order := base, addr, size, order;
    }

    // client_recv
    method ClientRecv(wc: Wc) returns (ok: bool)
      modifies `state
      ensures ok <==> wc.byteLen == DATA_SIZE
      ensures state == if ok then Recv(old(state)) else old(state)
    {
      if wc.byteLen != DATA_SIZE {
        return false;
      }
      if state.RdmaReadAdv? {
        state := RdmaWriteAdv;
      } else {
        state := RdmaWriteComplete;
      }
      return true;
    }

    // One polled completion; false stands for goto error
    method HandleOne(wc: Wc, reposts: bool) returns (ok: bool)
      modifies `state, `recvs, `sends
      ensures match Handle(old(View()), wc, reposts)
              case Go(c) => ok && View() == c
              case Stop(c) => !ok && View().(state := Error) == c
    {
      if wc.status.Flushed? {
        return true;
      }
      if wc.status.Failure? {
        return false;
      }
      match wc.opcode
      case SendDone =>
        sends := sends + 1;
        return true;
      case RecvDone =>
        ok := ClientRecv(wc);
        if !ok {
          return false;
        }
        if !reposts {
          return false;
        }
        recvs := recvs + 1;
        return true;
      case _ =>
        return false;
    }

    // nmsg_cq_event_handler
    method CqEvent(polled: seq<Wc>, pollError: bool, reposts: seq<bool>)
      requires |reposts| == |polled|
      modifies `state, `recvs, `sends
      ensures View() == if old(state).Error? then old(View()) else Poll(old(View()), polled, pollError, reposts)
      ensures !old(state).Error? ==> Polled(old(View()), polled, pollError, reposts, View())
    {
      if state.Error? {
        return;
      }
      PollExact(View(), polled, pollError, reposts);
      var i := 0;
      while i < |polled|
        invariant 0 <= i <= |polled|
        invariant Poll(View(), polled[i..], pollError, reposts[i..]) == Poll(old(View()), polled, pollError, reposts)
      {
        var ok := HandleOne(polled[i], reposts[i]);
        assert polled[i..][1..] == polled[i + 1..] && reposts[i..][1..] == reposts[i + 1..];
        if !ok {
          state := Error;
          return;
        }
        i := i + 1;
      }
      if pollError {
        state := Error;
      }
    }

    // nmsg_rdma_rkey
    method RdmaRkey(posts: bool) returns (rkey: nat)
      modifies `key, `sq, `state
      ensures View() == Register(old(View()), posts) && rkey == Rkey(base, key)
    {
      key := NextKey(key);
      rkey := Rkey(base, key);
      if posts {
        sq := sq + [RegMr(rkey)];
      } else {
        state := Error;
      }
    }

    // nmsg_start_client and make_message; message has message_size bytes
    method StartClient(message: Message, registers: bool, posts: bool) returns (ok: bool)
      modifies `key, `sq, `state, `startBuf, `sendBuf
      ensures (View(), ok) == Start(old(View()), message, registers, posts)
      ensures startBuf == message && key == NextKey(old(key)) && (ok <==> registers && posts)
      ensures state == if registers then RdmaReadAdv else Error
      ensures sendBuf == Encode(order, Advert(addr, Rkey(base, key), size))
      ensures sq == old(sq) + (if registers then [RegMr(Rkey(base, key))] else []) + (if ok then [Send(sendBuf)] else [])
    {
      state := RdmaReadAdv;
      startBuf := message;
      var rkey := RdmaRkey(registers);
      sendBuf := Encode(order, Advert(addr, rkey, size));
      if state.Error? {
        return false;
      }
      if !posts {
        return false;
      }
      sq := sq + [Send(sendBuf)];
      return true;
    }

    // nmsg_cma_event_handler
    method CmaEvent(event: CmEvent)
      modifies `state
      ensures state == Cma(old(state), event)
    {
      match event
      case AddrResolvedEvent => state := AddrResolved;
      case RouteResolvedEvent => state := RouteResolved;
      case ConnectRequestEvent => state := ConnectRequest;
      case Established => state := Connected;
      case OtherEvent =>
      case _ => state := Error;
    }

    method CmaEvents(events: seq<CmEvent>)
      modifies `state
      ensures state == CmaAll(old(state), events)
    {
      var i := 0;
      while i < |events|
        invariant 0 <= i <= |events| && state == CmaAll(old(state), events[..i])
      {
        CmaEvent(events[i]);
        assert events[..i + 1][..i] == events[..i];
        i := i + 1;
      }
      assert events[..i] == events;
    }

    // nmsg_bind_client up to its wait; the events have arrived when the thread looks.
    method BindClient(resolves: bool, events: seq<CmEvent>) returns (r: Wakeup)
      requires state.Idle?
      modifies `state
      ensures r.Through? <==> resolves && Ends(events, {RouteResolvedEvent})
      ensures r.Refused? <==> !resolves || Ends(events, {Established} + ERRORS)
      ensures r.Through? ==> state.RouteResolved?
    {
      if !resolves {
        return Refused;
      }
      CmaEvents(events);
      ConnectEnds(Idle, events);
      if state.Rank() < RouteResolved.Rank() {
        return Waiting;
      }
      return if state.RouteResolved? then Through else Refused;
    }

    // nmsg_connect_client; the events are those since the wait of nmsg_bind_client.
    method ConnectClient(connects: bool, events: seq<CmEvent>) returns (r: Wakeup)
      requires state.RouteResolved?
      modifies `state
      ensures r.Through? <==> connects && Ends(events, {Established})
      ensures r.Refused? <==> !connects || Ends(events, ERRORS)
      ensures r.Through? ==> state.Connected?
    {
      if !connects {
        return Refused;
      }
      CmaEvents(events);
      ConnectEnds(RouteResolved, events);
      if state.Rank() < Connected.Rank() {
        return Waiting;
      }
      return if state.Error? then Refused else Through;
    }
  }
}
