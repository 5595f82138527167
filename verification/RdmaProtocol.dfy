/**
  The advertise, read, go-ahead loop (mm/nmsg_rdma.h:115-121) as a system of two ends, their devices
  and the network.  Each device takes its send queue in order; completions of sends may come late.
*/
module RdmaProtocol {
  import opened RdmaWire
  import C = RdmaClient
  import S = RdmaServer

  datatype Wait = ForAdvert | ForRead

  // How far the current round has come; only the proof looks at it
  datatype Phase =
    | Ready                         // the client may send
    | Posted                        // region registration and send are queued
    | Registered                    // the send is queued
    | OnWire                        // the advertisement is on its way
    | Arrived                       // its completion is queued
    | Advertised                    // the server has decoded it
    | Reading                       // registration, read and invalidation are queued
    | ReadNext                      // read and invalidation are queued
    | Reads(done: bool, inv: bool)  // the data is there; completion handled? invalidation done?
    | Answered(inv: bool)           // the go-ahead is queued; invalidation done?
    | GoAheadOnWire
    | GoAheadArrived

  datatype State = State(
    client: C.Client, server: S.Server, wait: Wait,
    clientMr: set<nat>, serverMr: set<nat>,            // keys under which the regions can be accessed
    toServer: seq<Data>, toClient: seq<nat>,
    clientCq: seq<Wc>, serverCq: seq<Wc>, clientUnacked: nat, serverUnacked: nat,
    broken: bool,                                      // the device has refused a work request
    sent: seq<Message>, delivered: seq<Message>,
    readKeys: seq<nat>, keys: seq<nat>, invalidated: seq<nat>, // client keys: read with, advertised, invalidated
    phase: Phase)

  datatype Step =
    | ClientSend(message: Message)
    | ClientDevice | ServerDevice
    | ToServer | ToClient
    | ClientAck | ServerAck
    | ClientCq | ServerCq
    | ServerRead | ServerGoAhead

  const DONE: Wc := Wc(Success, SendDone, 0)
  const READ: Wc := Wc(Success, ReadDone, 0)
  const RECV: Wc := Wc(Success, RecvDone, DATA_SIZE)

  predicate Enabled(s: State, x: Step) {
    match x
    // the next send is issued only after the go-ahead wake-up
    case ClientSend(message) => (s.client.state.Connected? || s.client.state.RdmaWriteAdv?) && |message| == s.client.size
    case ClientDevice => s.client.sq != []
    case ServerDevice => s.server.sq != []
    case ToServer => s.toServer != [] && s.server.recvs > 0
    case ToClient => s.toClient != [] && s.client.recvs > 0
    case ClientAck => s.clientUnacked > 0
    case ServerAck => s.serverUnacked > 0
    case ClientCq => s.clientCq != [] && !s.client.state.Error?
    case ServerCq => s.serverCq != [] && !s.server.state.Error?
    case ServerRead => s.wait.ForAdvert? && s.server.state.Rank() >= RdmaReadAdv.Rank()
    case ServerGoAhead => s.wait.ForRead? && s.server.state.Rank() >= RdmaReadComplete.Rank()
  }

  // The client's device takes a work request.
  function TakeClient(s: State, wr: Wr): State {
    match wr
    case RegMr(rkey) => if s.clientMr == {} then s.(clientMr := {rkey}, phase := Registered) else s.(broken := true)
    case Send(data) => s.(toServer := s.toServer + [data], clientUnacked := s.clientUnacked + 1, phase := OnWire)
    case _ => s.(broken := true)
  }

  function TakeServer(s: State, wr: Wr): State {
    match wr
    case RegMr(rkey) => if s.serverMr == {} then s.(serverMr := {rkey}, phase := ReadNext) else s.(broken := true)
    case Read(rkey, addr, len, lkey) =>
      if rkey in s.clientMr && addr == s.client.addr && len == |s.client.startBuf| && lkey in s.serverMr then
        s.(server := s.server.(rdmaBuf := s.client.startBuf), serverCq := s.serverCq + [READ], readKeys := s.readKeys + [rkey],
           phase := Reads(false, false))
      else s.(broken := true)
    case LocalInv(rkey) =>
      if rkey in s.serverMr then
        s.(serverMr := s.serverMr - {rkey},
           phase := match s.phase case Reads(done, _) => Reads(done, true) case Answered(_) => Answered(true) case p => p)
      else s.(broken := true)
    case SendWithInv(rkey) =>
      s.(toClient := s.toClient + [rkey], serverUnacked := s.serverUnacked + 1, phase := GoAheadOnWire)
    case Send(data) => s.(broken := true)
  }

  function ClientHandles(s: State, wc: Wc): State {
    var next := C.Handle(s.client, wc, true);
    s.(client := next.c, phase := if wc.opcode.RecvDone? then Ready else s.phase)
  }

  function ServerHandles(s: State, wc: Wc): State {
    var next := S.Handle(s.server, wc, true);
    var s1 := s.(server := next.s);
    match wc.opcode
    case ReadDone =>
      s1.(delivered := s.delivered + [s.server.rdmaBuf],
          phase := match s.phase case Reads(_, inv) => Reads(true, inv) case p => p)
    case RecvDone => s1.(phase := Advertised)
    case _ => s1
  }

  function Next(s: State, x: Step): State
    requires Enabled(s, x)
  {
    match x
    case ClientSend(message) =>
      var r := C.Start(s.client, message, true, true);
      s.(client := r.0, sent := s.sent + [message], keys := s.keys + [Rkey(r.0.base, r.0.key)], phase := Posted)
    case ClientDevice => TakeClient(s.(client := s.client.(sq := s.client.sq[1..])), s.client.sq[0])
    case ServerDevice => TakeServer(s.(server := s.server.(sq := s.server.sq[1..])), s.server.sq[0])
    case ToServer =>
      s.(toServer := s.toServer[1..], server := s.server.(recvBuf := s.toServer[0], recvs := s.server.recvs - 1),
         serverCq := s.serverCq + [RECV], phase := Arrived)
    case ToClient =>
      var rkey := s.toClient[0];
      var client := s.client.(recvs := s.client.recvs - 1);
      var s1 := s.(toClient := s.toClient[1..], client := client, clientCq := s.clientCq + [RECV]);
      if rkey in s.clientMr then
        s1.(clientMr := s.clientMr - {rkey}, invalidated := s.invalidated + [rkey], phase := GoAheadArrived)
      else s1.(broken := true)
    case ClientAck => s.(clientUnacked := s.clientUnacked - 1, clientCq := s.clientCq + [DONE])
    case ServerAck => s.(serverUnacked := s.serverUnacked - 1, serverCq := s.serverCq + [DONE])
    case ClientCq => ClientHandles(s.(clientCq := s.clientCq[1..]), s.clientCq[0])
    case ServerCq => ServerHandles(s.(serverCq := s.serverCq[1..]), s.serverCq[0])
    case ServerRead =>
      var r := S.StartRead(s.server, true, true);
      if r.1 then s.(server := r.0, wait := ForRead, phase := Reading) else s.(server := r.0, broken := true)
    case ServerGoAhead =>
      var server := S.GoAhead(s.server, true);
      s.(server := server, wait := ForAdvert, phase := match s.phase case Reads(_, inv) => Answered(inv) case p => p)
  }

  // ----- what each phase looks like

  // This round's keys and advertisement
  function RoundKey(s: State): nat {
    Rkey(s.client.base, s.client.key)
  }

  function LocalKey(s: State): nat {
    Rkey(s.server.base, s.server.key)
  }

  function RoundData(s: State): Data {
    Encode(s.client.order, C.AdvertOf(s.client))
  }

  // Completions other than those of sends
  function Signals(cq: seq<Wc>): seq<Wc> {
    if cq == [] then [] else (if cq[0].opcode.SendDone? then [] else [cq[0]]) + Signals(cq[1..])
  }

  ghost predicate Accepted(cq: seq<Wc>) {
    forall wc | wc in cq :: wc == DONE || wc == READ || wc == RECV
  }

  lemma {:induction false} SignalsMore(cq: seq<Wc>, wc: Wc)
    ensures Signals(cq + [wc]) == Signals(cq) + (if wc.opcode.SendDone? then [] else [wc])
  {
    if cq == [] {
      assert cq + [wc] == [wc];
    } else {
      var head := if cq[0].opcode.SendDone? then [] else [cq[0]];
      SignalsMore(cq[1..], wc);
      assert (cq + [wc])[0] == cq[0] && (cq + [wc])[1..] == cq[1..] + [wc];
      assert Signals(cq + [wc]) == head + Signals(cq[1..] + [wc]);
    }
  }

  // The phases of a round in order
  function Index(p: Phase): nat {
    match p
    case Ready => 0
    case Posted => 1
    case Registered => 2
    case OnWire => 3
    case Arrived => 4
    case Advertised => 5
    case Reading => 6
    case ReadNext => 7
    case Reads(done, _) => if done then 9 else 8
    case Answered(_) => 10
    case GoAheadOnWire => 11
    case GoAheadArrived => 12
  }

  function Pending(s: State): seq<Wr> {
    match s.phase
    case Posted => [RegMr(RoundKey(s)), Send(RoundData(s))]
    case Registered => [Send(RoundData(s))]
    case _ => []
  }

  function Invalidation(s: State, inv: bool): seq<Wr> {
    if inv then [] else [LocalInv(LocalKey(s))]
  }

  function ServerPending(s: State): seq<Wr> {
    match s.phase
    case Reading => [RegMr(LocalKey(s)), Read(RoundKey(s), s.client.addr, s.client.size, LocalKey(s)), LocalInv(LocalKey(s))]
    case ReadNext => [Read(RoundKey(s), s.client.addr, s.client.size, LocalKey(s)), LocalInv(LocalKey(s))]
    case Reads(_, inv) => Invalidation(s, inv)
    case Answered(inv) => Invalidation(s, inv) + [SendWithInv(RoundKey(s))]
    case _ => []
  }

  predicate QueuesOk(s: State) {
    && s.client.sq == Pending(s) && s.server.sq == ServerPending(s)
    && s.toServer == (if s.phase.OnWire? then [RoundData(s)] else [])
    && s.toClient == (if s.phase.GoAheadOnWire? then [RoundKey(s)] else [])
  }

  ghost predicate CompletionsOk(s: State) {
    && Accepted(s.clientCq) && Accepted(s.serverCq)
    && Signals(s.clientCq) == (if s.phase.GoAheadArrived? then [RECV] else [])
    && Signals(s.serverCq) == (if s.phase.Arrived? then [RECV] else if s.phase.Reads? && !s.phase.done then [READ] else [])
    && s.client.recvs == (if s.phase.GoAheadArrived? then 0 else 1)
    && s.server.recvs == (if s.phase.Arrived? then 0 else 1)
  }

  predicate RegionsOk(s: State) {
    && s.clientMr == (if 2 <= Index(s.phase) <= 11 then {RoundKey(s)} else {})
    && s.serverMr == (if s.phase.ReadNext? || (s.phase.Reads? && !s.phase.inv) || (s.phase.Answered? && !s.phase.inv)
                      then {LocalKey(s)} else {})
  }

  // The server is never in RDMA_WRITE_ADV, and neither end is in ERROR.
  predicate StatesOk(s: State) {
    && !s.broken
    && (if s.phase.Ready? then s.client.state.Connected? || s.client.state.RdmaWriteAdv? else s.client.state.RdmaReadAdv?)
    && (if 5 <= Index(s.phase) <= 8 then s.server.state.RdmaReadAdv?
        else if Index(s.phase) == 9 then s.server.state.RdmaReadComplete?
        else s.server.state.Rank() <= Connected.Rank())
    && s.wait == if 6 <= Index(s.phase) <= 9 then ForRead else ForAdvert
  }

  // Address, key and length fit the fields of the advertisement
  predicate Fit(c: C.Client) {
    c.addr < Pow256(8) && c.base < Pow256(3) && c.size < Pow256(4)
  }

  lemma AdvertFits(c: C.Client)
    requires Fit(c)
    ensures C.AdvertOf(c).Fits()
  {}

  predicate ValuesOk(s: State) {
    && Fit(s.client) && (!s.phase.Ready? ==> |s.client.startBuf| == s.client.size)
    && (s.phase.Arrived? ==> s.server.recvBuf == RoundData(s))
    && (5 <= Index(s.phase) <= 10 ==> s.server.remote == C.AdvertOf(s.client))
    && (s.phase.Reads? ==> s.server.rdmaBuf == s.client.startBuf)
  }

  predicate LogsOk(s: State) {
    && s.sent == s.delivered + (if 1 <= Index(s.phase) <= 8 then [s.client.startBuf] else [])
    && s.keys == s.readKeys + (if 1 <= Index(s.phase) <= 7 then [RoundKey(s)] else [])
    && s.keys == s.invalidated + (if 1 <= Index(s.phase) <= 11 then [RoundKey(s)] else [])
    && |s.keys| == |s.sent|
  }

  ghost predicate Inv(s: State) {
    QueuesOk(s) && CompletionsOk(s) && RegionsOk(s) && StatesOk(s) && ValuesOk(s) && LogsOk(s)
  }

  // ----- every step keeps the invariant

  lemma ClientSendKeeps(s: State, message: Message)
    requires Inv(s) && Enabled(s, ClientSend(message))
    ensures Inv(Next(s, ClientSend(message)))
  {
    hide Encode;
  }

  lemma ClientDeviceKeeps(s: State)
    requires Inv(s) && Enabled(s, ClientDevice)
    ensures Inv(Next(s, ClientDevice))
  {
    hide Encode;
  }

  lemma ServerDeviceRest(s: State)
    requires RestOk(s) && Enabled(s, ServerDevice)
    ensures RestOk(Next(s, ServerDevice))
  {
    hide Encode, C.AdvertOf, Fit;
  }

  lemma NotBroken(s: State)
    requires RestOk(s) && Enabled(s, ServerDevice)
    ensures !Next(s, ServerDevice).broken && !s.broken
  {
    ServerDeviceRest(s);
  }

  lemma ServerDeviceKeeps(s: State)
    requires Inv(s) && Enabled(s, ServerDevice)
    ensures Inv(Next(s, ServerDevice))
  {
    hide Encode, RegionsOk, ValuesOk, LogsOk, Signals, Accepted, StatesOk, C.AdvertOf;
    ServerDeviceRest(s);
    SignalsMore(s.serverCq, READ);
    AcceptedMore(s.serverCq, READ);
    NotBroken(s);
  }

  lemma NetRest(s: State, x: Step)
    requires RestOk(s) && Enabled(s, x) && (x.ToServer? || x.ToClient?)
    ensures RestOk(Next(s, x))
    ensures x.ToServer? ==> s.phase.OnWire? && Next(s, x).phase.Arrived?
    ensures x.ToClient? ==> s.phase.GoAheadOnWire? && Next(s, x).phase.GoAheadArrived?
  {
    hide Encode;
  }

  lemma NetKeeps(s: State, x: Step)
    requires Inv(s) && Enabled(s, x) && (x.ToServer? || x.ToClient?)
    ensures Inv(Next(s, x))
  {
    hide QueuesOk, RegionsOk, StatesOk, ValuesOk, LogsOk, Signals, Accepted;
    NetRest(s, x);
    if x.ToServer? {
      SignalsMore(s.serverCq, RECV);
      AcceptedMore(s.serverCq, RECV);
    } else {
      SignalsMore(s.clientCq, RECV);
      AcceptedMore(s.clientCq, RECV);
    }
  }

  // All but the completion queues
  predicate RestOk(s: State) {
    QueuesOk(s) && RegionsOk(s) && StatesOk(s) && ValuesOk(s) && LogsOk(s)
  }

  lemma AckRest(s: State, x: Step)
    requires RestOk(s) && Enabled(s, x) && (x.ClientAck? || x.ServerAck?)
    ensures RestOk(Next(s, x))
  {
    hide Encode;
  }

  lemma AckKeeps(s: State, x: Step)
    requires Inv(s) && Enabled(s, x) && (x.ClientAck? || x.ServerAck?)
    ensures Inv(Next(s, x))
  {
    AckRest(s, x);
    hide QueuesOk, RegionsOk, StatesOk, ValuesOk, LogsOk, Signals, Accepted;
    if x.ClientAck? {
      SignalsMore(s.clientCq, DONE);
      AcceptedMore(s.clientCq, DONE);
    } else {
      SignalsMore(s.serverCq, DONE);
      AcceptedMore(s.serverCq, DONE);
    }
  }

  // A queue is its first completion and the rest.
  lemma Head(cq: seq<Wc>)
    requires cq != [] && Accepted(cq)
    ensures Accepted(cq[1..]) && (cq[0] == DONE || cq[0] == READ || cq[0] == RECV)
    ensures Signals(cq) == (if cq[0] == DONE then [] else [cq[0]]) + Signals(cq[1..])
    ensures cq[0] != DONE ==> Signals(cq) != [] && Signals(cq)[0] == cq[0]
  {
    assert cq[0] in cq;
    forall wc | wc in cq[1..] ensures wc in cq {}
  }

  lemma AcceptedMore(cq: seq<Wc>, wc: Wc)
    requires Accepted(cq) && (wc == DONE || wc == READ || wc == RECV)
    ensures Accepted(cq + [wc])
  {}

  lemma ClientDone(s: State)
    requires RestOk(s) && s.clientCq != [] && s.clientCq[0] == DONE && Enabled(s, ClientCq)
    ensures RestOk(Next(s, ClientCq)) && Next(s, ClientCq).phase == s.phase
    ensures Next(s, ClientCq).client == s.client.(sends := s.client.sends + 1)
  {
    hide Encode;
  }

  // The go-ahead
  lemma ClientRecv(s: State)
    requires RestOk(s) && s.clientCq != [] && s.clientCq[0] == RECV && Enabled(s, ClientCq) && s.phase.GoAheadArrived?
    ensures RestOk(Next(s, ClientCq)) && Next(s, ClientCq).phase == Ready
    ensures Next(s, ClientCq).client.recvs == s.client.recvs + 1
  {
    hide Encode;
  }

  lemma ClientCqKeeps(s: State)
    requires Inv(s) && Enabled(s, ClientCq)
    ensures Inv(Next(s, ClientCq))
  {
    hide QueuesOk, RegionsOk, StatesOk, ValuesOk, LogsOk, Signals, Accepted;
    Head(s.clientCq);
    if s.clientCq[0] == DONE {
      ClientDone(s);
    } else {
      ClientRecv(s);
    }
  }

  lemma ServerDone(s: State)
    requires RestOk(s) && s.serverCq != [] && s.serverCq[0] == DONE && Enabled(s, ServerCq)
    ensures RestOk(Next(s, ServerCq)) && Next(s, ServerCq).phase == s.phase
    ensures Next(s, ServerCq).server == s.server.(sends := s.server.sends + 1)
  {
    hide Encode;
  }

  lemma ServerReadDone(s: State)
    requires RestOk(s) && s.serverCq != [] && s.serverCq[0] == READ && Enabled(s, ServerCq) && s.phase.Reads?
    requires !s.phase.done
    ensures RestOk(Next(s, ServerCq)) && Next(s, ServerCq).phase == Reads(true, s.phase.inv)
    ensures Next(s, ServerCq).server.recvs == s.server.recvs
  {
    hide Encode;
  }

  // The advertisement
  lemma ServerRecv(s: State)
    requires RestOk(s) && s.serverCq != [] && s.serverCq[0] == RECV && Enabled(s, ServerCq) && s.phase.Arrived?
    ensures RestOk(Next(s, ServerCq)) && Next(s, ServerCq).phase == Advertised
    ensures Next(s, ServerCq).server.recvs == s.server.recvs + 1
  {
    AdvertFits(s.client);
    RoundTrip(s.client.order, s.server.order, C.AdvertOf(s.client));
    hide Encode, Decode, Advert.Fits, Pow256;
  }

  lemma ServerCqKeeps(s: State)
    requires Inv(s) && Enabled(s, ServerCq)
    ensures Inv(Next(s, ServerCq))
  {
    hide QueuesOk, RegionsOk, StatesOk, ValuesOk, LogsOk, Signals, Accepted;
    Head(s.serverCq);
    if s.serverCq[0] == DONE {
      ServerDone(s);
    } else if s.serverCq[0] == READ {
      ServerReadDone(s);
    } else {
      ServerRecv(s);
    }
  }

  lemma ServerRest(s: State, x: Step)
    requires RestOk(s) && Enabled(s, x) && (x.ServerRead? || x.ServerGoAhead?)
    ensures RestOk(Next(s, x))
    ensures x.ServerRead? ==> s.phase.Advertised? && Next(s, x).phase.Reading?
    ensures x.ServerGoAhead? ==> s.phase.Reads? && s.phase.done && Next(s, x).phase.Answered?
  {
    hide Encode;
  }

  lemma ServerKeeps(s: State, x: Step)
    requires Inv(s) && Enabled(s, x) && (x.ServerRead? || x.ServerGoAhead?)
    ensures Inv(Next(s, x))
  {
    hide QueuesOk, RegionsOk, StatesOk, ValuesOk, LogsOk, Signals, Accepted;
    ServerRest(s, x);
  }

  lemma StepKeeps(s: State, x: Step)
    requires Inv(s) && Enabled(s, x)
    ensures Inv(Next(s, x))
  {
    hide Inv, Next, Enabled;
    match x
    case ClientSend(message) => ClientSendKeeps(s, message);
    case ClientDevice => ClientDeviceKeeps(s);
    case ServerDevice => ServerDeviceKeeps(s);
    case ToServer => NetKeeps(s, x);
    case ToClient => NetKeeps(s, x);
    case ClientAck => AckKeeps(s, x);
    case ServerAck => AckKeeps(s, x);
    case ClientCq => ClientCqKeeps(s);
    case ServerCq => ServerCqKeeps(s);
    case ServerRead => ServerKeeps(s, x);
    case ServerGoAhead => ServerKeeps(s, x);
  }

  // ----- all runs

  // Connected, one receive posted at each end, nothing on its way.  The server's handler has not
  // noticed the connection: its state is still the one of the connection request.
  ghost predicate Initial(s: State) {
    && s.client.state.Connected? && s.server.state.ConnectRequest? && s.wait.ForAdvert? && !s.broken && s.phase.Ready?
    && s.client.sq == [] && s.server.sq == [] && s.client.recvs == 1 && s.server.recvs == 1
    && s.clientMr == {} && s.serverMr == {} && s.toServer == [] && s.toClient == [] && s.clientCq == []
    && s.serverCq == []
    && s.sent == [] && s.delivered == [] && s.readKeys == [] && s.keys == [] && s.invalidated == []
    && Fit(s.client)
  }

  // ESTABLISHED at both ends: the client may send, and the server, whose handler ignores it, still
  // takes the first advertisement.
  lemma Handshake(events: seq<CmEvent>, requests: seq<CmEvent>, k: nat)
    requires C.Ends(events, {Established}) && k < |requests| && requests[k].ConnectRequestEvent?
    requires forall j | k < j < |requests| :: requests[j].Established? || requests[j].OtherEvent?
    ensures C.CmaAll(Idle, events).Connected? && S.CmaAll(Idle, requests).ConnectRequest?
    ensures S.Recv(S.CmaAll(Idle, requests)).RdmaReadAdv?
  {
    C.ConnectEnds(Idle, events);
    S.RequestStays(Idle, requests, k);
  }

  // Steps that are not enabled do nothing.
  function Run(s: State, steps: seq<Step>): State {
    if steps == [] then s
    else
      var s1 := Run(s, steps[..|steps| - 1]);
      var x := steps[|steps| - 1];
      if Enabled(s1, x) then Next(s1, x) else s1
  }

  lemma {:induction false} RunInv(s: State, steps: seq<Step>)
    requires Initial(s)
    ensures Inv(Run(s, steps))
  {
    if steps != [] {
      RunInv(s, steps[..|steps| - 1]);
      var s1 := Run(s, steps[..|steps| - 1]);
      var x := steps[|steps| - 1];
      hide Inv, Next, Enabled, Initial;
      if Enabled(s1, x) { StepKeeps(s1, x); }
    }
  }

  // The k-th buffer read is the k-th message sent, and at most one message is under way.
  lemma Delivery(s0: State, steps: seq<Step>)
    requires Initial(s0)
    ensures var s := Run(s0, steps); s.delivered <= s.sent && |s.sent| <= |s.delivered| + 1
  {
    RunInv(s0, steps);
    hide Run, Initial, QueuesOk, CompletionsOk, RegionsOk, StatesOk, ValuesOk;
  }

  // No end fails, and the server is never in RDMA_WRITE_ADV.
  lemma NoFailure(s0: State, steps: seq<Step>)
    requires Initial(s0)
    ensures var s := Run(s0, steps);
            !s.broken && !s.client.state.Error? && !s.server.state.Error? && !s.server.state.RdmaWriteAdv?
  {
    RunInv(s0, steps);
    hide Run, Initial, QueuesOk, CompletionsOk, RegionsOk, LogsOk, ValuesOk;
  }

  // Round k reads with the key advertised in round k, and that key is invalidated once, afterwards.
  lemma KeysInOrder(s0: State, steps: seq<Step>)
    requires Initial(s0)
    ensures var s := Run(s0, steps);
            s.invalidated <= s.readKeys <= s.keys && |s.keys| == |s.sent| && |s.keys| <= |s.invalidated| + 1
  {
    RunInv(s0, steps);
    hide Run, Initial, Inv;
    InvKeys(Run(s0, steps));
  }

  lemma InvKeys(s: State)
    requires Inv(s)
    ensures s.invalidated <= s.readKeys <= s.keys && |s.keys| == |s.sent| && |s.keys| <= |s.invalidated| + 1
  {
    hide QueuesOk, CompletionsOk, RegionsOk, StatesOk, ValuesOk, RoundKey;
    var k := [RoundKey(s)];
    Prefixes(s.keys, s.readKeys, if 1 <= Index(s.phase) <= 7 then k else [],
             s.invalidated, if 1 <= Index(s.phase) <= 11 then k else []);
  }

  lemma Prefixes(all: seq<nat>, a: seq<nat>, b: seq<nat>, c: seq<nat>, d: seq<nat>)
    requires all == a + b && all == c + d && |b| <= |d|
    ensures c <= a <= all
  {
    assert c == all[..|c|] && a == all[..|a|];
  }

  // A round always goes on until the client may send again.
  function Onward(p: Phase): Step {
    match p
    case Posted => ClientDevice
    case Registered => ClientDevice
    case OnWire => ToServer
    case Arrived => ServerCq
    case Advertised => ServerRead
    case Reads(done, _) => if done then ServerGoAhead else ServerCq
    case GoAheadOnWire => ToClient
    case GoAheadArrived => ClientCq
    case _ => ServerDevice
  }

  lemma NoDeadlock(s0: State, steps: seq<Step>)
    requires Initial(s0)
    ensures var s := Run(s0, steps); !s.phase.Ready? ==> Enabled(s, Onward(s.phase))
  {
    RunInv(s0, steps);
    hide Run, Initial, Inv;
    if !Run(s0, steps).phase.Ready? { GoesOn(Run(s0, steps)); }
  }

  lemma GoesOn(s: State)
    requires Inv(s) && !s.phase.Ready?
    ensures Enabled(s, Onward(s.phase))
  {
    hide RegionsOk, ValuesOk, LogsOk, C.AdvertOf, Encode;
  }

  // ----- polling is a run

  lemma {:induction false} RunAppend(s: State, a: seq<Step>, b: seq<Step>)
    ensures Run(s, a + b) == Run(Run(s, a), b)
  {
    hide Next, Enabled;
    if b == [] {
      assert a + b == a;
    } else {
      var n := |b| - 1;
      RunAppend(s, a, b[..n]);
      assert (a + b)[..|a| + n] == a + b[..n];
    }
  }

  lemma RunFirst(s: State, x: Step, rest: seq<Step>)
    requires Enabled(s, x)
    ensures Run(s, [x] + rest) == Run(Next(s, x), rest)
  {
    hide Next, Enabled;
    RunAppend(s, [x], rest);
    assert [x][..0] == [];
    assert Run(s, []) == s;
  }

  function Repeat(x: Step, n: nat): seq<Step> {
    if n == 0 then [] else [x] + Repeat(x, n - 1)
  }

  function Trues(n: nat): (r: seq<bool>)
    ensures |r| == n
  {
    if n == 0 then [] else [true] + Trues(n - 1)
  }

  // Polling the whole queue is the run of its completions, one step each.
  lemma {:induction false} ClientPolls(s: State)
    requires Inv(s)
    ensures var s' := Run(s, Repeat(ClientCq, |s.clientCq|));
            && Inv(s') && s'.clientCq == [] && s'.server == s.server
            && s'.client == C.Poll(s.client, s.clientCq, false, Trues(|s.clientCq|))
    decreases |s.clientCq|
  {
    hide QueuesOk, CompletionsOk, RegionsOk, ValuesOk, LogsOk, Run;
    if s.clientCq == [] {
      RunNone(s);
    } else {
      ClientCqKeeps(s);
      var s1 := Next(s, ClientCq);
      ClientPolls(s1);
      RunFirst(s, ClientCq, Repeat(ClientCq, |s1.clientCq|));
      ClientGoes(s);
      assert Trues(|s.clientCq|)[1..] == Trues(|s1.clientCq|);
    }
  }

  lemma RunNone(s: State)
    ensures Run(s, []) == s
  {}

  lemma ClientGoes(s: State)
    requires Inv(s) && s.clientCq != []
    ensures C.Handle(s.client, s.clientCq[0], true).Go?
  {
    hide QueuesOk, RegionsOk, ValuesOk, LogsOk, StatesOk;
    Head(s.clientCq);
  }

  lemma {:induction false} ServerPolls(s: State)
    requires Inv(s)
    ensures var s' := Run(s, Repeat(ServerCq, |s.serverCq|));
            && Inv(s') && s'.serverCq == [] && s'.client == s.client
            && s'.server == S.Poll(s.server, s.serverCq, false, Trues(|s.serverCq|))
    decreases |s.serverCq|
  {
    hide QueuesOk, CompletionsOk, RegionsOk, ValuesOk, LogsOk, Run;
    if s.serverCq == [] {
      RunNone(s);
    } else {
      ServerCqKeeps(s);
      var s1 := Next(s, ServerCq);
      ServerPolls(s1);
      RunFirst(s, ServerCq, Repeat(ServerCq, |s1.serverCq|));
      ServerGoes(s);
      assert Trues(|s.serverCq|)[1..] == Trues(|s1.serverCq|);
    }
  }

  lemma ServerGoes(s: State)
    requires Inv(s) && s.serverCq != []
    ensures S.Handle(s.server, s.serverCq[0], true).Go?
  {
    hide QueuesOk, RegionsOk, ValuesOk, LogsOk, StatesOk, Decode;
    Head(s.serverCq);
  }

  // ----- every round can be brought to its end

  function Rest(p: Phase): nat {
    if p.Ready? then 0 else 13 - Index(p)
  }

  function Uninvalidated(p: Phase): nat {
    if (p.Reads? || p.Answered?) && !p.inv then 1 else 0
  }

  ghost predicate Less(s: State, s': State) {
    && s'.sent == s.sent
    && (Rest(s'.phase) < Rest(s.phase) ||
        (Rest(s'.phase) == Rest(s.phase) && Uninvalidated(s'.phase) < Uninvalidated(s.phase)) ||
        (s'.phase == s.phase && |s'.clientCq| + |s'.serverCq| < |s.clientCq| + |s.serverCq|))
  }

  lemma OnwardLess(s: State)
    requires Inv(s) && !s.phase.Ready?
    ensures Enabled(s, Onward(s.phase)) && Less(s, Next(s, Onward(s.phase)))
  {
    GoesOn(s);
    hide Inv, Less;
    match Onward(s.phase)
    case ClientCq => CqLess(s);
    case ServerCq => CqLess(s);
    case ServerDevice => DeviceLess(s);
    case _ => OtherLess(s);
  }

  lemma CqLess(s: State)
    requires Inv(s) && !s.phase.Ready? && (Onward(s.phase).ClientCq? || Onward(s.phase).ServerCq?)
    requires Enabled(s, Onward(s.phase))
    ensures Less(s, Next(s, Onward(s.phase)))
  {
    hide QueuesOk, RegionsOk, StatesOk, ValuesOk, LogsOk, Signals, Accepted, C.Handle, S.Handle;
    if Onward(s.phase).ClientCq? { Head(s.clientCq); } else { Head(s.serverCq); }
  }

  lemma DeviceLess(s: State)
    requires Inv(s) && !s.phase.Ready? && Onward(s.phase).ServerDevice? && Enabled(s, ServerDevice)
    ensures Less(s, Next(s, ServerDevice))
  {
    NotBroken(s);
    hide CompletionsOk, RegionsOk, StatesOk, ValuesOk, LogsOk, C.AdvertOf, Encode, Rkey;
  }

  lemma OtherLess(s: State)
    requires Inv(s) && !s.phase.Ready? && !Onward(s.phase).ServerDevice?
    requires !Onward(s.phase).ClientCq? && !Onward(s.phase).ServerCq? && Enabled(s, Onward(s.phase))
    ensures Less(s, Next(s, Onward(s.phase)))
  {
    hide CompletionsOk, ValuesOk, LogsOk, C.AdvertOf, Encode;
  }

  lemma {:induction false} RoundEnds(s: State) returns (steps: seq<Step>)
    requires Inv(s)
    ensures var s' := Run(s, steps); Inv(s') && s'.phase.Ready? && s'.sent == s.sent
    decreases Rest(s.phase), Uninvalidated(s.phase), |s.clientCq| + |s.serverCq|
  {
    hide Inv, Run, Next, Enabled, Onward;
    if s.phase.Ready? {
      RunNone(s);
      return [];
    }
    var x := Onward(s.phase);
    OnwardLess(s);
    StepKeeps(s, x);
    var rest := RoundEnds(Next(s, x));
    RunFirst(s, x, rest);
    return [x] + rest;
  }

  // Whatever has happened, a message that is sent can be delivered and the client be ready again.
  lemma RoundCompletes(s0: State, steps: seq<Step>, message: Message) returns (more: seq<Step>)
    requires Initial(s0) && Run(s0, steps).phase.Ready? && |message| == Run(s0, steps).client.size
    ensures var s, s' := Run(s0, steps), Run(Run(s0, steps), [ClientSend(message)] + more);
            s'.phase.Ready? && s'.sent == s.sent + [message] && s'.delivered == s.delivered + [message]
  {
    RunInv(s0, steps);
    var s := Run(s0, steps);
    hide Run, Initial, QueuesOk, CompletionsOk, RegionsOk, ValuesOk;
    ClientSendKeeps(s, message);
    more := RoundEnds(Next(s, ClientSend(message)));
    RunFirst(s, ClientSend(message), more);
  }
}
