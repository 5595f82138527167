/**
  What both ends of the RDMA connection share: connection states, work requests and completions,
  and the advertisement in network byte order.
*/
module RdmaWire {

  type Byte = n: nat | n < 256
  type Message = seq<Byte>

  // enum nmsg_state, in its order
  datatype NmsgState =
    Idle | ConnectRequest | AddrResolved | RouteResolved | Connected |
    RdmaReadAdv | RdmaReadComplete | RdmaWriteAdv | RdmaWriteComplete | Error
  {
    function Rank(): nat {
      match this
      case Idle => 1
      case ConnectRequest => 2
      case AddrResolved => 3
      case RouteResolved => 4
      case Connected => 5
      case RdmaReadAdv => 6
      case RdmaReadComplete => 7
      case RdmaWriteAdv => 8
      case RdmaWriteComplete => 9
      case Error => 10
    }
  }

  // Connection manager events that both handlers distinguish
  datatype CmEvent =
    AddrResolvedEvent | RouteResolvedEvent | ConnectRequestEvent | Established | Failed | Disconnected | Removal | OtherEvent

  datatype Wr =
    | RegMr(rkey: nat)
    | Send(data: Data)
    | Read(rkey: nat, addr: nat, len: nat, lkey: nat)
    | LocalInv(rkey: nat)
    | SendWithInv(rkey: nat)

  datatype Status = Success | Flushed | Failure

  datatype Opcode = SendDone | ReadDone | RecvDone | OtherOpcode

  datatype Wc = Wc(status: Status, opcode: Opcode, byteLen: nat)

  // struct nmsg_data as bytes in memory; the other fields are not used
  datatype Data = Data(buf: seq<Byte>, rkey: seq<Byte>, size: seq<Byte>)

  const DATA_SIZE: nat := 56

  // The region key: ib_update_fast_reg_key replaces the low byte
  function Rkey(base: nat, key: Byte): nat {
    base * 256 + key
  }

  // ++key on a u8
  function NextKey(key: Byte): Byte {
    (key + 1) % 256
  }

  // The key n rounds later
  function KeyAfter(key: Byte, n: nat): Byte {
    if n == 0 then key else NextKey(KeyAfter(key, n - 1))
  }

  lemma {:induction false} KeyAfterIs(key: Byte, n: nat)
    ensures KeyAfter(key, n) == (key + n) % 256
  {
    if n > 0 {
      KeyAfterIs(key, n - 1);
      ModNext(key + n - 1);
    }
  }

  lemma ModNext(a: nat)
    ensures (a % 256 + 1) % 256 == (a + 1) % 256
  {}

  lemma ModSame(a: nat, b: nat)
    requires a <= b
    ensures a % 256 == b % 256 <==> (b - a) % 256 == 0
  {
    var q, r := a / 256, b / 256;
    assert b - a == 256 * (r - q) + (b % 256 - a % 256);
  }

  // Two rounds use one key exactly if their distance is a multiple of 256: the keys of any 256
  // consecutive rounds are distinct.
  lemma KeysDistinct(base: nat, key: Byte, m: nat, n: nat)
    requires m <= n
    ensures Rkey(base, KeyAfter(key, m)) == Rkey(base, KeyAfter(key, n)) <==> (n - m) % 256 == 0
  {
    hide KeyAfter;
    KeyAfterIs(key, m);
    KeyAfterIs(key, n);
    ModSame(key + m, key + n);
  }

  // ----- the completions a polling loop goes through

  // What makes a handler give up; a client does not expect completions of reads
  predicate Fails(wc: Wc, reposts: bool, client: bool) {
    wc.status.Failure? ||
    (wc.status.Success? &&
     match wc.opcode
     case SendDone => false
     case ReadDone => client
     case RecvDone => wc.byteLen != DATA_SIZE || !reposts
     case OtherOpcode => true)
  }

  // The number of completions before the first that fails
  function Before(wcs: seq<Wc>, reposts: seq<bool>, client: bool): (k: nat)
    requires |reposts| == |wcs|
    ensures k <= |wcs| && forall j | 0 <= j < k :: !Fails(wcs[j], reposts[j], client)
    ensures k < |wcs| ==> Fails(wcs[k], reposts[k], client)
  {
    if wcs == [] || Fails(wcs[0], reposts[0], client) then 0 else 1 + Before(wcs[1..], reposts[1..], client)
  }

  // Successful completions with this opcode
  function Count(wcs: seq<Wc>, opcode: Opcode): nat {
    if wcs == [] then 0
    else (if wcs[0].status.Success? && wcs[0].opcode == opcode then 1 else 0) + Count(wcs[1..], opcode)
  }

  // The successful reads and receives, in order
  function Signalled(wcs: seq<Wc>): seq<Opcode> {
    if wcs == [] then []
    else (if wcs[0].status.Success? && (wcs[0].opcode.ReadDone? || wcs[0].opcode.RecvDone?) then [wcs[0].opcode] else [])
         + Signalled(wcs[1..])
  }

  // ----- byte order

  datatype Order = Big | Little

  function Pow256(n: nat): nat {
    if n == 0 then 1 else 256 * Pow256(n - 1)
  }

  // The digits of x, most significant first
  function Digits(x: nat, n: nat): (r: seq<Byte>)
    ensures |r| == n
  {
    if n == 0 then [] else Digits(x / 256, n - 1) + [x % 256]
  }

  function Value(b: seq<Byte>): nat {
    if b == [] then 0 else Value(b[..|b| - 1]) * 256 + b[|b| - 1]
  }

  function Reverse(b: seq<Byte>): (r: seq<Byte>)
    ensures |r| == |b| && forall i | 0 <= i < |b| :: r[i] == b[|b| - 1 - i]
  {
    seq(|b|, i requires 0 <= i < |b| => b[|b| - 1 - i])
  }

  // A word in the memory of a host, and back
  function Memory(order: Order, x: nat, n: nat): (r: seq<Byte>)
    ensures |r| == n
  {
    if order.Big? then Digits(x, n) else Reverse(Digits(x, n))
  }

  function Word(order: Order, b: seq<Byte>): nat {
    if order.Big? then Value(b) else Value(Reverse(b))
  }

  // htonl and htonll; ntohl and ntohll are the same
  function Hton(order: Order, x: nat, n: nat): nat {
    if order.Big? then x else Value(Reverse(Digits(x, n)))
  }

  lemma {:induction false} ValueDigits(x: nat, n: nat)
    requires x < Pow256(n)
    ensures Value(Digits(x, n)) == x
  {
    if n > 0 {
      ValueDigits(x / 256, n - 1);
      assert Digits(x, n)[..n - 1] == Digits(x / 256, n - 1);
    }
  }

  lemma {:induction false} DigitsValue(b: seq<Byte>)
    ensures Digits(Value(b), |b|) == b && Value(b) < Pow256(|b|)
  {
    if b != [] {
      var k := |b| - 1;
      DigitsValue(b[..k]);
      assert Value(b) / 256 == Value(b[..k]) && Value(b) % 256 == b[k];
      assert b == b[..k] + [b[k]];
    }
  }

  lemma ReverseTwice(b: seq<Byte>)
    ensures Reverse(Reverse(b)) == b
  {}

  // What is put in network order lies in memory as the digits, whatever the host's own order.
  lemma NetworkOrder(order: Order, x: nat, n: nat)
    requires x < Pow256(n)
    ensures Memory(order, Hton(order, x, n), n) == Digits(x, n)
  {
    if order.Little? {
      DigitsValue(Reverse(Digits(x, n)));
      ReverseTwice(Digits(x, n));
    }
  }

  // Any host reads back what any other host wrote.
  lemma HostOrder(order: Order, x: nat, n: nat)
    requires x < Pow256(n)
    ensures Hton(order, Word(order, Digits(x, n)), n) == x
  {
    ValueDigits(x, n);
    if order.Little? {
      DigitsValue(Reverse(Digits(x, n)));
      ReverseTwice(Digits(x, n));
    }
  }

  // ----- the advertisement

  datatype Advert = Advert(addr: nat, rkey: nat, len: nat) {
    predicate Fits() {
      addr < Pow256(8) && rkey < Pow256(4) && len < Pow256(4)
    }
  }

  function Encode(order: Order, a: Advert): Data {
    Data(Memory(order, Hton(order, a.addr, 8), 8),
         Memory(order, Hton(order, a.rkey, 4), 4),
         Memory(order, Hton(order, a.len, 4), 4))
  }

  function Decode(order: Order, d: Data): Advert {
    Advert(Hton(order, Word(order, d.buf), 8), Hton(order, Word(order, d.rkey), 4), Hton(order, Word(order, d.size), 4))
  }

  lemma RoundTrip(client: Order, server: Order, a: Advert)
    requires a.Fits()
    ensures Decode(server, Encode(client, a)) == a
  {
    hide Memory, Word, Hton, Pow256, Digits;
    NetworkOrder(client, a.addr, 8);
    NetworkOrder(client, a.rkey, 4);
    NetworkOrder(client, a.len, 4);
    HostOrder(server, a.addr, 8);
    HostOrder(server, a.rkey, 4);
    HostOrder(server, a.len, 4);
  }
}
