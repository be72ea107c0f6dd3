/** What one LM-INET handler does to one connection, as functions on values.

    Every kernel call appears as the number of bytes it moved: a call that returned -1
    moved none, and the handler treats the two alike.  The methods of `InetHandler`
    are proved equal to these functions, and `InetNet` proves what they achieve. */
module InetEndpoint {
  import opened Wire

  datatype Phase = Free | Header | Body | Auto

  /** One connection as its handler sees it.  `lreq`, `lphase`, `lbytes` describe the
      request of this side; `preq`, `rphase`, `rbytes` the request of the peer, whose header
      arrives in `preq`. */
  datatype Endpoint = Endpoint(
    queue: seq<Request>,
    lreq: Option<Request>, lphase: Phase, lbytes: nat,
    preq: seq<byte>, rphase: Phase, rbytes: nat,
    pollIn: bool,
    mem: seq<byte>,
    comps: seq<Request>)

  /** A connection as the handler registers it. */
  function Fresh(mem: seq<byte>): Endpoint {
    Endpoint([], None, Free, 0, seq(HEADER, _ => 0), Free, 0, true, mem, [])
  }

  predicate Outgoing(k: Kind) { k.Send? || k.RemWr? || k.RemRd? }

  function PeerHeader(e: Endpoint): Request
    requires |e.preq| == HEADER
  {
    Decode(e.preq)
  }

  // ---------------------------------------------------------------- this side's request

  /** Moves the oldest queued request into the connection.  When the connection is still busy
      the busy request is reported in its place, and the retrieved one is forgotten. */
  function Retrieve(e: Endpoint): Endpoint
    requires e.queue != []
    requires e.lphase != Free ==> e.lreq.Some?
  {
    if e.lphase != Free then
      e.(queue := e.queue[1..], comps := e.comps + [e.lreq.value])
    else
      e.(queue := e.queue[1..], lreq := Some(e.queue[0]), lphase := Header, lbytes := 0)
  }

  /** Hands the request back to its owner. */
  function Complete(e: Endpoint): Endpoint
    requires e.lreq.Some?
  {
    e.(comps := e.comps + [e.lreq.value.(status := SUCCESS)], lreq := None, lphase := Free, lbytes := 0)
  }

  /** The bytes this side's request still has to write in its current phase. */
  function Offer(e: Endpoint): seq<byte>
    requires e.lreq.Some?
  {
    var r := e.lreq.value;
    if e.lphase == Header && e.lbytes <= HEADER then Encode(r)[e.lbytes..]
    else if e.lphase == Body && e.lbytes <= r.length then Load(e.mem, r.addr + e.lbytes, r.length - e.lbytes)
    else []
  }

  /** A Send, RemWr or RemRd request after `n` more of its bytes were written. */
  function Written(e: Endpoint, n: nat): Endpoint
    requires e.lreq.Some?
  {
    var r := e.lreq.value;
    if e.lphase == Header then
      if e.lbytes + n < HEADER then e.(lbytes := e.lbytes + n)
      else if r.kind.RemRd? then e.(lphase := Auto, lbytes := 0, pollIn := false)
      else e.(lphase := Body, lbytes := 0)
    else if e.lphase == Body then
      if e.lbytes + n < r.length then e.(lbytes := e.lbytes + n) else Complete(e)
    else e
  }

  /** A RemRd request whose header is out takes the next bytes of the reply. */
  function TakeReply(e: Endpoint, data: seq<byte>): Endpoint
    requires e.lreq.Some?
  {
    var r := e.lreq.value;
    var m := Store(e.mem, r.addr + e.lbytes, data);
    if e.lbytes + |data| < r.length then e.(mem := m, lbytes := e.lbytes + |data|)
    else Complete(e.(mem := m, pollIn := true))
  }

  /** A Recv request becomes ready to accept a message. */
  function PostRecv(e: Endpoint): Endpoint {
    if e.lphase == Header then e.(lphase := Body) else e
  }

  // ---------------------------------------------------------------- the peer's request

  predicate RecvPosted(e: Endpoint) {
    e.lreq.Some? && e.lreq.value.kind.Recv? && e.lphase == Body
  }

  /** Whether, and how much, the handler asks the kernel for when input is reported. */
  function Demand(e: Endpoint): Option<nat>
    requires |e.preq| == HEADER
  {
    match e.rphase
    case Free => if e.rbytes <= HEADER then Some(HEADER - e.rbytes) else None
    case Header => if e.rbytes <= HEADER then Some(HEADER - e.rbytes) else None
    case Body =>
      var h := PeerHeader(e);
      if h.length < e.rbytes then None
      else if h.kind.RemWr? || (h.kind.Send? && RecvPosted(e)) then Some(h.length - e.rbytes)
      else None
    case Auto => None
  }

  /** Where the body of the peer's message goes. */
  function Landing(e: Endpoint): nat
    requires |e.preq| == HEADER
  {
    if PeerHeader(e).kind.Send? && e.lreq.Some? then e.lreq.value.addr else PeerHeader(e).remAddr
  }

  /** A complete header decides what follows it. */
  function Dispatch(e: Endpoint): Endpoint
    requires |e.preq| == HEADER
  {
    match PeerHeader(e).kind
    case Send => e.(rphase := Body, rbytes := 0)
    case RemWr => e.(rphase := Body, rbytes := 0)
    case RemRd => e.(rphase := Auto, rbytes := 0)
    case Recv => e.(rphase := Free, rbytes := 0)
    case Other(_) => e.(rphase := Free, rbytes := 0)
  }

  /** Input was reported and the kernel delivered `data`. */
  function Arrived(e: Endpoint, data: seq<byte>): Endpoint
    requires |e.preq| == HEADER
    requires Demand(e).Some? && |data| <= Demand(e).value
  {
    if e.rphase == Free || e.rphase == Header then
      var e1 := e.(preq := e.preq[..e.rbytes] + data + e.preq[e.rbytes + |data|..], rbytes := e.rbytes + |data|);
      if e1.rbytes < HEADER then e1.(rphase := Header) else Dispatch(e1)
    else
      var h := PeerHeader(e);
      var e1 := e.(mem := Store(e.mem, Landing(e) + e.rbytes, data), rbytes := e.rbytes + |data|);
      if e1.rbytes < h.length then e1
      else if h.kind.Send? then Complete(e1).(rphase := Free, rbytes := 0)
      else e1.(rphase := Free, rbytes := 0)
  }

  /** The bytes of the peer's RemRd request that are still to be written. */
  function ReplyOffer(e: Endpoint): seq<byte>
    requires |e.preq| == HEADER
  {
    var h := PeerHeader(e);
    if e.rbytes <= h.length then Load(e.mem, h.remAddr + e.rbytes, h.length - e.rbytes) else []
  }

  function Replied(e: Endpoint, n: nat): Endpoint
    requires |e.preq| == HEADER
  {
    if e.rbytes + n < PeerHeader(e).length then e.(rbytes := e.rbytes + n)
    else e.(rphase := Free, rbytes := 0)
  }
}
