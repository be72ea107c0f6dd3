/** The LM-INET handler as it is written: records updated in place by the result of each
    kernel call.  Every method is proved equal to its function in `InetEndpoint`. */
module InetHandler {
  import opened Wire
  import opened InetEndpoint

  /** The thread-safe vector; every method is one critical section. */
  class Queue<T> {
    var items: seq<T>

    constructor ()
      ensures items == []
    {
      items := [];
    }

    method PushHead(x: T)
      modifies this
      ensures items == [x] + old(items)
    {
      items := [x] + items;
    }

    method PushTail(x: T)
      modifies this
      ensures items == old(items) + [x]
    {
      items := items + [x];
    }

    method PopHead() returns (rc: int, x: Option<T>)
      modifies this
      ensures old(items) == [] ==> rc == -1 && x == None && items == []
      ensures old(items) != [] ==> rc == 0 && x == Some(old(items)[0]) && old(items) == [old(items)[0]] + items
    {
      if |items| <= 0 {
        return -1, None;
      }
      x := Some(items[0]);
      items := items[1..];
      rc := 0;
    }
  }

  /** The kernel copies received bytes into process memory. */
  method CopyIn(mem: array<byte>, at: nat, data: seq<byte>)
    modifies mem
    ensures mem[..] == Store(old(mem[..]), at, data)
  {
    if at + |data| <= mem.Length {
      ghost var was := mem[..];
      for i := 0 to |data|
        invariant mem[..] == was[..at] + data[..i] + was[at + i..]
      {
        mem[at + i] := data[i];
      }
    }
  }

  class InetConnection {
    var lReq: Option<Request>
    var lState: Phase
    var lBytes: nat
    var preq: seq<byte>
    var rState: Phase
    var rBytes: nat
    var pollIn: bool
    const mem: array<byte>
    const compQueue: Queue<Request>

    ghost function View(): Endpoint
      reads this, mem, compQueue
    {
      Endpoint([], lReq, lState, lBytes, preq, rState, rBytes, pollIn, mem[..], compQueue.items)
    }

    ghost predicate Valid()
      reads this
    {
      && |preq| == HEADER && (lReq.None? <==> lState == Free)
      && (lReq.Some? && lState == Header ==> lBytes < HEADER)
      && (lReq.Some? && lState == Body && !lReq.value.kind.Recv? ==> lBytes <= lReq.value.length)
      && (lReq.Some? && lState == Auto ==> lBytes <= lReq.value.length)
      && (lReq.Some? && lReq.value.kind.RemRd? ==> lState != Body)
      && (rState in {Free, Header} ==> rBytes <= HEADER)
      && (rState in {Body, Auto} ==> rBytes <= Decode(preq).length)
    }

    /** A connection as `_RetrieveFdFromQueue` registers it. */
    constructor (mem: array<byte>, compQueue: Queue<Request>)
      ensures Valid() && this.mem == mem && this.compQueue == compQueue
      ensures View() == Fresh(mem[..]).(comps := compQueue.items)
      ensures lReq == None && lState == Free && lBytes == 0 && rState == Free && rBytes == 0 && pollIn
      ensures |preq| == HEADER && forall i :: 0 <= i < HEADER ==> preq[i] == 0
    {
      this.mem := mem;
      this.compQueue := compQueue;
      lReq, lState, lBytes := None, Free, 0;
      preq, rState, rBytes := seq(HEADER, _ => 0), Free, 0;
      pollIn := true;
    }

    /** A Send request: the kernel takes `sent` bytes, or reports -1. */
    method HandleRequestSend(sent: int) returns (out: seq<byte>)
      requires Valid() && lReq.Some? && lReq.value.kind.Send?
      requires -1 <= sent <= |Offer(View())|
      modifies this, compQueue
      ensures var n: nat := if sent < 0 then 0 else sent;
              View() == Written(old(View()), n) && out == Offer(old(View()))[..n]
      ensures Valid()
    {
      hide Encode, Decode;
      out := [];
      match lState
      case Free =>
      case Header =>
        if sent != -1 {
          out := Encode(lReq.value)[lBytes..][..sent];
          lBytes := lBytes + sent;
        }
        if lBytes >= HEADER {
          lState := Body;
          lBytes := 0;
        }
      case Body =>
        if sent != -1 {
          out := Load(mem[..], lReq.value.addr + lBytes, lReq.value.length - lBytes)[..sent];
          lBytes := lBytes + sent;
        }
        if lBytes >= lReq.value.length {
          compQueue.PushTail(lReq.value.(status := SUCCESS));
          lState := Free;
          lReq := None;
          lBytes := 0;
        }
      case Auto =>
    }

    /** A RemWr request. */
    method HandleRequestRemWr(sent: int) returns (out: seq<byte>)
      requires Valid() && lReq.Some? && lReq.value.kind.RemWr?
      requires -1 <= sent <= |Offer(View())|
      modifies this, compQueue
      ensures var n: nat := if sent < 0 then 0 else sent;
              View() == Written(old(View()), n) && out == Offer(old(View()))[..n]
      ensures Valid()
    {
      hide Encode, Decode;
      out := [];
      match lState
      case Free =>
      case Header =>
        if sent != -1 {
          out := Encode(lReq.value)[lBytes..][..sent];
          lBytes := lBytes + sent;
        }
        if lBytes >= HEADER {
          lState := Body;
          lBytes := 0;
        }
      case Body =>
        if sent != -1 {
          out := Load(mem[..], lReq.value.addr + lBytes, lReq.value.length - lBytes)[..sent];
          lBytes := lBytes + sent;
        }
        if lBytes >= lReq.value.length {
          compQueue.PushTail(lReq.value.(status := SUCCESS));
          lReq := None;
          lState := Free;
          lBytes := 0;
        }
      case Auto =>
    }

    method HandleRequestRecv()
      requires Valid() && lReq.Some? && lReq.value.kind.Recv?
      modifies this
      ensures View() == PostRecv(old(View()))
      ensures lState == if old(lState) == Header then Body else old(lState)
      ensures Valid()
    {
      if lState == Header {
        lState := Body;
      }
    }

    /** A RemRd request that still writes its header. */
    method HandleRequestRemRdHeader(sent: int) returns (out: seq<byte>)
      requires Valid() && lReq.Some? && lReq.value.kind.RemRd? && lState == Header
      requires -1 <= sent <= |Offer(View())|
      modifies this
      ensures var n: nat := if sent < 0 then 0 else sent;
              View() == Written(old(View()), n) && out == Offer(old(View()))[..n]
      ensures Valid()
    {
      out := [];
      if sent != -1 {
        out := Encode(lReq.value)[lBytes..][..sent];
        lBytes := lBytes + sent;
      }
      if lBytes >= HEADER {
        pollIn := false;
        lState := Auto;
        lBytes := 0;
      }
    }

    /** A RemRd request that takes the reply; `None` stands for a -1 from the kernel. */
    method HandleRequestRemRdAuto(data: Option<seq<byte>>)
      requires Valid() && lReq.Some? && lReq.value.kind.RemRd? && lState == Auto
      requires data.Some? ==> lBytes + |data.value| <= lReq.value.length
      modifies this, compQueue, mem
      ensures View() == TakeReply(old(View()), if data.Some? then data.value else [])
      ensures Valid()
    {
      hide Encode, Decode, Store;
      if data.Some? {
        CopyIn(mem, lReq.value.addr + lBytes, data.value);
        lBytes := lBytes + |data.value|;
      } else {
        StoreNothing(mem[..], lReq.value.addr + lBytes);
      }
      if lBytes >= lReq.value.length {
        pollIn := true;
        compQueue.PushTail(lReq.value.(status := SUCCESS));
        lReq := None;
        lState := Free;
        lBytes := 0;
      }
    }

    /** The handler's turn for this connection's own request, whatever it is: `sent` answers a send and `data` a
        receive. */
    method HandleRequest(sent: int, data: Option<seq<byte>>) returns (out: seq<byte>)
      requires Valid()
      requires lReq.Some? ==> -1 <= sent <= |Offer(View())|
      requires lReq.Some? && data.Some? && lState == Auto ==> lBytes + |data.value| <= lReq.value.length
      modifies this, compQueue, mem
      ensures var e := old(View());
              var n: nat := if sent < 0 then 0 else sent;
              if e.lreq.None? || e.lreq.value.kind.Other? then View() == e && out == []
              else if e.lreq.value.kind.Recv? then View() == PostRecv(e) && out == []
              else if e.lreq.value.kind.RemRd? && e.lphase == Auto then
                View() == TakeReply(e, if data.Some? then data.value else []) && out == []
              else View() == Written(e, n) && out == Offer(e)[..n]
      ensures Valid()
    {
      hide Encode, Decode, Store, Load, Written, Offer, TakeReply;
      out := [];
      if lState == Free || lReq.None? {
        return;
      }
      match lReq.value.kind
      case Send => out := HandleRequestSend(sent);
      case Recv => HandleRequestRecv();
      case RemRd =>
        if lState == Header {
          out := HandleRequestRemRdHeader(sent);
        } else {
          HandleRequestRemRdAuto(data);
        }
      case RemWr => out := HandleRequestRemWr(sent);
      case Other(_) =>
    }

    /** Input was reported: the kernel delivers `data`, or `None` for -1, when it is asked. */
    method HandleConnectionIn(data: Option<seq<byte>>)
      requires Valid()
      requires data.Some? && Demand(View()).Some? ==> |data.value| <= Demand(View()).value
      modifies this, compQueue, mem
      ensures var e := old(View());
              View() == if Demand(e).Some? then Arrived(e, if data.Some? then data.value else [])
                        else if e.rphase == Body && !PeerHeader(e).kind.Send? then e.(rphase := Free, rbytes := 0)
                        else e
      ensures Valid()
    {
      hide Encode, Decode, Store;
      match rState
      case Free =>
        TakeHeader(data);
      case Header =>
        TakeHeader(data);
      case Body =>
        TakeBody(data);
      case Auto =>
    }

    /** The body of a Send goes to the Recv request that is posted. */
    method TakeMessage(data: Option<seq<byte>>)
      requires Valid() && rState == Body && Decode(preq).kind.Send? && RecvPosted(View())
      requires data.Some? ==> rBytes + |data.value| <= Decode(preq).length
      modifies this, compQueue, mem
      ensures View() == Arrived(old(View()), if data.Some? then data.value else [])
      ensures Valid()
    {
      hide Encode, Decode, Store, Load;
      if data.Some? {
        CopyIn(mem, lReq.value.addr + rBytes, data.value);
        rBytes := rBytes + |data.value|;
      } else {
        StoreNothing(mem[..], lReq.value.addr + rBytes);
      }
      if rBytes >= Decode(preq).length {
        compQueue.PushTail(lReq.value.(status := SUCCESS));
        lReq := None;
        lState := Free;
        lBytes := 0;
        rState := Free;
        rBytes := 0;
      }
    }

    /** The body of a RemWr goes where its header says. */
    method TakeRemoteWrite(data: Option<seq<byte>>)
      requires Valid() && rState == Body && Decode(preq).kind.RemWr?
      requires data.Some? ==> rBytes + |data.value| <= Decode(preq).length
      modifies this, mem
      ensures View() == Arrived(old(View()), if data.Some? then data.value else [])
      ensures Valid()
    {
      hide Encode, Decode, Store, Load;
      if data.Some? {
        CopyIn(mem, Decode(preq).remAddr + rBytes, data.value);
        rBytes := rBytes + |data.value|;
      } else {
        StoreNothing(mem[..], Decode(preq).remAddr + rBytes);
      }
      if rBytes >= Decode(preq).length {
        rState := Free;
        rBytes := 0;
      }
    }

    /** The body of the peer's message. */
    method TakeBody(data: Option<seq<byte>>)
      requires Valid() && rState == Body
      requires data.Some? && Demand(View()).Some? ==> |data.value| <= Demand(View()).value
      modifies this, compQueue, mem
      ensures var e := old(View());
              View() == if Demand(e).Some? then Arrived(e, if data.Some? then data.value else [])
                        else if !PeerHeader(e).kind.Send? then e.(rphase := Free, rbytes := 0)
                        else e
      ensures var posted := old(lReq).Some? && old(lReq).value.kind.Recv? && old(lState) == Body;
              Decode(old(preq)).kind.Send? && !posted ==> View() == old(View())
      ensures Valid()
    {
      hide Encode, Decode, Store, Load, Arrived;
      match Decode(preq).kind {
        case Send =>
          if lReq.None? {
            return;
          }
          if !lReq.value.kind.Recv? || lState != Body {
            return;
          }
          TakeMessage(data);
        case RemWr =>
          TakeRemoteWrite(data);
        case _ =>
          rState := Free;
          rBytes := 0;
      }
    }

    /** The switch on the type of a complete header. */
    method DispatchHeader()
      requires |preq| == HEADER
      modifies `rState, `rBytes
      ensures View() == Dispatch(old(View()))
      ensures rBytes == 0
      ensures rState == match Decode(preq).kind
                        case Send => Body
                        case RemWr => Body
                        case RemRd => Auto
                        case _ => Free
    {
      hide Encode, Decode;
      match Decode(preq).kind {
        case Recv => rState := Free;
        case Send => rState := Body;
        case RemWr => rState := Body;
        case RemRd => rState := Auto;
        case Other(_) => rState := Free;
      }
      rBytes := 0;
    }

    /** The common code of the states that await a header. */
    method TakeHeader(data: Option<seq<byte>>)
      requires Valid() && rState in {Free, Header}
      requires data.Some? ==> rBytes + |data.value| <= HEADER
      modifies this
      ensures View() == Arrived(old(View()), if data.Some? then data.value else [])
      ensures var n := if data.Some? then |data.value| else 0;
              old(rBytes) + n < 48 ==> rState == Header && rBytes == old(rBytes) + n
      ensures Valid()
    {
      hide Encode, Decode, Dispatch;
      if data.Some? {
        preq := preq[..rBytes] + data.value + preq[rBytes + |data.value|..];
        rBytes := rBytes + |data.value|;
      } else {
        assert preq[..rBytes] + [] + preq[rBytes + 0..] == preq;
      }
      if rBytes < HEADER {
        rState := Header;
      } else {
        DispatchHeader();
      }
    }

    /** The answer to the peer's RemRd. */
    method HandleConnectionOut(sent: int) returns (out: seq<byte>)
      requires Valid() && rState == Auto
      requires -1 <= sent <= |ReplyOffer(View())|
      modifies this
      ensures var n: nat := if sent < 0 then 0 else sent;
              View() == Replied(old(View()), n) && out == ReplyOffer(old(View()))[..n]
      ensures Valid()
    {
      out := [];
      var h := Decode(preq);
      if sent != -1 {
        out := Load(mem[..], h.remAddr + rBytes, h.length - rBytes)[..sent];
        rBytes := rBytes + sent;
      }
      if rBytes >= h.length {
        rState := Free;
        rBytes := 0;
      }
    }
  }
}
