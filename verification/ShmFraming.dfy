/** LM-SHM messages over a local socket: a header and a body, received in any number of pieces. */
module ShmFraming {
  import opened Wire
  import opened InetHandler
  import opened Seqs

  datatype Status = Pending | RecvWaitHdr | RecvWaitBdy | Success | Fail | LengthError

  /** sizeof(Header): request id, type, status and length. */
  const HDR: nat := 24

  function ShmHeader(reqId: nat, length: nat): (h: seq<byte>)
    ensures |h| == HDR
  {
    Le(reqId, 8) + Le(0, 4) + Le(0, 4) + Le(length, 8)
  }

  function BodyLength(hdrbuf: seq<byte>): nat
    requires |hdrbuf| == HDR
  {
    FromLe(hdrbuf[16..])
  }

  function Frame(reqId: nat, body: seq<byte>): seq<byte> { ShmHeader(reqId, |body|) + body }

  lemma HeaderTellsLength(reqId: nat, length: nat)
    requires length < U64
    ensures BodyLength(ShmHeader(reqId, length)) == length
  {
    Pow256Values();
    LeRoundTrip(length, 8);
    assert ShmHeader(reqId, length)[16..] == Le(length, 8);
  }

  /** The four fields of the header, in their places: the id of the send, its type and status, which are 0 for a send
      that is pending, and the length of the body. */
  lemma HeaderFields(reqId: nat, length: nat)
    requires reqId < U64 && length < U64
    ensures var h := ShmHeader(reqId, length);
            && |h| == 24 && FromLe(h[..8]) == reqId && h[8..12] == [0, 0, 0, 0] && h[12..16] == [0, 0, 0, 0]
            && FromLe(h[16..24]) == length
  {
    hide Le, FromLe;
    Pow256Values();
    LeRoundTrip(reqId, 8);
    LeRoundTrip(length, 8);
    LeZero();
    Parts(Le(reqId, 8), Le(0, 4), Le(0, 4), Le(length, 8));
  }

  /** The four fields can be cut out of the header again. */
  lemma Parts(a: seq<byte>, b: seq<byte>, c: seq<byte>, d: seq<byte>)
    requires |a| == |d| == 8 && |b| == |c| == 4
    ensures var h := a + b + c + d; |h| == 24 && h[..8] == a && h[8..12] == b && h[12..16] == c && h[16..24] == d
  {
  }

  lemma LeZero()
    ensures Le(0, 4) == [0, 0, 0, 0]
  {
    assert Le(0, 1) == [0] && Le(0, 2) == [0, 0] && Le(0, 3) == [0, 0, 0];
  }

  /** A receive request: where it stands, the process memory it writes, the bytes that have arrived and are unread,
      and the ids in the request queue. */
  datatype Rx = Rx(status: Status, hdrbuf: seq<byte>, accBuf: nat, acc: nat, mem: seq<byte>, wire: seq<byte>,
    queue: seq<nat>)

  predicate Shaped(r: Rx) { |r.hdrbuf| == HDR && r.accBuf <= HDR }

  /** How many bytes the next receive call asks for. */
  function Want(r: Rx): nat {
    if !Shaped(r) then 0
    else if r.status == RecvWaitHdr then HDR - r.accBuf
    else if BodyLength(r.hdrbuf) >= r.acc then BodyLength(r.hdrbuf) - r.acc
    else 0
  }

  /** What the kernel may answer when bytes are there: an error, or at least one byte if any are wanted. */
  predicate KernelMay(r: Rx, n: int) {
    n == -1 || (0 <= n <= Want(r) && n <= |r.wire| && (Want(r) > 0 && r.wire != [] ==> n > 0))
  }

  /** One attempt to receive: 0 when nothing went wrong, whether or not anything came. */
  function SubmitRecv(r: Rx, addr: nat, n: int): (Rx, int)
    requires Shaped(r) && KernelMay(r, n)
  {
    if r.wire == [] then (r, 0)
    else if r.status == RecvWaitHdr then
      if n == -1 then (r, -1)
      else
        var t := r.(hdrbuf := Store(r.hdrbuf, r.accBuf, r.wire[..n]), accBuf := r.accBuf + n, wire := r.wire[n..]);
        (if t.accBuf == HDR then t.(status := RecvWaitBdy) else t, 0)
    else if r.status == RecvWaitBdy then
      if n == -1 then (r, -1)
      else (r.(mem := Store(r.mem, addr + r.acc, r.wire[..n]), acc := r.acc + n, wire := r.wire[n..]), 0)
    else (r, -1)
  }

  predicate Whole(r: Rx)
    requires Shaped(r)
  {
    r.acc == BodyLength(r.hdrbuf) && r.acc > 0
  }

  /** One look for the completion of request `id`. A look that receives the last byte still answers "not yet". */
  function GetComp(r: Rx, id: nat, addr: nat, length: nat, n: int): (Rx, int)
    requires Shaped(r) && KernelMay(r, n)
  {
    if Whole(r) then
      (r.(status := if BodyLength(r.hdrbuf) == length then Success else LengthError, queue := Without(r.queue, id)), 0)
    else
      var (t, ret) := SubmitRecv(r, addr, n);
      if ret == -1 then (t.(status := Fail, queue := Without(t.queue, id)), 0) else (t, -1)
  }

  // ---------------------------------------------------------------- the request in place

  class ShmRequest {
    const reqId: nat
    const addr: nat
    const length: nat
    const mem: array<byte>
    const hdrbuf: array<byte>
    var status: Status
    var accBufLength: nat
    var accLength: nat
    var wire: seq<byte>
    var queue: seq<nat>

    ghost predicate Valid()
      reads this, mem, hdrbuf
    {
      mem != hdrbuf && Shaped(View())
    }

    function View(): Rx
      reads this, mem, hdrbuf
    {
      Rx(status, hdrbuf[..], accBufLength, accLength, mem[..], wire, queue)
    }

    method LengthInHeader() returns (n: nat)
      requires Valid()
      ensures n == BodyLength(hdrbuf[..])
    {
      n := 0;
      for i := 0 to 8
        invariant n == FromLe(hdrbuf[24 - i..])
      {
        n := hdrbuf[23 - i] as nat + 256 * n;
        assert hdrbuf[23 - i..][1..] == hdrbuf[24 - i..];
      }
    }

    method SubmitRecvNow(n: int) returns (ret: int)
      requires Valid() && KernelMay(View(), n)
      modifies this, mem, hdrbuf
      ensures Valid() && (View(), ret) == SubmitRecv(old(View()), addr, n)
    {
      ret := 0;
      if wire != [] {
        match status
        case RecvWaitHdr =>
          if n == -1 {
            return -1;
          }
          CopyIn(hdrbuf, accBufLength, wire[..n]);
          wire := wire[n..];
          accBufLength := accBufLength + n;
          if accBufLength == HDR {
            status := RecvWaitBdy;
          }
        case RecvWaitBdy =>
          if n == -1 {
            return -1;
          }
          CopyIn(mem, addr + accLength, wire[..n]);
          wire := wire[n..];
          accLength := accLength + n;
        case _ => return -1;
      }
    }

    method RemoveReqQueueEntry()
      requires reqId in queue
      modifies this`queue
      ensures queue == Without(old(queue), reqId)
    {
      var i := 0;
      while queue[i] != reqId
        invariant 0 <= i < |queue| && reqId in queue[i..] && reqId !in queue[..i]
        decreases |queue| - i
      {
        i := i + 1;
      }
      WithoutAt(queue, reqId, i);
      queue := queue[..i] + queue[i + 1..];
    }

    method GetCompNow(n: int) returns (ret: int)
      requires Valid() && KernelMay(View(), n) && reqId in queue
      modifies this, mem, hdrbuf
      ensures Valid() && (View(), ret) == GetComp(old(View()), reqId, addr, length, n)
    {
      var hlen := LengthInHeader();
      if accLength == hlen && accLength > 0 && hlen > 0 {
        status := if hlen == length then Success else LengthError;
        RemoveReqQueueEntry();
        return 0;
      }
      ret := SubmitRecvNow(n);
      if ret == -1 {
        status := Fail;
        RemoveReqQueueEntry();
        return 0;
      }
      return -1;
    }

    /** Waiting when the whole frame has arrived and the kernel makes no error, however it hands out the bytes. */
    method WaitComp(sid: nat, body: seq<byte>, rest: seq<byte>)
      requires Valid() && View() == Fresh(mem[..], Frame(sid, body) + rest, queue) && reqId in queue
      requires 0 < |body| < U64 && addr + |body| <= mem.Length
      modifies this, mem, hdrbuf
      ensures status == if |body| == length then Success else LengthError
      ensures mem[..] == Store(old(mem[..]), addr, body) && wire == rest && queue == Without(old(queue), reqId)
    {
      hide InStep, Frame, Fresh, GetComp, KernelMay, Whole;
      ghost var mem0 := mem[..];
      var ret := -1;
      Starts(mem0, addr, sid, body, rest, queue);
      while ret != 0
        invariant Valid()
        invariant ret != 0 ==> InStep(View(), mem0, addr, sid, body, rest, []) && queue == old(queue)
        invariant ret == 0 ==> Ended(View(), mem0, addr, length, body, rest) && queue == Without(old(queue), reqId)
        decreases if ret == 0 then 0 else 1, |wire|
      {
        KernelCan(View());
        var n: int :| n >= 0 && KernelMay(View(), n);
        LookOn(View(), mem0, addr, reqId, sid, length, body, rest, [], n);
        LookShortens(View(), mem0, addr, reqId, sid, length, body, rest, n);
        ghost var before := View();
        ret := GetCompNow(n);
        assert Whole(before) || |wire| < |before.wire|;
      }
      assert Ended(View(), mem0, addr, length, body, rest);
    }
  }

  // ---------------------------------------------------------------- alignment

  function Zeros(): (z: seq<byte>)
    ensures |z| == HDR
  {
    seq(HDR, _ => 0)
  }

  /** A request as it is submitted. */
  function Fresh(mem: seq<byte>, wire: seq<byte>, queue: seq<nat>): Rx {
    Rx(RecvWaitHdr, Zeros(), 0, 0, mem, wire, queue)
  }

  /** The request has consumed some whole prefix of its frame and put it where it belongs; `todo` has not arrived yet.
      */
  predicate InStep(r: Rx, mem0: seq<byte>, addr: nat, sid: nat, body: seq<byte>, rest: seq<byte>, todo: seq<byte>) {
    Shaped(r) && r.acc <= |body|
    && r.hdrbuf[..r.accBuf] == ShmHeader(sid, |body|)[..r.accBuf]
    && r.mem == Store(mem0, addr, body[..r.acc])
    && r.wire + todo == ShmHeader(sid, |body|)[r.accBuf..] + body[r.acc..] + rest
    && (r.accBuf < HDR ==> r.status == RecvWaitHdr && r.acc == 0)
    && (r.accBuf == HDR ==> r.status == RecvWaitBdy)
  }

  /** Exactly one frame is gone from the stream, its body is in memory, and the status compares the lengths. */
  predicate Ended(r: Rx, mem0: seq<byte>, addr: nat, length: nat, body: seq<byte>, left: seq<byte>) {
    r.status == (if |body| == length then Success else LengthError)
    && r.mem == Store(mem0, addr, body) && r.wire == left
  }

  lemma Starts(mem0: seq<byte>, addr: nat, sid: nat, body: seq<byte>, rest: seq<byte>, queue: seq<nat>)
    ensures InStep(Fresh(mem0, Frame(sid, body) + rest, queue), mem0, addr, sid, body, rest, [])
  {
    assert Store(mem0, addr, []) == mem0;
  }

  lemma KernelCan(r: Rx)
    ensures exists n :: n >= 0 && KernelMay(r, n)
  {
    var n := if Want(r) <= |r.wire| then Want(r) else |r.wire|;
    assert n >= 0 && KernelMay(r, n);
  }

  /** Cutting the first piece of an expected stream off what has arrived. */
  lemma Cut(wire: seq<byte>, todo: seq<byte>, want: seq<byte>, more: seq<byte>, n: nat)
    requires wire + todo == want + more && n <= |wire| && n <= |want|
    ensures wire[..n] == want[..n] && wire[n..] + todo == want[n..] + more
  {
    assert wire[..n] == (wire + todo)[..n] == (want + more)[..n];
    assert wire[n..] + todo == (wire + todo)[n..] == (want + more)[n..];
  }

  lemma HeaderKnown(r: Rx, mem0: seq<byte>, addr: nat, sid: nat, body: seq<byte>, rest: seq<byte>, todo: seq<byte>)
    requires InStep(r, mem0, addr, sid, body, rest, todo) && |body| < U64
    ensures r.accBuf == HDR ==> BodyLength(r.hdrbuf) == |body|
    ensures Whole(r) <==> r.accBuf == HDR && r.acc == |body| && |body| > 0
  {
    HeaderTellsLength(sid, |body|);
    assert r.hdrbuf[..HDR] == r.hdrbuf && ShmHeader(sid, |body|)[..HDR] == ShmHeader(sid, |body|);
  }

  lemma HeaderOn(r: Rx, mem0: seq<byte>, addr: nat, sid: nat, body: seq<byte>, rest: seq<byte>, todo: seq<byte>, n: nat)
    requires InStep(r, mem0, addr, sid, body, rest, todo) && r.accBuf < HDR && n <= HDR - r.accBuf && n <= |r.wire|
    requires KernelMay(r, n) && r.wire != []
    ensures InStep(SubmitRecv(r, addr, n).0, mem0, addr, sid, body, rest, todo)
  {
    hide ShmHeader;
    var h := ShmHeader(sid, |body|);
    var t := SubmitRecv(r, addr, n).0;
    assert h[r.accBuf..] + body[r.acc..] + rest == h[r.accBuf..] + (body + rest);
    Cut(r.wire, todo, h[r.accBuf..], body + rest, n);
    assert h[r.accBuf..][n..] == h[t.accBuf..];
    assert h[t.accBuf..] + body[t.acc..] + rest == h[t.accBuf..] + (body + rest);
    assert t.hdrbuf[..t.accBuf] == r.hdrbuf[..r.accBuf] + r.wire[..n];
    assert h[..t.accBuf] == h[..r.accBuf] + h[r.accBuf..][..n];
  }

  lemma BodyOn(r: Rx, mem0: seq<byte>, addr: nat, sid: nat, body: seq<byte>, rest: seq<byte>, todo: seq<byte>, n: nat)
    requires InStep(r, mem0, addr, sid, body, rest, todo) && r.accBuf == HDR && n <= |body| - r.acc && n <= |r.wire|
    requires KernelMay(r, n) && r.wire != [] && addr + |body| <= |mem0|
    ensures InStep(SubmitRecv(r, addr, n).0, mem0, addr, sid, body, rest, todo)
  {
    hide ShmHeader, Store;
    var h := ShmHeader(sid, |body|);
    var t := SubmitRecv(r, addr, n).0;
    assert h[HDR..] == [];
    Cut(r.wire, todo, body[r.acc..], rest, n);
    assert body[r.acc..][n..] == body[t.acc..];
    assert body[..t.acc] == body[..r.acc] + body[r.acc..][..n];
    StoreJoin(mem0, addr, body[..r.acc], r.wire[..n]);
  }

  /** One look: the request stays in step, or ends. */
  lemma LookOn(r: Rx, mem0: seq<byte>, addr: nat, id: nat, sid: nat, length: nat, body: seq<byte>, rest: seq<byte>,
          todo: seq<byte>, n: int)
    requires InStep(r, mem0, addr, sid, body, rest, todo) && |body| < U64 && addr + |body| <= |mem0| && KernelMay(r, n)
    ensures var (t, ret) := GetComp(r, id, addr, length, n);
            if ret == -1 then InStep(t, mem0, addr, sid, body, rest, todo) && t.queue == r.queue
            else
              ret == 0 && t.queue == Without(r.queue, id)
              && if Whole(r) then t.wire + todo == rest && Ended(t, mem0, addr, length, body, t.wire)
                 else n == -1 && t == r.(status := Fail, queue := t.queue)
  {
    hide ShmHeader, Store, BodyLength;
    HeaderKnown(r, mem0, addr, sid, body, rest, todo);
    if Whole(r) {
      assert ShmHeader(sid, |body|)[HDR..] == [] && body[r.acc..] == [] && body[..r.acc] == body;
    } else if r.wire != [] && n != -1 {
      if r.accBuf < HDR {
        HeaderOn(r, mem0, addr, sid, body, rest, todo, n);
      } else {
        BodyOn(r, mem0, addr, sid, body, rest, todo, n);
      }
    }
  }

  /** A look at a request that waits for nothing, while bytes are there, ends it as failed and reads nothing. */
  lemma StrayLook(r: Rx, id: nat, addr: nat, length: nat, n: int)
    requires Shaped(r) && KernelMay(r, n) && !Whole(r) && r.wire != []
    requires r.status != RecvWaitHdr && r.status != RecvWaitBdy
    ensures GetComp(r, id, addr, length, n) == (r.(status := Fail, queue := Without(r.queue, id)), 0)
  {
    hide BodyLength;
  }

  /** As long as the frame is incomplete, a look without error takes some of it off the stream. */
  lemma LookShortens(r: Rx, mem0: seq<byte>, addr: nat, id: nat, sid: nat, length: nat, body: seq<byte>,
          rest: seq<byte>, n: nat)
    requires InStep(r, mem0, addr, sid, body, rest, []) && 0 < |body| < U64 && KernelMay(r, n)
    ensures !Whole(r) ==> |GetComp(r, id, addr, length, n).0.wire| < |r.wire|
    ensures Whole(r) ==> GetComp(r, id, addr, length, n).1 == 0
  {
    hide BodyLength, ShmHeader;
    HeaderKnown(r, mem0, addr, sid, body, rest, []);
    assert r.wire + [] == r.wire;
  }

  // ---------------------------------------------------------------- every run

  /** Bytes arrive from the peer, or the process looks for its completion and the kernel answers `n`. */
  datatype Event = Arrive(count: nat) | Look(n: int)

  /** `todo` has not arrived yet; `looks` counts the looks that answered with a completion. */
  datatype Watch = Watch(r: Rx, todo: seq<byte>, looks: nat)

  predicate Possible(w: Watch, e: Event) {
    match e
    case Arrive(n) => n <= |w.todo|
    case Look(n) => w.looks == 0 && Shaped(w.r) && KernelMay(w.r, n)
  }

  function After(w: Watch, e: Event, id: nat, addr: nat, length: nat): Watch
    requires Possible(w, e)
  {
    match e
    case Arrive(n) => Watch(w.r.(wire := w.r.wire + w.todo[..n]), w.todo[n..], w.looks)
    case Look(n) => var (t, ret) := GetComp(w.r, id, addr, length, n); Watch(t, w.todo, if ret == 0 then 1 else 0)
  }

  predicate CanWatch(w: Watch, es: seq<Event>, id: nat, addr: nat, length: nat)
    decreases |es|
  {
    es == [] || (Possible(w, es[0]) && CanWatch(After(w, es[0], id, addr, length), es[1..], id, addr, length))
  }

  function Watched(w: Watch, es: seq<Event>, id: nat, addr: nat, length: nat): Watch
    requires CanWatch(w, es, id, addr, length)
    decreases |es|
  {
    if es == [] then w else Watched(After(w, es[0], id, addr, length), es[1..], id, addr, length)
  }

  predicate NoErrors(es: seq<Event>) { forall i :: 0 <= i < |es| ==> es[i] != Look(-1) }

  /** Before the completion the request is in step and still queued; at the completion one frame is gone from the
      stream, not a byte more, and the request has left the queue once. */
  predicate Aligned(w: Watch, queue: seq<nat>, mem0: seq<byte>, id: nat, sid: nat, addr: nat, length: nat,
          body: seq<byte>, rest: seq<byte>) {
    if w.looks == 0 then InStep(w.r, mem0, addr, sid, body, rest, w.todo) && w.r.queue == queue
    else
      w.looks == 1 && w.r.queue == Without(queue, id) && body != [] && w.r.wire + w.todo == rest
      && Ended(w.r, mem0, addr, length, body, w.r.wire)
  }

  lemma EventAligned(w: Watch, e: Event, queue: seq<nat>, mem0: seq<byte>, id: nat, sid: nat, addr: nat, length: nat,
          body: seq<byte>, rest: seq<byte>)
    requires Aligned(w, queue, mem0, id, sid, addr, length, body, rest) && Possible(w, e) && e != Look(-1)
    requires |body| < U64 && addr + |body| <= |mem0|
    ensures Aligned(After(w, e, id, addr, length), queue, mem0, id, sid, addr, length, body, rest)
  {
    hide ShmHeader, Store, BodyLength, GetComp;
    match e
    case Arrive(n) =>
      assert w.todo == w.todo[..n] + w.todo[n..];
      assert (w.r.wire + w.todo[..n]) + w.todo[n..] == w.r.wire + w.todo;
    case Look(n) =>
      LookOn(w.r, mem0, addr, id, sid, length, body, rest, w.todo, n);
      HeaderKnown(w.r, mem0, addr, sid, body, rest, w.todo);
  }

  /** However the bytes arrive and however the kernel hands them out, the receiver keeps frame alignment. */
  lemma {:induction false} RunAligned(w: Watch, es: seq<Event>, queue: seq<nat>, mem0: seq<byte>, id: nat, sid: nat,
          addr: nat, length: nat, body: seq<byte>, rest: seq<byte>)
    requires Aligned(w, queue, mem0, id, sid, addr, length, body, rest) && CanWatch(w, es, id, addr, length)
             && NoErrors(es)
    requires |body| < U64 && addr + |body| <= |mem0|
    ensures Aligned(Watched(w, es, id, addr, length), queue, mem0, id, sid, addr, length, body, rest)
    decreases |es|
  {
    hide Aligned, After, Possible;
    if es != [] {
      EventAligned(w, es[0], queue, mem0, id, sid, addr, length, body, rest);
      RunAligned(After(w, es[0], id, addr, length), es[1..], queue, mem0, id, sid, addr, length, body, rest);
    }
  }

  /** A receive submitted at the start of a frame: nothing has arrived yet. */
  function Submitted(mem0: seq<byte>, sid: nat, body: seq<byte>, rest: seq<byte>, queue: seq<nat>): Watch {
    Watch(Fresh(mem0, [], queue), Frame(sid, body) + rest, 0)
  }

  lemma FrameAlignment(es: seq<Event>, queue: seq<nat>, mem0: seq<byte>, id: nat, sid: nat, addr: nat, length: nat,
          body: seq<byte>, rest: seq<byte>)
    requires CanWatch(Submitted(mem0, sid, body, rest, queue), es, id, addr, length) && NoErrors(es)
    requires |body| < U64 && addr + |body| <= |mem0|
    ensures Aligned(Watched(Submitted(mem0, sid, body, rest, queue), es, id, addr, length),
                    queue, mem0, id, sid, addr, length, body, rest)
  {
    hide ShmHeader, CanWatch, Watched;
    var w := Submitted(mem0, sid, body, rest, queue);
    assert Store(mem0, addr, []) == mem0;
    assert [] + w.todo == w.todo;
    RunAligned(w, es, queue, mem0, id, sid, addr, length, body, rest);
  }

  /** With an empty body no run ever completes without an error. */
  lemma EmptyNeverCompletes(es: seq<Event>, queue: seq<nat>, mem0: seq<byte>, id: nat, sid: nat, addr: nat,
          length: nat, rest: seq<byte>)
    requires CanWatch(Submitted(mem0, sid, [], rest, queue), es, id, addr, length) && NoErrors(es) && addr <= |mem0|
    ensures Watched(Submitted(mem0, sid, [], rest, queue), es, id, addr, length).looks == 0
  {
    FrameAlignment(es, queue, mem0, id, sid, addr, length, [], rest);
  }

  lemma OneMore(w: Watch, e: Event, es: seq<Event>, id: nat, addr: nat, length: nat)
    requires Possible(w, e) && CanWatch(After(w, e, id, addr, length), es, id, addr, length)
    ensures CanWatch(w, [e] + es, id, addr, length)
    ensures Watched(w, [e] + es, id, addr, length) == Watched(After(w, e, id, addr, length), es, id, addr, length)
  {
    assert ([e] + es)[1..] == es;
  }

  /** The shortest run: everything arrives, and three looks take the header, the body and the completion. */
  lemma ShortestRun(queue: seq<nat>, mem0: seq<byte>, id: nat, sid: nat, addr: nat, length: nat, body: seq<byte>,
          rest: seq<byte>)
    returns (es: seq<Event>)
    requires 0 < |body| < U64
    ensures var w := Submitted(mem0, sid, body, rest, queue);
            NoErrors(es) && CanWatch(w, es, id, addr, length) && Watched(w, es, id, addr, length).looks == 1
  {
    hide ShmHeader, BodyLength, Store, CanWatch, Watched;
    var w, h := Submitted(mem0, sid, body, rest, queue), ShmHeader(sid, |body|);
    HeaderTellsLength(sid, |body|);
    var w1 := After(w, Arrive(HDR + |body|), id, addr, length);
    assert w.todo[..HDR + |body|] == h + body && [] + (h + body) == h + body;
    assert w1.r.wire == h + body && !Whole(w1.r);
    var w2 := After(w1, Look(HDR), id, addr, length);
    assert (h + body)[..HDR] == h && (h + body)[HDR..] == body;
    assert w2.r.hdrbuf == h by { HeaderStored(h); }
    var w3 := After(w2, Look(|body|), id, addr, length);
    assert w3.looks == 0 && w3.r.acc == |body| && Whole(w3.r);
    var w4 := After(w3, Look(0), id, addr, length);
    NothingMore(w4, id, addr, length);
    OneMore(w3, Look(0), [], id, addr, length);
    OneMore(w2, Look(|body|), [Look(0)] + [], id, addr, length);
    OneMore(w1, Look(HDR), [Look(|body|)] + ([Look(0)] + []), id, addr, length);
    es := [Arrive(HDR + |body|)] + ([Look(HDR)] + ([Look(|body|)] + ([Look(0)] + [])));
    OneMore(w, Arrive(HDR + |body|), [Look(HDR)] + ([Look(|body|)] + ([Look(0)] + [])), id, addr, length);
  }

  lemma HeaderStored(h: seq<byte>)
    requires |h| == HDR
    ensures Store(Zeros(), 0, h) == h
  {
  }

  lemma NothingMore(w: Watch, id: nat, addr: nat, length: nat)
    ensures CanWatch(w, [], id, addr, length) && Watched(w, [], id, addr, length) == w
  {
  }

  /** A message can complete without an error exactly when it is not empty. */
  lemma CompletesExactly(queue: seq<nat>, mem0: seq<byte>, id: nat, sid: nat, addr: nat, length: nat, body: seq<byte>,
          rest: seq<byte>)
    requires |body| < U64 && addr + |body| <= |mem0|
    ensures var w := Submitted(mem0, sid, body, rest, queue);
            (exists es :: NoErrors(es) && CanWatch(w, es, id, addr, length)
                          && Watched(w, es, id, addr, length).looks == 1)
            <==> body != []
  {
    hide CanWatch, Watched, NoErrors;
    if body != [] {
      var es := ShortestRun(queue, mem0, id, sid, addr, length, body, rest);
    } else {
      var w := Submitted(mem0, sid, body, rest, queue);
      forall es | NoErrors(es) && CanWatch(w, es, id, addr, length)
        ensures Watched(w, es, id, addr, length).looks == 0
      {
        EmptyNeverCompletes(es, queue, mem0, id, sid, addr, length, rest);
      }
    }
  }

  // ---------------------------------------------------------------- sending

  /** Both parts are sent with one call each; a call may stop early, and then the send fails with what went out
      still on the stream. `h` and `b` are the kernel's answers. */
  method SubmitSend(out: seq<byte>, reqId: nat, body: seq<byte>, h: nat, b: nat) returns (ret: int, out': seq<byte>)
    requires h <= HDR && b <= |body|
    ensures ret == if h == HDR && b == |body| then 0 else -1
    ensures ret == 0 ==> out' == out + Frame(reqId, body)
    ensures out <= out' && out' <= out + Frame(reqId, body)
    ensures |out'| == |out| + h + if h == HDR then b else 0
  {
    hide ShmHeader;
    var hdr := ShmHeader(reqId, |body|);
    out' := out + hdr[..h];
    if h != HDR {
      CutShort(out, hdr, body, h, 0);
      return -1, out';
    }
    out' := out' + body[..b];
    CutShort(out, hdr, body, h, b);
    ret := if b != |body| then -1 else 0;
  }

  /** What went out of the two parts. */
  lemma CutShort(out: seq<byte>, hdr: seq<byte>, body: seq<byte>, h: nat, b: nat)
    requires h <= |hdr| && b <= |body|
    ensures out <= out + hdr[..h] <= out + (hdr + body)
    ensures h == |hdr| ==> out + hdr[..h] + body[..b] <= out + (hdr + body)
    ensures h == |hdr| && b == |body| ==> out + hdr[..h] + body[..b] == out + (hdr + body)
  {
    assert out + (hdr + body) == (out + hdr[..h]) + (hdr[h..] + body);
    if h == |hdr| {
      assert out + (hdr + body) == (out + hdr[..h] + body[..b]) + body[b..];
    }
  }
}
