/** Two LM-INET handlers joined by two byte streams.

    One transition is one handler step on one side, or one act of the program that uses it;
    the kernel moves any number of bytes in each.  Both sides run the same code, so every
    definition is given for side `a` and `Flip` exchanges the sides. */
module InetNet {
  import opened Wire
  import opened InetEndpoint

  // ---------------------------------------------------------------- streams

  /** What one side writes: framed requests, and the bare bytes that answer a RemRd. */
  datatype Seg = Frame(hdr: Request, body: seq<byte>) | Reply(data: seq<byte>)

  function SegBytes(s: Seg): seq<byte> {
    match s
    case Frame(h, b) => Encode(h) + b
    case Reply(d) => d
  }

  function Flat(ss: seq<Seg>): seq<byte> {
    if ss == [] then [] else SegBytes(ss[0]) + Flat(ss[1..])
  }

  lemma {:induction false} FlatSnoc(ss: seq<Seg>, s: Seg)
    ensures Flat(ss + [s]) == Flat(ss) + SegBytes(s)
  {
    if ss == [] {
      assert ([s])[1..] == [];
    } else {
      FlatSnoc(ss[1..], s);
      assert (ss + [s])[1..] == ss[1..] + [s];
    }
  }

  /** One direction of a connection.  `wire` is every byte written so far and `flight` the
      part not yet read.  The rest is history: the segments fully read (`seen`), those fully
      written but not fully read (`todo`), the bytes written of the segment in progress
      (`cur`), and how many bytes of the oldest unread segment were read (`part`). */
  datatype Pipe = Pipe(wire: seq<byte>, flight: seq<byte>, seen: seq<Seg>, todo: seq<Seg>, cur: seq<byte>, part: nat)

  const EMPTY_PIPE: Pipe := Pipe([], [], [], [], [], 0)

  function Log(p: Pipe): (r: seq<Seg>)
    ensures |r| == |p.seen| + |p.todo|
  {
    p.seen + p.todo
  }

  function Line(p: Pipe): seq<byte> { Flat(p.todo) + p.cur }

  function Push(p: Pipe, out: seq<byte>): Pipe {
    p.(wire := p.wire + out, flight := p.flight + out, cur := p.cur + out)
  }

  function Seal(p: Pipe, s: Seg): Pipe {
    p.(todo := p.todo + [s], cur := [])
  }

  function Pull(p: Pipe, n: nat): Pipe
    requires n <= |p.flight|
  {
    p.(flight := p.flight[n..], part := p.part + n)
  }

  function Accept(p: Pipe): Pipe {
    if p.todo == [] then p else p.(seen := p.seen + [p.todo[0]], todo := p.todo[1..], part := 0)
  }

  /** Framing: what was written is whole segments and a prefix of the next; what is unread is its tail. */
  ghost predicate PipeOk(p: Pipe) {
    && p.wire == Flat(Log(p)) + p.cur
    && p.part <= |Line(p)|
    && p.flight == Line(p)[p.part..]
    && (p.todo != [] ==> p.part <= |SegBytes(p.todo[0])|)
  }

  lemma PushOk(p: Pipe, out: seq<byte>)
    requires PipeOk(p)
    ensures PipeOk(Push(p, out)) && Line(Push(p, out)) == Line(p) + out
  {
    hide Encode, Flat;
    assert Line(Push(p, out)) == Line(p) + out;
    assert p.wire + out == Flat(Log(p)) + (p.cur + out);
  }

  lemma SealOk(p: Pipe, s: Seg)
    requires PipeOk(p) && p.cur == SegBytes(s)
    ensures PipeOk(Seal(p, s)) && Line(Seal(p, s)) == Line(p)
  {
    FlatSnoc(p.todo, s);
    FlatSnoc(Log(p), s);
    assert Log(Seal(p, s)) == Log(p) + [s];
  }

  lemma PullOk(p: Pipe, n: nat)
    requires PipeOk(p) && n <= |p.flight|
    requires p.todo != [] ==> p.part + n <= |SegBytes(p.todo[0])|
    ensures PipeOk(Pull(p, n)) && Line(Pull(p, n)) == Line(p) && Log(Pull(p, n)) == Log(p)
    ensures p.flight[..n] == Line(p)[p.part..p.part + n]
  {
  }

  lemma AcceptOk(p: Pipe)
    requires PipeOk(p) && p.todo != [] && p.part == |SegBytes(p.todo[0])|
    ensures PipeOk(Accept(p)) && Log(Accept(p)) == Log(p)
    ensures Line(p) == SegBytes(p.todo[0]) + Line(Accept(p))
  {
    assert Log(Accept(p)) == Log(p);
    assert Line(p) == SegBytes(p.todo[0]) + Line(Accept(p));
  }

  // ---------------------------------------------------------------- the system

  datatype Net = Net(a: Endpoint, b: Endpoint, ab: Pipe, ba: Pipe)

  function Flip(s: Net): Net { Net(s.b, s.a, s.ba, s.ab) }

  function Init(memA: seq<byte>, memB: seq<byte>): Net {
    Net(Fresh(memA), Fresh(memB), EMPTY_PIPE, EMPTY_PIPE)
  }

  function BodyLength(r: Request): nat {
    if r.kind.Send? || r.kind.RemWr? then r.length else 0
  }

  /** The request this side has outstanding, submitted or in the handler. */
  function Active(e: Endpoint): Option<Request> {
    if e.lreq.Some? then e.lreq else if e.queue != [] then Some(e.queue[0]) else None
  }

  predicate Reads(e: Endpoint) {
    Active(e).Some? && Active(e).value.kind.RemRd? && Active(e).value.length > 0
  }

  predicate Talks(e: Endpoint) {
    Active(e).Some? && Outgoing(Active(e).value.kind)
  }

  /** What the interface asks of a requester: a well-formed request on its own memory and, for
      one-sided requests, on the peer's; nothing else outstanding; and around a RemRd no traffic
      from the side that has to answer it. */
  predicate MaySubmit(s: Net, r: Request) {
    && Representable(r) && !r.kind.Other? && r.status == PENDING
    && r.addr + r.length <= |s.a.mem|
    && (r.kind.RemWr? || r.kind.RemRd? ==> r.remAddr + r.length <= |s.b.mem|)
    && s.a.queue == [] && s.a.lreq.None?
    && (Outgoing(r.kind) ==> !Reads(s.b))
    && (r.kind.RemRd? && r.length > 0 ==>
          !Talks(s.b) && s.ba.flight == [] && s.a.rphase in {Free, Header} && s.a.rbytes == 0)
  }

  datatype Action =
    | Submit(r: Request)
    | Fetch
    | Drive(n: nat)
    | Input(n: nat)
    | Output(n: nat)
    | AppWrite(addr: nat, data: seq<byte>)

  predicate Shaped(e: Endpoint) {
    |e.preq| == HEADER && (e.lreq.None? <==> e.lphase == Free)
  }

  predicate AwaitsReply(e: Endpoint) {
    e.lreq.Some? && e.lreq.value.kind.RemRd? && e.lphase == Auto
  }

  /** Side `a` can take the step, with the kernel moving that many bytes.  Input is reported
      only while it is polled for and something is readable. */
  predicate Enabled(s: Net, act: Action) {
    Shaped(s.a)
    && match act
       case Submit(r) => MaySubmit(s, r)
       case Fetch => s.a.queue != []
       case Drive(n) =>
         && s.a.lreq.Some?
         && (if s.a.lreq.value.kind.Recv? then n == 0
             else if AwaitsReply(s.a) then s.a.lbytes + n <= s.a.lreq.value.length && n <= |s.ba.flight|
             else n <= |Offer(s.a)|)
       case Input(n) =>
         && s.a.pollIn && s.ba.flight != [] && n <= |s.ba.flight|
         && Demand(s.a).Some? && n <= Demand(s.a).value
       case Output(n) => s.a.rphase == Auto && n <= |ReplyOffer(s.a)|
       case AppWrite(addr, data) => addr + |data| <= |s.a.mem|
  }

  /** The written bytes join the stream; a frame is sealed with its last byte. */
  function Framed(p: Pipe, r: Request, out: seq<byte>): Pipe {
    var q := Push(p, out);
    if |q.cur| == HEADER + BodyLength(r) then Seal(q, Frame(r, q.cur[HEADER..])) else q
  }

  function Driven(s: Net, n: nat): Net
    requires Enabled(s, Drive(n))
  {
    var r := s.a.lreq.value;
    if r.kind.Recv? then s.(a := PostRecv(s.a))
    else if AwaitsReply(s.a) then
      var a := TakeReply(s.a, s.ba.flight[..n]);
      var p := Pull(s.ba, n);
      s.(a := a, ba := if a.lreq.None? && r.length > 0 then Accept(p) else p)
    else
      s.(a := Written(s.a, n), ab := Framed(s.ab, r, Offer(s.a)[..n]))
  }

  function Inputted(s: Net, n: nat): Net
    requires Enabled(s, Input(n))
  {
    var a := Arrived(s.a, s.ba.flight[..n]);
    var p := Pull(s.ba, n);
    s.(a := a, ba := if a.rphase in {Free, Auto} then Accept(p) else p)
  }

  function Outputted(s: Net, n: nat): Net
    requires Enabled(s, Output(n))
  {
    var a := Replied(s.a, n);
    var p := Push(s.ab, ReplyOffer(s.a)[..n]);
    s.(a := a, ab := if a.rphase == Free && PeerHeader(s.a).length > 0 then Seal(p, Reply(p.cur)) else p)
  }

  function Next(s: Net, act: Action): Net
    requires Enabled(s, act)
  {
    match act
    case Submit(r) => s.(a := s.a.(queue := s.a.queue + [r]))
    case Fetch => s.(a := Retrieve(s.a))
    case Drive(n) => Driven(s, n)
    case Input(n) => Inputted(s, n)
    case Output(n) => Outputted(s, n)
    case AppWrite(addr, data) => s.(a := s.a.(mem := Store(s.a.mem, addr, data)))
  }

  // ---------------------------------------------------------------- the invariant

  /** Frames hold requests a requester may submit, with bodies of the announced length. */
  predicate SegOk(g: Seg, memory: nat) {
    g.Frame? ==>
      && Representable(g.hdr) && Outgoing(g.hdr.kind) && |g.body| == BodyLength(g.hdr)
      && (g.hdr.kind.Send? || g.hdr.remAddr + g.hdr.length <= memory)
  }

  predicate RequestOk(r: Request, own: nat, peer: nat) {
    && Representable(r) && !r.kind.Other? && r.status == PENDING
    && r.addr + r.length <= own
    && (r.kind.RemWr? || r.kind.RemRd? ==> r.remAddr + r.length <= peer)
  }

  /** One side's own bookkeeping: byte counts stay below their limits. */
  predicate ControlOk(e: Endpoint, peer: nat) {
    && Shaped(e)
    && |e.queue| <= 1 && (e.lreq.Some? ==> e.queue == [])
    && (e.queue != [] ==> RequestOk(e.queue[0], |e.mem|, peer))
    && e.pollIn == (e.lphase != Auto)
    && (e.lreq.Some? ==>
          var r := e.lreq.value;
          && RequestOk(r, |e.mem|, peer)
          && (e.lphase == Header ==> e.lbytes < HEADER && (r.kind.Recv? ==> e.lbytes == 0))
          && (e.lphase == Body ==> !r.kind.RemRd? && (e.lbytes < r.length || e.lbytes == 0) && (r.kind.Recv? ==>
            e.lbytes == 0))
          && (e.lphase == Auto ==> r.kind.RemRd? && (e.lbytes < r.length || e.lbytes == 0)))
  }

  predicate Replying(e: Endpoint) {
    |e.preq| == HEADER && e.rphase == Auto && PeerHeader(e).length > 0
  }

  /** The segment in progress is what the side's state says it has written of it. */
  predicate SenderOk(e: Endpoint, out: Pipe) {
    if e.lreq.Some? && Outgoing(e.lreq.value.kind) && e.lphase == Header && e.lbytes <= HEADER then
      out.cur == Encode(e.lreq.value)[..e.lbytes]
    else if e.lreq.Some? && e.lphase == Body && BodyLength(e.lreq.value) > 0 then
      |out.cur| == HEADER + e.lbytes && out.cur[..HEADER] == Encode(e.lreq.value)
    else if Replying(e) then |out.cur| == e.rbytes
    else out.cur == []
  }

  predicate Reading(e: Endpoint) {
    AwaitsReply(e) && e.lreq.value.length > 0
  }

  /** The receiver's state is the parse of what it has read. */
  predicate ReceiverOk(e: Endpoint, inn: Pipe) {
    |e.preq| == HEADER &&
    if Reading(e) then inn.part == e.lbytes && e.rphase in {Free, Header} && e.rbytes == 0
    else
      && (forall i :: 0 <= i < |inn.todo| ==> inn.todo[i].Frame?)
      && match e.rphase
         case Free => inn.part == 0 && e.rbytes == 0
         case Header => inn.part == e.rbytes < HEADER && e.rbytes <= |Line(inn)|
           && e.preq[..e.rbytes] == Line(inn)[..e.rbytes]
         case Body =>
           var h := PeerHeader(e);
           && inn.part == HEADER + e.rbytes <= |Line(inn)| && e.preq == Line(inn)[..HEADER]
           && (h.kind.Send? || (h.kind.RemWr? && h.remAddr + h.length <= |e.mem|))
           && (e.rbytes < h.length || e.rbytes == 0)
           && (h.kind.Send? && e.rbytes > 0 ==> RecvPosted(e))
         case Auto =>
           var h := PeerHeader(e);
           && inn.part == 0 && h.kind.RemRd? && h.remAddr + h.length <= |e.mem|
           && (e.rbytes < h.length || e.rbytes == 0)
  }

  predicate Quiet(p: Pipe) { p.todo == [] && p.cur == [] && p.part == 0 }

  predicate AsksBytes(g: Seg) { g.Frame? && g.hdr.kind.RemRd? && g.hdr.length > 0 }

  /** A RemRd of side `a` that wants bytes owns the reply stream from its submission on. */
  predicate ReadOk(s: Net) {
    && (Reads(s.a) ==> !Talks(s.b))
    && (Reads(s.a) && !Reading(s.a) ==>
          Quiet(s.ba) && !Replying(s.b) && s.a.rphase in {Free, Header} && s.a.rbytes == 0)
    && (Reading(s.a) ==> Waiting(s) || Serving(s) || Served(s))
    && (Replying(s.b) ==> Reading(s.a))
    && (forall i :: 0 <= i < |s.ab.todo| && AsksBytes(s.ab.todo[i]) ==> Reading(s.a) && i == |s.ab.todo| - 1)
  }

  /** The peer has not read the RemRd header. */
  predicate Waiting(s: Net) {
    && Reading(s.a) && s.ab.todo != [] && s.ab.todo[|s.ab.todo| - 1] == Frame(s.a.lreq.value, [])
    && Quiet(s.ba) && s.a.lbytes == 0 && !Replying(s.b)
  }

  /** The peer is writing the reply. */
  predicate Serving(s: Net) {
    && Reading(s.a) && s.ab.todo == [] && Replying(s.b) && PeerHeader(s.b) == s.a.lreq.value && s.ba.todo == []
  }

  /** The reply is written out. */
  predicate Served(s: Net) {
    && |s.b.preq| == HEADER && Reading(s.a) && s.ab.todo == [] && s.b.rphase == Free
      && PeerHeader(s.b) == s.a.lreq.value
    && |s.ba.todo| == 1 && s.ba.todo[0].Reply? && |s.ba.todo[0].data| == s.a.lreq.value.length && s.ba.cur == []
  }

  /** The invariant of one direction. */
  ghost predicate Half(s: Net) {
    && ControlOk(s.a, |s.b.mem|)
    && PipeOk(s.ab)
    && (forall i :: 0 <= i < |Log(s.ab)| ==> SegOk(Log(s.ab)[i], |s.b.mem|))
    && SenderOk(s.a, s.ab)
    && ReceiverOk(s.b, s.ab)
    && ReadOk(s)
  }

  ghost predicate Inv(s: Net) { Half(s) && Half(Flip(s)) }

  lemma InitInv(memA: seq<byte>, memB: seq<byte>)
    ensures Inv(Init(memA, memB))
  {
  }

  // ---------------------------------------------------------------- one step of each kind

  /** Submitting or fetching a request leaves the order of reads alone. */
  lemma SubmitReads(s: Net, r: Request)
    requires Inv(s) && MaySubmit(s, r)
    ensures var t := Next(s, Submit(r)); ReadOk(t) && ReadOk(Flip(t))
  {
    hide Encode, Decode, Flat, Line, Log, PipeOk, Load, Store, SegOk, ReceiverOk, SenderOk, RequestOk, Representable;
    if r.kind.RemRd? && r.length > 0 {
      QuietWhenUnread(s);
    }
  }

  lemma SubmitInv(s: Net, r: Request)
    requires Inv(s) && MaySubmit(s, r)
    ensures Inv(Next(s, Submit(r)))
  {
    hide Encode, Decode, Flat, Line, Log, PipeOk, Load, Store, SegOk, ReadOk, Reads, Talks;
    SubmitReads(s, r);
  }

  /** Nothing readable and nothing half read: the reply stream is quiet. */
  lemma QuietWhenUnread(s: Net)
    requires Inv(s) && s.ba.flight == [] && s.a.rphase in {Free, Header} && s.a.rbytes == 0 && !Reading(s.a)
    ensures Quiet(s.ba)
  {
    assert Line(s.ba) == [];
  }

  /** A side that answers a RemRd has no message of its own. */
  lemma AnswersAlone(s: Net)
    requires Inv(s)
    ensures Replying(s.a) ==> !Talks(s.a) && Reading(s.b)
  {
    hide Encode, Decode, Log, Load, Store, SegOk, PipeOk, Line, Flat, ReceiverOk, SenderOk, ControlOk;
  }

  lemma FetchReads(s: Net)
    requires Enabled(s, Fetch) && Inv(s)
    ensures ReadOk(Next(s, Fetch)) && ReadOk(Flip(Next(s, Fetch)))
  {
    hide Encode, Decode, Flat, Line, Log, PipeOk, Load, Store, SegOk, ReceiverOk, SenderOk, RequestOk, Representable;
  }

  lemma FetchInv(s: Net)
    requires Enabled(s, Fetch) && Inv(s)
    ensures Inv(Next(s, Fetch))
    ensures Next(s, Fetch).a.comps == s.a.comps
  {
    hide Encode, Decode, Flat, Line, Log, PipeOk, Load, Store, SegOk, ReadOk, RequestOk;
    FetchReads(s);
    AnswersAlone(s);
  }

  lemma AppWriteInv(s: Net, addr: nat, data: seq<byte>)
    requires Inv(s) && Enabled(s, AppWrite(addr, data))
    ensures Inv(Next(s, AppWrite(addr, data)))
  {
    hide Encode, Decode, Flat, Line, Log, PipeOk, Load, Store, SegOk, ReadOk, RequestOk;
    AppWriteReads(s, Next(s, AppWrite(addr, data)));
  }

  lemma AppWriteReads(s: Net, s': Net)
    requires Inv(s) && s' == s.(a := s.a.(mem := s'.a.mem))
    ensures ReadOk(s') && ReadOk(Flip(s'))
  {
    hide Encode, Decode, Flat, Line, Log, PipeOk, Load, Store, SegOk, ReceiverOk, SenderOk, ControlOk;
  }

  lemma PostRecvInv(s: Net)
    requires Enabled(s, Drive(0)) && s.a.lreq.value.kind.Recv? && Inv(s)
    ensures Inv(Next(s, Drive(0)))
  {
    hide Encode, Decode, Flat, Line, Log, PipeOk, Load, Store, SegOk, RequestOk;
  }

  // Writing a frame.

  /** What a write leaves: the same frames or one more, and a longer line. */
  ghost predicate Extends(p: Pipe, q: Pipe, r: Request, out: seq<byte>) {
    && PipeOk(q) && Line(q) == Line(p) + out && q.part == p.part
    && (if q.todo == p.todo then Log(q) == Log(p)
        else
          && |q.todo| == |p.todo| + 1 && q.todo[..|p.todo|] == p.todo
          && q.todo[|p.todo|].Frame? && q.todo[|p.todo|].hdr == r && |q.todo[|p.todo|].body| == BodyLength(r)
          && Log(q) == Log(p) + [q.todo[|p.todo|]])
  }

  lemma FramedExtends(p: Pipe, r: Request, out: seq<byte>)
    requires PipeOk(p)
    requires |p.cur + out| == HEADER + BodyLength(r) ==> (p.cur + out)[..HEADER] == Encode(r)
    ensures Extends(p, Framed(p, r, out), r, out)
    ensures |p.cur + out| == HEADER + BodyLength(r) ==>
            Framed(p, r, out).todo == p.todo + [Frame(r, (p.cur + out)[HEADER..])]
  {
    hide Encode, Flat;
    var q := Push(p, out);
    PushOk(p, out);
    if |q.cur| == HEADER + BodyLength(r) {
      var g := Frame(r, q.cur[HEADER..]);
      assert SegBytes(g) == q.cur[..HEADER] + q.cur[HEADER..] == q.cur;
      SealOk(q, g);
      assert Log(Seal(q, g)) == Log(p) + [g];
    }
  }

  /** After a write the segment in progress is the one the new state tells. */
  lemma FramedOk(e: Endpoint, out: Pipe, n: nat, peer: nat)
    requires ControlOk(e, peer) && PipeOk(out) && SenderOk(e, out) && !Replying(e)
    requires e.lreq.Some? && Outgoing(e.lreq.value.kind) && !AwaitsReply(e) && n <= |Offer(e)|
    ensures var q := Framed(out, e.lreq.value, Offer(e)[..n]);
            && Extends(out, q, e.lreq.value, Offer(e)[..n]) && SenderOk(Written(e, n), q)
            && (AwaitsReply(Written(e, n)) ==> q.todo == out.todo + [Frame(e.lreq.value, [])])
            && (e.lreq.value.kind.RemRd? && q.todo != out.todo ==> AwaitsReply(Written(e, n)))
  {
    hide PipeOk, Line, Flat, Decode, Encode, Log, Extends, Store;
    var r, data := e.lreq.value, Offer(e)[..n];
    var cur := out.cur + data;
    if e.lphase == Header {
      assert cur == Encode(r)[..e.lbytes + n];
    } else if r.length > 0 {
      assert |Offer(e)| == r.length - e.lbytes;
      assert cur[..HEADER] == out.cur[..HEADER];
    } else {
      assert cur == [];
    }
    FramedExtends(out, r, data);
    if AwaitsReply(Written(e, n)) {
      assert cur[HEADER..] == [];
    }
  }

  /** More bytes behind the line change nothing in what was already read. */
  lemma ReceiverGrows(e: Endpoint, p: Pipe, q: Pipe)
    requires |e.preq| == HEADER && ReceiverOk(e, p) && p.part <= |Line(p)|
    requires q.part == p.part && Line(p) <= Line(q)
    requires |p.todo| <= |q.todo| && q.todo[..|p.todo|] == p.todo
    requires forall i :: |p.todo| <= i < |q.todo| ==> q.todo[i].Frame?
    ensures ReceiverOk(e, q)
  {
    hide Decode, Line, Flat;
  }

  /** What a write does to the sides. */
  lemma WriteStep(s: Net, n: nat)
    requires Enabled(s, Drive(n)) && Outgoing(s.a.lreq.value.kind) && !AwaitsReply(s.a)
    ensures var t := Next(s, Drive(n));
            && s.a.lreq.Some? && n <= |Offer(s.a)|
            && t == s.(a := Written(s.a, n), ab := Framed(s.ab, s.a.lreq.value, Offer(s.a)[..n]))
  {
    hide Written, Framed, Offer;
  }

  /** A write moves the request on, ends it, or leaves a RemRd waiting for its reply. */
  lemma WrittenControl(e: Endpoint, n: nat, peer: nat)
    requires ControlOk(e, peer) && e.lreq.Some? && Outgoing(e.lreq.value.kind) && !AwaitsReply(e) && n <= |Offer(e)|
    ensures var f := Written(e, n);
            && ControlOk(f, peer) && f.mem == e.mem && f.preq == e.preq && f.rphase == e.rphase && f.rbytes == e.rbytes
            && f.queue == e.queue && !RecvPosted(e)
            && (f.lreq == e.lreq || f.lreq == None) && (f.lreq == None ==> !e.lreq.value.kind.RemRd?)
            && (AwaitsReply(f) ==> e.lreq.value.kind.RemRd? && f.lbytes == 0)
  {
    hide Encode, Decode, Load, RequestOk;
  }

  lemma WriteInv(s: Net, n: nat)
    requires Inv(s) && Enabled(s, Drive(n)) && Outgoing(s.a.lreq.value.kind) && !AwaitsReply(s.a)
    ensures Inv(Next(s, Drive(n)))
  {
    hide Encode, Decode, Flat, Line, Log, PipeOk, Load, Store, ReceiverOk, SenderOk, ReadOk, Offer, Next, Enabled,
      Written, Framed;
    var s' := Next(s, Drive(n));
    WriteStep(s, n);
    AnswersAlone(s);
    FramedOk(s.a, s.ab, n, |s.b.mem|);
    WrittenControl(s.a, n, |s.b.mem|);
    PipePart(s.ab);
    ReceiverGrows(s.b, s.ab, s'.ab);
    ReaderStarts(s, s'.a);
    WriteReads(s, n);
  }

  lemma WriteReads(s: Net, n: nat)
    requires Inv(s) && Enabled(s, Drive(n)) && Outgoing(s.a.lreq.value.kind) && !AwaitsReply(s.a)
    ensures ReadOk(Next(s, Drive(n))) && ReadOk(Flip(Next(s, Drive(n))))
  {
    hide Encode, Decode, Flat, Line, Log, PipeOk, Load, Store, ReceiverOk, SenderOk, Offer, Next, Enabled,
      Written, Framed, RequestOk, SegOk;
    WriteStep(s, n);
    AnswersAlone(s);
    FramedOk(s.a, s.ab, n, |s.b.mem|);
    WrittenControl(s.a, n, |s.b.mem|);
  }

  lemma PipePart(p: Pipe)
    requires PipeOk(p)
    ensures p.part <= |Line(p)|
  {
  }

  /** Starting to wait for a reply, or not, leaves side `a` a faithful reader. */
  lemma ReaderStarts(s: Net, a: Endpoint)
    requires Inv(s) && !Reading(s.a)
    requires a.preq == s.a.preq && a.rphase == s.a.rphase && a.rbytes == s.a.rbytes && |a.mem| == |s.a.mem|
    requires RecvPosted(s.a) ==> RecvPosted(a)
    requires Reading(a) ==> Reads(s.a) && a.lbytes == 0
    ensures ReceiverOk(a, s.ba)
  {
    hide Encode, Decode, Flat, PipeOk, Load, Store, Log, Line, SenderOk;
  }

  // Waiting for a reply.

  /** What taking a part of the reply does. */
  lemma TakeStep(s: Net, n: nat)
    requires Enabled(s, Drive(n)) && AwaitsReply(s.a)
    ensures var t, r := Next(s, Drive(n)), s.a.lreq.value;
            && t.b == s.b && t.ab == s.ab && n <= |s.ba.flight| && s.a.lbytes + n <= r.length
            && t.a.mem == Store(s.a.mem, r.addr + s.a.lbytes, s.ba.flight[..n])
            && (if s.a.lbytes + n < r.length then
                  t.a == s.a.(mem := t.a.mem, lbytes := s.a.lbytes + n) && t.ba == Pull(s.ba, n)
                else
                  t.a == Complete(s.a).(mem := t.a.mem, pollIn := true)
                  && t.ba == if r.length > 0 then Accept(Pull(s.ba, n)) else Pull(s.ba, n))
  {
    hide Store;
  }

  /** The side that waits for a reply, before its last bytes. */
  lemma ReplyTakenInv(s: Net, n: nat)
    requires Inv(s) && Enabled(s, Drive(n)) && AwaitsReply(s.a) && s.a.lbytes + n < s.a.lreq.value.length
    ensures Inv(Next(s, Drive(n)))
  {
    hide Encode, Decode, Flat, Log, Load, Store, Line, PipeOk, Next, Enabled, SegOk, RequestOk;
    TakeStep(s, n);
    ReplyPulled(s, n);
  }

  /** A read of nothing ends with its header. */
  lemma EmptyReadInv(s: Net, n: nat)
    requires Inv(s) && Enabled(s, Drive(n)) && AwaitsReply(s.a) && s.a.lreq.value.length == 0
    ensures Inv(Next(s, Drive(n))) && Next(s, Drive(n)).ba == s.ba
  {
    hide Encode, Decode, Flat, Log, Load, Store, Line, PipeOk, Next, Enabled, SegOk, RequestOk;
    TakeStep(s, n);
    assert s.ba.flight[0..] == s.ba.flight;
    assert Next(s, Drive(n)).ba == s.ba;
  }

  lemma ReplyTakenWholeInv(s: Net, n: nat)
    requires Inv(s) && Enabled(s, Drive(n)) && Reading(s.a) && s.a.lbytes + n == s.a.lreq.value.length
    ensures Inv(Next(s, Drive(n)))
  {
    hide Encode, Decode, Flat, Log, Load, Store, Line, PipeOk, Next, Enabled, SegOk, RequestOk;
    TakeStep(s, n);
    ReplyPulled(s, n);
  }

  lemma TakeReplyInv(s: Net, n: nat)
    requires Inv(s) && Enabled(s, Drive(n)) && AwaitsReply(s.a)
    ensures Inv(Next(s, Drive(n)))
  {
    hide Inv, Next;
    if s.a.lreq.value.length == 0 {
      EmptyReadInv(s, n);
    } else if s.a.lbytes + n < s.a.lreq.value.length {
      ReplyTakenInv(s, n);
    } else {
      ReplyTakenWholeInv(s, n);
    }
  }

  /** Reading from the segment in progress. */
  lemma PullCur(p: Pipe, n: nat)
    requires PipeOk(p) && p.todo == [] && n <= |p.flight|
    ensures PipeOk(Pull(p, n)) && p.part + n <= |p.cur| && Line(p) == p.cur
    ensures Line(Pull(p, n)) == Line(p) && Log(Pull(p, n)) == Log(p) && p.flight[..n] == Line(p)[p.part..p.part + n]
  {
    hide Encode;
    assert Line(p) == p.cur;
    PullOk(p, n);
  }

  /** Reading from a reply that is written out and alone on the stream. */
  lemma PullSole(p: Pipe, n: nat)
    requires PipeOk(p) && |p.todo| == 1 && p.todo[0].Reply? && p.cur == [] && n <= |p.flight|
    ensures PipeOk(Pull(p, n)) && p.part + n <= |p.todo[0].data| && Line(p) == p.todo[0].data
    ensures Line(Pull(p, n)) == Line(p) && Log(Pull(p, n)) == Log(p) && p.flight[..n] == Line(p)[p.part..p.part + n]
    ensures p.part + n == |p.todo[0].data| ==>
              PipeOk(Accept(Pull(p, n))) && Quiet(Accept(Pull(p, n))) && Log(Accept(Pull(p, n))) == Log(p)
  {
    hide Encode;
    assert p.todo == [p.todo[0]];
    assert Flat(p.todo[1..]) == [];
    assert Line(p) == p.todo[0].data;
    PullOk(p, n);
    if p.part + n == |p.todo[0].data| {
      AcceptOk(Pull(p, n));
    }
  }

  /** The reply stream after the requester read `n` more bytes of the reply. */
  lemma ReplyPulled(s: Net, n: nat)
    requires Inv(s) && Reading(s.a) && n <= |s.ba.flight| && s.a.lbytes + n <= s.a.lreq.value.length
    ensures var p := Pull(s.ba, n);
            && PipeOk(p) && Log(p) == Log(s.ba) && Line(p) == Line(s.ba)
            && s.a.lbytes + n <= |Line(s.ba)| && s.ba.flight[..n] == Line(s.ba)[s.a.lbytes..s.a.lbytes + n]
            && (s.a.lbytes + n == s.a.lreq.value.length ==>
                  Served(s) && PipeOk(Accept(p)) && Quiet(Accept(p)) && Log(Accept(p)) == Log(s.ba)
                  && Line(s.ba) == s.ba.todo[0].data)
            && (Waiting(s) ==> n == 0)
  {
    hide Encode, Decode, Load, Store, PipeOk, Line, Flat, Log;
    if Served(s) {
      PullSole(s.ba, n);
    } else {
      PullCur(s.ba, n);
    }
  }

  lemma OutputInv(s: Net, n: nat)
    requires Inv(s) && Enabled(s, Output(n))
    ensures Inv(Next(s, Output(n)))
  {
    hide Inv, Encode, Decode, Load, Next;
    if !Replying(s.a) {
      NoReplyInv(s, n);
    } else if s.a.rbytes + n < PeerHeader(s.a).length {
      ReplyGrowsInv(s, n);
    } else {
      ReplyEndsInv(s, n);
    }
  }

  /** An empty reply writes nothing. */
  lemma NoReplyInv(s: Net, n: nat)
    requires Inv(s) && Enabled(s, Output(n)) && !Replying(s.a)
    ensures Inv(Next(s, Output(n)))
    ensures Next(s, Output(n)).ab == s.ab
  {
    hide Encode, Decode, Flat, Log, Load, Store, Line, PipeOk, SegOk, RequestOk, ReadOk, SenderOk, ReplyOffer;
    assert |ReplyOffer(s.a)| == 0 by { ReplyOffered(s.a); }
    var t := Next(s, Output(n));
    assert t.ab == s.ab && t == s.(a := s.a.(rphase := Free, rbytes := 0));
    NoReplyReads(s, t);
  }

  lemma NoReplyReads(s: Net, t: Net)
    requires Inv(s) && s.a.rphase == Auto && !Replying(s.a) && t == s.(a := s.a.(rphase := Free, rbytes := 0))
    ensures ReadOk(t) && ReadOk(Flip(t)) && SenderOk(t.a, t.ab)
  {
    hide Encode, Decode, Flat, Log, Load, Store, Line, PipeOk, SegOk, RequestOk;
  }

  lemma ReplyGrowsInv(s: Net, n: nat)
    requires Inv(s) && Enabled(s, Output(n)) && Replying(s.a) && s.a.rbytes + n < PeerHeader(s.a).length
    ensures Inv(Next(s, Output(n)))
  {
    hide Encode, Decode, Flat, Log, Load, Store, Line, PipeOk, SegOk;
    ReplyPushed(s.ab, ReplyOffer(s.a)[..n]);
  }

  lemma ReplyEndsInv(s: Net, n: nat)
    requires Inv(s) && Enabled(s, Output(n)) && Replying(s.a) && s.a.rbytes + n >= PeerHeader(s.a).length
    ensures Inv(Next(s, Output(n))) && Served(Flip(Next(s, Output(n))))
  {
    hide Encode, Decode, Flat, Log, Load, Store, Line, PipeOk;
    ReplyOffered(s.a);
    ReplyPushed(s.ab, ReplyOffer(s.a)[..n]);
  }

  lemma ReplyOffered(e: Endpoint)
    requires |e.preq| == HEADER && e.rbytes <= PeerHeader(e).length
    requires PeerHeader(e).remAddr + PeerHeader(e).length <= |e.mem|
    ensures |ReplyOffer(e)| == PeerHeader(e).length - e.rbytes
  {
    hide Decode;
  }

  lemma ReplyPushed(p: Pipe, out: seq<byte>)
    requires PipeOk(p)
    ensures PipeOk(Push(p, out)) && Log(Push(p, out)) == Log(p) && Line(Push(p, out)) == Line(p) + out
    ensures var q := Seal(Push(p, out), Reply(p.cur + out));
            PipeOk(q) && Log(q) == Log(p) + [Reply(p.cur + out)] && Line(q) == Line(p) + out
  {
    hide Encode, Decode, Flat;
    PushOk(p, out);
    SealOk(Push(p, out), Reply(p.cur + out));
  }

  // Reading the peer's requests.

  /** The first complete header on a stream is that of a well-formed request: of the oldest
      frame, or of the request the peer is writing the body of. */
  lemma FirstHeader(s: Net) returns (r: Request)
    requires Inv(s) && !Reading(s.a) && |Line(s.ba)| >= HEADER
    ensures Representable(r) && Outgoing(r.kind) && (r.kind.Send? || r.remAddr + r.length <= |s.a.mem|)
    ensures Line(s.ba)[..HEADER] == Encode(r) && Decode(Line(s.ba)[..HEADER]) == r
    ensures s.ba.todo != [] ==>
            s.ba.todo[0].Frame? && s.ba.todo[0].hdr == r && |SegBytes(s.ba.todo[0])| == HEADER + BodyLength(r)
    ensures s.ba.todo == [] ==>
            s.b.lreq == Some(r) && s.b.lphase == Body && HEADER <= |Line(s.ba)| < HEADER + BodyLength(r)
  {
    hide Decode, Encode, Load, Store, PipeOk;
    if s.ba.todo != [] {
      r := s.ba.todo[0].hdr;
      assert Log(s.ba)[|s.ba.seen|] == s.ba.todo[0];
    } else {
      r := s.b.lreq.value;
      assert Line(s.ba) == s.ba.cur;
    }
    DecodeEncode(r);
  }

  /** Only a message of this side can be under way when its peer's RemRd is being answered. */
  lemma NothingBehindRead(s: Net)
    requires Inv(s) && Reading(s.b) && s.ba.flight != []
    ensures Waiting(Flip(s))
  {
    hide Encode, Decode, Load, Store;
  }

  /** A side whose RemRd is about to start has no input. */
  lemma NotReadyToRead(s: Net)
    requires Inv(s) && s.a.pollIn && s.ba.flight != []
    ensures !Reads(s.a) && !Reading(s.a)
  {
    hide Encode, Decode, Load, Store;
  }

  /** Input other than a RemRd header that wants an answer leaves the order of reads alone. */
  lemma InputKeepsReads(s: Net, s': Net)
    requires Inv(s) && s.a.pollIn && s.ba.flight != [] && |s'.a.preq| == HEADER
    requires s'.b == s.b && s'.ab == s.ab && !Replying(s.a) && !Replying(s'.a)
    requires Reads(s'.a) ==> Reads(s.a)
    requires Reading(s'.a) ==> Reading(s.a)
    requires Talks(s'.a) ==> Talks(s.a)
    requires s'.ba.todo == s.ba.todo
             || (s.ba.todo != [] && s'.ba.todo == s.ba.todo[1..]
                 && s.ba.todo[0].Frame? && !(s.ba.todo[0].hdr.kind.RemRd? && s.ba.todo[0].hdr.length > 0))
    ensures ReadOk(s') && ReadOk(Flip(s'))
  {
    hide Encode, Decode, Flat, Log, Load, Store, Line, PipeOk, SegOk, ReceiverOk, SenderOk;
    NotReadyToRead(s);
    if Reading(s.b) { NothingBehindRead(s); }
    assert forall i :: 0 <= i < |s'.ba.todo| ==>
             s'.ba.todo[i] == (if |s'.ba.todo| == |s.ba.todo| then s.ba.todo[i] else s.ba.todo[i + 1]);
  }

  /** What the receiver does next after the header of a request of this kind. */
  function AfterHeader(k: Kind): Phase {
    match k
    case Send => Body
    case RemWr => Body
    case RemRd => Auto
    case _ => Free
  }

  /** Reading a header touches nothing of the side but its record of the peer's request. */
  lemma HeaderStep(s: Net, n: nat)
    requires Enabled(s, Input(n)) && s.a.rphase in {Free, Header}
    ensures var t := Next(s, Input(n));
            && t.a == s.a.(preq := t.a.preq, rphase := t.a.rphase, rbytes := t.a.rbytes)
            && t.b == s.b && t.ab == s.ab && |t.a.preq| == HEADER && s.a.rbytes + n <= HEADER
            && n <= |s.ba.flight| && s.a.pollIn && s.ba.flight != []
            && t.a.preq == s.a.preq[..s.a.rbytes] + s.ba.flight[..n] + s.a.preq[s.a.rbytes + n..]
            && (if s.a.rbytes + n < HEADER then t.a.rphase == Header && t.a.rbytes == s.a.rbytes + n
                else t.a.rbytes == 0 && t.a.rphase == AfterHeader(PeerHeader(t.a).kind))
            && t.ba == (if t.a.rphase in {Free, Auto} then Accept(Pull(s.ba, n)) else Pull(s.ba, n))
  {
    hide Encode, Decode;
  }

  /** The side that reads within or at the end of a header goes on writing as before. */
  lemma HeaderHalf(s: Net, t: Net)
    requires Half(s) && Half(Flip(s)) && ReadOk(t) && ReadOk(Flip(t)) && ReceiverOk(t.a, t.ba)
    requires t.a == s.a.(preq := t.a.preq, rphase := t.a.rphase, rbytes := t.a.rbytes) && t.b == s.b && t.ab == s.ab
    requires |t.a.preq| == HEADER && PipeOk(t.ba) && Log(t.ba) == Log(s.ba) && t.ba.cur == s.ba.cur
    requires !Replying(s.a) && (Replying(t.a) ==> !Talks(s.a) && t.a.rbytes == 0)
    ensures Inv(t)
  {
    hide Encode, Decode, Flat, Log, Line, PipeOk, SegOk, ReadOk, ReceiverOk;
  }

  lemma HeaderInputInv(s: Net, n: nat)
    requires Inv(s) && Enabled(s, Input(n)) && s.a.rphase in {Free, Header} && s.a.rbytes + n < HEADER
    ensures Inv(Next(s, Input(n)))
  {
    hide Encode, Decode, Flat, Log, Load, Store, Line, PipeOk, ReadOk, SegOk, Next, Enabled, SenderOk, ControlOk;
    HeaderStep(s, n);
    NotReadyToRead(s);
    HeaderPulled(s.a, s.ba, n, s.a.rbytes);
    InputKeepsReads(s, Next(s, Input(n)));
    HeaderHalf(s, Next(s, Input(n)));
  }

  /** Reading within the first header. */
  lemma HeaderPulled(e: Endpoint, p: Pipe, n: nat, k: nat)
    requires PipeOk(p) && p.part == k && |e.preq| == HEADER && k + n <= HEADER && n <= |p.flight|
    requires forall i :: 0 <= i < |p.todo| ==> p.todo[i].Frame?
    requires k <= |Line(p)| && e.preq[..k] == Line(p)[..k]
    ensures var q := Pull(p, n);
            var h := e.preq[..k] + p.flight[..n] + e.preq[k + n..];
            PipeOk(q) && Line(q) == Line(p) && Log(q) == Log(p)
            && k + n <= |Line(p)| && |h| == HEADER && h[..k + n] == Line(p)[..k + n]
  {
    hide Encode, Flat;
    PullOk(p, n);
  }

  /** A complete header of a Send or RemWr request. */
  lemma BodyAheadInv(s: Net, n: nat)
    requires Inv(s) && Enabled(s, Input(n)) && s.a.rphase in {Free, Header} && s.a.rbytes + n == HEADER
    requires Next(s, Input(n)).a.rphase != Auto
    ensures Inv(Next(s, Input(n)))
  {
    hide Encode, Decode, Flat, Log, Load, Store, Line, PipeOk, SegBytes, SegOk, ReadOk, ReceiverOk, Next, Enabled, Half;
    var s' := Next(s, Input(n));
    HeaderStep(s, n);
    BodyAhead(s, n);
    InputKeepsReads(s, s');
    HeaderHalf(s, s');
  }

  lemma BodyAhead(s: Net, n: nat)
    requires Inv(s) && Enabled(s, Input(n)) && s.a.rphase in {Free, Header} && s.a.rbytes + n == HEADER
    requires Next(s, Input(n)).a.rphase != Auto
    ensures var t := Next(s, Input(n));
            && !Reading(s.a) && ReceiverOk(t.a, t.ba) && t.a.rphase == Body && |t.a.preq| == HEADER
            && PipeOk(t.ba) && Log(t.ba) == Log(s.ba) && t.ba.todo == s.ba.todo
  {
    hide Encode, Decode, Flat, Log, Load, Store, Line, PipeOk, SegBytes, SegOk, ReadOk, SenderOk, Next, Enabled,
      ControlOk;
    HeaderStep(s, n);
    NotReadyToRead(s);
    HeaderPulled(s.a, s.ba, n, s.a.rbytes);
    var h := FirstHeader(s);
    assert Next(s, Input(n)).a.preq == Line(s.ba)[..HEADER];
  }

  /** A complete header of a RemRd request: its frame is read. */
  lemma ReplyAhead(s: Net, n: nat)
    requires Inv(s) && Enabled(s, Input(n)) && s.a.rphase in {Free, Header} && s.a.rbytes + n == HEADER
    requires Next(s, Input(n)).a.rphase == Auto
    ensures var t := Next(s, Input(n));
            && !Reading(s.a) && ReceiverOk(t.a, t.ba) && |t.a.preq| == HEADER && PeerHeader(t.a).kind.RemRd?
            && PipeOk(t.ba) && Log(t.ba) == Log(s.ba) && t.ba.cur == s.ba.cur
            && s.ba.todo != [] && t.ba.todo == s.ba.todo[1..] && s.ba.todo[0].Frame?
            && s.ba.todo[0].hdr == PeerHeader(t.a)
  {
    hide Encode, Decode, Flat, Log, Load, Store, Line, PipeOk, SegBytes, SegOk, ReadOk, SenderOk, Next, Enabled,
      ControlOk;
    HeaderStep(s, n);
    NotReadyToRead(s);
    HeaderPulled(s.a, s.ba, n, s.a.rbytes);
    var h := FirstHeader(s);
    var t := Next(s, Input(n));
    assert t.a.preq == Line(s.ba)[..HEADER];
    AcceptOk(Pull(s.ba, n));
    assert forall i :: 0 <= i < |t.ba.todo| ==> t.ba.todo[i] == s.ba.todo[i + 1];
  }

  /** A complete header of a RemRd request: a reply is due. */
  lemma ReplyDueInv(s: Net, n: nat)
    requires Inv(s) && Enabled(s, Input(n)) && s.a.rphase in {Free, Header} && s.a.rbytes + n == HEADER
    requires Next(s, Input(n)).a.rphase == Auto
    ensures Inv(Next(s, Input(n)))
  {
    hide Encode, Decode, Flat, Log, Load, Store, Line, PipeOk, SegBytes, SegOk, ReadOk, Next, Enabled, Half,
      ReceiverOk;
    var s' := Next(s, Input(n));
    HeaderStep(s, n);
    ReplyAhead(s, n);
    if PeerHeader(s'.a).length == 0 {
      InputKeepsReads(s, s');
    } else {
      ReadArrives(s, s');
    }
    HeaderHalf(s, s');
  }

  /** The RemRd header the peer waits to have read is read. */
  lemma ReadArrives(s: Net, s': Net)
    requires Inv(s) && s.a.pollIn && s.ba.flight != [] && |s'.a.preq| == HEADER
    requires s'.b == s.b && s'.ab == s.ab && Active(s'.a) == Active(s.a) && AwaitsReply(s'.a) == AwaitsReply(s.a)
    requires s.ba.todo != [] && s'.ba.todo == s.ba.todo[1..] && s.ba.todo[0].Frame?
    requires s.ba.todo[0].hdr == PeerHeader(s'.a) && PeerHeader(s'.a).kind.RemRd? && Replying(s'.a)
    ensures ReadOk(s') && ReadOk(Flip(s')) && Serving(Flip(s')) && Quiet(s'.ab) && !Talks(s'.a)
  {
    hide Encode, Decode, Flat, Log, Load, Store, Line, PipeOk, SegOk, ReceiverOk, SenderOk;
    NotReadyToRead(s);
    NothingBehindRead(s);
  }

  /** What reading a part of a body does to the side. */
  lemma BodyStep(s: Net, n: nat)
    requires Enabled(s, Input(n)) && s.a.rphase == Body
    ensures var t, h := Next(s, Input(n)), PeerHeader(s.a);
            && t.b == s.b && t.ab == s.ab && s.a.rbytes + n <= h.length
            && n <= |s.ba.flight| && s.a.pollIn && s.ba.flight != []
            && (if h.kind.Send? then RecvPosted(s.a) else h.kind.RemWr?)
            && (if s.a.rbytes + n < h.length then
                  t.a == s.a.(mem := t.a.mem, rbytes := s.a.rbytes + n) && t.ba == Pull(s.ba, n)
                else
                  t.a == (if h.kind.Send? then Complete(s.a) else s.a).(mem := t.a.mem, rphase := Free, rbytes := 0)
                  && t.ba == Accept(Pull(s.ba, n)))
            && t.a.mem == Store(s.a.mem, Landing(s.a) + s.a.rbytes, s.ba.flight[..n])
  {
    hide Encode, Decode, Store;
  }

  /** The side that reads a body goes on writing as before; a completed Recv writes nothing. */
  lemma BodyHalf(s: Net, t: Net)
    requires Half(s) && Half(Flip(s)) && ReadOk(t) && ReadOk(Flip(t)) && ReceiverOk(t.a, t.ba)
    requires |t.a.mem| == |s.a.mem| && t.b == s.b && t.ab == s.ab && t.a.preq == s.a.preq
    requires t.a.rphase in {Free, Body} && s.a.rphase == Body && s.a.pollIn
    requires t.a.queue == s.a.queue && t.a.pollIn
    requires (t.a.lreq == s.a.lreq && t.a.lphase == s.a.lphase && t.a.lbytes == s.a.lbytes)
             || (RecvPosted(s.a) && t.a.lreq == None && t.a.lphase == Free)
    requires PipeOk(t.ba) && Log(t.ba) == Log(s.ba) && t.ba.cur == s.ba.cur
    ensures Inv(t)
  {
    hide Encode, Decode, Flat, Log, Line, PipeOk, SegOk, ReadOk, ReceiverOk;
  }

  /** Within a body the header is that of the oldest frame, or of the request the peer writes. */
  lemma BodyRead(s: Net, n: nat)
    requires Inv(s) && Enabled(s, Input(n)) && s.a.rphase == Body
    ensures !Reading(s.a) && !Replying(s.a) && s.ba.part == HEADER + s.a.rbytes
    ensures s.a.preq == Line(s.ba)[..HEADER] && s.ba.part + n <= |Line(s.ba)|
    ensures forall i :: 0 <= i < |s.ba.todo| ==> s.ba.todo[i].Frame?
    ensures var h := PeerHeader(s.a);
            && (h.kind.RemWr? ==> h.remAddr + h.length <= |s.a.mem|)
            && PipeOk(Pull(s.ba, n)) && Log(Pull(s.ba, n)) == Log(s.ba) && Line(Pull(s.ba, n)) == Line(s.ba)
            && (s.a.rbytes + n == h.length ==> s.ba.todo != [] && s.ba.todo[0].hdr == h && !h.kind.RemRd?
                                               && |SegBytes(s.ba.todo[0])| == HEADER + s.a.rbytes + n)
  {
    hide Encode, Decode, Flat, Log, Load, Store, Line, PipeOk, SegBytes, SegOk, ReadOk, Next, Enabled, SenderOk,
      ControlOk;
    BodyStep(s, n);
    NotReadyToRead(s);
    var r := FirstHeader(s);
    LineBound(s.ba, n);
    PullOk(s.ba, n);
  }

  lemma BodyGrowsInv(s: Net, n: nat)
    requires Inv(s) && Enabled(s, Input(n)) && s.a.rphase == Body && s.a.rbytes + n < PeerHeader(s.a).length
    ensures Inv(Next(s, Input(n)))
  {
    hide Encode, Decode, Flat, Log, Load, Store, Line, PipeOk, SegBytes, SegOk, ReadOk, Next, Enabled, Half;
    BodyStep(s, n);
    BodyRead(s, n);
    InputKeepsReads(s, Next(s, Input(n)));
    BodyHalf(s, Next(s, Input(n)));
  }

  lemma OneOutstanding(s: Net)
    requires Inv(s)
    ensures s.a.lreq.Some? ==> s.a.queue == []
  {
    hide PipeOk, SegOk, SenderOk, ReceiverOk, ReadOk, RequestOk;
  }

  lemma BodyEndsInv(s: Net, n: nat)
    requires Inv(s) && Enabled(s, Input(n)) && s.a.rphase == Body && s.a.rbytes + n == PeerHeader(s.a).length
    ensures Inv(Next(s, Input(n)))
  {
    hide Encode, Decode, Flat, Log, Load, Store, Line, PipeOk, SegBytes, SegOk, ReadOk, Next, Enabled, Half;
    var s' := Next(s, Input(n));
    BodyStep(s, n);
    BodyRead(s, n);
    OneOutstanding(s);
    AcceptOk(Pull(s.ba, n));
    assert forall i :: 0 <= i < |s'.ba.todo| ==> s'.ba.todo[i] == s.ba.todo[i + 1];
    InputKeepsReads(s, s');
    BodyHalf(s, s');
  }

  lemma LineBound(p: Pipe, n: nat)
    requires PipeOk(p) && n <= |p.flight|
    ensures p.part + n <= |Line(p)|
  {
  }

  // ---------------------------------------------------------------- all runs

  lemma StepInv(s: Net, act: Action)
    requires Inv(s) && Enabled(s, act)
    ensures Inv(Next(s, act))
  {
    hide Encode, Decode, Flat, Log, Load, Store, Line, PipeOk, SegBytes, Next;
    match act
    case Submit(r) => SubmitInv(s, r);
    case Fetch => FetchInv(s);
    case AppWrite(addr, data) => AppWriteInv(s, addr, data);
    case Output(n) => OutputInv(s, n);
    case Drive(n) =>
      if s.a.lreq.value.kind.Recv? { PostRecvInv(s); }
      else if AwaitsReply(s.a) { TakeReplyInv(s, n); }
      else { WriteInv(s, n); }
    case Input(n) =>
      if s.a.rphase == Body {
        if s.a.rbytes + n < PeerHeader(s.a).length { BodyGrowsInv(s, n); } else { BodyEndsInv(s, n); }
      }
      else if s.a.rbytes + n < HEADER { HeaderInputInv(s, n); }
      else if Next(s, act).a.rphase == Auto { ReplyDueInv(s, n); }
      else { BodyAheadInv(s, n); }
  }
}
