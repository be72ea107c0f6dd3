/** What the bytes on the streams mean: memory, deliveries and completions.

    `InetNet` says which segment every byte belongs to.  Here each side also keeps a book:
    for every segment it has written and every segment it has read, where in its memory the
    bytes came from or went to, and whether that memory still holds them. */
module InetData {
  import opened Wire
  import opened InetEndpoint
  import opened InetNet

  /** `req` is the request served, `addr` the memory range that held or received `data`.  `ok`
      is lost as soon as anything else is stored into the range. */
  datatype Mark = Mark(req: Request, addr: nat, data: seq<byte>, ok: bool)

  /** `lclean`: nothing foreign was stored into the buffer of the request in the handler since
      it was fetched.  `rclean`: nothing else was stored into the range the peer's one-sided
      request names since its header arrived. */
  datatype Book = Book(submitted: seq<Request>, sent: seq<Mark>, got: seq<Mark>, lclean: bool, rclean: bool)

  datatype World = World(net: Net, ka: Book, kb: Book)

  function FlipW(w: World): World { World(Flip(w.net), w.kb, w.ka) }

  const BLANK_BOOK: Book := Book([], [], [], true, true)

  function InitW(memA: seq<byte>, memB: seq<byte>): World {
    World(Init(memA, memB), BLANK_BOOK, BLANK_BOOK)
  }

  function SegData(g: Seg): seq<byte> {
    match g
    case Frame(_, b) => b
    case Reply(d) => d
  }

  // ---------------------------------------------------------------- bookkeeping

  datatype Author = Program | Mine | Theirs

  function Disturb(ms: seq<Mark>, a: nat, n: nat): (r: seq<Mark>)
    ensures |r| == |ms|
    ensures forall i :: 0 <= i < |ms| ==> r[i] == ms[i].(ok := ms[i].ok && Apart(ms[i].addr, |ms[i].data|, a, n))
  {
    seq(|ms|, i requires 0 <= i < |ms| => ms[i].(ok := ms[i].ok && Apart(ms[i].addr, |ms[i].data|, a, n)))
  }

  /** `n` bytes were stored at `a` on this side. */
  function Touch(k: Book, e: Endpoint, a: nat, n: nat, who: Author): Book
    requires |e.preq| == HEADER
  {
    k.(sent := Disturb(k.sent, a, n), got := Disturb(k.got, a, n),
       lclean := k.lclean && (who == Mine || e.lreq.None? || Apart(e.lreq.value.addr, e.lreq.value.length, a, n)),
       rclean := k.rclean && (who == Theirs || Apart(PeerHeader(e).remAddr, PeerHeader(e).length, a, n)))
  }

  /** The record of the segment that was just read completely. */
  function Received(k: Book, p: Pipe, req: Request, addr: nat, ok: bool): Book {
    if p.todo == [] then k else k.(got := k.got + [Mark(req, addr, SegData(p.todo[0]), ok)])
  }

  function NextBook(w: World, act: Action): Book
    requires Enabled(w.net, act)
  {
    var s, k, e := w.net, w.ka, w.net.a;
    var t := Next(s, act);
    match act
    case Submit(r) => k.(submitted := k.submitted + [r])
    case Fetch => k.(lclean := true)
    case Drive(n) =>
      var r := e.lreq.value;
      if r.kind.Recv? then k
      else if AwaitsReply(e) then
        var k1 := Touch(k, e, r.addr + e.lbytes, n, Mine);
        if t.a.lreq.None? && r.length > 0 then Received(k1, s.ba, r, r.addr, k1.lclean) else k1
      else if |t.ab.todo| > |s.ab.todo| then
        k.(sent := k.sent + [Mark(r, r.addr, SegData(t.ab.todo[|s.ab.todo|]), k.lclean)])
      else k
    case Input(n) =>
      if e.rphase == Body then
        var h := PeerHeader(e);
        var k1 := Touch(k, e, Landing(e) + e.rbytes, n, if h.kind.Send? then Mine else Theirs);
        if t.a.rphase == Body then k1
        else if h.kind.Send? && e.lreq.Some? then
          Received(k1, s.ba, e.lreq.value, e.lreq.value.addr, k1.lclean && h.length <= e.lreq.value.length)
        else Received(k1, s.ba, h, h.remAddr, k1.rclean)
      else if t.a.rphase == Header then k
      else
        var h := PeerHeader(t.a);
        var k1 := k.(rclean := true);
        if h.kind.RemRd? then Received(k1, s.ba, h, h.remAddr, true) else k1
    case Output(n) =>
      if |t.ab.todo| > |s.ab.todo| then
        k.(sent := k.sent + [Mark(PeerHeader(e), PeerHeader(e).remAddr, SegData(t.ab.todo[|s.ab.todo|]), k.rclean)])
      else k
    case AppWrite(addr, data) => Touch(k, e, addr, |data|, Program)
  }

  function NextW(w: World, act: Action): World
    requires Enabled(w.net, act)
  {
    World(Next(w.net, act), NextBook(w, act), w.kb)
  }

  // ---------------------------------------------------------------- what the books promise

  predicate Holds(mem: seq<byte>, m: Mark) { m.ok ==> Load(mem, m.addr, |m.data|) == m.data }

  predicate AllHold(mem: seq<byte>, ms: seq<Mark>) { forall i :: 0 <= i < |ms| ==> Holds(mem, ms[i]) }

  /** A written segment: a frame of the request it carries, or the reply to the peer's RemRd. */
  predicate SentMark(g: Seg, m: Mark) {
    && m.data == SegData(g)
    && (g.Frame? ==> m.req == g.hdr && m.addr == g.hdr.addr)
    && (g.Reply? ==> m.req.kind.RemRd? && m.addr == m.req.remAddr && |m.data| == m.req.length)
  }

  /** A read segment: a message in the buffer of a Recv request, bytes written where a RemWr
      says, or a reply in the buffer of the RemRd. */
  predicate GotMark(g: Seg, m: Mark) {
    && m.data == SegData(g)
    && (g.Frame? && g.hdr.kind.Send? ==> m.req.kind.Recv? && m.addr == m.req.addr)
    && (g.Frame? && g.hdr.kind.RemWr? ==> m.req == g.hdr && m.addr == g.hdr.remAddr)
    && (g.Reply? ==> m.req.kind.RemRd? && m.addr == m.req.addr)
  }

  predicate SentOk(segs: seq<Seg>, ms: seq<Mark>) {
    |ms| == |segs| && forall i :: 0 <= i < |ms| ==> SentMark(segs[i], ms[i])
  }

  predicate GotOk(segs: seq<Seg>, ms: seq<Mark>) {
    |ms| == |segs| && forall i :: 0 <= i < |ms| ==> GotMark(segs[i], ms[i])
  }

  /** One record for each segment written and each segment read, and the intact ones tell what is in memory. */
  predicate MarksOk(mem: seq<byte>, log: seq<Seg>, seen: seq<Seg>, k: Book) {
    SentOk(log, k.sent) && AllHold(mem, k.sent) && GotOk(seen, k.got) && AllHold(mem, k.got)
  }

  /** A reply reaches the request that asked for it. */
  predicate RepliesMatch(p: Pipe, sent: seq<Mark>, got: seq<Mark>) {
    forall i :: 0 <= i < |got| && i < |p.seen| && i < |sent| && p.seen[i].Reply? ==> got[i].req == sent[i].req
  }

  /** The Recv requests that took the messages among `segs`, in order. */
  function Takers(segs: seq<Seg>, ms: seq<Mark>): seq<Request>
    requires |segs| == |ms|
  {
    if segs == [] then []
    else
      var n := |segs| - 1;
      Takers(segs[..n], ms[..n]) + (if segs[n].Frame? && segs[n].hdr.kind.Send? then [ms[n].req] else [])
  }

  function Recvs(cs: seq<Request>): seq<Request> {
    if cs == [] then []
    else
      var n := |cs| - 1;
      Recvs(cs[..n]) + (if cs[n].kind.Recv? then [cs[n].(status := PENDING)] else [])
  }

  function Originals(cs: seq<Request>): (r: seq<Request>)
    ensures |r| == |cs|
  {
    seq(|cs|, i requires 0 <= i < |cs| => cs[i].(status := PENDING))
  }

  function Outstanding(e: Endpoint): seq<Request> {
    (if e.lreq.Some? then [e.lreq.value] else []) + e.queue
  }

  /** Every submitted request is, once, completed with success or still outstanding; they complete
      in the order of submission, and each message completes exactly one Recv, in order. */
  predicate LedgerOk(e: Endpoint, k: Book, inn: Pipe) {
    && k.submitted == Originals(e.comps) + Outstanding(e)
    && (forall i :: 0 <= i < |e.comps| ==> e.comps[i].status == SUCCESS)
    && |k.got| == |inn.seen| && Recvs(e.comps) == Takers(inn.seen, k.got)
  }

  /** The headers of the frames among `segs`. */
  function Heads(segs: seq<Seg>): seq<Request> {
    if segs == [] then []
    else
      var n := |segs| - 1;
      Heads(segs[..n]) + (if segs[n].Frame? then [segs[n].hdr] else [])
  }

  function Outs(cs: seq<Request>): seq<Request> {
    if cs == [] then []
    else
      var n := |cs| - 1;
      Outs(cs[..n]) + (if Outgoing(cs[n].kind) then [cs[n].(status := PENDING)] else [])
  }

  /** The request in the handler when its frame is written whole though it is not completed. */
  function WrittenOut(e: Endpoint): seq<Request> {
    if e.lreq.Some? && Outgoing(e.lreq.value.kind)
       && (e.lphase == Auto || (e.lphase == Body && BodyLength(e.lreq.value) == 0))
    then [e.lreq.value] else []
  }

  /** The frames on the stream are those of the completed requests, in order, and of this one. */
  predicate WrittenOk(e: Endpoint, out: Pipe) {
    Heads(Log(out)) == Outs(e.comps) + WrittenOut(e)
  }

  /** The part of the body that is written came out of the buffer of the request. */
  ghost predicate BodyFlow(e: Endpoint, k: Book, out: Pipe) {
    e.lreq.Some? && e.lphase == Body && BodyLength(e.lreq.value) > 0 && k.lclean ==>
      |out.cur| == HEADER + e.lbytes && out.cur[HEADER..] == Load(e.mem, e.lreq.value.addr, e.lbytes)
  }

  /** The part of the reply that is written came out of the range the peer asked for. */
  ghost predicate ReplyFlow(e: Endpoint, k: Book, out: Pipe) {
    Replying(e) && k.rclean ==> out.cur == Load(e.mem, PeerHeader(e).remAddr, e.rbytes)
  }

  /** The part of a message that is read is in the buffer of the Recv request. */
  ghost predicate MessageFlow(e: Endpoint, k: Book, inn: Pipe) {
    |e.preq| == HEADER && e.rphase == Body && PeerHeader(e).kind.Send? && e.rbytes > 0 && e.lreq.Some? && k.lclean
    && PeerHeader(e).length <= e.lreq.value.length ==>
      HEADER + e.rbytes <= |Line(inn)|
        && Load(e.mem, e.lreq.value.addr, e.rbytes) == Line(inn)[HEADER..HEADER + e.rbytes]
  }

  /** The part of a remote write that is read is where it belongs. */
  ghost predicate RemoteFlow(e: Endpoint, k: Book, inn: Pipe) {
    |e.preq| == HEADER && e.rphase == Body && PeerHeader(e).kind.RemWr? && k.rclean ==>
      HEADER + e.rbytes <= |Line(inn)|
        && Load(e.mem, PeerHeader(e).remAddr, e.rbytes) == Line(inn)[HEADER..HEADER + e.rbytes]
  }

  /** The part of a reply that is read is in the buffer of the RemRd request. */
  ghost predicate ReadFlow(e: Endpoint, k: Book, inn: Pipe) {
    Reading(e) && k.lclean ==>
      e.lbytes <= |Line(inn)| && Load(e.mem, e.lreq.value.addr, e.lbytes) == Line(inn)[..e.lbytes]
  }

  /** The bytes under way agree with this side's memory. */
  ghost predicate FlowOk(e: Endpoint, k: Book, out: Pipe, inn: Pipe) {
    BodyFlow(e, k, out) && ReplyFlow(e, k, out) && MessageFlow(e, k, inn) && RemoteFlow(e, k, inn)
      && ReadFlow(e, k, inn)
  }

  ghost predicate DataHalf(w: World) {
    && |w.net.a.preq| == HEADER
    && MarksOk(w.net.a.mem, Log(w.net.ab), w.net.ba.seen, w.ka)
    && RepliesMatch(w.net.ab, w.ka.sent, w.kb.got)
    && (Served(Flip(w.net)) ==> w.ka.sent != [] && w.ka.sent[|w.ka.sent| - 1].req == PeerHeader(w.net.a))
    && LedgerOk(w.net.a, w.ka, w.net.ba) && WrittenOk(w.net.a, w.net.ab)
    && FlowOk(w.net.a, w.ka, w.net.ab, w.net.ba)
  }

  ghost predicate InvW(w: World) {
    Inv(w.net) && DataHalf(w) && DataHalf(FlipW(w))
  }

  // ---------------------------------------------------------------- the book, step by step

  lemma WriteBook(w: World, n: nat)
    requires Enabled(w.net, Drive(n)) && Outgoing(w.net.a.lreq.value.kind) && !AwaitsReply(w.net.a)
    ensures var s, k, t, r := w.net, w.ka, Next(w.net, Drive(n)), w.net.a.lreq.value;
            NextBook(w, Drive(n))
            == if |t.ab.todo| > |s.ab.todo| then
                 k.(sent := k.sent + [Mark(r, r.addr, SegData(t.ab.todo[|s.ab.todo|]), k.lclean)])
               else k
  {
    hide Next, Offer;
  }

  lemma TakeBook(w: World, n: nat)
    requires Enabled(w.net, Drive(n)) && AwaitsReply(w.net.a)
    ensures var e, t := w.net.a, Next(w.net, Drive(n));
            var k1 := Touch(w.ka, e, e.lreq.value.addr + e.lbytes, n, Mine);
            NextBook(w, Drive(n))
            == if t.a.lreq.None? && e.lreq.value.length > 0 then
                 Received(k1, w.net.ba, e.lreq.value, e.lreq.value.addr, k1.lclean)
               else k1
  {
    hide Next, Touch, Received;
  }

  lemma HeaderBook(w: World, n: nat)
    requires Enabled(w.net, Input(n)) && w.net.a.rphase in {Free, Header}
    ensures var k, t := w.ka, Next(w.net, Input(n));
            |t.a.preq| == HEADER
            && NextBook(w, Input(n))
               == if t.a.rphase == Header then k
                  else if PeerHeader(t.a).kind.RemRd? then
                    Received(k.(rclean := true), w.net.ba, PeerHeader(t.a), PeerHeader(t.a).remAddr, true)
                  else k.(rclean := true)
  {
    hide Next, Touch, Received, Decode, Enabled;
    HeaderStep(w.net, n);
  }

  lemma BodyBook(w: World, n: nat)
    requires Enabled(w.net, Input(n)) && w.net.a.rphase == Body
    ensures var e, t, h := w.net.a, Next(w.net, Input(n)), PeerHeader(w.net.a);
            var k1 := Touch(w.ka, e, Landing(e) + e.rbytes, n, if h.kind.Send? then Mine else Theirs);
            NextBook(w, Input(n))
            == if t.a.rphase == Body then k1
               else if h.kind.Send? && e.lreq.Some? then
                 Received(k1, w.net.ba, e.lreq.value, e.lreq.value.addr, k1.lclean && h.length <= e.lreq.value.length)
               else Received(k1, w.net.ba, h, h.remAddr, k1.rclean)
  {
    hide Next, Touch, Received, Decode, Landing;
  }

  lemma OutputBook(w: World, n: nat)
    requires Enabled(w.net, Output(n))
    ensures var s, k, t, h := w.net, w.ka, Next(w.net, Output(n)), PeerHeader(w.net.a);
            NextBook(w, Output(n))
            == if |t.ab.todo| > |s.ab.todo| then
                 k.(sent := k.sent + [Mark(h, h.remAddr, SegData(t.ab.todo[|s.ab.todo|]), k.rclean)])
               else k
  {
    hide Next, Decode;
  }

  // ---------------------------------------------------------------- marks

  lemma DisturbHolds(mem: seq<byte>, ms: seq<Mark>, a: nat, data: seq<byte>)
    requires AllHold(mem, ms)
    ensures AllHold(Store(mem, a, data), Disturb(ms, a, |data|))
  {
    forall i | 0 <= i < |ms| ensures Holds(Store(mem, a, data), Disturb(ms, a, |data|)[i]) {
      if Disturb(ms, a, |data|)[i].ok {
        LoadStoreApart(mem, a, data, ms[i].addr, |ms[i].data|);
      }
    }
  }

  predicate SameReqs(ms: seq<Mark>, ns: seq<Mark>) {
    |ms| == |ns| && forall i :: 0 <= i < |ms| ==> ms[i].req == ns[i].req
  }

  lemma {:induction false} TakersSame(segs: seq<Seg>, ms: seq<Mark>, ns: seq<Mark>)
    requires |segs| == |ms| && SameReqs(ms, ns)
    ensures Takers(segs, ms) == Takers(segs, ns)
  {
    if segs != [] {
      TakersSame(segs[..|segs| - 1], ms[..|ms| - 1], ns[..|ns| - 1]);
    }
  }

  lemma MarksOnly(mem: seq<byte>, log: seq<Seg>, seen: seq<Seg>, k: Book, k': Book)
    requires MarksOk(mem, log, seen, k) && k'.sent == k.sent && k'.got == k.got
    ensures MarksOk(mem, log, seen, k')
  {
  }

  lemma RepliesSame(p: Pipe, q: Pipe, sent: seq<Mark>, got: seq<Mark>, sent': seq<Mark>, got': seq<Mark>)
    requires RepliesMatch(p, sent, got) && SameReqs(sent, sent') && SameReqs(got, got')
    ensures RepliesMatch(p, sent', got') && (q.seen == p.seen ==> RepliesMatch(q, sent', got'))
  {
  }

  lemma SameReqsRefl(ms: seq<Mark>)
    ensures SameReqs(ms, ms)
  {
  }

  /** One more segment is written. */
  lemma SendMark(mem: seq<byte>, log: seq<Seg>, seen: seq<Seg>, k: Book, g: Seg, m: Mark)
    requires MarksOk(mem, log, seen, k) && SentMark(g, m) && Holds(mem, m)
    ensures MarksOk(mem, log + [g], seen, k.(sent := k.sent + [m]))
  {
    hide Load;
  }

  lemma RepliesSent(p: Pipe, q: Pipe, sent: seq<Mark>, m: Mark, got: seq<Mark>)
    requires RepliesMatch(p, sent, got) && |got| <= |sent| && q.seen == p.seen
    ensures RepliesMatch(q, sent + [m], got) && RepliesMatch(q, sent, got)
  {
  }

  /** One more segment is read. */
  lemma ReceiveMark(mem: seq<byte>, log: seq<Seg>, seen: seq<Seg>, k: Book, g: Seg, m: Mark)
    requires MarksOk(mem, log, seen, k) && GotMark(g, m) && Holds(mem, m)
    ensures MarksOk(mem, log, seen + [g], k.(got := k.got + [m]))
    ensures |k.got| == |seen|
    ensures Takers(seen + [g], k.got + [m])
            == Takers(seen, k.got) + (if g.Frame? && g.hdr.kind.Send? then [m.req] else [])
  {
    hide Load, Takers;
    TakersSnoc(seen, k.got, g, m);
  }

  lemma RepliesGot(p: Pipe, q: Pipe, sent: seq<Mark>, got: seq<Mark>, g: Seg, m: Mark)
    requires RepliesMatch(p, sent, got) && |got| == |p.seen| && q.seen == p.seen + [g]
    requires g.Reply? && |got| < |sent| ==> m.req == sent[|got|].req
    ensures RepliesMatch(q, sent, got + [m])
  {
  }

  /** A store spoils the records of the range it hits and changes nothing else about them. */
  lemma TouchMarks(mem: seq<byte>, log: seq<Seg>, seen: seq<Seg>, k: Book, e: Endpoint, a: nat, data: seq<byte>,
          who: Author)
    requires MarksOk(mem, log, seen, k) && |e.preq| == HEADER
    ensures var k1 := Touch(k, e, a, |data|, who);
            && MarksOk(Store(mem, a, data), log, seen, k1)
            && SameReqs(k.sent, k1.sent) && SameReqs(k.got, k1.got) && k1.submitted == k.submitted
            && |k.got| == |seen| == |k1.got| && Takers(seen, k1.got) == Takers(seen, k.got)
  {
    hide Decode, Store, Load, Takers, Apart;
    DisturbHolds(mem, k.sent, a, data);
    DisturbHolds(mem, k.got, a, data);
    TakersSame(seen, k.got, Disturb(k.got, a, |data|));
  }

  lemma TakersSnoc(segs: seq<Seg>, ms: seq<Mark>, g: Seg, m: Mark)
    requires |segs| == |ms|
    ensures Takers(segs + [g], ms + [m]) == Takers(segs, ms) + (if g.Frame? && g.hdr.kind.Send? then [m.req] else [])
  {
    assert (segs + [g])[..|segs|] == segs;
    assert (ms + [m])[..|ms|] == ms;
  }

  lemma RecvsSnoc(cs: seq<Request>, c: Request)
    ensures Recvs(cs + [c]) == Recvs(cs) + (if c.kind.Recv? then [c.(status := PENDING)] else [])
  {
    assert (cs + [c])[..|cs|] == cs;
  }

  lemma HeadsSnoc(segs: seq<Seg>, g: Seg)
    ensures Heads(segs + [g]) == Heads(segs) + (if g.Frame? then [g.hdr] else [])
  {
    assert (segs + [g])[..|segs|] == segs;
  }

  lemma OutsSnoc(cs: seq<Request>, c: Request)
    ensures Outs(cs + [c]) == Outs(cs) + (if Outgoing(c.kind) then [c.(status := PENDING)] else [])
  {
    assert (cs + [c])[..|cs|] == cs;
  }

  /** The request in the handler is completed. */
  lemma LedgerCompletes(e: Endpoint, k: Book)
    requires e.lreq.Some? && e.lreq.value.status == PENDING && k.submitted == Originals(e.comps) + Outstanding(e)
    ensures Outs(Complete(e).comps) == Outs(e.comps) + (if Outgoing(e.lreq.value.kind) then [e.lreq.value] else [])
    ensures k.submitted == Originals(Complete(e).comps) + Outstanding(Complete(e))
    ensures Recvs(Complete(e).comps) == Recvs(e.comps) + (if e.lreq.value.kind.Recv? then [e.lreq.value] else [])
  {
    hide Recvs, Outs;
    OutsSnoc(e.comps, e.lreq.value.(status := SUCCESS));
    var r := e.lreq.value;
    assert Originals(e.comps + [r.(status := SUCCESS)]) == Originals(e.comps) + [r];
    RecvsSnoc(e.comps, r.(status := SUCCESS));
  }

  // ---------------------------------------------------------------- the side that does not move

  lemma OtherSide(w: World, v: World)
    requires InvW(w) && Inv(v.net)
    requires v.net.b == w.net.b && v.kb == w.kb
    requires v.net.ba.cur == w.net.ba.cur && Log(v.net.ba) == Log(w.net.ba)
    requires v.net.ab.seen == w.net.ab.seen && Line(w.net.ab) <= Line(v.net.ab)
    requires RepliesMatch(v.net.ba, v.kb.sent, v.ka.got)
    requires Served(v.net) ==> Served(w.net)
    ensures DataHalf(FlipW(v))
  {
    hide Encode, Decode, Flat, Log, Load, Store, Line, PipeOk, SegOk, Takers, Recvs, Originals, Heads, Outs, SenderOk,
      ReadOk;
    PipePart(w.net.ab);
    var l, m := Line(w.net.ab), Line(v.net.ab);
    assert forall i, j :: 0 <= i <= j <= |l| ==> m[i..j] == l[i..j];
  }

  // ---------------------------------------------------------------- the side that moves

  lemma SubmitData(w: World, r: Request)
    requires InvW(w) && MaySubmit(w.net, r)
    ensures DataHalf(NextW(w, Submit(r))) && DataHalf(FlipW(NextW(w, Submit(r))))
  {
    hide Encode, Decode, Flat, Log, Load, Store, Line, PipeOk, SegOk, Takers, Recvs, Originals, Heads, Outs, SenderOk,
      ReadOk;
    StreamsKept(w, Submit(r));
  }

  lemma FetchData(w: World)
    requires Enabled(w.net, Fetch) && InvW(w)
    ensures DataHalf(NextW(w, Fetch)) && DataHalf(FlipW(NextW(w, Fetch)))
  {
    hide Encode, Decode, Flat, Log, Load, Store, Line, PipeOk, SegOk, Takers, Recvs, Originals, Heads, Outs, SenderOk,
      ReadOk;
    StreamsKept(w, Fetch);
    assert w.net.a.queue == [w.net.a.queue[0]];
  }

  /** A step that leaves both streams alone. */
  lemma StreamsKept(w: World, act: Action)
    requires InvW(w) && Enabled(w.net, act)
    requires Next(w.net, act).ab == w.net.ab && Next(w.net, act).ba == w.net.ba && Next(w.net, act).b == w.net.b
    requires SameReqs(w.ka.got, NextBook(w, act).got)
    requires Served(Next(w.net, act)) ==> Served(w.net)
    ensures DataHalf(FlipW(NextW(w, act)))
  {
    hide Encode, Decode, Flat, Log, Load, Store, Line, PipeOk, SegOk, Takers, Recvs, Originals, Heads, Outs, SenderOk,
      ReadOk, FlowOk, NextBook, Next, Enabled, MarksOk, RepliesMatch, SameReqs, Served, LedgerOk, WrittenOk, Half;
    StepInv(w.net, act);
    SameReqsRefl(w.kb.sent);
    RepliesSame(w.net.ba, w.net.ba, w.kb.sent, w.ka.got, w.kb.sent, NextBook(w, act).got);
    OtherSide(w, NextW(w, act));
  }

  lemma PostRecvData(w: World)
    requires Enabled(w.net, Drive(0)) && w.net.a.lreq.value.kind.Recv? && InvW(w)
    ensures DataHalf(NextW(w, Drive(0))) && DataHalf(FlipW(NextW(w, Drive(0))))
  {
    hide Encode, Decode, Flat, Log, Load, Store, Line, PipeOk, SegOk, Takers, Recvs, Originals, Heads, Outs, SenderOk,
      ReadOk, MarksOk, RepliesMatch;
    SameReqsRefl(w.ka.got);
    StreamsKept(w, Drive(0));
  }

  // The program stores into its memory.

  /** A store apart from a range leaves every part of the range alone. */
  lemma StoreApart(mem: seq<byte>, a: nat, data: seq<byte>, b: nat, m: nat, k: nat)
    requires Apart(b, m, a, |data|) && k <= m
    ensures Load(Store(mem, a, data), b, k) == Load(mem, b, k)
  {
    LoadStoreApart(mem, a, data, b, k);
  }

  lemma AppWriteFlow(w: World, addr: nat, data: seq<byte>)
    requires InvW(w) && Enabled(w.net, AppWrite(addr, data))
    ensures var v := NextW(w, AppWrite(addr, data)); FlowOk(v.net.a, v.ka, v.net.ab, v.net.ba)
  {
    hide Encode, Decode, Flat, Log, Load, Store, Line, PipeOk, SegOk, Takers, Recvs, Originals, Heads, Outs, ReadOk,
      SenderOk, AllHold, Disturb, Apart, SentOk, GotOk, LedgerOk, WrittenOk;
    var e, k := w.net.a, w.ka;
    var v := NextW(w, AppWrite(addr, data));
    if e.lreq.Some? && v.ka.lclean {
      var r := e.lreq.value;
      if e.lbytes <= r.length { StoreApart(e.mem, addr, data, r.addr, r.length, e.lbytes); }
      if e.rbytes <= r.length { StoreApart(e.mem, addr, data, r.addr, r.length, e.rbytes); }
    }
    if v.ka.rclean && e.rbytes <= PeerHeader(e).length {
      StoreApart(e.mem, addr, data, PeerHeader(e).remAddr, PeerHeader(e).length, e.rbytes);
    }
  }

  lemma AppWriteData(w: World, addr: nat, data: seq<byte>)
    requires InvW(w) && Enabled(w.net, AppWrite(addr, data))
    ensures DataHalf(NextW(w, AppWrite(addr, data))) && DataHalf(FlipW(NextW(w, AppWrite(addr, data))))
  {
    hide Encode, Decode, Flat, Log, Load, Store, Line, PipeOk, SegOk, Takers, Recvs, Originals, Heads, Outs, ReadOk,
      SenderOk, ReceiverOk, FlowOk, Apart, MarksOk, RepliesMatch, Touch;
    var e, k := w.net.a, w.ka;
    AppWriteFlow(w, addr, data);
    TouchMarks(e.mem, Log(w.net.ab), w.net.ba.seen, k, e, addr, data, Program);
    SameReqsRefl(w.kb.got);
    RepliesSame(w.net.ab, w.net.ab, k.sent, w.kb.got, NextBook(w, AppWrite(addr, data)).sent, w.kb.got);
    StreamsKept(w, AppWrite(addr, data));
  }

  // Writing a frame.

  /** Whatever of the body is written came out of the request's buffer. */
  lemma WrittenBody(e: Endpoint, out: Pipe, n: nat)
    requires e.lreq.Some? && e.lphase == Body && BodyLength(e.lreq.value) > 0 && e.lbytes < e.lreq.value.length
    requires e.lreq.value.addr + e.lreq.value.length <= |e.mem| && n <= |Offer(e)|
    requires |out.cur| == HEADER + e.lbytes && out.cur[HEADER..] == Load(e.mem, e.lreq.value.addr, e.lbytes)
    ensures (out.cur + Offer(e)[..n])[HEADER..] == Load(e.mem, e.lreq.value.addr, e.lbytes + n)
  {
    hide Encode;
    LoadSplit(e.mem, e.lreq.value.addr, e.lbytes, n);
    assert (out.cur + Offer(e)[..n])[HEADER..] == out.cur[HEADER..] + Offer(e)[..n];
  }

  /** The streams around a write. */
  lemma WriteFacts(s: Net, n: nat)
    requires Inv(s) && Enabled(s, Drive(n)) && Outgoing(s.a.lreq.value.kind) && !AwaitsReply(s.a)
    ensures var t := Next(s, Drive(n));
            var cur := s.ab.cur + Offer(s.a)[..n];
            && Inv(t) && t.ba == s.ba && t.b == s.b && t.ab.seen == s.ab.seen && Line(s.ab) <= Line(t.ab)
            && t.a == Written(s.a, n) && !Replying(s.a) && (Served(t) ==> Served(s)) && !Served(Flip(t))
            && (if t.ab.todo == s.ab.todo then Log(t.ab) == Log(s.ab) && t.ab.cur == cur
                else
                  && |cur| >= HEADER && t.ab.todo == s.ab.todo + [Frame(s.a.lreq.value, cur[HEADER..])]
                  && Log(t.ab) == Log(s.ab) + [Frame(s.a.lreq.value, cur[HEADER..])] && t.ab.cur == [])
  {
    hide Encode, Decode, Flat, Log, Load, Store, Line, PipeOk, SegOk, ReceiverOk, SenderOk, RequestOk, Offer, Written;
    WriteInv(s, n);
    AnswersAlone(s);
    FramedOk(s.a, s.ab, n, |s.b.mem|);
    WrittenControl(s.a, n, |s.b.mem|);
  }

  /** What a write can rely on: the request in the handler and what is written of it. */
  lemma WriteView(w: World)
    requires InvW(w) && w.net.a.lreq.Some?
    ensures var e, r := w.net.a, w.net.a.lreq.value;
            && |e.preq| == HEADER && r.addr + r.length <= |e.mem| && r.status == PENDING && SenderOk(e, w.net.ab)
            && (e.lphase == Header ==> e.lbytes < HEADER)
            && (e.lphase == Body ==> !r.kind.RemRd? && (e.lbytes < r.length || e.lbytes == 0))
            && BodyFlow(e, w.ka, w.net.ab)
  {
    hide Encode, Decode, Flat, Log, Load, Store, Line, PipeOk, SegOk, Takers, Recvs, Originals, Heads, Outs, ReadOk,
      SenderOk, ReceiverOk, MarksOk, RepliesMatch, LedgerOk, WrittenOk, BodyFlow;
  }

  lemma WriteBodyFlow(w: World, n: nat)
    requires Enabled(w.net, Drive(n)) && Outgoing(w.net.a.lreq.value.kind) && !AwaitsReply(w.net.a) && InvW(w)
    ensures var v := NextW(w, Drive(n)); BodyFlow(v.net.a, v.ka, v.net.ab)
  {
    hide InvW, Inv, Encode, Decode, Flat, Log, Store, Line, PipeOk, Offer, Next, NextBook, SenderOk;
    var e := w.net.a;
    WriteView(w);
    WriteFacts(w.net, n) by { WorldNet(w); }
    WriteBook(w, n);
    SealedWhen(w.net, n);
    if e.lphase == Body && BodyLength(e.lreq.value) > 0 && w.ka.lclean { WrittenBody(e, w.net.ab, n); }
    if e.lphase == Header { StartsEmpty(w.net, n); }
  }

  lemma WorldNet(w: World)
    requires InvW(w)
    ensures Inv(w.net) && FlowOk(w.net.a, w.ka, w.net.ab, w.net.ba)
  {
    hide Inv, FlowOk, MarksOk, RepliesMatch, LedgerOk, WrittenOk;
  }

  /** When the header is out and a body follows, nothing of the body is. */
  lemma StartsEmpty(s: Net, n: nat)
    requires Enabled(s, Drive(n)) && Outgoing(s.a.lreq.value.kind) && s.a.lphase == Header && s.a.lbytes < HEADER
    requires SenderOk(s.a, s.ab)
    ensures var cur := s.ab.cur + Offer(s.a)[..n];
            Written(s.a, n).lphase == Body ==>
              |cur| == HEADER && cur[HEADER..] == Load(s.a.mem, s.a.lreq.value.addr, 0)
  {
    hide Encode;
    LoadNone(s.a.mem, s.a.lreq.value.addr);
  }

  lemma WriteFlow(w: World, n: nat)
    requires Enabled(w.net, Drive(n)) && Outgoing(w.net.a.lreq.value.kind) && !AwaitsReply(w.net.a) && InvW(w)
    ensures var v := NextW(w, Drive(n)); FlowOk(v.net.a, v.ka, v.net.ab, v.net.ba)
  {
    hide InvW, Inv, Encode, Decode, Flat, Log, Load, Store, Line, PipeOk, Offer, Next, NextBook, SenderOk, BodyFlow,
      Written;
    LoadNone(w.net.a.mem, if w.net.a.lreq.Some? then w.net.a.lreq.value.addr else 0);
    WriteView(w);
    WorldNet(w);
    WriteFacts(w.net, n);
    WriteBook(w, n);
    WriteBodyFlow(w, n);
    WrittenQuiet(w.net.a, n);
  }

  /** A write changes no memory, and nobody but a Recv or a waiting RemRd has bytes coming in. */
  lemma WrittenQuiet(e: Endpoint, n: nat)
    requires e.lreq.Some? && Outgoing(e.lreq.value.kind) && !AwaitsReply(e) && n <= |Offer(e)|
    requires e.lphase == Header ==> e.lbytes < HEADER
    requires e.lphase == Body ==> !e.lreq.value.kind.RemRd?
    ensures var f := Written(e, n);
            && f.mem == e.mem && f.preq == e.preq && f.rphase == e.rphase && f.rbytes == e.rbytes
            && (f.lreq == e.lreq || f.lreq == None) && (Reading(f) ==> f.lbytes == 0)
  {
    hide Encode, Load, Decode;
  }

  lemma WriteLedger(w: World, n: nat)
    requires Enabled(w.net, Drive(n)) && Outgoing(w.net.a.lreq.value.kind) && !AwaitsReply(w.net.a) && InvW(w)
    ensures WrittenOk(Next(w.net, Drive(n)).a, Next(w.net, Drive(n)).ab)
  {
    hide InvW, Inv, Encode, Decode, Flat, Log, Load, Store, Line, PipeOk, Takers, Recvs, Originals, Heads, Outs, Next;
    var e, s := w.net.a, w.net;
    WorldNet(w);
    WorldLedger(w);
    WriteView(w);
    WriteFacts(s, n);
    LedgerCompletes(e, w.ka);
    OfferLength(e);
    if Next(s, Drive(n)).ab.todo != s.ab.todo {
      HeadsSnoc(Log(s.ab), Frame(e.lreq.value, (s.ab.cur + Offer(e)[..n])[HEADER..]));
    }
    SealedWhen(s, n);
  }

  lemma WorldLedger(w: World)
    requires InvW(w)
    ensures LedgerOk(w.net.a, w.ka, w.net.ba) && WrittenOk(w.net.a, w.net.ab)
  {
    hide Inv, FlowOk, MarksOk, RepliesMatch, LedgerOk, WrittenOk;
  }

  /** A frame is sealed exactly when its length is reached. */
  lemma SealedWhen(s: Net, n: nat)
    requires Enabled(s, Drive(n)) && Outgoing(s.a.lreq.value.kind) && !AwaitsReply(s.a)
    ensures Next(s, Drive(n)).ab.todo != s.ab.todo
            <==> |s.ab.cur + Offer(s.a)[..n]| == HEADER + BodyLength(s.a.lreq.value)
  {
    hide Encode, Decode, Offer, Written;
  }

  lemma OfferLength(e: Endpoint)
    requires e.lreq.Some? && e.lreq.value.addr + e.lreq.value.length <= |e.mem|
    ensures e.lphase == Header && e.lbytes <= HEADER ==> |Offer(e)| == HEADER - e.lbytes
    ensures e.lphase == Body && e.lbytes <= e.lreq.value.length ==> |Offer(e)| == e.lreq.value.length - e.lbytes
  {
    hide Encode;
  }

  lemma WriteData(w: World, n: nat)
    requires Enabled(w.net, Drive(n)) && Outgoing(w.net.a.lreq.value.kind) && !AwaitsReply(w.net.a) && InvW(w)
    ensures DataHalf(NextW(w, Drive(n))) && DataHalf(FlipW(NextW(w, Drive(n))))
  {
    hide Encode, Decode, Flat, Log, Load, Store, Line, PipeOk, SegOk, Takers, Recvs, Originals, Heads, Outs, ReadOk,
      Offer, FlowOk, Half, MarksOk, RepliesMatch, WrittenOk, Next, NextBook, Served, SentMark, Holds, LedgerOk;
    var s, e, k := w.net, w.net.a, w.ka;
    var v := NextW(w, Drive(n));
    WriteBook(w, n);
    WriteFacts(s, n);
    WriteFlow(w, n);
    WriteLedger(w, n);
    WriteKeepsLedger(w, n);
    RepliesSent(s.ab, v.net.ab, k.sent, Mark(e.lreq.value, e.lreq.value.addr, [], true), w.kb.got) by { MarkCounts(w); }
    if v.net.ab.todo != s.ab.todo {
      var f := s.ab.cur + Offer(e)[..n];
      var g := Frame(e.lreq.value, f[HEADER..]);
      var m := Mark(e.lreq.value, e.lreq.value.addr, f[HEADER..], k.lclean);
      WrittenWhole(w, n);
      SendMark(e.mem, Log(s.ab), s.ba.seen, k, g, m);
      RepliesSent(s.ab, v.net.ab, k.sent, m, w.kb.got) by { MarkCounts(w); }
    }
    OtherSide(w, v);
  }

  lemma MarkCounts(w: World)
    requires InvW(w)
    ensures |w.ka.sent| == |Log(w.net.ab)| && |w.kb.got| == |w.net.ab.seen| <= |w.ka.sent|
  {
    hide Inv, FlowOk, LedgerOk, WrittenOk, RepliesMatch, AllHold;
  }

  lemma WriteKeepsLedger(w: World, n: nat)
    requires Enabled(w.net, Drive(n)) && Outgoing(w.net.a.lreq.value.kind) && !AwaitsReply(w.net.a) && InvW(w)
    ensures LedgerOk(Next(w.net, Drive(n)).a, NextBook(w, Drive(n)), w.net.ba)
    ensures Next(w.net, Drive(n)).a.mem == w.net.a.mem && |Next(w.net, Drive(n)).a.preq| == HEADER
  {
    hide InvW, Inv, Encode, Decode, Load, Takers, Recvs, Originals, Outs, Next, NextBook, Offer, Line, Log, Served;
    WriteView(w);
    WorldLedger(w);
    WriteFacts(w.net, n) by { WorldNet(w); }
    WriteBook(w, n);
    LedgerCompletes(w.net.a, w.ka);
  }

  /** The record of a sealed frame: it carries the buffer of its request. */
  lemma WrittenWhole(w: World, n: nat)
    requires Enabled(w.net, Drive(n)) && Outgoing(w.net.a.lreq.value.kind) && !AwaitsReply(w.net.a) && InvW(w)
    requires Next(w.net, Drive(n)).ab.todo != w.net.ab.todo
    ensures n <= |Offer(w.net.a)|
    ensures var r, f := w.net.a.lreq.value, w.net.ab.cur + Offer(w.net.a)[..n];
            |f| >= HEADER
            && (var m := Mark(r, r.addr, f[HEADER..], w.ka.lclean);
                SentMark(Frame(r, f[HEADER..]), m) && Holds(w.net.a.mem, m))
  {
    hide InvW, Inv, Encode, Decode, Flat, Log, Store, Line, PipeOk, Next, Served;
    var e := w.net.a;
    WriteView(w);
    WriteFacts(w.net, n) by { WorldNet(w); }
    SealedWhen(w.net, n);
    if w.ka.lclean {
      if e.lphase == Body && BodyLength(e.lreq.value) > 0 {
        WrittenBody(e, w.net.ab, n);
      } else {
        LoadNone(e.mem, e.lreq.value.addr);
      }
    }
  }

  // Answering a RemRd.

  /** The reply as it stands when `n` more bytes of it are written. */
  function ReplySoFar(s: Net, n: nat): seq<byte> {
    if |s.a.preq| == HEADER && n <= |ReplyOffer(s.a)| then s.ab.cur + ReplyOffer(s.a)[..n] else []
  }

  /** The streams around a step of the answering side. */
  lemma OutputFacts(s: Net, n: nat)
    requires Enabled(s, Output(n)) && Inv(s)
    ensures var t := Next(s, Output(n));
            var cur := ReplySoFar(s, n);
            var h := PeerHeader(s.a);
            && Inv(t) && t.ba == s.ba && t.ab.seen == s.ab.seen && Line(s.ab) <= Line(t.ab) && !Served(t)
            && h.kind.RemRd? && h.remAddr + h.length <= |s.a.mem| && s.a.rbytes + n <= h.length
            && (Replying(s.a) ==> Serving(Flip(s)) && !Talks(s.a) && |s.ab.cur| == s.a.rbytes < h.length)
            && (if t.ab.todo == s.ab.todo then Log(t.ab) == Log(s.ab) && t.ab.cur == cur && !Served(Flip(t))
                else
                  && Replying(s.a) && |cur| == h.length && t.ab.cur == []
                  && t.ab.todo == s.ab.todo + [Reply(cur)] && Log(t.ab) == Log(s.ab) + [Reply(cur)])
            && (t.ab.todo == s.ab.todo && Replying(s.a) ==> s.a.rbytes + n < h.length)
            && (!Replying(s.a) ==> t.ab == s.ab)
  {
    hide Encode, Decode, Flat, Log, Load, Store, PipeOk, SegOk, Line;
    OutputInv(s, n);
    ReplyOffered(s.a);
    if Replying(s.a) {
      ReplyPushed(s.ab, ReplyOffer(s.a)[..n]);
    } else {
      assert Push(s.ab, ReplyOffer(s.a)[..n]) == s.ab;
    }
  }

  /** What answering leaves alone in the side. */
  lemma RepliedSame(s: Net, n: nat)
    requires Enabled(s, Output(n))
    ensures var t := Next(s, Output(n));
            && t.b == s.b && t.a == s.a.(rphase := t.a.rphase, rbytes := t.a.rbytes)
            && t.a.rphase in {Free, Auto}
            && (t.a.rphase == Auto <==> s.a.rbytes + n < PeerHeader(s.a).length)
            && (t.a.rphase == Auto ==> t.a.rbytes == s.a.rbytes + n)
  {
    hide Encode, Decode, Load;
  }

  lemma ReplyChunk(e: Endpoint, cur: seq<byte>, n: nat)
    requires |e.preq| == HEADER && n <= |ReplyOffer(e)| && e.rbytes <= PeerHeader(e).length
    requires PeerHeader(e).remAddr + PeerHeader(e).length <= |e.mem|
    requires cur == Load(e.mem, PeerHeader(e).remAddr, e.rbytes)
    ensures cur + ReplyOffer(e)[..n] == Load(e.mem, PeerHeader(e).remAddr, e.rbytes + n)
  {
    hide Decode;
    LoadSplit(e.mem, PeerHeader(e).remAddr, e.rbytes, n);
  }

  lemma OutputFlow(w: World, n: nat)
    requires Enabled(w.net, Output(n)) && InvW(w)
    ensures var v := NextW(w, Output(n)); FlowOk(v.net.a, v.ka, v.net.ab, v.net.ba)
    ensures Replying(w.net.a) && w.ka.rclean ==>
              ReplySoFar(w.net, n)
                == Load(w.net.a.mem, PeerHeader(w.net.a).remAddr, w.net.a.rbytes + n)
  {
    hide InvW, Inv, Encode, Decode, Flat, Log, Load, Store, Line, PipeOk, ReplyOffer, Serving, Served, Next, NextBook;
    WorldNet(w);
    OutputBook(w, n);
    OutputFacts(w.net, n);
    RepliedSame(w.net, n);
    if Replying(w.net.a) && w.ka.rclean {
      ReplyChunk(w.net.a, w.net.ab.cur, n);
    }
    if w.net.a.lreq.Some? && Outgoing(w.net.a.lreq.value.kind) && Replying(w.net.a) { AnswersAlone(w.net); }
  }

  lemma OutputData(w: World, n: nat)
    requires Enabled(w.net, Output(n)) && InvW(w)
    ensures DataHalf(NextW(w, Output(n))) && DataHalf(FlipW(NextW(w, Output(n))))
  {
    hide Encode, Decode, Flat, Log, Load, Store, Line, PipeOk, SegOk, Takers, Recvs, Originals, Heads, Outs, ReadOk,
      Half, FlowOk, ReplySoFar, MarksOk, RepliesMatch, SentMark, Next, NextBook, Serving, Served, Holds;
    var s, k, v := w.net, w.ka, NextW(w, Output(n));
    OutputBook(w, n);
    OutputFacts(s, n);
    RepliedSame(s, n);
    OutputFlow(w, n);
    var f, h := ReplySoFar(s, n), PeerHeader(s.a);
    var m := Mark(h, h.remAddr, f, k.rclean);
    RepliesSent(s.ab, v.net.ab, k.sent, m, w.kb.got) by { MarkCounts(w); }
    if v.net.ab.todo != s.ab.todo {
      HeadsSnoc(Log(s.ab), Reply(f));
      ReplyWhole(w, n);
      SendMark(s.a.mem, Log(s.ab), s.ba.seen, k, Reply(f), m);
    }
    OtherSide(w, v);
  }

  /** The record of a reply that is written whole. */
  lemma ReplyWhole(w: World, n: nat)
    requires Enabled(w.net, Output(n)) && InvW(w) && Next(w.net, Output(n)).ab.todo != w.net.ab.todo
    ensures var f, h := ReplySoFar(w.net, n), PeerHeader(w.net.a);
            var m := Mark(h, h.remAddr, f, w.ka.rclean);
            SentMark(Reply(f), m) && Holds(w.net.a.mem, m)
  {
    hide Inv, Encode, Decode, Log, Load, Line, PipeOk, ReplyOffer, Serving, Served, Next, NextBook, FlowOk, MarksOk,
      RepliesMatch, LedgerOk, WrittenOk;
    OutputFacts(w.net, n);
    OutputFlow(w, n);
  }

  // Waiting for a reply.

  /** The streams around a step of a RemRd request that waits for its reply. */
  lemma ReplyFacts(s: Net, n: nat)
    requires Inv(s) && Enabled(s, Drive(n)) && AwaitsReply(s.a)
    ensures var t := Next(s, Drive(n));
            var r := s.a.lreq.value;
            && Inv(t) && t.ab == s.ab && t.ba.cur == s.ba.cur && Log(t.ba) == Log(s.ba) && !Replying(s.a)
              && !Served(Flip(t))
            && r.addr + r.length <= |s.a.mem| && (Served(t) ==> Served(s)) && s.a.lbytes + n <= r.length
            && (r.length > 0 ==> s.a.rphase in {Free, Header}) && (r.length == 0 ==> n == 0)
            && (Reading(s.a) ==>
                  && s.a.lbytes + n <= |Line(s.ba)|
                  && s.ba.flight[..n] == Line(s.ba)[s.a.lbytes..s.a.lbytes + n])
            && (if t.a.lreq.None? && r.length > 0 then
                  && Served(s) && s.a.lbytes + n == r.length && Line(s.ba) == s.ba.todo[0].data
                  && t.ba.seen == s.ba.seen + [s.ba.todo[0]]
                else t.ba.seen == s.ba.seen && Line(t.ba) == Line(s.ba) && (t.a.lreq.None? ==> t.ba == s.ba))
  {
    hide Encode, Decode, Log, Load, Store, SegOk, PipeOk, Line, Flat;
    TakeReplyInv(s, n);
    if Reading(s.a) {
      ReplyPulled(s, n);
    } else {
      assert Pull(s.ba, n) == s.ba;
    }
  }

  lemma ReplyFlows(w: World, n: nat)
    requires Enabled(w.net, Drive(n)) && AwaitsReply(w.net.a) && InvW(w)
    ensures var v := NextW(w, Drive(n)); FlowOk(v.net.a, v.ka, v.net.ab, v.net.ba)
    ensures w.net.a.lreq.value.length > 0 && w.ka.lclean ==>
              Load(Next(w.net, Drive(n)).a.mem, w.net.a.lreq.value.addr, w.net.a.lbytes + n)
                == Line(w.net.ba)[..w.net.a.lbytes + n]
  {
    hide InvW, Inv, Encode, Decode, Flat, Log, Load, Store, Line, PipeOk, Next, NextBook, Served, Disturb;
    WorldNet(w);
    TakeStep(w.net, n);
    TakeBook(w, n);
    ReplyFacts(w.net, n);
    var e := w.net.a;
    var r := e.lreq.value;
    if r.length > 0 {
      if w.ka.lclean {
        LoadStoreNext(e.mem, r.addr, e.lbytes, w.net.ba.flight[..n]);
        var l := Line(w.net.ba);
        assert l[..e.lbytes] + l[e.lbytes..e.lbytes + n] == l[..e.lbytes + n];
      }
    } else {
      StoreNothing(e.mem, r.addr + e.lbytes);
    }
  }

  lemma ReplyData(w: World, n: nat)
    requires Enabled(w.net, Drive(n)) && AwaitsReply(w.net.a) && InvW(w)
    ensures DataHalf(NextW(w, Drive(n))) && DataHalf(FlipW(NextW(w, Drive(n))))
  {
    hide Encode, Decode, Flat, Log, Load, Store, Line, PipeOk, SegOk, Takers, Recvs, Originals, Heads, Outs, ReadOk,
      Half, FlowOk, MarksOk, RepliesMatch, Next, NextBook, Served, SameReqs, GotMark, Holds, Touch;
    var s, e, k, v := w.net, w.net.a, w.ka, NextW(w, Drive(n));
    var r := e.lreq.value;
    TakeStep(s, n);
    TakeBook(w, n);
    ReplyFacts(s, n);
    ReplyFlows(w, n);
    WriteView(w);
    LedgerCompletes(e, k);
    var k1 := Touch(k, e, r.addr + e.lbytes, n, Mine);
    TouchMarks(e.mem, Log(s.ab), s.ba.seen, k, e, r.addr + e.lbytes, s.ba.flight[..n], Mine);
    SameReqsRefl(w.kb.got);
    SameReqsRefl(w.kb.sent);
    RepliesSame(s.ab, v.net.ab, k.sent, w.kb.got, k1.sent, w.kb.got);
    RepliesSame(s.ba, v.net.ba, w.kb.sent, k.got, w.kb.sent, k1.got);
    if v.net.a.lreq.None? && r.length > 0 {
      var g, m := s.ba.todo[0], Mark(r, r.addr, SegData(s.ba.todo[0]), k1.lclean);
      ReplyRead(w, n);
      ReceiveMark(v.net.a.mem, Log(s.ab), s.ba.seen, k1, g, m);
      RepliesGot(s.ba, v.net.ba, w.kb.sent, k1.got, g, m);
    }
    OtherSide(w, v);
  }

  /** The record of a reply that is read whole. */
  lemma ReplyRead(w: World, n: nat)
    requires Enabled(w.net, Drive(n)) && AwaitsReply(w.net.a) && InvW(w)
    requires Next(w.net, Drive(n)).a.lreq.None? && w.net.a.lreq.value.length > 0
    ensures w.net.ba.todo != [] && w.net.ba.todo[0].Reply? && |w.ka.got| == |w.net.ba.seen|
    ensures var r := w.net.a.lreq.value;
            var k1 := Touch(w.ka, w.net.a, r.addr + w.net.a.lbytes, n, Mine);
            var m := Mark(r, r.addr, SegData(w.net.ba.todo[0]), k1.lclean);
            && GotMark(w.net.ba.todo[0], m) && Holds(Next(w.net, Drive(n)).a.mem, m)
            && |w.kb.sent| == |w.ka.got| + 1 && w.kb.sent[|w.ka.got|].req == r
  {
    hide Encode, Decode, Load, Store, Line, PipeOk, FlowOk, LedgerOk, WrittenOk, RepliesMatch, Next, NextBook, Half,
      AllHold;
    ReplyFacts(w.net, n);
    ReplyFlows(w, n);
    assert Line(w.net.ba)[..w.net.a.lreq.value.length] == Line(w.net.ba);
  }

  // Reading the peer's requests.

  /** What every step of reading leaves alone. */
  lemma InputFrame(s: Net, n: nat)
    requires Inv(s) && Enabled(s, Input(n))
    ensures var t := Next(s, Input(n));
            && Inv(t) && t.ab == s.ab && t.ba.cur == s.ba.cur && !Served(t) && !Served(Flip(t))
            && !Reading(s.a) && !Reading(t.a) && !Replying(s.a)
            && s.ba.part + n <= |Line(s.ba)| && s.ba.flight[..n] == Line(s.ba)[s.ba.part..s.ba.part + n]
  {
    hide Encode, Decode, Log, Load, Store, SegOk, PipeOk, Line, Flat, ReceiverOk, SenderOk;
    StepInv(s, Input(n));
    NotReadyToRead(s);
    if Reading(s.b) { NothingBehindRead(s); }
    FlightBound(s.ba, n);
  }

  lemma FlightBound(p: Pipe, n: nat)
    requires PipeOk(p) && n <= |p.flight|
    ensures p.part + n <= |Line(p)| && p.flight[..n] == Line(p)[p.part..p.part + n]
  {
    hide Encode, Flat;
  }

  /** A side that answers a RemRd writes nothing else. */
  lemma ReplyAlone(s: Net)
    requires Inv(s) && Replying(s.a)
    ensures |s.ab.cur| == s.a.rbytes && !Talks(s.a)
  {
    hide Encode, Decode, Log, Load, Store, SegOk, PipeOk, Line, Flat;
  }

  /** Within or at the end of the header of the peer's request: the streams. */
  lemma HeaderFacts(s: Net, n: nat)
    requires Inv(s) && Enabled(s, Input(n)) && s.a.rphase in {Free, Header}
    ensures var t := Next(s, Input(n));
            && t.a.mem == s.a.mem && t.a.comps == s.a.comps && t.a.queue == s.a.queue
            && t.a.lreq == s.a.lreq && t.a.lphase == s.a.lphase && t.a.lbytes == s.a.lbytes
            && Log(t.ba) == Log(s.ba) && (t.a.rphase in {Header, Body, Auto})
            && (t.a.rphase == Header ==> t.ba.seen == s.ba.seen)
            && (t.a.rphase == Body ==> t.ba.seen == s.ba.seen && t.a.rbytes == 0 && HEADER <= |Line(t.ba)|)
            && (t.a.rphase == Auto ==> s.ba.todo != [] && s.ba.todo[0].Frame? && t.ba.seen == s.ba.seen + [s.ba.todo[0]]
                                       && s.ba.todo[0].body == [] && s.ba.todo[0].hdr.kind.RemRd? && t.a.rbytes == 0)
  {
    hide Encode, Decode, Log, Load, Store, SegOk, PipeOk, Line, Flat, ReadOk, Next, Enabled, SenderOk, ControlOk;
    HeaderStep(s, n);
    HeaderPulled(s.a, s.ba, n, s.a.rbytes) by { NotReadyToRead(s); }
    if s.a.rbytes + n == HEADER {
      HeaderWhole(s, n);
    }
  }

  lemma HeaderWhole(s: Net, n: nat)
    requires Inv(s) && Enabled(s, Input(n)) && s.a.rphase in {Free, Header} && s.a.rbytes + n == HEADER
    ensures var t := Next(s, Input(n));
            && t.a.rphase in {Body, Auto}
            && (t.a.rphase == Body ==> Log(t.ba) == Log(s.ba) && HEADER <= |Line(t.ba)|)
            && (t.a.rphase == Auto ==>
                  s.ba.todo != [] && s.ba.todo[0].Frame? && Log(t.ba) == Log(s.ba) && s.ba.todo[0].body == []
                  && s.ba.todo[0].hdr.kind.RemRd?)
  {
    hide Encode, Decode, Log, Load, Store, PipeOk, Line, Flat, ReadOk, Next, Enabled, SenderOk, ControlOk;
    HeaderStep(s, n);
    if Next(s, Input(n)).a.rphase == Auto {
      ReplyAhead(s, n);
      OldestWhole(s.ba, |s.a.mem|);
    } else {
      BodyAhead(s, n);
    }
  }

  lemma OldestWhole(p: Pipe, memory: nat)
    requires p.todo != [] && forall i :: 0 <= i < |Log(p)| ==> SegOk(Log(p)[i], memory)
    ensures p.todo[0].Frame? ==> |p.todo[0].body| == BodyLength(p.todo[0].hdr)
  {
    assert Log(p)[|p.seen|] == p.todo[0];
  }

  /** The header that starts a reply is that of the request read last. */
  lemma HeaderRead(s: Net, n: nat)
    requires Inv(s) && Enabled(s, Input(n)) && s.a.rphase in {Free, Header} && s.a.rbytes + n == HEADER
             && s.ba.todo != []
    ensures HEADER <= |Line(s.ba)| && Next(s, Input(n)).a.preq == Line(s.ba)[..HEADER]
    ensures s.ba.todo[0].Frame? && s.ba.todo[0].hdr == Decode(Line(s.ba)[..HEADER])
  {
    hide Encode, Decode, Log, Load, Store, SegOk, PipeOk, Line, Flat, ReadOk, SenderOk;
    HeaderPulled(s.a, s.ba, n, s.a.rbytes);
    NotReadyToRead(s);
    var r := FirstHeader(s);
    assert Next(s, Input(n)).a.preq == Line(s.ba)[..HEADER];
  }

  lemma HeaderFlow(w: World, n: nat)
    requires Enabled(w.net, Input(n)) && w.net.a.rphase in {Free, Header} && InvW(w)
    ensures var v := NextW(w, Input(n)); FlowOk(v.net.a, v.ka, v.net.ab, v.net.ba)
  {
    hide InvW, Inv, Encode, Decode, Flat, Log, Load, Store, Line, PipeOk, Next, NextBook, Served, Enabled;
    var v := NextW(w, Input(n));
    WorldNet(w);
    HeaderBook(w, n);
    InputFrame(w.net, n);
    HeaderFacts(w.net, n);
    LoadNothing(v.net.a.mem, 0, Line(v.net.ba));
    if Replying(v.net.a) { ReplyAlone(v.net); }
    RemoteStarts(v.net.a, v.ka, v.net.ba);
  }

  lemma RemoteStarts(e: Endpoint, k: Book, inn: Pipe)
    requires |e.preq| == HEADER && (e.rphase == Body ==> e.rbytes == 0 && HEADER <= |Line(inn)|)
    ensures RemoteFlow(e, k, inn)
    ensures Load(e.mem, PeerHeader(e).remAddr, 0) == []
  {
    hide Decode, Line;
  }

  lemma HeaderData(w: World, n: nat)
    requires Enabled(w.net, Input(n)) && w.net.a.rphase in {Free, Header} && InvW(w)
    ensures DataHalf(NextW(w, Input(n))) && DataHalf(FlipW(NextW(w, Input(n))))
  {
    hide Encode, Decode, Flat, Log, Load, Store, Line, PipeOk, SegOk, Takers, Recvs, Originals, Heads, Outs, ReadOk,
      Half, FlowOk, MarksOk, RepliesMatch, Next, NextBook, Served, Enabled, SameReqs, Holds;
    var s, k, v := w.net, w.ka, NextW(w, Input(n));
    HeaderStep(s, n);
    HeaderBook(w, n);
    InputFrame(s, n);
    HeaderFacts(s, n);
    HeaderFlow(w, n);
    SameReqsRefl(k.got);
    SameReqsRefl(w.kb.sent);
    RepliesSame(s.ba, v.net.ba, w.kb.sent, k.got, w.kb.sent, k.got);
    MarksOnly(s.a.mem, Log(s.ab), s.ba.seen, k, k.(rclean := true));
    if v.net.a.rphase == Auto {
      HeaderMark(w, n);
      var g, m := s.ba.todo[0], v.ka.got[|k.got|];
      ReceiveMark(s.a.mem, Log(s.ab), s.ba.seen, k.(rclean := true), g, m);
      RepliesGot(s.ba, v.net.ba, w.kb.sent, k.got, g, m);
    }
    OtherSide(w, v);
  }

  /** The record of a RemRd frame, which carries no bytes. */
  lemma HeaderMark(w: World, n: nat)
    requires Enabled(w.net, Input(n)) && w.net.a.rphase in {Free, Header} && InvW(w)
    requires Next(w.net, Input(n)).a.rphase == Auto
    ensures w.net.ba.todo != [] && |NextBook(w, Input(n)).got| == |w.ka.got| + 1 == |w.net.ba.seen| + 1
    ensures var m := NextBook(w, Input(n)).got[|w.ka.got|];
            && NextBook(w, Input(n)) == w.ka.(rclean := true, got := w.ka.got + [m])
            && GotMark(w.net.ba.todo[0], m) && Holds(w.net.a.mem, m)
  {
    hide InvW, Inv, Encode, Decode, Log, Line, PipeOk, Next, NextBook, Served, Enabled;
    WorldNet(w);
    WorldLedger(w);
    HeaderStep(w.net, n);
    HeaderBook(w, n);
    HeaderFacts(w.net, n);
  }

  /** The body of the peer's request: the streams. */
  lemma BodyFacts(s: Net, n: nat)
    requires Inv(s) && Enabled(s, Input(n)) && s.a.rphase == Body
    ensures var t := Next(s, Input(n));
            var h := PeerHeader(s.a);
            && s.ba.part == HEADER + s.a.rbytes && s.a.rbytes + n <= h.length && HEADER + s.a.rbytes + n <= |Line(s.ba)|
            && Log(t.ba) == Log(s.ba)
            && (h.kind.Send? ==> RecvPosted(s.a) && s.a.lreq.value.addr + s.a.lreq.value.length <= |s.a.mem|)
            && (!h.kind.Send? ==> h.kind.RemWr? && h.remAddr + h.length <= |s.a.mem|)
            && (t.a.rphase == Body ==> t.ba.seen == s.ba.seen && Line(t.ba) == Line(s.ba) && s.a.rbytes + n < h.length)
            && (t.a.rphase != Body ==>
                  && t.a.rphase == Free && s.a.rbytes + n == h.length && s.ba.todo != []
                  && s.ba.todo[0].Frame? && s.ba.todo[0].hdr == h && t.ba.seen == s.ba.seen + [s.ba.todo[0]]
                  && s.ba.todo[0].body == Line(s.ba)[HEADER..HEADER + h.length])
  {
    hide Encode, Decode, Log, Load, Store, SegOk, PipeOk, Line, Flat, ReadOk;
    var t := Next(s, Input(n));
    NotReadyToRead(s);
    FlightBound(s.ba, n);
    var r := FirstHeader(s);
    assert PeerHeader(s.a) == r;
    PullOk(s.ba, n);
    if s.a.rbytes + n == r.length {
      AcceptOk(Pull(s.ba, n));
      assert Line(s.ba)[HEADER..HEADER + r.length] == s.ba.todo[0].body;
    }
  }

  /** The bytes of a body after the next chunk of it landed. */
  lemma Landed(mem: seq<byte>, a: nat, done: nat, l: seq<byte>, n: nat)
    requires a + done + n <= |mem| && HEADER + done + n <= |l|
    requires Load(mem, a, done) == l[HEADER..HEADER + done]
    ensures Load(Store(mem, a + done, l[HEADER + done..HEADER + done + n]), a, done + n) == l[HEADER..HEADER + done + n]
  {
    LoadStoreNext(mem, a, done, l[HEADER + done..HEADER + done + n]);
    assert l[HEADER..HEADER + done] + l[HEADER + done..HEADER + done + n] == l[HEADER..HEADER + done + n];
  }

  lemma MessageFlows(w: World, n: nat)
    requires Enabled(w.net, Input(n)) && w.net.a.rphase == Body && PeerHeader(w.net.a).kind.Send? && InvW(w)
    ensures var v := NextW(w, Input(n)); FlowOk(v.net.a, v.ka, v.net.ab, v.net.ba)
    ensures var e, l := w.net.a, Line(w.net.ba);
            && HEADER + e.rbytes + n <= |l| && e.lreq.Some?
            && (w.ka.lclean && PeerHeader(e).length <= e.lreq.value.length ==>
                 Load(Next(w.net, Input(n)).a.mem, e.lreq.value.addr, e.rbytes + n) == l[HEADER..HEADER + e.rbytes + n])
  {
    hide InvW, Inv, Encode, Decode, Flat, Log, Load, Store, Line, PipeOk, Next, NextBook, Served, Disturb;
    var e := w.net.a;
    WorldNet(w);
    BodyStep(w.net, n);
    BodyBook(w, n);
    InputFrame(w.net, n);
    BodyFacts(w.net, n);
    if w.ka.lclean && PeerHeader(e).length <= e.lreq.value.length {
      if e.rbytes == 0 { LoadNothing(e.mem, e.lreq.value.addr, Line(w.net.ba)); }
      Landed(e.mem, e.lreq.value.addr, e.rbytes, Line(w.net.ba), n);
    }
  }

  lemma LoadNothing(mem: seq<byte>, a: nat, l: seq<byte>)
    ensures |l| >= HEADER ==> Load(mem, a, 0) == l[HEADER..HEADER]
  {
  }

  /** What every part of a body leaves true: marks, ledger and the other side; `v` is the world after it, `k1` its book
      before a completed segment is recorded. */
  lemma BodyTouched(w: World, n: nat, k1: Book, v: World)
    requires Enabled(w.net, Input(n)) && w.net.a.rphase == Body && InvW(w) && v == NextW(w, Input(n))
    requires k1 == Touch(w.ka, w.net.a, Landing(w.net.a) + w.net.a.rbytes, n,
                         if PeerHeader(w.net.a).kind.Send? then Mine else Theirs)
    ensures MarksOk(v.net.a.mem, Log(w.net.ab), w.net.ba.seen, k1) && k1.submitted == w.ka.submitted
    ensures |k1.got| == |w.net.ba.seen| == |w.ka.got|
    ensures Takers(w.net.ba.seen, k1.got) == Takers(w.net.ba.seen, w.ka.got)
    ensures v.net.ab == w.net.ab && RepliesMatch(w.net.ab, k1.sent, w.kb.got)
    ensures RepliesMatch(w.net.ba, w.kb.sent, k1.got)
    ensures v.net.ba.seen == w.net.ba.seen ==> RepliesMatch(v.net.ba, w.kb.sent, k1.got)
  {
    hide Encode, Decode, Flat, Log, Load, Store, Line, PipeOk, Takers, Half, FlowOk, MarksOk, RepliesMatch, Next,
      NextBook, Served, SameReqs, Touch, LedgerOk, WrittenOk;
    var s, e, k := w.net, w.net.a, w.ka;
    BodyStep(s, n);
    TouchMarks(e.mem, Log(s.ab), s.ba.seen, k, e, Landing(e) + e.rbytes, s.ba.flight[..n],
               if PeerHeader(e).kind.Send? then Mine else Theirs);
    SameReqsRefl(w.kb.got);
    SameReqsRefl(w.kb.sent);
    RepliesSame(s.ab, v.net.ab, k.sent, w.kb.got, k1.sent, w.kb.got);
    RepliesSame(s.ba, v.net.ba, w.kb.sent, k.got, w.kb.sent, k1.got);
  }

  /** The record of a message or remote write that is read whole, made from the book `k1`. */
  lemma BodyMark(w: World, n: nat, k1: Book)
    requires Enabled(w.net, Input(n)) && w.net.a.rphase == Body && InvW(w)
    requires Next(w.net, Input(n)).a.rphase != Body
    requires k1 == Touch(w.ka, w.net.a, Landing(w.net.a) + w.net.a.rbytes, n,
                         if PeerHeader(w.net.a).kind.Send? then Mine else Theirs)
    ensures w.net.ba.todo != []
    ensures var g, k := w.net.ba.todo[0], NextBook(w, Input(n));
            && g.Frame? && g.hdr == PeerHeader(w.net.a) && |k.got| == |k1.got| + 1
            && var m := k.got[|k1.got|];
               && k == k1.(got := k1.got + [m]) && GotMark(g, m)
               && (g.hdr.kind.Send? ==> w.net.a.lreq == Some(m.req))
               && Holds(Next(w.net, Input(n)).a.mem, m)
  {
    hide InvW, Inv, Encode, Decode, Flat, Log, Load, Store, Line, PipeOk, Next, NextBook, Served, Disturb, FlowOk;
    WorldNet(w);
    BodyStep(w.net, n);
    BodyBook(w, n);
    BodyFacts(w.net, n);
    if PeerHeader(w.net.a).kind.Send? {
      MessageFlows(w, n);
    } else {
      RemoteFlows(w, n);
    }
  }

  lemma MessageData(w: World, n: nat)
    requires Enabled(w.net, Input(n)) && w.net.a.rphase == Body && PeerHeader(w.net.a).kind.Send? && InvW(w)
    ensures DataHalf(NextW(w, Input(n))) && DataHalf(FlipW(NextW(w, Input(n))))
  {
    hide Encode, Decode, Flat, Log, Load, Store, Line, PipeOk, SegOk, Takers, Recvs, Originals, Heads, Outs, ReadOk,
      Half, FlowOk, MarksOk, RepliesMatch, Next, NextBook, Served, GotMark, Holds, Touch;
    var s, e, v := w.net, w.net.a, NextW(w, Input(n));
    var k1 := Touch(w.ka, e, Landing(e) + e.rbytes, n, Mine);
    BodyStep(s, n);
    BodyBook(w, n);
    InputFrame(s, n);
    BodyFacts(s, n);
    MessageFlows(w, n);
    BodyTouched(w, n, k1, v);
    if v.net.a.rphase != Body {
      WriteView(w);
      LedgerCompletes(e, w.ka);
      BodyMark(w, n, k1);
      ReceiveMark(v.net.a.mem, Log(s.ab), s.ba.seen, k1, s.ba.todo[0], v.ka.got[|k1.got|]);
      RepliesGot(s.ba, v.net.ba, w.kb.sent, k1.got, s.ba.todo[0], v.ka.got[|k1.got|]);
    }
    OtherSide(w, v);
  }

  lemma RemoteFlows(w: World, n: nat)
    requires Enabled(w.net, Input(n)) && w.net.a.rphase == Body && PeerHeader(w.net.a).kind.RemWr? && InvW(w)
    ensures var v := NextW(w, Input(n)); FlowOk(v.net.a, v.ka, v.net.ab, v.net.ba)
    ensures var e, l := w.net.a, Line(w.net.ba);
            && HEADER + e.rbytes + n <= |l|
            && (w.ka.rclean ==>
                 Load(Next(w.net, Input(n)).a.mem, PeerHeader(e).remAddr, e.rbytes + n)
                   == l[HEADER..HEADER + e.rbytes + n])
  {
    hide InvW, Inv, Encode, Decode, Flat, Log, Load, Store, Line, PipeOk, Next, NextBook, Served, Disturb, Apart;
    var e, v := w.net.a, NextW(w, Input(n));
    WorldNet(w);
    BodyStep(w.net, n);
    BodyBook(w, n);
    InputFrame(w.net, n);
    BodyFacts(w.net, n);
    var h := PeerHeader(e);
    if e.lreq.Some? { WriteView(w); }
    if w.ka.rclean {
      Landed(e.mem, h.remAddr, e.rbytes, Line(w.net.ba), n);
    }
    if e.lreq.Some? && v.ka.lclean && e.lbytes <= e.lreq.value.length {
      StoreApart(e.mem, h.remAddr + e.rbytes, w.net.ba.flight[..n], e.lreq.value.addr, e.lreq.value.length, e.lbytes);
    }
  }

  lemma RemoteData(w: World, n: nat)
    requires Enabled(w.net, Input(n)) && w.net.a.rphase == Body && PeerHeader(w.net.a).kind.RemWr? && InvW(w)
    ensures DataHalf(NextW(w, Input(n))) && DataHalf(FlipW(NextW(w, Input(n))))
  {
    hide Encode, Decode, Flat, Log, Load, Store, Line, PipeOk, SegOk, Takers, Recvs, Originals, Heads, Outs, ReadOk,
      Half, FlowOk, MarksOk, RepliesMatch, Next, NextBook, Served, GotMark, Holds, Touch;
    var s, e, v := w.net, w.net.a, NextW(w, Input(n));
    var k1 := Touch(w.ka, e, Landing(e) + e.rbytes, n, Theirs);
    BodyStep(s, n);
    BodyBook(w, n);
    InputFrame(s, n);
    BodyFacts(s, n);
    RemoteFlows(w, n);
    BodyTouched(w, n, k1, v);
    if v.net.a.rphase != Body {
      BodyMark(w, n, k1);
      ReceiveMark(v.net.a.mem, Log(s.ab), s.ba.seen, k1, s.ba.todo[0], v.ka.got[|k1.got|]);
      RepliesGot(s.ba, v.net.ba, w.kb.sent, k1.got, s.ba.todo[0], v.ka.got[|k1.got|]);
    }
    OtherSide(w, v);
  }

  // ---------------------------------------------------------------- every step

  lemma StepData(w: World, act: Action)
    requires InvW(w) && Enabled(w.net, act)
    ensures InvW(NextW(w, act))
  {
    hide Encode, Decode, Flat, Log, Load, Store, Line, PipeOk, SegOk, Takers, Recvs, Originals, Heads, Outs, ReadOk,
      ReceiverOk, SenderOk, DataHalf, NextBook, Next;
    StepInv(w.net, act);
    match act
    case Submit(r) => SubmitData(w, r);
    case Fetch => FetchData(w);
    case AppWrite(addr, data) => AppWriteData(w, addr, data);
    case Output(n) => OutputData(w, n);
    case Drive(n) =>
      if w.net.a.lreq.value.kind.Recv? { PostRecvData(w); }
      else if AwaitsReply(w.net.a) { ReplyData(w, n); }
      else { WriteData(w, n); }
    case Input(n) =>
      if w.net.a.rphase != Body { HeaderData(w, n); }
      else if PeerHeader(w.net.a).kind.Send? { MessageData(w, n); }
      else { BodyFacts(w.net, n); RemoteData(w, n); }
  }

  /** One step of either side. */
  datatype Move = Left(act: Action) | Right(act: Action)

  predicate CanMove(w: World, m: Move) {
    match m
    case Left(act) => Enabled(w.net, act)
    case Right(act) => Enabled(Flip(w.net), act)
  }

  function Moved(w: World, m: Move): World
    requires CanMove(w, m)
  {
    match m
    case Left(act) => NextW(w, act)
    case Right(act) => FlipW(NextW(FlipW(w), act))
  }

  predicate CanRun(w: World, run: seq<Move>)
    decreases |run|
  {
    run == [] || (CanMove(w, run[0]) && CanRun(Moved(w, run[0]), run[1..]))
  }

  function Run(w: World, run: seq<Move>): World
    requires CanRun(w, run)
    decreases |run|
  {
    if run == [] then w else Run(Moved(w, run[0]), run[1..])
  }

  lemma MoveInv(w: World, m: Move)
    requires InvW(w) && CanMove(w, m)
    ensures InvW(Moved(w, m))
  {
    hide NextW, DataHalf, Half;
    match m
    case Left(act) => StepData(w, act);
    case Right(act) => StepData(FlipW(w), act);
  }

  lemma {:induction false} RunInv(w: World, run: seq<Move>)
    requires InvW(w) && CanRun(w, run)
    ensures InvW(Run(w, run))
    decreases |run|
  {
    hide InvW, NextW;
    if run != [] {
      MoveInv(w, run[0]);
      RunInv(Moved(w, run[0]), run[1..]);
    }
  }

  /** Everything below is about states that some run reaches from two idle handlers. */
  ghost predicate Reachable(w: World) {
    exists memA: seq<byte>, memB: seq<byte>, run: seq<Move> ::
      CanRun(InitW(memA, memB), run) && w == Run(InitW(memA, memB), run)
  }

  lemma InitData(memA: seq<byte>, memB: seq<byte>)
    ensures InvW(InitW(memA, memB))
  {
    hide DataHalf, Inv;
    InitInv(memA, memB);
    InitHalf(memA, memB);
    InitHalf(memB, memA);
  }

  lemma InitHalf(memA: seq<byte>, memB: seq<byte>)
    ensures DataHalf(InitW(memA, memB))
  {
    hide Decode, Load, Flat;
  }

  lemma ReachableInv(w: World)
    requires Reachable(w)
    ensures InvW(w)
  {
    hide InvW;
    var memA: seq<byte>, memB: seq<byte>, run: seq<Move> :|
      CanRun(InitW(memA, memB), run) && w == Run(InitW(memA, memB), run);
    InitData(memA, memB);
    RunInv(InitW(memA, memB), run);
  }
}
