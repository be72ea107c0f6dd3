/** What every run of two LM-INET handlers guarantees, stated for the stream from the left
    side to the right side; `FlipW` gives the same for the other direction. */
module InetTheorems {
  import opened Wire
  import opened InetEndpoint
  import opened InetNet
  import opened InetData

  // ---------------------------------------------------------------- framing

  datatype Parsed = Parsed(frames: seq<Seg>, rest: seq<byte>)

  /** Reads a stream of framed requests with nothing but its bytes to go by. */
  function Unframe(s: seq<byte>): Parsed
    decreases |s|
  {
    if |s| < HEADER then Parsed([], s)
    else
      var h := Decode(s[..HEADER]);
      var n := HEADER + BodyLength(h);
      if |s| < n then Parsed([], s)
      else
        var p := Unframe(s[n..]);
        Parsed([Frame(h, s[HEADER..n])] + p.frames, p.rest)
  }

  predicate AllFrames(ss: seq<Seg>) { forall i :: 0 <= i < |ss| ==> ss[i].Frame? && SegOk(ss[i], U64 + U64) }

  /** Too short for a frame. */
  predicate Partial(s: seq<byte>) { |s| < HEADER || |s| < HEADER + BodyLength(Decode(s[..HEADER])) }

  lemma UnframeStep(g: Seg, t: seq<byte>)
    requires g.Frame? && SegOk(g, U64 + U64)
    ensures Unframe(SegBytes(g) + t) == Parsed([g] + Unframe(t).frames, Unframe(t).rest)
  {
    hide Encode, Decode;
    var s := SegBytes(g) + t;
    var n := HEADER + BodyLength(g.hdr);
    DecodeEncode(g.hdr);
    assert s[..HEADER] == Encode(g.hdr);
    assert s[HEADER..n] == g.body;
    assert s[n..] == t;
  }

  /** The bytes determine the frames. */
  lemma {:induction false} UnframeFlat(ss: seq<Seg>, cur: seq<byte>)
    requires AllFrames(ss) && Partial(cur)
    ensures Unframe(Flat(ss) + cur) == Parsed(ss, cur)
  {
    hide Encode, Decode, SegBytes, SegOk;
    if ss == [] {
      assert Flat(ss) + cur == cur;
    } else {
      UnframeFlat(ss[1..], cur);
      UnframeStep(ss[0], Flat(ss[1..]) + cur);
      assert Flat(ss) + cur == SegBytes(ss[0]) + (Flat(ss[1..]) + cur);
    }
  }

  lemma SegWithin(g: Seg, memory: nat)
    requires g.Frame? && SegOk(g, memory)
    ensures SegOk(g, U64 + U64)
  {
  }

  /** The part of a frame that is written belongs to the request in the handler and is not yet the whole frame. */
  predicate OfRequest(e: Endpoint, cur: seq<byte>) {
    cur == []
    || (e.lreq.Some? && Outgoing(e.lreq.value.kind)
        && (var r, f := e.lreq.value, Encode(e.lreq.value);
            cur < f || (f <= cur && |cur| < HEADER + BodyLength(r))))
  }

  lemma CurIsOfRequest(e: Endpoint, p: Pipe, peer: nat)
    requires SenderOk(e, p) && ControlOk(e, peer) && !Replying(e)
    ensures OfRequest(e, p.cur)
  {
    hide Encode, Decode;
  }

  /** Every stream is whole frames and a proper prefix of the frame of the request in the handler, and its bytes alone
      tell which. */
  lemma Framing(w: World)
    requires Reachable(w) && !Replying(w.net.a) && forall i :: 0 <= i < |Log(w.net.ab)| ==> Log(w.net.ab)[i].Frame?
    ensures w.net.ab.wire == Flat(Log(w.net.ab)) + w.net.ab.cur && OfRequest(w.net.a, w.net.ab.cur)
    ensures Unframe(w.net.ab.wire) == Parsed(Log(w.net.ab), w.net.ab.cur)
  {
    hide Encode, Decode, Unframe, Flat, Log, Line, Load, Store, DataHalf, ReceiverOk, ReadOk, Reachable, SegOk,
      OfRequest;
    ReachableInv(w);
    var p := w.net.ab;
    forall i | 0 <= i < |Log(p)| ensures SegOk(Log(p)[i], U64 + U64) { SegWithin(Log(p)[i], |w.net.b.mem|); }
    if w.net.a.lreq.Some? { DecodeEncode(w.net.a.lreq.value); }
    CurIsOfRequest(w.net.a, p, |w.net.b.mem|);
    UnframeFlat(Log(p), p.cur);
  }

  /** The part of the current frame that the receiver has read is what its state says. */
  predicate StateIsParse(e: Endpoint, partial: seq<byte>) {
    |e.preq| == HEADER
    && (e.rphase in {Free, Auto} ==> partial == [])
    && (e.rphase == Header ==> e.rbytes < HEADER && partial == e.preq[..e.rbytes])
    && (e.rphase == Body ==>
          |partial| == HEADER + e.rbytes && partial[..HEADER] == e.preq
          && (e.rbytes < PeerHeader(e).length || e.rbytes == 0))
  }

  lemma PartRead(e: Endpoint, p: Pipe)
    requires ReceiverOk(e, p) && !Reading(e) && p.part <= |Line(p)|
    ensures StateIsParse(e, Line(p)[..p.part])
  {
    hide Encode, Decode, Flat, Line;
    if e.rphase == Body {
      assert Line(p)[..p.part][..HEADER] == Line(p)[..HEADER];
    }
  }

  /** What was read is whole frames and a part of the next, which the receiver's state spells out. */
  lemma ReceiverParses(w: World)
    requires Reachable(w) && !Reading(w.net.b)
    ensures var p := w.net.ab;
            && |p.flight| <= |p.wire| && p.wire[|p.wire| - |p.flight|..] == p.flight
            && exists partial ::
                 p.wire[..|p.wire| - |p.flight|] == Flat(p.seen) + partial && StateIsParse(w.net.b, partial)
  {
    hide Encode, Decode, Load, Store, DataHalf, ReadOk, Reachable, SegOk, SenderOk, StateIsParse, Flat, Line,
      ReceiverOk, ControlOk;
    ReachableInv(w);
    var p := w.net.ab;
    FlatConcat(p.seen, p.todo);
    TakenIs(p);
    PartRead(w.net.b, p);
  }

  lemma {:induction false} FlatConcat(s: seq<Seg>, t: seq<Seg>)
    ensures Flat(s + t) == Flat(s) + Flat(t)
  {
    hide Encode, SegBytes;
    if s == [] {
      assert s + t == t;
    } else {
      FlatConcat(s[1..], t);
      assert (s + t)[1..] == s[1..] + t;
      assert Flat(s + t) == SegBytes(s[0]) + Flat(s[1..] + t);
    }
  }

  lemma TakenIs(p: Pipe)
    requires PipeOk(p) && Flat(Log(p)) == Flat(p.seen) + Flat(p.todo)
    ensures |p.flight| <= |p.wire| && p.wire[|p.wire| - |p.flight|..] == p.flight
    ensures p.wire[..|p.wire| - |p.flight|] == Flat(p.seen) + Line(p)[..p.part]
  {
    hide Encode, Flat, SegBytes;
    assert p.wire == Flat(p.seen) + Line(p);
  }

  // ---------------------------------------------------------------- two-sided messages

  /** The bodies of the Send messages among `segs`. */
  function Messages(segs: seq<Seg>): seq<seq<byte>> {
    if segs == [] then []
    else
      var n := |segs| - 1;
      Messages(segs[..n]) + (if segs[n].Frame? && segs[n].hdr.kind.Send? then [segs[n].body] else [])
  }

  /** The receiver's records of those messages. */
  function Deliveries(segs: seq<Seg>, ms: seq<Mark>): seq<Mark>
    requires |segs| == |ms|
  {
    if segs == [] then []
    else
      var n := |segs| - 1;
      Deliveries(segs[..n], ms[..n]) + (if segs[n].Frame? && segs[n].hdr.kind.Send? then [ms[n]] else [])
  }

  lemma {:induction false} MessagesAppend(s: seq<Seg>, t: seq<Seg>)
    ensures Messages(s) <= Messages(s + t)
    decreases |t|
  {
    if t == [] {
      assert s + t == s;
    } else {
      MessagesAppend(s, t[..|t| - 1]);
      assert (s + t)[..|s + t| - 1] == s + t[..|t| - 1];
    }
  }

  lemma {:induction false} DeliveriesMatch(mem: seq<byte>, segs: seq<Seg>, ms: seq<Mark>)
    requires GotOk(segs, ms) && AllHold(mem, ms)
    ensures |Deliveries(segs, ms)| == |Messages(segs)| == |Takers(segs, ms)|
    ensures forall k :: 0 <= k < |Messages(segs)| ==>
              var m := Deliveries(segs, ms)[k];
              m.req == Takers(segs, ms)[k] && m.data == Messages(segs)[k] && m.addr == m.req.addr && Holds(mem, m)
    decreases |segs|
  {
    hide Load, Holds;
    if segs != [] {
      var n := |segs| - 1;
      assert GotMark(segs[n], ms[n]) && Holds(mem, ms[n]);
      DeliveriesMatch(mem, segs[..n], ms[..n]);
    }
  }

  /** The k-th Recv that completes took the k-th Send message of the peer: that body was stored
      at the Recv's address, and is still there unless something else was stored over it. */
  lemma FifoDelivery(w: World, k: nat)
    requires Reachable(w) && k < |Recvs(w.net.b.comps)|
    ensures |w.kb.got| == |w.net.ab.seen| && k < |Deliveries(w.net.ab.seen, w.kb.got)| && k < |Messages(Log(w.net.ab))|
    ensures var m := Deliveries(w.net.ab.seen, w.kb.got)[k];
            && m.req == Recvs(w.net.b.comps)[k] && m.addr == m.req.addr && m.data == Messages(Log(w.net.ab))[k]
            && (m.ok ==> Load(w.net.b.mem, m.req.addr, |m.data|) == Messages(Log(w.net.ab))[k])
  {
    hide Encode, Decode, Load, Store, Half, Reachable, Recvs, Takers, Deliveries, Messages, FlowOk;
    ReachableInv(w);
    DeliveriesMatch(w.net.b.mem, w.net.ab.seen, w.kb.got);
    MessagesAppend(w.net.ab.seen, w.net.ab.todo);
  }

  lemma {:induction false} OutsOriginals(cs: seq<Request>)
    ensures Outs(Originals(cs)) == Outs(cs)
    decreases |cs|
  {
    if cs != [] {
      OutsOriginals(cs[..|cs| - 1]);
      assert Originals(cs)[..|cs| - 1] == Originals(cs[..|cs| - 1]);
    }
  }

  lemma {:induction false} OutsAppend(s: seq<Request>, t: seq<Request>)
    ensures Outs(s + t) == Outs(s) + Outs(t)
    decreases |t|
  {
    if t == [] {
      assert s + t == s;
    } else {
      OutsAppend(s, t[..|t| - 1]);
      assert (s + t)[..|s + t| - 1] == s + t[..|t| - 1];
    }
  }

  /** Frames are written in the order in which their requests were submitted. */
  lemma WrittenInOrder(w: World)
    requires Reachable(w)
    ensures Heads(Log(w.net.ab)) <= Outs(w.ka.submitted)
  {
    hide Encode, Decode, Load, Store, Reachable, Heads, Outs, FlowOk, PipeOk, ReceiverOk, SenderOk, ReadOk, Log,
      Originals;
    ReachableInv(w);
    var e := w.net.a;
    OutsOriginals(e.comps);
    OutsAppend(Originals(e.comps), Outstanding(e));
    OutstandingOuts(e);
  }

  lemma OutstandingOuts(e: Endpoint)
    requires e.lreq.Some? ==> e.queue == [] && e.lreq.value.status == PENDING
    ensures WrittenOut(e) <= Outs(Outstanding(e))
  {
    if e.lreq.Some? {
      assert Outstanding(e) == [e.lreq.value];
    }
  }

  /** Each submitted request is outstanding or completed with success, exactly once and in order;
      at most one is outstanding, so that the handler's branch for a busy connection is never taken. */
  lemma EachRequestOnce(w: World)
    requires Reachable(w)
    ensures w.ka.submitted == Originals(w.net.a.comps) + Outstanding(w.net.a) && |Outstanding(w.net.a)| <= 1
    ensures forall i :: 0 <= i < |w.net.a.comps| ==> w.net.a.comps[i].status == 0x11
    ensures forall i :: 0 <= i < |w.ka.submitted| ==> w.ka.submitted[i].status == 0x10
    ensures w.net.a.queue != [] ==> w.net.a.lphase == Free && Retrieve(w.net.a).comps == w.net.a.comps
  {
    hide ControlOk, LedgerOk, InvW, Reachable, Originals;
    ReachableInv(w);
    LedgerKept(w);
    PendingOnly(w.net.a, w.ka, w.net.ba, |w.net.b.mem|);
  }

  lemma LedgerKept(w: World)
    requires InvW(w)
    ensures ControlOk(w.net.a, |w.net.b.mem|) && LedgerOk(w.net.a, w.ka, w.net.ba)
  {
    hide ControlOk, LedgerOk, FlowOk, PipeOk, ReceiverOk, SenderOk, ReadOk, Log, MarksOk, RepliesMatch, WrittenOk;
  }

  lemma PendingOnly(e: Endpoint, k: Book, inn: Pipe, peer: nat)
    requires ControlOk(e, peer) && LedgerOk(e, k, inn)
    ensures k.submitted == Originals(e.comps) + Outstanding(e) && |Outstanding(e)| <= 1
    ensures forall i :: 0 <= i < |e.comps| ==> e.comps[i].status == 0x11
    ensures forall i :: 0 <= i < |k.submitted| ==> k.submitted[i].status == 0x10
    ensures e.queue != [] ==> e.lphase == Free && Retrieve(e).comps == e.comps
  {
    hide Originals;
    OriginalsPending(e.comps);
  }

  lemma OriginalsPending(cs: seq<Request>)
    ensures forall i :: 0 <= i < |cs| ==> Originals(cs)[i].status == PENDING
  {
  }

  // ---------------------------------------------------------------- one-sided transfers

  /** Whatever was transferred completely is the same at both ends, as long as neither end was
      stored over: sent messages, remote writes and remote reads alike. */
  lemma CopiedFaithfully(w: World, i: nat)
    requires Reachable(w) && i < |w.net.ab.seen|
    ensures |w.ka.sent| == |Log(w.net.ab)| && |w.kb.got| == |w.net.ab.seen|
    ensures w.ka.sent[i].data == w.kb.got[i].data == SegData(w.net.ab.seen[i])
    ensures w.ka.sent[i].ok && w.kb.got[i].ok ==>
              Load(w.net.b.mem, w.kb.got[i].addr, |w.kb.got[i].data|)
                == Load(w.net.a.mem, w.ka.sent[i].addr, |w.ka.sent[i].data|)
  {
    hide Encode, Decode, Load, Store, Reachable, FlowOk, Half;
    ReachableInv(w);
    assert Log(w.net.ab)[i] == w.net.ab.seen[i];
  }

  /** A remote write is applied before any later message is delivered: when the Recv that takes
      message `j` has completed, the write `i` ahead of it is done, and the mirror equals the master. */
  lemma MirrorMatches(w: World, i: nat, j: nat)
    requires Reachable(w) && i < j < |Log(w.net.ab)|
    requires Log(w.net.ab)[i].Frame? && Log(w.net.ab)[i].hdr.kind.RemWr?
    requires |Recvs(w.net.b.comps)| > |Messages(Log(w.net.ab)[..j])|
    ensures i < |w.net.ab.seen| && i < |w.kb.got| && i < |w.ka.sent|
    ensures var h := Log(w.net.ab)[i].hdr;
            && w.kb.got[i].addr == h.remAddr && w.ka.sent[i].addr == h.addr && |w.kb.got[i].data| == h.length
            && (w.ka.sent[i].ok && w.kb.got[i].ok ==>
                  Load(w.net.b.mem, h.remAddr, h.length) == Load(w.net.a.mem, h.addr, h.length))
  {
    hide Encode, Decode, Load, Store, Reachable, FlowOk, Recvs, Takers, Messages, Deliveries, PipeOk, ReceiverOk,
      SenderOk, ReadOk;
    ReachableInv(w);
    var p := w.net.ab;
    DeliveriesMatch(w.net.b.mem, p.seen, w.kb.got);
    if |p.seen| <= j {
      assert p.seen + Log(p)[|p.seen|..j] == Log(p)[..j];
      MessagesAppend(p.seen, Log(p)[|p.seen|..j]);
    }
    assert Log(p)[i] == p.seen[i];
    CopiedFaithfully(w, i);
  }

  /** The handshake of a memory map: the scheduler sends its region, writes the content into the mirror it was told
      about, and sends the region again. When the agent's second receive has completed, the mirror is the master. */
  lemma MapHandshake(w: World, n: nat)
    requires Reachable(w) && n + 2 < |Log(w.net.ab)|
    requires forall i :: n <= i <= n + 2 ==> Log(w.net.ab)[i].Frame?
    requires var p := Log(w.net.ab); p[n].hdr.kind.Send? && p[n + 1].hdr.kind.RemWr? && p[n + 2].hdr.kind.Send?
    requires |Recvs(w.net.b.comps)| >= |Messages(Log(w.net.ab)[..n])| + 2
    ensures n + 1 < |w.kb.got| && n + 1 < |w.ka.sent|
    ensures var h := Log(w.net.ab)[n + 1].hdr;
            w.ka.sent[n + 1].ok && w.kb.got[n + 1].ok ==>
              Load(w.net.b.mem, h.remAddr, h.length) == Load(w.net.a.mem, h.addr, h.length)
  {
    hide Encode, Decode, Load, Store, Reachable, FlowOk, Recvs, Takers, Deliveries, PipeOk, ReceiverOk, SenderOk,
      ReadOk, Log;
    var p := Log(w.net.ab);
    assert p[..n + 1][..n] == p[..n] && p[..n + 2][..n + 1] == p[..n + 1];
    assert |Messages(p[..n + 2])| == |Messages(p[..n])| + 1;
    MirrorMatches(w, n + 1, n + 2);
  }

  /** A reply that was read is that of the range its request names. */
  lemma ReplyCopied(w: World, i: nat)
    requires Reachable(w) && i < |w.net.ab.seen| && w.net.ab.seen[i].Reply?
    ensures i < |w.kb.got| && i < |w.ka.sent| && w.kb.got[i].req == w.ka.sent[i].req && w.kb.got[i].req.kind.RemRd?
    ensures var r := w.kb.got[i].req;
            && |w.net.ab.seen[i].data| == r.length
            && (w.ka.sent[i].ok && w.kb.got[i].ok ==>
                  Load(w.net.b.mem, r.addr, r.length) == Load(w.net.a.mem, r.remAddr, r.length))
  {
    hide Encode, Decode, Load, Store, Reachable, FlowOk, Recvs, Takers, PipeOk, ReceiverOk, SenderOk, ReadOk;
    ReachableInv(w);
    assert Log(w.net.ab)[i] == w.net.ab.seen[i];
    CopiedFaithfully(w, i);
  }

  /** While bytes of a reply are on the way the side they go to does not poll for input, so they
      are never taken for a header; it polls again exactly when it waits for no reply. */
  lemma ReplyNeverParsed(w: World, n: nat)
    requires Reachable(w)
    ensures w.net.b.pollIn <==> w.net.b.lphase != Auto
    ensures (exists i :: 0 <= i < |w.net.ab.todo| && w.net.ab.todo[i].Reply?) || Replying(w.net.a) ==>
              Reading(w.net.b) && !w.net.b.pollIn && !Enabled(Flip(w.net), Input(n))
  {
    hide Encode, Decode, Load, Store, Reachable, FlowOk, Recvs, Takers, PipeOk, SenderOk, DataHalf, Line;
    ReachableInv(w);
  }
}
