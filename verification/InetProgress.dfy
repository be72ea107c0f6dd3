/** Progress of two LM-INET handlers: the work that is left shrinks with every step that does
    anything, and a pair of handlers comes to rest only where the programs leave it. */
module InetProgress {
  import opened Wire
  import opened InetEndpoint
  import opened InetNet
  import opened InetData

  /** Header and body bytes this side's request still has to write. */
  function FrameLeft(e: Endpoint): nat {
    if e.lreq.Some? then
      var r := e.lreq.value;
      if !Outgoing(r.kind) then 0
      else if e.lphase == Header && e.lbytes <= HEADER then HEADER - e.lbytes + BodyLength(r)
      else if e.lphase == Body && e.lbytes <= BodyLength(r) then BodyLength(r) - e.lbytes
      else 0
    else if e.queue != [] && Outgoing(e.queue[0].kind) then HEADER + BodyLength(e.queue[0])
    else 0
  }

  /** Bytes the peer still has to write in answer to this side's RemRd. */
  function ReplyLeft(s: Net): nat {
    if !Reads(s.a) then 0
    else
      var n := Active(s.a).value.length;
      if !Reading(s.a) then n
      else if Replying(s.b) then (if s.b.rbytes <= n then n - s.b.rbytes else 0)
      else if s.ba.todo == [] then n
      else 0
  }

  function Rank(e: Endpoint): nat {
    (if e.queue != [] then 4 else 0)
    + (if e.lreq.None? then 0 else if e.lphase == Header then 3 else 2)
    + (if e.rphase == Body || e.rphase == Auto then 1 else 0)
  }

  function Work(s: Net): nat {
    4 * (FrameLeft(s.a) + FrameLeft(s.b) + ReplyLeft(s) + ReplyLeft(Flip(s)))
    + 2 * (|s.ab.flight| + |s.ba.flight|) + Rank(s.a) + Rank(s.b)
  }

  /** Nothing happened, except that the handler may have noted that it waits for a header. */
  predicate Idle(s: Net, t: Net) {
    t == s || (s.a.rphase == Free && t == s.(a := s.a.(rphase := Header)))
  }

  predicate Handler(act: Action) { !act.Submit? && !act.AppWrite? }

  lemma FetchWorks(s: Net)
    requires Enabled(s, Fetch) && Inv(s)
    ensures Work(Next(s, Fetch)) < Work(s)
  {
    hide Encode, Decode, Flat, Line, Log, PipeOk, Load, Store, SegOk, ReceiverOk, SenderOk, RequestOk;
  }

  lemma PostRecvWorks(s: Net)
    requires Enabled(s, Drive(0)) && s.a.lreq.value.kind.Recv? && Inv(s)
    ensures s.a.lphase == Header ==> Work(Next(s, Drive(0))) < Work(s)
    ensures s.a.lphase != Header ==> Next(s, Drive(0)) == s
  {
    hide Encode, Decode, Flat, Line, Log, PipeOk, Load, Store, SegOk, ReceiverOk, SenderOk, RequestOk;
  }

  /** Bytes that move from the frame to the stream, and phases that end, make the side's share smaller. */
  lemma WrittenLess(e: Endpoint, n: nat, peer: nat)
    requires ControlOk(e, peer) && e.lreq.Some? && Outgoing(e.lreq.value.kind) && !AwaitsReply(e) && n <= |Offer(e)|
    ensures var f := Written(e, n);
            if n > 0 || (e.lphase == Body && e.lreq.value.length == 0)
              then 4 * FrameLeft(f) + 2 * n + Rank(f) < 4 * FrameLeft(e) + Rank(e)
            else f == e
  {
    hide Encode, Decode, Load, Representable;
    OfferLength(e);
  }

  /** The replies that are due are the same after a write. */
  lemma WriteReplies(s: Net, n: nat)
    requires Enabled(s, Drive(n)) && Outgoing(s.a.lreq.value.kind) && !AwaitsReply(s.a) && Inv(s)
    ensures var t := Next(s, Drive(n));
            && t.b == s.b && t.ba == s.ba && |t.ab.flight| == |s.ab.flight| + n
            && ReplyLeft(t) <= ReplyLeft(s) && ReplyLeft(Flip(t)) <= ReplyLeft(Flip(s))
            && ControlOk(s.a, |s.b.mem|) && n <= |Offer(s.a)| && t.a == Written(s.a, n)
  {
    hide Encode, Decode, Flat, Line, Log, PipeOk, Load, Store, SegOk, ReceiverOk, SenderOk, Next, Offer, RequestOk,
      Written;
    WriteStep(s, n);
    WriteFacts(s, n);
    WrittenControl(s.a, n, |s.b.mem|);
  }

  lemma WriteWorks(s: Net, n: nat)
    requires Enabled(s, Drive(n)) && Outgoing(s.a.lreq.value.kind) && !AwaitsReply(s.a) && Inv(s)
    ensures Work(Next(s, Drive(n))) < Work(s) || Next(s, Drive(n)) == s
    ensures n > 0 || (s.a.lphase == Body && s.a.lreq.value.length == 0) ==> Work(Next(s, Drive(n))) < Work(s)
  {
    hide Inv, Encode, Next, Offer, ControlOk, FrameLeft, Rank, ReplyLeft, Written;
    WriteStep(s, n);
    WriteReplies(s, n);
    WrittenLess(s.a, n, |s.b.mem|);
    if n == 0 {
      assert Push(s.ab, Offer(s.a)[..n]) == s.ab;
      NotYetWhole(s);
    }
  }

  /** A frame in progress is not whole. */
  lemma NotYetWhole(s: Net)
    requires Inv(s) && s.a.lreq.Some? && Outgoing(s.a.lreq.value.kind) && !AwaitsReply(s.a)
    ensures |s.ab.cur| == HEADER + BodyLength(s.a.lreq.value) ==> s.a.lphase == Body && s.a.lreq.value.length == 0
  {
    hide Encode, Decode, Flat, Line, Log, PipeOk, Load, Store, SegOk, ReceiverOk, RequestOk;
    AnswersAlone(s);
  }

  /** What a step of a waiting RemRd leaves of the reply and of the side. */
  lemma ReplyCounts(s: Net, n: nat)
    requires Enabled(s, Drive(n)) && AwaitsReply(s.a) && Inv(s)
    ensures var t := Next(s, Drive(n));
            && t.b == s.b && t.ab == s.ab && n <= |s.ba.flight| && |t.ba.flight| == |s.ba.flight| - n
            && FrameLeft(t.a) == FrameLeft(s.a) && ReplyLeft(t) <= ReplyLeft(s)
            && ReplyLeft(Flip(t)) == ReplyLeft(Flip(s))
            && Rank(t.a) <= Rank(s.a) && (s.a.lreq.value.length == 0 ==> Rank(t.a) < Rank(s.a))
  {
    hide Encode, Decode, Flat, Line, Log, PipeOk, Load, Store, SegOk, ReceiverOk, SenderOk, Next, RequestOk;
    TakeStep(s, n);
    ReplyFacts(s, n);
    OneOutstanding(s);
  }

  lemma ReplyWorks(s: Net, n: nat)
    requires Enabled(s, Drive(n)) && AwaitsReply(s.a) && Inv(s)
    ensures Work(Next(s, Drive(n))) < Work(s) || Next(s, Drive(n)) == s
    ensures n > 0 || s.a.lreq.value.length == 0 ==> Work(Next(s, Drive(n))) < Work(s)
  {
    hide Inv, Encode, Store, Load, Next, FrameLeft, Rank, ReplyLeft;
    ReplyCounts(s, n);
    if n == 0 && s.a.lreq.value.length > 0 {
      TakeStep(s, n);
      ReplyUnfinished(s);
      assert s.ba.flight[..0] == [];
      assert Pull(s.ba, 0) == s.ba;
      StoreNothing(s.a.mem, s.a.lreq.value.addr + s.a.lbytes);
    }
  }

  lemma ReplyUnfinished(s: Net)
    requires Inv(s) && AwaitsReply(s.a) && s.a.lreq.value.length > 0
    ensures s.a.lbytes < s.a.lreq.value.length
  {
    hide Encode, Decode, PipeOk, SegOk, ReceiverOk, SenderOk, ReadOk, RequestOk, Log;
  }

  /** What a step of the answering side leaves of the reply and of the side. */
  lemma OutputCounts(s: Net, n: nat)
    requires Enabled(s, Output(n)) && Inv(s)
    ensures var t := Next(s, Output(n));
            && t.b == s.b && t.ba == s.ba && |t.ab.flight| == |s.ab.flight| + n
            && FrameLeft(t.a) == FrameLeft(s.a) && ReplyLeft(t) == ReplyLeft(s)
            && ReplyLeft(Flip(t)) + n <= ReplyLeft(Flip(s))
            && Rank(t.a) <= Rank(s.a) && (PeerHeader(s.a).length == 0 ==> Rank(t.a) < Rank(s.a))
  {
    hide Encode, Decode, Flat, Line, Log, PipeOk, Load, Store, SegOk, SenderOk, ReceiverOk, Next, RequestOk,
      ReplyOffer, ControlOk;
    OutputGrows(s, n);
    OutputFacts(s, n);
    RepliedSame(s, n);
  }

  lemma OutputGrows(s: Net, n: nat)
    requires Enabled(s, Output(n))
    ensures |Next(s, Output(n)).ab.flight| == |s.ab.flight| + n
    ensures n == 0 && s.a.rbytes < PeerHeader(s.a).length ==> Next(s, Output(n)) == s
  {
    hide Encode, Decode, ReplyOffer;
    if n == 0 {
      assert Push(s.ab, ReplyOffer(s.a)[..n]) == s.ab;
    }
  }

  lemma OutputWorks(s: Net, n: nat)
    requires Enabled(s, Output(n)) && Inv(s)
    ensures Work(Next(s, Output(n))) < Work(s) || Next(s, Output(n)) == s
    ensures n > 0 || PeerHeader(s.a).length == 0 ==> Work(Next(s, Output(n))) < Work(s)
  {
    hide Inv, Encode, Decode, Next, FrameLeft, Rank, ReplyLeft, ReplyOffer, Line, Log, Served, Serving;
    OutputCounts(s, n);
    OutputFacts(s, n);
    OutputGrows(s, n);
  }

  /** What reading within a header leaves of the replies and of the side. */
  lemma HeaderCounts(s: Net, n: nat)
    requires Enabled(s, Input(n)) && s.a.rphase in {Free, Header} && Inv(s)
    ensures var t := Next(s, Input(n));
            && t.b == s.b && t.ab == s.ab && n <= |s.ba.flight| && |t.ba.flight| == |s.ba.flight| - n
            && FrameLeft(t.a) == FrameLeft(s.a) && ReplyLeft(t) <= ReplyLeft(s)
            && ReplyLeft(Flip(t)) <= ReplyLeft(Flip(s)) && Rank(t.a) <= Rank(s.a) + 1
  {
    hide Encode, Decode, Flat, Line, Log, PipeOk, Load, Store, SegOk, ReceiverOk, SenderOk, Next, Enabled, RequestOk;
    HeaderStep(s, n);
    InputFrame(s, n);
    HeaderFacts(s, n);
    NotReadyToRead(s);
    if Reading(s.b) { NothingBehindRead(s); }
    if Next(s, Input(n)).a.rphase == Auto { HeaderRead(s, n); }
  }

  lemma HeaderWorks(s: Net, n: nat)
    requires Enabled(s, Input(n)) && s.a.rphase != Body && Inv(s)
    ensures Work(Next(s, Input(n))) < Work(s) || Idle(s, Next(s, Input(n)))
    ensures n > 0 ==> Work(Next(s, Input(n))) < Work(s)
  {
    hide Inv, Next, FrameLeft, Rank, ReplyLeft;
    HeaderCounts(s, n);
    if n == 0 { HeaderIdles(s); }
  }

  lemma HeaderIdles(s: Net)
    requires Enabled(s, Input(0)) && s.a.rphase != Body && Inv(s)
    ensures Idle(s, Next(s, Input(0)))
  {
    hide Encode, Decode, Flat, Line, Log, PipeOk, Load, Store, SegOk, SenderOk, ReadOk, RequestOk;
    NotReadyToRead(s);
    assert s.ba.flight[..0] == [];
    assert Pull(s.ba, 0) == s.ba;
    assert s.a.preq[..s.a.rbytes] + s.ba.flight[..0] + s.a.preq[s.a.rbytes + 0..] == s.a.preq;
  }

  /** What reading within a body leaves of the replies and of the side. */
  lemma BodyCounts(s: Net, n: nat)
    requires Enabled(s, Input(n)) && s.a.rphase == Body && Inv(s)
    ensures var t := Next(s, Input(n));
            && t.b == s.b && t.ab == s.ab && n <= |s.ba.flight| && |t.ba.flight| == |s.ba.flight| - n
            && FrameLeft(t.a) <= FrameLeft(s.a) && ReplyLeft(t) <= ReplyLeft(s)
            && ReplyLeft(Flip(t)) <= ReplyLeft(Flip(s))
            && Rank(t.a) <= Rank(s.a) && (t.a.rphase != Body ==> Rank(t.a) < Rank(s.a))
  {
    hide Encode, Decode, Flat, Line, Log, PipeOk, Load, Store, SegOk, ReceiverOk, SenderOk, Next, Enabled, RequestOk;
    BodyStep(s, n);
    InputFrame(s, n);
    NotReadyToRead(s);
    OneOutstanding(s);
    if Reading(s.b) { NothingBehindRead(s); }
  }

  lemma BodyWorks(s: Net, n: nat)
    requires Enabled(s, Input(n)) && s.a.rphase == Body && Inv(s)
    ensures Work(Next(s, Input(n))) < Work(s) || Next(s, Input(n)) == s
    ensures n > 0 || PeerHeader(s.a).length == 0 ==> Work(Next(s, Input(n))) < Work(s)
  {
    hide Inv, Encode, Decode, Store, Next, FrameLeft, Rank, ReplyLeft, Landing;
    BodyStep(s, n);
    BodyCounts(s, n);
    if n == 0 {
      assert s.ba.flight[..0] == [];
      assert Pull(s.ba, 0) == s.ba;
      StoreNothing(s.a.mem, Landing(s.a) + s.a.rbytes);
    }
  }

  /** Every handler step that does anything leaves less work; a step that moves a byte does. */
  lemma StepWorks(s: Net, act: Action)
    requires Inv(s) && Enabled(s, act) && Handler(act)
    ensures Work(Next(s, act)) < Work(s) || Idle(s, Next(s, act))
    ensures (act.Drive? || act.Input? || act.Output?) && act.n > 0 ==> Work(Next(s, act)) < Work(s)
  {
    hide Encode, Decode, Flat, Line, Log, PipeOk, Load, Store, SegOk, ReceiverOk, SenderOk, ReadOk, Work, Next;
    match act
    case Fetch => FetchWorks(s);
    case Output(n) => OutputWorks(s, n);
    case Drive(n) =>
      if s.a.lreq.value.kind.Recv? { PostRecvWorks(s); }
      else if AwaitsReply(s.a) { ReplyWorks(s, n); }
      else { WriteWorks(s, n); }
    case Input(n) => if s.a.rphase == Body { BodyWorks(s, n); } else { HeaderWorks(s, n); }
  }

  // ---------------------------------------------------------------- rest

  /** The handler of side `a` has something to do. */
  predicate Busy(s: Net) {
    && Shaped(s.a)
    && (|| s.a.queue != []
        || s.a.rphase == Auto
        || (s.a.lreq.Some? && Outgoing(s.a.lreq.value.kind) && !AwaitsReply(s.a))
        || (s.a.lreq.Some? && s.a.lreq.value.kind.Recv? && s.a.lphase == Header)
        || (AwaitsReply(s.a) && (s.ba.flight != [] || s.a.lreq.value.length == 0))
        || (s.a.pollIn && s.ba.flight != [] && Demand(s.a).Some?))
  }

  /** A side that has something to do can do it. */
  lemma BusyWorks(s: Net) returns (act: Action)
    requires Inv(s) && Busy(s)
    ensures Enabled(s, act) && Handler(act) && Work(Next(s, act)) < Work(s)
  {
    hide Encode, Decode, Flat, Line, Log, PipeOk, Load, Store, SegOk, ReadOk, Work, Next, SenderOk;
    var e := s.a;
    if e.queue != [] {
      act := Fetch;
      FetchWorks(s);
    } else if e.lreq.Some? && e.lreq.value.kind.Recv? && e.lphase == Header {
      act := Drive(0);
      PostRecvWorks(s);
    } else if AwaitsReply(e) && (s.ba.flight != [] || e.lreq.value.length == 0) {
      var n: nat := if e.lreq.value.length == 0 then 0 else 1;
      act := Drive(n);
      ReplyWorks(s, n);
    } else if e.lreq.Some? && Outgoing(e.lreq.value.kind) && !AwaitsReply(e) {
      OfferLength(e);
      act := Drive(|Offer(e)|);
      WriteWorks(s, |Offer(e)|);
    } else if e.rphase == Auto {
      act := AnswerWorks(s);
    } else {
      act := ListenWorks(s);
    }
  }

  lemma AnswerWorks(s: Net) returns (act: Action)
    requires Inv(s) && s.a.rphase == Auto && !AwaitsReply(s.a)
    ensures Enabled(s, act) && Handler(act) && Work(Next(s, act)) < Work(s)
  {
    hide Encode, Decode, Flat, Line, Log, PipeOk, Load, Store, SegOk, ReadOk, Work, Next, SenderOk;
    ReplyOffered(s.a);
    act := Output(|ReplyOffer(s.a)|);
    OutputWorks(s, |ReplyOffer(s.a)|);
  }

  lemma ListenWorks(s: Net) returns (act: Action)
    requires Inv(s) && s.a.pollIn && s.ba.flight != [] && Demand(s.a).Some?
    ensures Enabled(s, act) && Handler(act) && Work(Next(s, act)) < Work(s)
  {
    hide Encode, Decode, Flat, Line, Log, PipeOk, Load, Store, SegOk, ReadOk, Work, Next, SenderOk;
    NotReadyToRead(s);
    var n: nat := if Demand(s.a).value == 0 then 0 else 1;
    act := Input(n);
    if s.a.rphase == Body { BodyWorks(s, n); } else { HeaderWorks(s, n); }
  }

  /** A message has arrived for which this side has not asked. */
  predicate Unclaimed(e: Endpoint) {
    |e.preq| == HEADER && e.rphase == Body && PeerHeader(e).kind.Send? && !RecvPosted(e)
  }

  lemma RestLeaves(s: Net)
    requires Inv(s) && !Busy(s) && !Busy(Flip(s))
    ensures s.a.queue == [] && s.a.rphase != Auto
    ensures s.a.lreq.Some? ==>
              || RecvPosted(s.a)
              || (s.a.lreq.value.kind.RemRd? && s.ab.flight != [] && Unclaimed(s.b))
    ensures s.ba.flight != [] ==> Unclaimed(s.a)
  {
    hide Inv, Decode, Reading, Unclaimed, RecvPosted;
    RestState(s);
    RestState(Flip(s)) by { assert Flip(Flip(s)) == s && Inv(Flip(s)) by { InvTurns(s); } }
    if AwaitsReply(s.a) {
      AwaitsBytes(s);
      WaitingBehind(s);
    }
  }

  lemma InvTurns(s: Net)
    requires Inv(s)
    ensures Inv(Flip(s))
  {
    hide Half;
    assert Flip(Flip(s)) == s;
  }

  /** A side without work: nothing queued, nothing to answer, and input only of a message not asked for. */
  lemma RestState(s: Net)
    requires Inv(s) && !Busy(s)
    ensures s.a.queue == [] && s.a.rphase != Auto
    ensures s.a.lreq.Some? ==> RecvPosted(s.a) || AwaitsReply(s.a)
    ensures s.a.pollIn && s.ba.flight != [] ==> Unclaimed(s.a)
    ensures !s.a.pollIn ==> AwaitsReply(s.a) && s.ba.flight == []
  {
    hide Encode, Decode, Flat, Line, Log, PipeOk, Load, Store, SegOk, ReadOk, SenderOk, Representable;
  }

  lemma AwaitsBytes(s: Net)
    requires Inv(s) && AwaitsReply(s.a) && !Busy(s)
    ensures Reading(s.a) && s.ba.flight == []
  {
    hide Encode, Decode, PipeOk, SegOk, ReadOk, SenderOk, ReceiverOk, RequestOk, Log;
  }

  lemma WaitingBehind(s: Net)
    requires Inv(s) && Reading(s.a) && s.ba.flight == [] && s.b.rphase != Auto
    ensures Waiting(s) && s.b.pollIn && s.ab.flight != []
  {
    hide Encode, Decode, Load, Store, SegOk, PipeOk, Line, Flat;
    if Served(s) {
      PullSole(s.ba, 0);
      FlightBound(s.ba, 0);
      UnreadReply(s.ba);
    } else {
      FirstHeaderBehind(s);
    }
  }

  lemma UnreadReply(p: Pipe)
    requires PipeOk(p) && p.flight == []
    ensures p.part == |Line(p)|
  {
    hide Encode, Flat;
  }

  /** The RemRd request of the left side is on the stream and not read. */
  lemma FirstHeaderBehind(s: Net)
    requires Inv(s) && Waiting(s) && !Reading(s.b) && s.b.rphase != Auto
    ensures s.ab.flight != []
  {
    hide Encode, Decode, Load, Store, SegOk, PipeOk;
    var p := s.ab;
    LineLong(p);
    var r := FirstHeader(Flip(s));
    if p.flight == [] {
      UnreadReply(p);
    }
  }

  lemma LineLong(p: Pipe)
    requires p.todo != []
    ensures |Line(p)| >= |SegBytes(p.todo[0])|
    ensures |p.todo| > 1 ==> |Line(p)| >= |SegBytes(p.todo[0])| + |SegBytes(p.todo[1])|
  {
    hide Encode, SegBytes;
    if |p.todo| > 1 {
      assert Flat(p.todo[1..]) == SegBytes(p.todo[1]) + Flat(p.todo[1..][1..]);
    }
  }

  // ---------------------------------------------------------------- every run

  predicate Resting(w: World) { !Busy(w.net) && !Busy(Flip(w.net)) }

  predicate HandlersOnly(run: seq<Move>) { forall i :: 0 <= i < |run| ==> Handler(run[i].act) }

  lemma WorkFlip(s: Net)
    ensures Work(Flip(s)) == Work(s) && Flip(Flip(s)) == s
  {
  }

  /** A handler's move leaves less work, or changes nothing but that it may note that a header is due. */
  lemma MoveWorks(w: World, m: Move)
    requires InvW(w) && CanMove(w, m) && Handler(m.act)
    ensures Work(Moved(w, m).net) <= Work(w.net)
    ensures Work(Moved(w, m).net) == Work(w.net) ==>
              if m.Left? then Idle(w.net, Moved(w, m).net) else Idle(Flip(w.net), Flip(Moved(w, m).net))
  {
    hide Work, Busy, Next, DataHalf, Half, NextBook;
    var s := if m.Left? then w.net else Flip(w.net);
    StepWorks(s, m.act);
    WorkFlip(w.net);
    WorkFlip(Next(s, m.act));
    if Idle(s, Next(s, m.act)) {
      IdleWorks(s, Next(s, m.act));
    }
  }

  lemma IdleWorks(s: Net, t: Net)
    requires Idle(s, t)
    ensures Work(t) == Work(s)
  {
    hide FrameLeft, ReplyLeft, Rank, Decode;
    if t != s {
      ListeningSame(s);
    }
  }

  lemma ListeningSame(s: Net)
    requires s.a.rphase == Free
    ensures var t := s.(a := s.a.(rphase := Header));
            && FrameLeft(t.a) == FrameLeft(s.a) && Rank(t.a) == Rank(s.a)
            && ReplyLeft(t) == ReplyLeft(s) && ReplyLeft(Flip(t)) == ReplyLeft(Flip(s))
  {
    hide Decode;
  }

  /** How many moves of a run left less work. */
  function Effective(w: World, run: seq<Move>): nat
    requires CanRun(w, run)
    decreases |run|
  {
    if run == [] then 0
    else
      var v := Moved(w, run[0]);
      (if Work(v.net) < Work(w.net) then 1 else 0) + Effective(v, run[1..])
  }

  lemma {:induction false} StopFrom(w: World, run: seq<Move>)
    requires InvW(w) && CanRun(w, run) && HandlersOnly(run)
    ensures Effective(w, run) + Work(Run(w, run).net) <= Work(w.net)
    decreases |run|
  {
    hide InvW, Work, Moved, CanMove;
    if run != [] {
      assert Handler(run[0].act);
      assert forall i :: 0 <= i < |run[1..]| ==> run[1..][i] == run[i + 1];
      MoveInv(w, run[0]);
      MoveWorks(w, run[0]);
      StopFrom(Moved(w, run[0]), run[1..]);
    }
  }

  /** Two handlers left to themselves do no more than the work that is there when the programs fall silent. */
  lemma HandlersStop(w: World, run: seq<Move>)
    requires Reachable(w) && CanRun(w, run) && HandlersOnly(run)
    ensures Effective(w, run) <= Work(w.net)
  {
    hide InvW, Work, Effective, CanRun, Reachable, HandlersOnly;
    ReachableInv(w);
    StopFrom(w, run);
  }

  lemma BusyMove(w: World) returns (m: Move)
    requires InvW(w) && !Resting(w)
    ensures CanMove(w, m) && Handler(m.act) && Work(Moved(w, m).net) < Work(w.net)
  {
    hide Work, Next, DataHalf, Half, NextBook, Enabled;
    WorkFlip(w.net);
    if Busy(w.net) {
      var act := BusyWorks(w.net);
      m := Left(act);
    } else {
      var act := BusyWorks(Flip(w.net));
      m := Right(act);
      WorkFlip(Next(Flip(w.net), act));
    }
  }

  lemma {:induction false} Settle(w: World) returns (run: seq<Move>)
    requires InvW(w)
    ensures CanRun(w, run) && HandlersOnly(run) && Resting(Run(w, run)) && InvW(Run(w, run))
    decreases Work(w.net)
  {
    hide InvW, Work, Moved, CanMove, Resting;
    if Resting(w) {
      run := [];
    } else {
      var m := BusyMove(w);
      MoveInv(w, m);
      var rest := Settle(Moved(w, m));
      run := [m] + rest;
      assert run[1..] == rest;
    }
  }

  /** What is left on one side at rest: of its own requests a Recv for which no message is being read, a Recv whose
      message is empty, or a RemRd behind a message the peer has not asked for; of the peer's bytes a message nobody
      asked for. */
  predicate AtRest(s: Net) {
    && s.a.queue == [] && s.a.rphase != Auto && |s.a.preq| == HEADER
    && (s.a.lreq.Some? ==>
          || (RecvPosted(s.a) && !(s.a.rphase == Body && PeerHeader(s.a).kind.Send?))
          || (RecvPosted(s.a) && EmptyMessage(s.a) && s.ba.flight == [])
          || (s.a.lreq.value.kind.RemRd? && s.ab.flight != [] && Unclaimed(s.b)))
    && (s.ba.flight != [] ==> Unclaimed(s.a))
  }

  /** The header of a Send without a body has been read. */
  predicate EmptyMessage(e: Endpoint) {
    |e.preq| == HEADER && e.rphase == Body && PeerHeader(e).kind.Send? && PeerHeader(e).length == 0
  }

  /** Everything a posted Recv needs has arrived, yet it completes exactly when something more is readable: the handler
      looks at the connection again only then. */
  lemma EmptyMessageWaits(s: Net)
    requires Inv(s) && RecvPosted(s.a) && EmptyMessage(s.a)
    ensures (exists act :: Enabled(s, act) && Handler(act) && Next(s, act).a.lreq.None?)
            <==> s.ba.flight != []
  {
    hide Encode, Decode, Flat, Line, Log, PipeOk, Load, Store, SegOk, SenderOk;
    if s.ba.flight != [] {
      assert Enabled(s, Input(0)) && Next(s, Input(0)).a.lreq.None?;
    }
  }

  lemma PostedBody(s: Net)
    requires Inv(s) && !Busy(s) && !Busy(Flip(s)) && RecvPosted(s.a) && s.a.rphase == Body
    requires |s.a.preq| == HEADER && PeerHeader(s.a).kind.Send?
    ensures EmptyMessage(s.a) && s.ba.flight == []
  {
    hide Encode, Decode, Load, Store, SegOk, Flat, Log, PipeOk, Line;
    var r := FirstHeader(s);
    assert PeerHeader(s.a) == r;
    assert s.ba.flight == [];
    UnreadReply(s.ba);
    if s.ba.todo != [] {
      LineLong(s.ba);
    }
  }

  lemma RestSide(s: Net)
    requires Inv(s) && !Busy(s) && !Busy(Flip(s))
    ensures AtRest(s)
  {
    hide Half, Busy, Unclaimed, EmptyMessage;
    RestLeaves(s);
    PreqLength(s);
    if s.a.lreq.Some? && RecvPosted(s.a) && s.a.rphase == Body && PeerHeader(s.a).kind.Send? {
      PostedBody(s);
    }
  }

  lemma PreqLength(s: Net)
    requires Inv(s)
    ensures |s.a.preq| == HEADER
  {
    hide PipeOk, SegOk, SenderOk, ReceiverOk, ReadOk, Log;
  }

  /** From every reachable state the handlers can come to rest without the programs, and rest on either side means that
      every Send, RemWr and zero-length RemRd is completed. */
  lemma ComesToRest(w: World) returns (run: seq<Move>)
    requires Reachable(w)
    ensures CanRun(w, run) && HandlersOnly(run)
    ensures AtRest(Run(w, run).net) && AtRest(Flip(Run(w, run).net))
  {
    hide Work, Busy, Half, DataHalf, CanRun, Run, Reachable, AtRest;
    ReachableInv(w);
    run := Settle(w);
    var s := Run(w, run).net;
    assert Flip(Flip(s)) == s;
    RestSide(s);
    RestSide(Flip(s));
  }

  // ---------------------------------------------------------------- nothing is asked for in small pieces

  /** When all of it is readable, one step can take a whole header, a whole body, or a whole reply. */
  lemma WholeAtOnce(s: Net)
    requires Inv(s)
    ensures s.a.pollIn && s.a.rphase == Free && |s.ba.flight| >= 48 ==>
              Enabled(s, Input(48)) && Next(s, Input(48)).a.rphase in {Body, Auto}
    ensures s.a.pollIn && s.a.rphase == Body && s.ba.flight != [] && s.a.rbytes <= PeerHeader(s.a).length
            && |s.ba.flight| >= PeerHeader(s.a).length - s.a.rbytes
            && (PeerHeader(s.a).kind.RemWr? || (PeerHeader(s.a).kind.Send? && RecvPosted(s.a))) ==>
              var n := PeerHeader(s.a).length - s.a.rbytes;
              Enabled(s, Input(n)) && Next(s, Input(n)).a.rphase == Free
    ensures AwaitsReply(s.a) && s.a.lbytes <= s.a.lreq.value.length
            && |s.ba.flight| >= s.a.lreq.value.length - s.a.lbytes ==>
              var n := s.a.lreq.value.length - s.a.lbytes;
              Enabled(s, Drive(n)) && Next(s, Drive(n)).a.lreq == None
  {
    hide Encode, Decode, Load, Store, Log, Line, PipeOk, SegOk, SenderOk, ReadOk, Flat, Next, RequestOk;
    if s.a.pollIn && s.a.rphase == Free && |s.ba.flight| >= 48 {
      NotReadyToRead(s);
      HeaderStep(s, 48);
      HeaderFacts(s, 48);
    }
    if s.a.pollIn && s.a.rphase == Body && s.a.rbytes <= PeerHeader(s.a).length {
      var n: nat := PeerHeader(s.a).length - s.a.rbytes;
      if Enabled(s, Input(n)) { BodyStep(s, n); }
    }
    if AwaitsReply(s.a) && s.a.lbytes <= s.a.lreq.value.length {
      var n: nat := s.a.lreq.value.length - s.a.lbytes;
      if Enabled(s, Drive(n)) { TakeStep(s, n); }
    }
  }

  /** One step can also write all that is left: of the header, of the body, and of the answer to a remote read. */
  lemma WrittenAtOnce(s: Net)
    requires Inv(s)
    ensures s.a.lreq.Some? && Outgoing(s.a.lreq.value.kind) && s.a.lphase == Header ==>
              s.a.lbytes <= 48 && Enabled(s, Drive(48 - s.a.lbytes))
              && Next(s, Drive(48 - s.a.lbytes)).a.lphase in {Body, Auto}
    ensures s.a.lreq.Some? && Outgoing(s.a.lreq.value.kind) && s.a.lphase == Body ==>
              var r := s.a.lreq.value;
              s.a.lbytes <= r.length && Enabled(s, Drive(r.length - s.a.lbytes))
              && Next(s, Drive(r.length - s.a.lbytes)).a.lreq == None
    ensures s.a.rphase == Auto ==>
              var h := PeerHeader(s.a);
              s.a.rbytes <= h.length && Enabled(s, Output(h.length - s.a.rbytes))
              && Next(s, Output(h.length - s.a.rbytes)).a.rphase == Free
  {
    hide Encode, Decode, Load, Store, Log, Line, PipeOk, SegOk, SenderOk, Flat, Representable;
    if s.a.lreq.Some? { OfferLength(s.a); }
    if s.a.rphase == Auto { AnswerLength(s); }
  }

  lemma AnswerLength(s: Net)
    requires Inv(s) && s.a.rphase == Auto
    ensures s.a.rbytes <= PeerHeader(s.a).length && |ReplyOffer(s.a)| == PeerHeader(s.a).length - s.a.rbytes
  {
    hide Encode, Decode, Load, Log, Line, PipeOk, SegOk, SenderOk, Flat, RequestOk;
    ReplyOffered(s.a);
  }
}
