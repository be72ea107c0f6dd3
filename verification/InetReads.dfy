/** Completed remote reads: each is answered by exactly one reply, in order, and leaves the peer's bytes in its buffer.

    `InetIntact` speaks of replies that were read; here they are tied to the RemRd requests among the completions. */
module InetReads {
  import opened Wire
  import opened InetEndpoint
  import opened InetNet
  import opened InetData
  import opened InetTheorems
  import opened InetIntact

  /** The completed RemRd requests that asked for bytes, as they were submitted. */
  function ReadsDone(cs: seq<Request>): seq<Request> {
    if cs == [] then []
    else
      var n := |cs| - 1;
      ReadsDone(cs[..n]) + (if cs[n].kind.RemRd? && cs[n].length > 0 then [cs[n].(status := PENDING)] else [])
  }

  /** The requests for which the replies among `segs` were read. */
  function Fetched(segs: seq<Seg>, ms: seq<Mark>): seq<Request>
    requires |segs| == |ms|
  {
    if segs == [] then []
    else
      var n := |segs| - 1;
      Fetched(segs[..n], ms[..n]) + (if segs[n].Reply? then [ms[n].req] else [])
  }

  /** The place of the reply with number `m` among `segs`, or their end. */
  function ReplyAt(segs: seq<Seg>, m: nat): (i: nat)
    ensures i <= |segs|
  {
    if segs == [] then 0
    else
      var n := |segs| - 1;
      if Replies(segs[..n]) > m then ReplyAt(segs[..n], m)
      else if segs[n].Reply? && Replies(segs[..n]) == m then n
      else n + 1
  }

  function Replies(segs: seq<Seg>): nat {
    if segs == [] then 0
    else
      var n := |segs| - 1;
      Replies(segs[..n]) + (if segs[n].Reply? then 1 else 0)
  }

  lemma ReadsDoneSnoc(cs: seq<Request>, c: Request)
    ensures ReadsDone(cs + [c])
            == ReadsDone(cs) + (if c.kind.RemRd? && c.length > 0 then [c.(status := PENDING)] else [])
  {
    assert (cs + [c])[..|cs|] == cs;
  }

  lemma FetchedSnoc(segs: seq<Seg>, ms: seq<Mark>, g: Seg, m: Mark)
    requires |segs| == |ms|
    ensures Fetched(segs + [g], ms + [m]) == Fetched(segs, ms) + (if g.Reply? then [m.req] else [])
  {
    assert (segs + [g])[..|segs|] == segs && (ms + [m])[..|ms|] == ms;
  }

  lemma {:induction false} FetchedSame(segs: seq<Seg>, ms: seq<Mark>, ns: seq<Mark>, x: Span)
    requires |segs| == |ms| == |ns| && forall i :: 0 <= i < |ms| ==> Spoils(ms[i], ns[i], x)
    ensures Fetched(segs, ms) == Fetched(segs, ns)
  {
    hide Clear;
    if segs != [] {
      var l := |segs| - 1;
      FetchedSame(segs[..l], ms[..l], ns[..l], x);
    }
  }

  /** The reply with number `m` is that of the request with number `m`. */
  lemma {:induction false} FetchedAt(segs: seq<Seg>, ms: seq<Mark>, m: nat)
    requires |segs| == |ms|
    ensures |Fetched(segs, ms)| == Replies(segs)
    ensures m < |Fetched(segs, ms)| ==>
              var i := ReplyAt(segs, m);
              i < |segs| && segs[i].Reply? && ms[i].req == Fetched(segs, ms)[m] && Replies(segs[..i]) == m
  {
    if segs != [] {
      var l := |segs| - 1;
      FetchedAt(segs[..l], ms[..l], m);
      var i := ReplyAt(segs, m);
      if i < l {
        assert segs[..l][..i] == segs[..i];
      }
    }
  }

  // ---------------------------------------------------------------- one step

  /** The step that takes the last bytes of a reply. */
  predicate EndsRead(s: Net, act: Action)
    requires Enabled(s, act)
  {
    act.Drive? && AwaitsReply(s.a) && s.a.lreq.value.length > 0 && Next(s, act).a.lreq.None?
  }

  /** A step completes nothing, or the request in the handler; a read that asked for bytes only with its reply. */
  lemma StepCompletes(s: Net, act: Action)
    requires Inv(s) && Enabled(s, act)
    ensures var c := Next(s, act).a.comps;
            if EndsRead(s, act) then c == s.a.comps + [s.a.lreq.value.(status := SUCCESS)]
            else
              c == s.a.comps
              || (s.a.lreq.Some? && c == s.a.comps + [s.a.lreq.value.(status := SUCCESS)]
                  && (s.a.lreq.value.kind.RemRd? ==> s.a.lreq.value.length == 0))
  {
    hide Inv, Encode, Decode, Load, Store, Log, Line, Offer, Next, MaySubmit;
    match act
    case Input(n) => if s.a.rphase == Body { BodyStep(s, n); } else { HeaderStep(s, n); }
    case Fetch => FetchInv(s);
    case Output(n) => RepliedSame(s, n);
    case Drive(n) => DriveCompletes(s, n);
    case _ => ProgramCompletes(s, act);
  }

  lemma DriveCompletes(s: Net, n: nat)
    requires Enabled(s, Drive(n)) && Inv(s)
    ensures var c := Next(s, Drive(n)).a.comps;
            if EndsRead(s, Drive(n)) then c == s.a.comps + [s.a.lreq.value.(status := SUCCESS)]
            else
              c == s.a.comps
              || (c == s.a.comps + [s.a.lreq.value.(status := SUCCESS)]
                  && (s.a.lreq.value.kind.RemRd? ==> s.a.lreq.value.length == 0))
  {
    hide Encode, Decode, Load, Store, Log, Flat, Line, PipeOk, SegOk, ReceiverOk, SenderOk, ReadOk, Offer, Framed,
      RequestOk;
    if AwaitsReply(s.a) { TakeStep(s, n); }
  }

  lemma ProgramCompletes(s: Net, act: Action)
    requires Enabled(s, act) && (act.Submit? || act.AppWrite?)
    ensures Next(s, act).a.comps == s.a.comps
  {
  }

  lemma StepReadsDone(s: Net, act: Action)
    requires Inv(s) && Enabled(s, act)
    ensures EndsRead(s, act) ==> s.a.lreq.Some?
    ensures ReadsDone(Next(s, act).a.comps)
            == ReadsDone(s.a.comps) + (if EndsRead(s, act) then [s.a.lreq.value] else [])
  {
    hide Next, ReadsDone, PipeOk, SegOk, SenderOk, ReceiverOk, ReadOk, Log;
    StepCompletes(s, act);
    if s.a.lreq.Some? {
      ReadsDoneSnoc(s.a.comps, s.a.lreq.value.(status := SUCCESS));
    }
  }

  /** Whether the segment that a step reads to its end is a reply. */
  lemma StepReadsReply(w: World, act: Action)
    requires Enabled(w.net, act) && InvW(w)
    ensures var k, t := NextBook(w, act), Next(w.net, act);
            && |k.got| == |t.ba.seen|
            && (EndsRead(w.net, act) ==> |k.got| == |w.ka.got| + 1 && Reading(w.net.a))
            && (|k.got| > |w.ka.got| ==>
                  (t.ba.seen[|w.ka.got|].Reply? <==> EndsRead(w.net, act))
                  && (EndsRead(w.net, act) ==> k.got[|w.ka.got|].req == w.net.a.lreq.value))
  {
    hide InvW, Next, NextBook, Decode, Load, Stored, Offer;
    RecvCount(w);
    MarksKept(w, act);
    StepReads(w, act);
    match act
    case Drive(n) =>
      if AwaitsReply(w.net.a) { TakeReads(w, n); } else { OtherTakes(w, act); }
      if |NextBook(w, act).got| > |w.ka.got| { GotMarkTells(w, act); }
    case _ =>
  }

  lemma StepFetched(w: World, act: Action)
    requires InvW(w) && Enabled(w.net, act)
    ensures |w.ka.got| == |w.net.ba.seen| && |NextBook(w, act).got| == |Next(w.net, act).ba.seen|
    ensures EndsRead(w.net, act) ==> w.net.a.lreq.Some?
    ensures Fetched(Next(w.net, act).ba.seen, NextBook(w, act).got)
            == Fetched(w.net.ba.seen, w.ka.got) + (if EndsRead(w.net, act) then [w.net.a.lreq.value] else [])
  {
    hide InvW, Next, NextBook, Fetched, Stored;
    var k, seen, x := NextBook(w, act), w.net.ba.seen, Stored(w.net, act);
    RecvCount(w);
    MarksKept(w, act);
    StepReads(w, act);
    StepReadsReply(w, act);
    var got := k.got[..|w.ka.got|];
    FetchedSame(seen, w.ka.got, got, x);
    if |k.got| > |w.ka.got| {
      FetchedSnoc(seen, got, w.net.ba.todo[0], k.got[|w.ka.got|]);
      assert k.got == got + [k.got[|w.ka.got|]];
    } else {
      assert k.got == got;
    }
  }

  // ---------------------------------------------------------------- every run

  /** The completed reads of a side are those whose replies it has read. */
  predicate ReadsMatch(e: Endpoint, k: Book, inn: Pipe) {
    |k.got| == |inn.seen| && ReadsDone(e.comps) == Fetched(inn.seen, k.got)
  }

  lemma StepMatch(w: World, act: Action)
    requires InvW(w) && Enabled(w.net, act) && ReadsMatch(w.net.a, w.ka, w.net.ba)
    ensures ReadsMatch(Next(w.net, act).a, NextBook(w, act), Next(w.net, act).ba)
  {
    hide DataHalf, Half, Next, NextBook, Fetched, ReadsDone;
    StepReadsDone(w.net, act);
    StepFetched(w, act);
  }

  lemma {:induction false} RunMatch(w: World, run: seq<Move>)
    requires InvW(w) && CanRun(w, run) && ReadsMatch(w.net.b, w.kb, w.net.ab)
    ensures var v := Run(w, run); ReadsMatch(v.net.b, v.kb, v.net.ab)
    decreases |run|
  {
    hide InvW, Next, NextBook, Enabled, ReadsMatch;
    if run != [] {
      MoveInv(w, run[0]);
      InvFlips(w);
      if run[0].Right? {
        StepMatch(FlipW(w), run[0].act);
      } else {
        OtherEndStays(w.net, run[0].act);
        LeftReadsNothing(w.net, run[0].act);
        assert ReadsMatch(w.net.b, w.kb, Next(w.net, run[0].act).ab) by { SameSeen(w, run[0].act); }
      }
      RunMatch(Moved(w, run[0]), run[1..]);
    }
  }

  lemma SameSeen(w: World, act: Action)
    requires Enabled(w.net, act) && ReadsMatch(w.net.b, w.kb, w.net.ab) && Next(w.net, act).ab.seen == w.net.ab.seen
    ensures ReadsMatch(w.net.b, w.kb, Next(w.net, act).ab)
  {
    hide Next, Enabled, ReadsDone, Fetched;
  }

  /** In every reachable state the completed reads are, in order, those whose replies were read. */
  lemma ReadsCompleteInOrder(w: World)
    requires Reachable(w)
    ensures |w.kb.got| == |w.net.ab.seen| && ReadsDone(w.net.b.comps) == Fetched(w.net.ab.seen, w.kb.got)
  {
    hide InvW, Run, CanRun, ReadsDone, Fetched;
    var memA: seq<byte>, memB: seq<byte>, run: seq<Move> :|
      CanRun(InitW(memA, memB), run) && w == Run(InitW(memA, memB), run);
    InitData(memA, memB);
    NoReadsYet();
    RunMatch(InitW(memA, memB), run);
  }

  lemma NoReadsYet()
    ensures ReadsDone([]) == [] && Fetched([], []) == []
  {
  }

  /** The step that completes a read that asked for bytes ends with the side polling for input again. */
  lemma PollsAgain(w: World, act: Action)
    requires InvW(w) && Enabled(w.net, act)
    requires |ReadsDone(Next(w.net, act).a.comps)| > |ReadsDone(w.net.a.comps)|
    ensures !w.net.a.pollIn && Reading(w.net.a) && Served(w.net)
    ensures Next(w.net, act).a.pollIn && Next(w.net, act).a.lreq.None?
    ensures Quiet(Next(w.net, act).ba)
  {
    hide Encode, Decode, Load, Store, Log, Flat, Line, PipeOk, SegOk, ReceiverOk, SenderOk, ReadsDone, DataHalf;
    StepReadsDone(w.net, act);
    match act
    case Drive(n) => ReplyFacts(w.net, n); RestsAfterReply(w.net, n);
  }

  lemma RestsAfterReply(s: Net, n: nat)
    requires Inv(s) && Enabled(s, Drive(n)) && AwaitsReply(s.a) && s.a.lreq.value.length > 0
    requires s.a.lbytes + n == s.a.lreq.value.length
    ensures Quiet(Next(s, Drive(n)).ba)
  {
    hide Encode, Decode, Load, Store, Log, Flat, Line, PipeOk, SegOk, ReceiverOk, SenderOk, ReadOk;
    ReplyPulled(s, n);
  }

  /** A completed read: its reply was read whole, and buffer and range are equal while both records are intact. */
  lemma ReadReturnsPeerBytes(w: World, m: nat)
    requires Reachable(w) && m < |ReadsDone(w.net.b.comps)|
    ensures var i := ReplyAt(w.net.ab.seen, m);
            var r := ReadsDone(w.net.b.comps)[m];
            && i < |w.net.ab.seen| && i < |w.ka.sent| && i < |w.kb.got| && Replies(w.net.ab.seen[..i]) == m
            && w.net.ab.seen[i].Reply? && |w.net.ab.seen[i].data| == r.length
            && w.ka.sent[i].req == w.kb.got[i].req == r
            && (w.ka.sent[i].ok && w.kb.got[i].ok ==>
                  Load(w.net.b.mem, r.addr, r.length) == Load(w.net.a.mem, r.remAddr, r.length))
  {
    hide Reachable, ReadsDone, Fetched, ReplyAt, Replies, Load;
    ReadsCompleteInOrder(w);
    FetchedAt(w.net.ab.seen, w.kb.got, m);
    ReplyCopied(w, ReplyAt(w.net.ab.seen, m));
  }

  /** A completed read, in terms of the run alone: if from its header on nothing is stored into the range at the peer,
      and from its fetch on nothing but the reply into the buffer, the two are equal, and are the bytes of the reply. */
  lemma RemoteReadFetches(memA: seq<byte>, memB: seq<byte>, run: seq<Move>, m: nat, r: Request)
    requires CanRun(InitW(memA, memB), run)
    requires var s := Run(InitW(memA, memB), run).net;
             && m < |ReadsDone(s.b.comps)| && r == ReadsDone(s.b.comps)[m]
             && SourceQuiet(InitW(memA, memB), run, ReplyAt(s.ab.seen, m), r.remAddr, r.length)
             && TargetQuiet(InitW(memA, memB), run, ReplyAt(s.ab.seen, m), r.addr, r.length)
    ensures var s := Run(InitW(memA, memB), run).net;
            var i := ReplyAt(s.ab.seen, m);
            && i < |s.ab.seen| && s.ab.seen[i].Reply?
            && Load(s.b.mem, r.addr, r.length) == Load(s.a.mem, r.remAddr, r.length) == s.ab.seen[i].data
  {
    hide Run, CanRun, SourceQuiet, TargetQuiet, InvW, Reachable, Load, ReadsDone, ReplyAt, Replies;
    var w := InitW(memA, memB);
    var v := Run(w, run);
    var i := ReplyAt(v.net.ab.seen, m);
    StartReachable(memA, memB, run);
    ReadReturnsPeerBytes(v, m);
    MarksAre(v, i);
    if r.length == 0 {
      LoadNone(v.net.a.mem, r.remAddr);
      LoadNone(v.net.b.mem, r.addr);
    } else {
      RunSource(w, run, i, r.remAddr, r.length);
      RunTarget(w, run, i, r.addr, r.length);
      SentHolds(v, i);
    }
  }
}
