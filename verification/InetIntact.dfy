/** What an intact mark means: which steps spoil it, and that an undisturbed transfer leaves the peer's bytes in
    memory, stated in terms of the run alone. */
module InetIntact {
  import opened Wire
  import opened InetEndpoint
  import opened InetNet
  import opened InetData
  import opened InetTheorems

  // ---------------------------------------------------------------- what one step stores

  /** The `n` bytes at `addr` that a step stores on its own side: on behalf of its program, of the request in the
      handler (`Mine`), or of the peer's one-sided request (`Theirs`). */
  datatype Span = Span(addr: nat, n: nat, who: Author)

  const NOTHING := Span(0, 0, Program)

  function Stored(s: Net, act: Action): Span
    requires Enabled(s, act)
  {
    match act
    case Drive(n) =>
      if !s.a.lreq.value.kind.Recv? && AwaitsReply(s.a)
        then Span(s.a.lreq.value.addr + s.a.lbytes, n, Mine) else NOTHING
    case Input(n) =>
      if s.a.rphase == Body then
        Span(Landing(s.a) + s.a.rbytes, n, if PeerHeader(s.a).kind.Send? then Mine else Theirs)
      else NOTHING
    case AppWrite(addr, data) => Span(addr, |data|, Program)
    case _ => NOTHING
  }

  predicate Clear(x: Span, a: nat, n: nat) { Apart(a, n, x.addr, x.n) }

  lemma InvShaped(s: Net)
    requires Inv(s)
    ensures Shaped(s.a) && Shaped(s.b)
  {
    hide PipeOk, SegOk, SenderOk, ReceiverOk, ReadOk, Log;
  }

  lemma StoreClear(mem: seq<byte>, x: Span, data: seq<byte>, a: nat, n: nat)
    requires Clear(x, a, n) && x.n == |data|
    ensures Load(Store(mem, x.addr, data), a, n) == Load(mem, a, n)
  {
    LoadStoreApart(mem, x.addr, data, a, n);
  }

  /** A step changes no other memory than that. */
  lemma StoresOnlyThere(s: Net, act: Action, a: nat, n: nat)
    requires Inv(s) && Enabled(s, act) && Clear(Stored(s, act), a, n)
    ensures Load(Next(s, act).a.mem, a, n) == Load(s.a.mem, a, n) && Next(s, act).b == s.b
  {
    hide Encode, Decode, Load, Store, Log, Flat, Line, PipeOk, SegOk, ReceiverOk, SenderOk, ReadOk, Apart, Clear;
    match act
    case Drive(k) => if AwaitsReply(s.a) { StoreClear(s.a.mem, Stored(s, act), s.ba.flight[..k], a, n); }
    case Input(k) => if s.a.rphase == Body { StoreClear(s.a.mem, Stored(s, act), s.ba.flight[..k], a, n); }
    case AppWrite(addr, data) => StoreClear(s.a.mem, Stored(s, act), data, a, n);
    case _ =>
  }

  // ---------------------------------------------------------------- what a step does to the marks

  predicate Spoils(old': Mark, new': Mark, x: Span) {
    new' == old'.(ok := new'.ok) && (new'.ok <==> old'.ok && Clear(x, old'.addr, |old'.data|))
  }

  /** Every mark of `k` is in `k'`, spoiled by the step or not, and at most one is new. */
  predicate AllSpoil(ms: seq<Mark>, ns: seq<Mark>, x: Span) {
    |ms| <= |ns| <= |ms| + 1 && forall i :: 0 <= i < |ms| ==> Spoils(ms[i], ns[i], x)
  }

  lemma TouchSpoils(k: Book, e: Endpoint, x: Span)
    requires |e.preq| == HEADER
    ensures AllSpoil(k.sent, Touch(k, e, x.addr, x.n, x.who).sent, x)
    ensures AllSpoil(k.got, Touch(k, e, x.addr, x.n, x.who).got, x)
    ensures |Touch(k, e, x.addr, x.n, x.who).sent| == |k.sent| && |Touch(k, e, x.addr, x.n, x.who).got| == |k.got|
  {
    hide Decode, Apart;
  }

  lemma NothingSpoils(ms: seq<Mark>)
    ensures AllSpoil(ms, ms, NOTHING) && forall m :: AllSpoil(ms, ms + [m], NOTHING)
  {
  }

  lemma OneMore(ms: seq<Mark>, ns: seq<Mark>, m: Mark, x: Span)
    requires AllSpoil(ms, ns, x) && |ms| == |ns|
    ensures AllSpoil(ms, ns + [m], x)
  {
  }

  /** A mark stays intact exactly when it was and the step stores nothing into its range. */
  lemma MarksKept(w: World, act: Action)
    requires InvW(w) && Enabled(w.net, act)
    ensures AllSpoil(w.ka.sent, NextBook(w, act).sent, Stored(w.net, act))
    ensures AllSpoil(w.ka.got, NextBook(w, act).got, Stored(w.net, act))
  {
    hide Encode, Decode, Load, Store, Log, Flat, Line, PipeOk, SegOk, ReceiverOk, SenderOk, ReadOk, DataHalf, Next,
      AllSpoil, Touch, Apart, ControlOk, Half;
    InvShaped(w.net);
    var k, x := w.ka, Stored(w.net, act);
    NothingSpoils(k.sent);
    NothingSpoils(k.got);
    var k1 := Touch(k, w.net.a, x.addr, x.n, x.who);
    TouchSpoils(k, w.net.a, x);
    if w.net.ba.todo != [] {
      forall m ensures AllSpoil(k.got, k1.got + [m], x) { OneMore(k.got, k1.got, m, x); }
    }
  }

  /** The request in the handler stays clean exactly as long as nobody else stores into its buffer; a fetched request
      starts clean. */
  lemma CleanKept(w: World, act: Action)
    requires Enabled(w.net, act) && InvW(w)
    ensures var k, x, e := NextBook(w, act), Stored(w.net, act), w.net.a;
            if act.Fetch? then k.lclean
            else k.lclean <==> w.ka.lclean
                               && (x.who == Mine || e.lreq.None? || Clear(x, e.lreq.value.addr, e.lreq.value.length))
  {
    hide InvW, Encode, Decode, Load, Offer, Next, Disturb, SegData;
  }

  /** The step reads the last byte of the peer's header. */
  predicate HeaderEnds(s: Net, act: Action)
    requires Enabled(s, act)
  {
    act.Input? && s.a.rphase in {Free, Header} && Next(s, act).a.rphase != Header
  }

  /** The same for the range of the peer's one-sided request, from its header on. */
  lemma RemoteCleanKept(w: World, act: Action)
    requires Enabled(w.net, act) && InvW(w)
    ensures var k, x, h := NextBook(w, act), Stored(w.net, act), PeerHeader(w.net.a);
            if HeaderEnds(w.net, act) then k.rclean
            else k.rclean <==> w.ka.rclean && (x.who == Theirs || Clear(x, h.remAddr, h.length))
  {
    hide InvW, Encode, Decode, Load, Offer, Next, Disturb, SegData;
  }

  /** A frame or a reply is recorded as intact exactly when the buffer it was taken from stayed clean. */
  lemma SentMarkTells(w: World, act: Action)
    requires InvW(w) && Enabled(w.net, act) && |NextBook(w, act).sent| > |w.ka.sent|
    ensures var m := NextBook(w, act).sent[|w.ka.sent|];
            && (act.Drive? || act.Output?)
            && (act.Drive? ==> w.net.a.lreq.Some? && m.addr == w.net.a.lreq.value.addr && (m.ok <==> w.ka.lclean))
            && (act.Output? ==> m.addr == PeerHeader(w.net.a).remAddr && (m.ok <==> w.ka.rclean))
  {
    hide Encode, Decode, Load, Store, Log, Flat, Line, PipeOk, SegOk, ReceiverOk, SenderOk, ReadOk, DataHalf, Next;
  }

  /** What is recorded of a transfer into this side's memory that has just ended: `e` before the step, `k` after it. */
  predicate GotTells(e: Endpoint, f: Endpoint, act: Action, k: Book, m: Mark) {
    |e.preq| == HEADER && |f.preq| == HEADER
    && match act
       case Drive(_) =>
         Reading(e) && m.req == e.lreq.value && m.addr == e.lreq.value.addr && |m.data| == e.lreq.value.length
         && (m.ok <==> k.lclean)
       case Input(_) =>
         if e.rphase != Body then m.req == PeerHeader(f) && m.req.kind.RemRd?
         else if PeerHeader(e).kind.Send? then
           e.lreq.Some? && m.req == e.lreq.value && m.addr == e.lreq.value.addr && |m.data| == PeerHeader(e).length
           && (m.ok <==> k.lclean && |m.data| <= e.lreq.value.length)
         else
           m.req == PeerHeader(e) && m.addr == PeerHeader(e).remAddr && |m.data| == PeerHeader(e).length
           && (m.ok <==> k.rclean)
       case _ => false
  }

  lemma FetchedTells(w: World, n: nat)
    requires Enabled(w.net, Drive(n)) && InvW(w) && |NextBook(w, Drive(n)).got| > |w.ka.got|
    ensures var k := NextBook(w, Drive(n));
            GotTells(w.net.a, Next(w.net, Drive(n)).a, Drive(n), k, k.got[|w.ka.got|])
  {
    hide InvW, Inv, Next, Encode, Decode, Load, Offer, MaySubmit, Log, Line, Waiting, Serving, Disturb;
    if AwaitsReply(w.net.a) {
      TakeStep(w.net, n);
      ReplyFacts(w.net, n) by { WorldNet(w); }
    }
  }

  lemma InputTells(w: World, n: nat)
    requires Enabled(w.net, Input(n)) && InvW(w) && |NextBook(w, Input(n)).got| > |w.ka.got|
    ensures var k := NextBook(w, Input(n));
            GotTells(w.net.a, Next(w.net, Input(n)).a, Input(n), k, k.got[|w.ka.got|])
  {
    hide InvW, Inv, Next, NextBook, Encode, Decode, Load, Offer, MaySubmit, Log, Line, Disturb;
    if w.net.a.rphase == Body {
      BodyStep(w.net, n);
      BodyBook(w, n);
      BodyFacts(w.net, n) by { WorldNet(w); }
    } else {
      HeaderStep(w.net, n);
      HeaderBook(w, n);
    }
  }

  /** A completed transfer into memory is recorded as intact exactly when the buffer stayed clean, this step included,
      and for a message when it fits the Recv. */
  lemma GotMarkTells(w: World, act: Action)
    requires Enabled(w.net, act) && InvW(w) && |NextBook(w, act).got| > |w.ka.got|
    ensures GotTells(w.net.a, Next(w.net, act).a, act, NextBook(w, act), NextBook(w, act).got[|w.ka.got|])
  {
    hide InvW, Next, GotTells, Decode, Load, SegData;
    match act
    case Drive(n) => FetchedTells(w, n);
    case Input(n) => InputTells(w, n);
    case _ =>
  }

  // ---------------------------------------------------------------- since the request was fetched

  /** The request stays in the left handler throughout. */
  predicate InHand(w: World, run: seq<Move>, r: Request)
    requires CanRun(w, run)
    decreases |run|
  {
    w.net.a.lreq == Some(r) && (run == [] || InHand(Moved(w, run[0]), run[1..], r))
  }

  /** Nobody but the request itself stores into its buffer. */
  predicate NothingForeign(w: World, run: seq<Move>, r: Request)
    requires CanRun(w, run)
    decreases |run|
  {
    run == []
    || ((run[0].Left? ==>
           var x := Stored(w.net, run[0].act); x.who == Mine || Clear(x, r.addr, r.length))
        && NothingForeign(Moved(w, run[0]), run[1..], r))
  }

  lemma {:induction false} CleanWhileInHand(w: World, run: seq<Move>, r: Request)
    requires InvW(w) && CanRun(w, run) && InHand(w, run, r)
    ensures Run(w, run).ka.lclean <==> w.ka.lclean && NothingForeign(w, run, r)
    decreases |run|
  {
    hide InvW, NextBook, Next, Stored, Enabled;
    if run != [] {
      MoveInv(w, run[0]);
      if run[0].Left? {
        CleanKept(w, run[0].act);
        assert !run[0].act.Fetch? by { NoFetchInHand(w); }
      }
      CleanWhileInHand(Moved(w, run[0]), run[1..], r);
    }
  }

  lemma NoFetchInHand(w: World)
    requires InvW(w) && w.net.a.lreq.Some?
    ensures w.net.a.queue == [] && !Enabled(w.net, Fetch)
  {
    hide DataHalf, PipeOk, SegOk, SenderOk, ReceiverOk, ReadOk;
  }

  /** From its fetch on, the request in the left handler is clean exactly when nothing foreign was stored into its
      buffer since. */
  lemma CleanSinceFetch(w: World, run: seq<Move>, r: Request)
    requires InvW(w) && Enabled(w.net, Fetch)
    requires var v := NextW(w, Fetch); CanRun(v, run) && InHand(v, run, r)
    ensures var v := NextW(w, Fetch); Run(v, run).ka.lclean <==> NothingForeign(v, run, r)
  {
    hide InvW, Next, Stored, InHand, NothingForeign, Run, CanRun, NextBook;
    StepData(w, Fetch);
    CleanKept(w, Fetch);
    CleanWhileInHand(NextW(w, Fetch), run, r);
  }

  // ---------------------------------------------------------------- undisturbed sources

  /** The request in the handler still has a body to write. */
  predicate Sending(e: Endpoint) { e.lreq.Some? && BodyLength(e.lreq.value) > 0 }

  /** Segment `i` is being written by this side, or is written. */
  predicate FromHere(s: Net, i: nat) {
    i < |Log(s.ab)| || (i == |Log(s.ab)| && (Sending(s.a) || Replying(s.a)))
  }

  /** From the fetch of the request that becomes segment `i`, or the header it answers, nothing is stored into the
      range. */
  predicate SourceSafe(s: Net, act: Action, i: nat, a: nat, n: nat)
    requires Enabled(s, act)
  {
    FromHere(s, i) ==> Clear(Stored(s, act), a, n)
  }

  /** If segment `i` is taken from this range, it is recorded as intact, or clean so far. */
  predicate SourceIntact(k: Book, e: Endpoint, i: nat, a: nat, n: nat) {
    |e.preq| == HEADER
    && (i < |k.sent| && k.sent[i].addr == a && |k.sent[i].data| == n ==> k.sent[i].ok)
    && (i == |k.sent| && Sending(e) && e.lreq.value.addr == a && e.lreq.value.length == n ==> k.lclean)
    && (i == |k.sent| && Replying(e) && PeerHeader(e).remAddr == a && PeerHeader(e).length == n ==> k.rclean)
  }

  /** The sides of a step that writes a frame. */
  lemma WritingSource(w: World, n: nat, i: nat, a: nat, len: nat)
    requires Enabled(w.net, Drive(n)) && Outgoing(w.net.a.lreq.value.kind) && !AwaitsReply(w.net.a) && InvW(w)
    requires SourceIntact(w.ka, w.net.a, i, a, len) && len > 0
    ensures SourceIntact(NextBook(w, Drive(n)), Next(w.net, Drive(n)).a, i, a, len)
  {
    hide InvW, Inv, Next, NextBook, Encode, Decode, Load, MaySubmit, Log, Line, Offer, Served;
    WriteBook(w, n);
    WriteView(w);
    WriteFacts(w.net, n) by { WorldNet(w); }
    SealedWhen(w.net, n);
    WrittenSends(w.net, n);
    SealedEnds(w, n);
  }

  lemma NotReplyingWhileSending(w: World)
    requires InvW(w) && Sending(w.net.a)
    ensures !Replying(w.net.a)
  {
    hide Inv;
    AnswersAlone(w.net);
  }

  /** A frame with a body is sealed by the step that completes its request. */
  lemma SealedEnds(w: World, n: nat)
    requires Enabled(w.net, Drive(n)) && Outgoing(w.net.a.lreq.value.kind) && !AwaitsReply(w.net.a) && InvW(w)
    ensures Next(w.net, Drive(n)).ab.todo != w.net.ab.todo && Sending(w.net.a) ==> Written(w.net.a, n).lreq.None?
  {
    hide InvW, Next, Encode, Decode, Load, MaySubmit;
    WriteView(w);
    SealedWhen(w.net, n);
    OfferLength(w.net.a);
    if Sending(w.net.a) { NotReplyingWhileSending(w); }
  }

  /** A request with a body is in the handler until its frame is sealed. */
  lemma WrittenSends(s: Net, n: nat)
    requires Enabled(s, Drive(n)) && Outgoing(s.a.lreq.value.kind) && !AwaitsReply(s.a)
    ensures var f := Written(s.a, n); Sending(f) ==> Sending(s.a) && f.lreq == s.a.lreq
    ensures var f := Written(s.a, n); f.preq == s.a.preq && f.rphase == s.a.rphase
  {
    hide Encode, Decode, Offer;
  }

  lemma ReplyingSource(w: World, n: nat, i: nat, a: nat, len: nat)
    requires InvW(w) && Enabled(w.net, Output(n)) && SourceIntact(w.ka, w.net.a, i, a, len) && len > 0
    ensures SourceIntact(NextBook(w, Output(n)), Next(w.net, Output(n)).a, i, a, len)
  {
    hide Encode, Decode, Load, Store, Log, Flat, Line, PipeOk, SegOk, ReceiverOk, ReadOk, Apart, ReplyOffer, FlowOk,
      AllHold, LedgerOk, WrittenOk, GotOk, RepliesMatch;
    OutputFacts(w.net, n);
  }

  lemma NothingSent(w: World, act: Action)
    requires InvW(w) && Enabled(w.net, act)
    requires !act.Output? && !(act.Drive? && Outgoing(w.net.a.lreq.value.kind) && !AwaitsReply(w.net.a))
    ensures |NextBook(w, act).sent| == |w.ka.sent|
  {
    hide Encode, Decode, Load, Store, Log, Flat, Line, PipeOk, SegOk, ReceiverOk, SenderOk, ReadOk, DataHalf, Next,
      Apart;
  }

  /** What the steps that write nothing leave of a request that is being sent. */
  lemma OtherSending(s: Net, act: Action)
    requires Enabled(s, act)
    requires !act.Output? && !(act.Drive? && Outgoing(s.a.lreq.value.kind) && !AwaitsReply(s.a))
    ensures var e, f := s.a, Next(s, act).a; Sending(f) ==> act.Fetch? || (Sending(e) && f.lreq == e.lreq)
  {
    hide Encode, Decode, Load, Store, Accept, Pull, Framed, Landing;
  }

  /** The same for a reply. */
  lemma OtherReplying(s: Net, act: Action)
    requires Enabled(s, act)
    requires !act.Output? && !(act.Drive? && Outgoing(s.a.lreq.value.kind) && !AwaitsReply(s.a))
    ensures var e, f := s.a, Next(s, act).a;
            |f.preq| == HEADER && (Replying(f) ==> HeaderEnds(s, act) || (Replying(e) && f.preq == e.preq))
  {
    hide Encode, Decode, Load, Store, Accept, Pull, Framed, Landing;
    match act
    case Input(n) => if s.a.rphase == Body { BodyStep(s, n); } else { HeaderStep(s, n); }
    case _ =>
  }

  /** The other steps write nothing. */
  lemma OtherSource(w: World, act: Action, i: nat, a: nat, n: nat)
    requires Enabled(w.net, act) && InvW(w) && SourceIntact(w.ka, w.net.a, i, a, n) && SourceSafe(w.net, act, i, a, n)
    requires !act.Output? && !(act.Drive? && Outgoing(w.net.a.lreq.value.kind) && !AwaitsReply(w.net.a))
    ensures SourceIntact(NextBook(w, act), Next(w.net, act).a, i, a, n)
  {
    hide InvW, Next, NextBook, Stored, HeaderEnds, Decode, Clear, Log, MaySubmit, Offer;
    MarkCounts(w);
    NothingSent(w, act);
    MarksKept(w, act);
    CleanKept(w, act);
    RemoteCleanKept(w, act);
    OtherSending(w.net, act);
    OtherReplying(w.net, act);
  }

  lemma StepSource(w: World, act: Action, i: nat, a: nat, n: nat)
    requires InvW(w) && Enabled(w.net, act) && SourceIntact(w.ka, w.net.a, i, a, n)
             && SourceSafe(w.net, act, i, a, n) && n > 0
    ensures SourceIntact(NextBook(w, act), Next(w.net, act).a, i, a, n)
  {
    hide InvW, Next, NextBook, SourceIntact, SourceSafe;
    match act
    case Output(m) => ReplyingSource(w, m, i, a, n);
    case Drive(m) =>
      if Outgoing(w.net.a.lreq.value.kind) && !AwaitsReply(w.net.a) {
        WritingSource(w, m, i, a, n);
      } else {
        OtherSource(w, act, i, a, n);
      }
    case _ => OtherSource(w, act, i, a, n);
  }

  /** The steps of the left side keep the source of segment `i` safe. */
  predicate SourceQuiet(w: World, run: seq<Move>, i: nat, a: nat, n: nat)
    requires CanRun(w, run)
    decreases |run|
  {
    run == []
    || ((run[0].Left? ==> SourceSafe(w.net, run[0].act, i, a, n)) && SourceQuiet(Moved(w, run[0]), run[1..], i, a, n))
  }

  lemma OtherEndStays(s: Net, act: Action)
    requires Enabled(s, act)
    ensures Next(s, act).b == s.b
  {
    hide Encode, Decode, Load, Store, Retrieve, Written, TakeReply, Arrived, Replied;
  }

  lemma {:induction false} RunSource(w: World, run: seq<Move>, i: nat, a: nat, n: nat)
    requires InvW(w) && CanRun(w, run) && SourceIntact(w.ka, w.net.a, i, a, n) && SourceQuiet(w, run, i, a, n) && n > 0
    ensures SourceIntact(Run(w, run).ka, Run(w, run).net.a, i, a, n)
    decreases |run|
  {
    hide InvW, Next, NextBook, SourceIntact, SourceSafe, Enabled;
    if run != [] {
      MoveInv(w, run[0]);
      if run[0].Left? {
        StepSource(w, run[0].act, i, a, n);
      } else {
        OtherEndStays(Flip(w.net), run[0].act);
      }
      RunSource(Moved(w, run[0]), run[1..], i, a, n);
    }
  }

  // ---------------------------------------------------------------- undisturbed targets

  /** The peer's remote write is being read, or a remote read of this side is under way. */
  predicate TakesWrite(e: Endpoint) { |e.preq| == HEADER && e.rphase == Body && PeerHeader(e).kind.RemWr? }

  predicate Fetching(e: Endpoint) { e.lreq.Some? && e.lreq.value.kind.RemRd? && e.lreq.value.length > 0 }

  /** From the header of the remote write, or the fetch of the remote read, that reads segment `i`, nothing is stored
      into the range but what that transfer itself brings. */
  predicate TargetSafe(s: Net, act: Action, i: nat, b: nat, n: nat)
    requires Enabled(s, act)
  {
    var x := Stored(s, act);
    && (i < |s.ba.seen| ==> Clear(x, b, n))
    && (i == |s.ba.seen| && TakesWrite(s.a) ==> x.who == Theirs || Clear(x, b, n))
    && (i == |s.ba.seen| && Fetching(s.a) ==> x.who == Mine || Clear(x, b, n))
  }

  predicate TargetIntact(k: Book, e: Endpoint, i: nat, b: nat, n: nat) {
    |e.preq| == HEADER
    && (i < |k.got| && !k.got[i].req.kind.Recv? && k.got[i].addr == b && |k.got[i].data| == n ==> k.got[i].ok)
    && (i == |k.got| && TakesWrite(e) && PeerHeader(e).remAddr == b && PeerHeader(e).length == n ==> k.rclean)
    && (i == |k.got| && Fetching(e) && e.lreq.value.addr == b && e.lreq.value.length == n ==> k.lclean)
  }

  /** While a remote read is outstanding nothing else arrives. */
  lemma NoInputWhileFetching(s: Net, n: nat)
    requires Inv(s) && Enabled(s, Input(n))
    ensures !Fetching(s.a)
  {
    hide Encode, Decode, Load, Store, Log, SegOk, SenderOk, ReceiverOk, ControlOk;
    NotReadyToRead(s);
  }

  /** The last bytes of a reply, or some before. */
  lemma FetchTarget(w: World, n: nat, i: nat, b: nat, len: nat)
    requires Enabled(w.net, Drive(n)) && AwaitsReply(w.net.a) && InvW(w)
    requires TargetIntact(w.ka, w.net.a, i, b, len) && TargetSafe(w.net, Drive(n), i, b, len) && len > 0
    ensures TargetIntact(NextBook(w, Drive(n)), Next(w.net, Drive(n)).a, i, b, len)
  {
    hide InvW, Inv, Next, NextBook, Decode, Clear, Offer, MaySubmit, Log, Line;
    var act := Drive(n);
    RecvCount(w);
    TakeStep(w.net, n);
    ReplyFacts(w.net, n) by { WorldNet(w); }
    MarksKept(w, act);
    CleanKept(w, act);
    RemoteCleanKept(w, act);
    if |NextBook(w, act).got| > |w.ka.got| {
      GotMarkTells(w, act);
    }
    GotWhenRead(w, act);
  }

  lemma BodyTarget(w: World, n: nat, i: nat, b: nat, len: nat)
    requires Enabled(w.net, Input(n)) && w.net.a.rphase == Body && InvW(w)
    requires TargetIntact(w.ka, w.net.a, i, b, len) && TargetSafe(w.net, Input(n), i, b, len) && len > 0
    ensures TargetIntact(NextBook(w, Input(n)), Next(w.net, Input(n)).a, i, b, len)
  {
    hide InvW, Next, NextBook, Decode, Clear, Offer, MaySubmit;
    var act := Input(n);
    RecvCount(w);
    NoInputWhileFetching(w.net, n) by { WorldNet(w); }
    BodyStep(w.net, n);
    MarksKept(w, act);
    RemoteCleanKept(w, act);
    if |NextBook(w, act).got| > |w.ka.got| {
      GotMarkTells(w, act);
    }
    GotWhenRead(w, act);
  }

  lemma HeaderTarget(w: World, n: nat, i: nat, b: nat, len: nat)
    requires Enabled(w.net, Input(n)) && w.net.a.rphase in {Free, Header} && InvW(w)
    requires TargetIntact(w.ka, w.net.a, i, b, len) && len > 0
    ensures TargetIntact(NextBook(w, Input(n)), Next(w.net, Input(n)).a, i, b, len)
  {
    hide InvW, Next, NextBook, Decode, Offer, MaySubmit;
    RecvCount(w);
    NoInputWhileFetching(w.net, n) by { WorldNet(w); }
    HeaderStep(w.net, n);
    HeaderBook(w, n);
    HeaderFacts(w.net, n) by { WorldNet(w); }
  }

  /** A segment is recorded as read exactly when the step that reads its last byte leaves its phase. */
  lemma GotWhenRead(w: World, act: Action)
    requires Enabled(w.net, act) && InvW(w)
    ensures var s, t, k := w.net, Next(w.net, act), NextBook(w, act);
            && (act.Drive? && AwaitsReply(s.a) && t.a.lreq.Some? ==> |k.got| == |w.ka.got|)
            && (act.Input? && s.a.rphase == Body && t.a.rphase == Body ==> |k.got| == |w.ka.got|)
  {
    hide InvW, Encode, Decode, Load, Offer, Next, SegData, Disturb;
  }

  /** What the other steps leave of a transfer into this side's memory. */
  lemma OtherTakes(w: World, act: Action)
    requires Enabled(w.net, act)
    requires !act.Input? && !(act.Drive? && AwaitsReply(w.net.a))
    ensures var e, f := w.net.a, Next(w.net, act).a;
            && |NextBook(w, act).got| == |w.ka.got| && f.preq == e.preq && Next(w.net, act).ba == w.net.ba
            && (TakesWrite(f) ==> TakesWrite(e)) && (Fetching(f) ==> act.Fetch? || (Fetching(e) && f.lreq == e.lreq))
  {
    hide Encode, Decode, Load, Store, Framed, Offer, SegData;
  }

  lemma OtherTarget(w: World, act: Action, i: nat, b: nat, n: nat)
    requires Enabled(w.net, act) && InvW(w) && TargetIntact(w.ka, w.net.a, i, b, n) && TargetSafe(w.net, act, i, b, n)
    requires !act.Input? && !(act.Drive? && AwaitsReply(w.net.a))
    ensures TargetIntact(NextBook(w, act), Next(w.net, act).a, i, b, n)
  {
    hide InvW, Next, NextBook, Stored, Decode, Clear, Offer, MaySubmit;
    RecvCount(w);
    MarksKept(w, act);
    CleanKept(w, act);
    RemoteCleanKept(w, act);
    OtherTakes(w, act);
  }

  lemma StepTarget(w: World, act: Action, i: nat, b: nat, n: nat)
    requires InvW(w) && Enabled(w.net, act) && TargetIntact(w.ka, w.net.a, i, b, n)
             && TargetSafe(w.net, act, i, b, n) && n > 0
    ensures TargetIntact(NextBook(w, act), Next(w.net, act).a, i, b, n)
  {
    hide InvW, Next, NextBook, TargetIntact, TargetSafe;
    match act
    case Input(m) => if w.net.a.rphase == Body { BodyTarget(w, m, i, b, n); } else { HeaderTarget(w, m, i, b, n); }
    case Drive(m) => if AwaitsReply(w.net.a) { FetchTarget(w, m, i, b, n); } else { OtherTarget(w, act, i, b, n); }
    case _ => OtherTarget(w, act, i, b, n);
  }

  /** The steps of the right side keep the target of segment `i` of the stream from the left safe. */
  predicate TargetQuiet(w: World, run: seq<Move>, i: nat, b: nat, n: nat)
    requires CanRun(w, run)
    decreases |run|
  {
    run == []
    || ((run[0].Right? ==> TargetSafe(Flip(w.net), run[0].act, i, b, n))
      && TargetQuiet(Moved(w, run[0]), run[1..], i, b, n))
  }

  lemma {:induction false} RunTarget(w: World, run: seq<Move>, i: nat, b: nat, n: nat)
    requires InvW(w) && CanRun(w, run) && TargetIntact(w.kb, w.net.b, i, b, n) && TargetQuiet(w, run, i, b, n) && n > 0
    ensures TargetIntact(Run(w, run).kb, Run(w, run).net.b, i, b, n)
    decreases |run|
  {
    hide InvW, Next, NextBook, TargetIntact, TargetSafe, Enabled;
    if run != [] {
      MoveInv(w, run[0]);
      InvFlips(w);
      if run[0].Right? {
        StepTarget(FlipW(w), run[0].act, i, b, n);
      } else {
        OtherEndStays(w.net, run[0].act);
      }
      RunTarget(Moved(w, run[0]), run[1..], i, b, n);
    }
  }

  lemma InvFlips(w: World)
    requires InvW(w)
    ensures InvW(FlipW(w))
  {
    hide DataHalf, Half;
    assert FlipW(FlipW(w)) == w && Flip(Flip(w.net)) == w.net;
  }

  // ---------------------------------------------------------------- undisturbed Recv buffers

  predicate Receiving(e: Endpoint) { e.lreq.Some? && e.lreq.value.kind.Recv? }

  /** From the fetch of the Recv that takes message `m`, nothing is stored into its buffer but the message. */
  predicate BufferSafe(s: Net, act: Action, m: nat, b: nat, n: nat)
    requires Enabled(s, act)
  {
    var x := Stored(s, act);
    && (m < |Recvs(s.a.comps)| ==> Clear(x, b, n))
    && (m == |Recvs(s.a.comps)| && Receiving(s.a) ==> x.who == Mine || Clear(x, b, n))
  }

  predicate BufferIntact(k: Book, e: Endpoint, seen: seq<Seg>, m: nat, b: nat, n: nat) {
    |k.got| == |seen|
    && (m < |Deliveries(seen, k.got)| ==>
          var d := Deliveries(seen, k.got)[m]; d.addr == b && d.req.length == n && |d.data| <= n ==> d.ok)
    && (m == |Recvs(e.comps)| && Receiving(e) && e.lreq.value.addr == b && e.lreq.value.length == n ==> k.lclean)
  }

  lemma {:induction false} DeliveriesSpoil(segs: seq<Seg>, ms: seq<Mark>, ns: seq<Mark>, x: Span)
    requires |segs| == |ms| == |ns| && forall i :: 0 <= i < |ms| ==> Spoils(ms[i], ns[i], x)
    ensures |Deliveries(segs, ms)| == |Deliveries(segs, ns)|
    ensures forall i :: 0 <= i < |Deliveries(segs, ms)| ==> Spoils(Deliveries(segs, ms)[i], Deliveries(segs, ns)[i], x)
  {
    hide Spoils;
    if segs != [] {
      var l := |segs| - 1;
      DeliveriesSpoil(segs[..l], ms[..l], ns[..l], x);
    }
  }

  lemma DeliveriesSnoc(segs: seq<Seg>, ms: seq<Mark>, g: Seg, m: Mark)
    requires |segs| == |ms|
    ensures Deliveries(segs + [g], ms + [m])
            == Deliveries(segs, ms) + (if g.Frame? && g.hdr.kind.Send? then [m] else [])
  {
    assert (segs + [g])[..|segs|] == segs && (ms + [m])[..|ms|] == ms;
  }

  /** What a step reads of the peer's stream: nothing whole, or one segment, which is a message exactly when the step
      ends the body of a Send, and a reply exactly when it is the request in the handler that reads. */
  predicate ReadsOne(s: Net, t: Net, act: Action, grows: bool) {
    if !grows then t.ba.seen == s.ba.seen
    else
      && s.ba.todo != [] && t.ba.seen == s.ba.seen + [s.ba.todo[0]] && |s.a.preq| == HEADER
      && (s.ba.todo[0].Frame? && s.ba.todo[0].hdr.kind.Send?
          <==> act.Input? && s.a.rphase == Body && PeerHeader(s.a).kind.Send?)
      && (s.ba.todo[0].Reply? <==> act.Drive?)
  }

  lemma TakeReads(w: World, n: nat)
    requires Enabled(w.net, Drive(n)) && AwaitsReply(w.net.a) && InvW(w)
    ensures var t, grows := Next(w.net, Drive(n)), |NextBook(w, Drive(n)).got| > |w.ka.got|;
            ReadsOne(w.net, t, Drive(n), grows) && (grows <==> t.a.lreq.None? && w.net.a.lreq.value.length > 0)
  {
    hide InvW, Inv, Next, NextBook, Encode, Decode, Load, Offer, MaySubmit, Log, Line, Touch;
    TakeBook(w, n);
    ReplyFacts(w.net, n) by { WorldNet(w); }
    TouchCounts(w.ka, w.net.a, w.net.a.lreq.value.addr + w.net.a.lbytes, n, Mine);
  }

  lemma TouchCounts(k: Book, e: Endpoint, a: nat, n: nat, who: Author)
    requires |e.preq| == HEADER
    ensures |Touch(k, e, a, n, who).got| == |k.got|
  {
    hide Decode;
  }

  lemma BodyReads(w: World, n: nat)
    requires Enabled(w.net, Input(n)) && w.net.a.rphase == Body && InvW(w)
    ensures ReadsOne(w.net, Next(w.net, Input(n)), Input(n), |NextBook(w, Input(n)).got| > |w.ka.got|)
  {
    hide InvW, Inv, Next, NextBook, Encode, Decode, Load, Offer, MaySubmit, Log, Line, Touch, Landing;
    BodyBook(w, n);
    BodyFacts(w.net, n) by { WorldNet(w); }
    TouchCounts(w.ka, w.net.a, Landing(w.net.a) + w.net.a.rbytes, n,
                if PeerHeader(w.net.a).kind.Send? then Mine else Theirs);
  }

  lemma HeaderReads(w: World, n: nat)
    requires Enabled(w.net, Input(n)) && w.net.a.rphase in {Free, Header} && InvW(w)
    ensures ReadsOne(w.net, Next(w.net, Input(n)), Input(n), |NextBook(w, Input(n)).got| > |w.ka.got|)
  {
    hide InvW, Inv, Next, NextBook, Encode, Decode, Load, Offer, MaySubmit, Log, Line;
    HeaderStep(w.net, n);
    HeaderBook(w, n);
    HeaderFacts(w.net, n) by { WorldNet(w); }
  }

  lemma StepReads(w: World, act: Action)
    requires Enabled(w.net, act) && InvW(w)
    ensures ReadsOne(w.net, Next(w.net, act), act, |NextBook(w, act).got| > |w.ka.got|)
  {
    hide InvW, Next, NextBook, Decode, ReadsOne, Load;
    match act
    case Input(n) => if w.net.a.rphase == Body { BodyReads(w, n); } else { HeaderReads(w, n); }
    case Drive(n) => if AwaitsReply(w.net.a) { TakeReads(w, n); } else { NothingRead(w, act); }
    case _ => NothingRead(w, act);
  }

  lemma NothingRead(w: World, act: Action)
    requires Enabled(w.net, act) && !act.Input? && !(act.Drive? && AwaitsReply(w.net.a))
    ensures ReadsOne(w.net, Next(w.net, act), act, |NextBook(w, act).got| > |w.ka.got|)
  {
    hide Next, NextBook, Decode, Load;
    OtherTakes(w, act);
  }

  /** The Recv requests that have completed are as many as the messages delivered. */
  lemma RecvCount(w: World)
    requires InvW(w)
    ensures |w.ka.got| == |w.net.ba.seen| && |Recvs(w.net.a.comps)| == |Deliveries(w.net.ba.seen, w.ka.got)|
  {
    hide Half, FlowOk, Recvs, Takers, Deliveries, Messages, SentOk;
    DeliveriesMatch(w.net.a.mem, w.net.ba.seen, w.ka.got);
  }

  lemma BufferMarks(w: World, act: Action, m: nat, b: nat, n: nat)
    requires InvW(w) && Enabled(w.net, act) && BufferSafe(w.net, act, m, b, n)
    requires BufferIntact(w.ka, w.net.a, w.net.ba.seen, m, b, n)
    ensures var k, seen := NextBook(w, act), Next(w.net, act).ba.seen;
            |k.got| == |seen|
            && (m < |Deliveries(seen, k.got)| ==>
                  var d := Deliveries(seen, k.got)[m]; d.addr == b && d.req.length == n && |d.data| <= n ==> d.ok)
  {
    hide InvW, Next, NextBook, Deliveries, Recvs, Stored, Apart;
    WorldShaped(w);
    var k, seen, x := NextBook(w, act), w.net.ba.seen, Stored(w.net, act);
    MarksKept(w, act);
    RecvCount(w);
    var got := k.got[..|w.ka.got|];
    StepReads(w, act);
    DeliveriesSpoil(seen, w.ka.got, got, x);
    if |k.got| > |w.ka.got| {
      var g, d := w.net.ba.todo[0], k.got[|w.ka.got|];
      DeliveriesSnoc(seen, got, g, d);
      assert k.got == got + [d];
      if m == |Deliveries(seen, got)| && g.Frame? && g.hdr.kind.Send? {
        MessageMark(w, act, m, b, n);
      }
    } else {
      assert k.got == got;
    }
    if m < |Deliveries(seen, got)| {
      var d := Deliveries(seen, got)[m];
      if |d.data| <= n && d.addr == b { ClearPart(x, b, n, |d.data|); }
    }
  }

  lemma ClearPart(x: Span, a: nat, n: nat, k: nat)
    requires Clear(x, a, n) && k <= n
    ensures Clear(x, a, k)
  {
  }

  lemma WorldShaped(w: World)
    requires InvW(w)
    ensures Shaped(w.net.a) && Shaped(w.net.b)
  {
    hide DataHalf, Half;
    InvShaped(w.net);
  }

  /** The mark of the message that is just complete. */
  lemma MessageMark(w: World, act: Action, m: nat, b: nat, n: nat)
    requires InvW(w) && Enabled(w.net, act) && BufferSafe(w.net, act, m, b, n)
    requires BufferIntact(w.ka, w.net.a, w.net.ba.seen, m, b, n) && m == |Recvs(w.net.a.comps)|
    requires |NextBook(w, act).got| > |w.ka.got|
    requires act.Input? && w.net.a.rphase == Body && |w.net.a.preq| == HEADER && PeerHeader(w.net.a).kind.Send?
    ensures var d := NextBook(w, act).got[|w.ka.got|];
            d.addr == b && d.req.length == n && |d.data| <= n ==> d.ok
  {
    hide Encode, Decode, Load, Store, Log, Flat, Line, PipeOk, SegOk, ReceiverOk, SenderOk, ReadOk, Apart, DataHalf,
      Recvs, Deliveries, Touch;
    BodyFacts(w.net, act.n);
    GotMarkTells(w, act);
    CleanKept(w, act);
  }

  lemma BufferClean(w: World, act: Action, m: nat, b: nat, n: nat)
    requires Enabled(w.net, act) && InvW(w) && BufferSafe(w.net, act, m, b, n)
    requires BufferIntact(w.ka, w.net.a, w.net.ba.seen, m, b, n)
    ensures var k, e := NextBook(w, act), Next(w.net, act).a;
            m == |Recvs(e.comps)| && Receiving(e) && e.lreq.value.addr == b && e.lreq.value.length == n ==> k.lclean
  {
    hide InvW, Next, NextBook, Decode, Load, Stored, Recvs, Deliveries, Clear;
    CleanKept(w, act);
    ReceivingStays(w.net, act);
  }

  /** A Recv in the handler was there before, with as many completions, or is just fetched. */
  lemma ReceivingStays(s: Net, act: Action)
    requires Enabled(s, act)
    ensures var e, f := s.a, Next(s, act).a;
            Receiving(f) ==> act.Fetch? || (f.lreq == e.lreq && f.comps == e.comps)
  {
    hide Encode, Decode, Load, Store, Framed, Offer, Landing, Accept, Pull;
  }

  /** The steps of the right side keep the buffer of the Recv that takes its message `m` safe. */
  predicate BufferQuiet(w: World, run: seq<Move>, m: nat, b: nat, n: nat)
    requires CanRun(w, run)
    decreases |run|
  {
    run == []
    || ((run[0].Right? ==> BufferSafe(Flip(w.net), run[0].act, m, b, n))
      && BufferQuiet(Moved(w, run[0]), run[1..], m, b, n))
  }

  lemma LeftReadsNothing(s: Net, act: Action)
    requires Enabled(s, act)
    ensures Next(s, act).ab.seen == s.ab.seen
  {
    hide Encode, Decode, Load, Store, Retrieve, Written, TakeReply, Arrived, Replied;
  }

  lemma {:induction false} RunBuffer(w: World, run: seq<Move>, m: nat, b: nat, n: nat)
    requires InvW(w) && CanRun(w, run) && BufferQuiet(w, run, m, b, n)
    requires BufferIntact(w.kb, w.net.b, w.net.ab.seen, m, b, n)
    ensures var v := Run(w, run); BufferIntact(v.kb, v.net.b, v.net.ab.seen, m, b, n)
    decreases |run|
  {
    hide InvW, Next, NextBook, Enabled, BufferSafe, Deliveries, Recvs;
    if run != [] {
      MoveInv(w, run[0]);
      InvFlips(w);
      if run[0].Right? {
        BufferMarks(FlipW(w), run[0].act, m, b, n);
        BufferClean(FlipW(w), run[0].act, m, b, n);
      } else {
        OtherEndStays(w.net, run[0].act);
        LeftReadsNothing(w.net, run[0].act);
      }
      RunBuffer(Moved(w, run[0]), run[1..], m, b, n);
    }
  }

  // ---------------------------------------------------------------- transfers, in terms of the run alone

  lemma StartReachable(memA: seq<byte>, memB: seq<byte>, run: seq<Move>)
    requires CanRun(InitW(memA, memB), run)
    ensures InvW(InitW(memA, memB)) && Reachable(Run(InitW(memA, memB), run)) && InvW(Run(InitW(memA, memB), run))
  {
    hide InvW, InitW, Run, CanRun;
    InitData(memA, memB);
    RunInv(InitW(memA, memB), run);
  }

  lemma FrameWhole(w: World, i: nat)
    requires InvW(w) && i < |w.net.ab.seen|
    ensures i < |Log(w.net.ab)| && Log(w.net.ab)[i] == w.net.ab.seen[i]
    ensures var g := w.net.ab.seen[i]; g.Frame? ==> |g.body| == BodyLength(g.hdr)
  {
    hide DataHalf, PipeOk, SenderOk, ReceiverOk, ReadOk, ControlOk;
  }

  lemma MarksAre(w: World, i: nat)
    requires InvW(w) && i < |w.net.ab.seen|
    ensures |w.ka.sent| == |Log(w.net.ab)| && |w.kb.got| == |w.net.ab.seen| <= |Log(w.net.ab)|
    ensures SentMark(w.net.ab.seen[i], w.ka.sent[i]) && GotMark(w.net.ab.seen[i], w.kb.got[i])
  {
    hide Half, AllHold, RepliesMatch, LedgerOk, WrittenOk, FlowOk, SentMark, GotMark;
    assert Log(w.net.ab)[i] == w.net.ab.seen[i];
  }

  /** A remote write that has been read: if from its fetch on nothing is stored into the buffer at the requester, and
      from its header on nothing but itself into the range at the peer, the two are equal, and are the bytes of the
      frame. */
  lemma RemoteWriteArrives(memA: seq<byte>, memB: seq<byte>, run: seq<Move>, i: nat)
    requires CanRun(InitW(memA, memB), run) && i < |Run(InitW(memA, memB), run).net.ab.seen|
    requires var g := Run(InitW(memA, memB), run).net.ab.seen[i];
             && g.Frame? && g.hdr.kind.RemWr?
             && SourceQuiet(InitW(memA, memB), run, i, g.hdr.addr, g.hdr.length)
             && TargetQuiet(InitW(memA, memB), run, i, g.hdr.remAddr, g.hdr.length)
    ensures var s := Run(InitW(memA, memB), run).net;
            var h := s.ab.seen[i].hdr;
            Load(s.b.mem, h.remAddr, h.length) == Load(s.a.mem, h.addr, h.length) == s.ab.seen[i].body
  {
    hide Run, CanRun, SourceQuiet, TargetQuiet, InvW, Reachable, Load;
    var w := InitW(memA, memB);
    var v := Run(w, run);
    var h := v.net.ab.seen[i].hdr;
    StartReachable(memA, memB, run);
    FrameWhole(v, i);
    MarksAre(v, i);
    if h.length == 0 {
      LoadNone(v.net.a.mem, h.addr);
      LoadNone(v.net.b.mem, h.remAddr);
    } else {
      RunSource(w, run, i, h.addr, h.length);
      RunTarget(w, run, i, h.remAddr, h.length);
      CopiedFaithfully(v, i);
      SentHolds(v, i);
    }
  }

  lemma SentHolds(w: World, i: nat)
    requires InvW(w) && i < |w.ka.sent| && w.ka.sent[i].ok
    ensures var m := w.ka.sent[i]; Load(w.net.a.mem, m.addr, |m.data|) == m.data
  {
    hide Half, FlowOk, LedgerOk, WrittenOk, SentOk, GotOk, RepliesMatch, Load;
    assert Holds(w.net.a.mem, w.ka.sent[i]);
  }

  /** The mark of a message among the marks of all messages. */
  lemma {:induction false} DeliveryAt(segs: seq<Seg>, ms: seq<Mark>, i: nat)
    requires |segs| == |ms| && i < |segs| && segs[i].Frame? && segs[i].hdr.kind.Send?
    ensures var m := |Messages(segs[..i])|; m < |Deliveries(segs, ms)| && Deliveries(segs, ms)[m] == ms[i]
  {
    var l := |segs| - 1;
    SameLength(segs[..l], ms[..l]);
    if i < l {
      DeliveryAt(segs[..l], ms[..l], i);
      assert segs[..l][..i] == segs[..i];
    }
  }

  lemma {:induction false} SameLength(segs: seq<Seg>, ms: seq<Mark>)
    requires |segs| == |ms|
    ensures |Deliveries(segs, ms)| == |Messages(segs)|
  {
    if segs != [] {
      SameLength(segs[..|segs| - 1], ms[..|ms| - 1]);
    }
  }

  /** A message that has been delivered: the Recv with its number has completed, and if from the fetch of either request
      nothing else is stored into the buffers, and the message fits, the Recv's buffer holds the sender's bytes. */
  lemma MessageArrives(memA: seq<byte>, memB: seq<byte>, run: seq<Move>, i: nat, m: nat, r: Request)
    requires CanRun(InitW(memA, memB), run) && i < |Run(InitW(memA, memB), run).net.ab.seen|
    requires var s := Run(InitW(memA, memB), run).net;
             && s.ab.seen[i].Frame? && s.ab.seen[i].hdr.kind.Send? && m == |Messages(s.ab.seen[..i])|
             && (m < |Recvs(s.b.comps)| ==> r == Recvs(s.b.comps)[m]) && s.ab.seen[i].hdr.length <= r.length
             && SourceQuiet(InitW(memA, memB), run, i, s.ab.seen[i].hdr.addr, s.ab.seen[i].hdr.length)
    requires BufferQuiet(InitW(memA, memB), run, m, r.addr, r.length)
    ensures var s := Run(InitW(memA, memB), run).net;
            var h := s.ab.seen[i].hdr;
            m < |Recvs(s.b.comps)|
              && Load(s.b.mem, r.addr, h.length) == Load(s.a.mem, h.addr, h.length) == s.ab.seen[i].body
  {
    hide Run, CanRun, SourceQuiet, BufferQuiet, InvW, Reachable, Load, Deliveries, Recvs, Messages;
    var w := InitW(memA, memB);
    var v := Run(w, run);
    var h := v.net.ab.seen[i].hdr;
    StartReachable(memA, memB, run);
    FrameWhole(v, i);
    MarksAre(v, i);
    InvFlips(v);
    RecvCount(FlipW(v));
    DeliveryAt(v.net.ab.seen, v.kb.got, i);
    FifoDelivery(v, m);
    if h.length == 0 {
      LoadNone(v.net.a.mem, h.addr);
      LoadNone(v.net.b.mem, r.addr);
    } else {
      NothingYet();
      RunSource(w, run, i, h.addr, h.length);
      RunBuffer(w, run, m, r.addr, r.length);
      CopiedFaithfully(v, i);
      SentHolds(v, i);
    }
  }

  lemma NothingYet()
    ensures Deliveries([], []) == [] && Recvs([]) == []
  {
  }

  /** The map handshake: when the agent's second receive has completed, and nothing else was stored into master or
      mirror since the write was fetched and its header read, the mirror is the master. */
  lemma MirrorIsMaster(memA: seq<byte>, memB: seq<byte>, run: seq<Move>, n: nat)
    requires CanRun(InitW(memA, memB), run)
    requires var s := Run(InitW(memA, memB), run).net;
             && n + 2 < |Log(s.ab)| && (forall i :: n <= i <= n + 2 ==> Log(s.ab)[i].Frame?)
             && Log(s.ab)[n].hdr.kind.Send? && Log(s.ab)[n + 1].hdr.kind.RemWr? && Log(s.ab)[n + 2].hdr.kind.Send?
             && |Recvs(s.b.comps)| >= |Messages(Log(s.ab)[..n])| + 2
             && (var h := Log(s.ab)[n + 1].hdr;
                 && SourceQuiet(InitW(memA, memB), run, n + 1, h.addr, h.length)
                 && TargetQuiet(InitW(memA, memB), run, n + 1, h.remAddr, h.length))
    ensures var s := Run(InitW(memA, memB), run).net;
            var h := Log(s.ab)[n + 1].hdr;
            Load(s.b.mem, h.remAddr, h.length) == Load(s.a.mem, h.addr, h.length)
  {
    hide Run, CanRun, SourceQuiet, TargetQuiet, InvW, Reachable, Load, Log, Recvs, Messages;
    var v := Run(InitW(memA, memB), run);
    StartReachable(memA, memB, run);
    MapHandshake(v, n);
    GotCount(v);
    FrameWhole(v, n + 1);
    RemoteWriteArrives(memA, memB, run, n + 1);
  }

  lemma GotCount(w: World)
    requires InvW(w)
    ensures |w.kb.got| == |w.net.ab.seen|
  {
    hide Half, AllHold, RepliesMatch, LedgerOk, WrittenOk, FlowOk;
  }
}
