/** Many connections into one process: their handlers store into one memory, the master's.

    Each connection is a run of `InetNet` of its own, in which the stores of the others appear as stores of the program.
    The remote writes that land are the chunks of `Puts`. */
module InetCluster {
  import opened Wire
  import opened InetEndpoint
  import opened InetNet
  import opened InetData
  import opened InetTheorems
  import opened InetIntact
  import Puts

  // ---------------------------------------------------------------- connections that share a memory

  /** Connection `conn` moves; its right side is the process with the master. */
  datatype Event = Event(conn: nat, move: Move)

  /** What the other connections of the process notice: bytes stored into its memory, or none. */
  function Echo(w: World, m: Move): Action
    requires CanMove(w, m)
  {
    match m
    case Left(_) => AppWrite(0, [])
    case Right(act) =>
      var x, mem := Stored(Flip(w.net), act), Moved(w, m).net.b.mem;
      if x.addr + x.n <= |mem| then AppWrite(x.addr, mem[x.addr..x.addr + x.n]) else AppWrite(0, [])
  }

  predicate CanHappen(c: seq<World>, e: Event) {
    && e.conn < |c| && CanMove(c[e.conn], e.move)
    && forall j :: 0 <= j < |c| && j != e.conn ==> CanMove(c[j], Right(Echo(c[e.conn], e.move)))
  }

  function Happened(c: seq<World>, e: Event): (d: seq<World>)
    requires CanHappen(c, e)
    ensures |d| == |c|
  {
    seq(|c|, j requires 0 <= j < |c| =>
      if j == e.conn then Moved(c[j], e.move) else Moved(c[j], Right(Echo(c[e.conn], e.move))))
  }

  predicate CanRunAll(c: seq<World>, run: seq<Event>)
    decreases |run|
  {
    run == [] || (CanHappen(c, run[0]) && CanRunAll(Happened(c, run[0]), run[1..]))
  }

  function RunAll(c: seq<World>, run: seq<Event>): (d: seq<World>)
    requires CanRunAll(c, run)
    ensures |d| == |c|
    decreases |run|
  {
    if run == [] then c else RunAll(Happened(c, run[0]), run[1..])
  }

  function Cluster(mems: seq<seq<byte>>, master: seq<byte>): seq<World> {
    seq(|mems|, j requires 0 <= j < |mems| => InitW(mems[j], master))
  }

  /** Every connection keeps its invariant, and all see the same memory. */
  ghost predicate Sound(c: seq<World>, mem: seq<byte>) {
    forall j :: 0 <= j < |c| ==> InvW(c[j]) && c[j].net.b.mem == mem
  }

  lemma StoredBytes(mem: seq<byte>, a: nat, data: seq<byte>)
    ensures var m := Store(mem, a, data);
            if a + |data| <= |mem| then m[a..a + |data|] == data else m == mem
  {
  }

  /** The handler's store is that of the span it is said to store. */
  lemma StoreIs(s: Net, act: Action)
    requires Enabled(s, act) && Inv(s)
    ensures var x, t := Stored(s, act), Next(s, act);
            && |t.a.mem| == |s.a.mem|
            && t.a.mem == if x.addr + x.n <= |s.a.mem| then Store(s.a.mem, x.addr, t.a.mem[x.addr..x.addr + x.n])
                          else s.a.mem
  {
    hide Inv, Encode, Decode, Next, Load, Store, MaySubmit, Landing, Log, Line, Offer;
    StoreNothing(s.a.mem, 0);
    match act
    case Drive(n) =>
      if AwaitsReply(s.a) {
        TakeStep(s, n);
        StoredBytes(s.a.mem, s.a.lreq.value.addr + s.a.lbytes, s.ba.flight[..n]);
      } else {
        DriveStores(s, n);
      }
    case Input(n) =>
      if s.a.rphase == Body {
        BodyStep(s, n);
        StoredBytes(s.a.mem, Landing(s.a) + s.a.rbytes, s.ba.flight[..n]);
      } else {
        HeaderStep(s, n);
      }
    case Output(n) => RepliedSame(s, n);
    case AppWrite(addr, data) =>
      StoredBytes(s.a.mem, addr, data);
      ProgramStores(s, act);
    case _ => ProgramStores(s, act);
  }

  lemma DriveStores(s: Net, n: nat)
    requires Enabled(s, Drive(n)) && !AwaitsReply(s.a)
    ensures Next(s, Drive(n)).a.mem == s.a.mem
  {
    hide Offer, Framed;
  }

  lemma ProgramStores(s: Net, act: Action)
    requires Enabled(s, act) && (act.Submit? || act.Fetch? || act.AppWrite?)
    ensures Next(s, act).a.mem == if act.AppWrite? then Store(s.a.mem, act.addr, act.data) else s.a.mem
  {
    hide Store;
  }

  /** The echo is a store that every other connection can take, and has the same effect there. */
  lemma EchoSame(w: World, m: Move)
    requires CanMove(w, m) && InvW(w)
    ensures var a, mem := Echo(w, m), Moved(w, m).net.b.mem;
            a.AppWrite? && a.addr + |a.data| <= |w.net.b.mem| && mem == Store(w.net.b.mem, a.addr, a.data)
  {
    hide InvW, Inv, Next, Stored, Store;
    StoreNothing(w.net.b.mem, 0);
    match m
    case Left(act) => OtherEndStays(w.net, act);
    case Right(act) =>
      InvFlips(w);
      StoreIs(Flip(w.net), act) by { WorldNet(FlipW(w)); }
  }

  lemma EchoTaken(v: World, a: Action)
    requires InvW(v) && a.AppWrite? && a.addr + |a.data| <= |v.net.b.mem|
    ensures CanMove(v, Right(a))
    ensures Moved(v, Right(a)).net.b == v.net.b.(mem := Store(v.net.b.mem, a.addr, a.data))
    ensures Moved(v, Right(a)).net.a == v.net.a && Moved(v, Right(a)).net.ab == v.net.ab
  {
    hide InvW, Store, NextBook;
    WorldShaped(v);
  }

  /** Whatever one connection can do can happen in the cluster, and leaves it sound. */
  lemma HappenedSound(c: seq<World>, e: Event, mem: seq<byte>)
    requires Sound(c, mem) && e.conn < |c| && CanMove(c[e.conn], e.move)
    ensures CanHappen(c, e) && Sound(Happened(c, e), Moved(c[e.conn], e.move).net.b.mem)
  {
    hide InvW, CanMove, Moved, Echo, Store;
    var a := Echo(c[e.conn], e.move);
    EchoSame(c[e.conn], e.move);
    MoveInv(c[e.conn], e.move);
    forall j | 0 <= j < |c| && j != e.conn
      ensures CanMove(c[j], Right(a)) && InvW(Moved(c[j], Right(a)))
      ensures Moved(c[j], Right(a)).net.b.mem == Moved(c[e.conn], e.move).net.b.mem
    {
      EchoTaken(c[j], a);
      MoveInv(c[j], Right(a));
    }
  }

  // ---------------------------------------------------------------- a remote write while it lands

  /** Segment `k` of the stream is, or will be, a frame of this request. */
  predicate Promised(s: Net, k: nat, h: Request) {
    || (k < |Log(s.ab)| && Log(s.ab)[k].Frame? && Log(s.ab)[k].hdr == h)
    || (k == |Log(s.ab)| && s.a.lreq == Some(h) && s.a.lphase == Body && BodyLength(h) > 0)
  }

  /** The header that is read when a body arrives is that of the next segment. */
  lemma HeaderPromises(s: Net, n: nat)
    requires Enabled(s, Input(n)) && s.a.rphase == Body && Inv(s)
    ensures Promised(Flip(s), |s.ba.seen|, PeerHeader(s.a))
  {
    hide Encode, Decode, Flat, Line, PipeOk, Load, Store, SegBytes, SegOk, ReadOk, SenderOk, ControlOk, Next;
    BodyStep(s, n);
    BodyRead(s, n);
    NotReadyToRead(s);
    var r := FirstHeader(s);
  }

  lemma WritesPromise(s: Net, n: nat, k: nat, h: Request)
    requires Enabled(s, Drive(n)) && Outgoing(s.a.lreq.value.kind) && !AwaitsReply(s.a) && Inv(s) && Promised(s, k, h)
    ensures Promised(Next(s, Drive(n)), k, h)
  {
    hide Inv, Encode, Decode, Load, Log, Line, Next, Offer, Served;
    WriteFacts(s, n);
    SealedWhen(s, n);
    BodyGoesOn(s, n);
  }

  /** A request whose body is being written stays until its frame is sealed. */
  lemma BodyGoesOn(s: Net, n: nat)
    requires Enabled(s, Drive(n)) && Outgoing(s.a.lreq.value.kind) && !AwaitsReply(s.a) && Inv(s)
    ensures s.a.lphase == Body && BodyLength(s.a.lreq.value) > 0 && Next(s, Drive(n)).ab.todo == s.ab.todo ==>
              Written(s.a, n).lreq == s.a.lreq && Written(s.a, n).lphase == Body
  {
    hide Encode, Decode, Load, Log, Line, Next, Flat, PipeOk, SegOk, ReceiverOk, ReadOk, Representable;
    SealedWhen(s, n);
    OfferLength(s.a);
  }

  /** Every move of the left side keeps such a promise. */
  lemma LeftPromise(s: Net, act: Action, k: nat, h: Request)
    requires Enabled(s, act) && Inv(s) && Promised(s, k, h)
    ensures Promised(Next(s, act), k, h)
  {
    hide Inv, Encode, Decode, Load, Store, Line, Next, Offer, Landing, Served, Serving;
    match act
    case Drive(n) =>
      if Outgoing(s.a.lreq.value.kind) && !AwaitsReply(s.a) {
        WritesPromise(s, n, k, h);
      } else {
        DriveWrites(s, n);
      }
    case Input(n) => if s.a.rphase == Body { BodyStep(s, n); } else { HeaderStep(s, n); }
    case Output(n) =>
      OutputFacts(s, n);
      RepliedSame(s, n);
      AnswersAlone(s);
    case Fetch =>
      OneOutstanding(s);
      ProgramWrites(s, act);
    case _ => ProgramWrites(s, act);
  }

  lemma DriveWrites(s: Net, n: nat)
    requires Enabled(s, Drive(n)) && !(Outgoing(s.a.lreq.value.kind) && !AwaitsReply(s.a)) && Inv(s)
    ensures Next(s, Drive(n)).ab == s.ab
    ensures s.a.lphase == Body ==> Next(s, Drive(n)).a.lreq == s.a.lreq && Next(s, Drive(n)).a.lphase == Body
  {
    hide Encode, Decode, Load, Store, Log, Line, Flat, PipeOk, SegOk, ReceiverOk, SenderOk, ReadOk, Representable;
  }

  lemma ProgramWrites(s: Net, act: Action)
    requires Enabled(s, act) && (act.Submit? || act.Fetch? || act.AppWrite?)
    ensures Next(s, act).ab == s.ab
    ensures !act.Fetch? ==> Next(s, act).a.lreq == s.a.lreq && Next(s, act).a.lphase == s.a.lphase
  {
    hide Store;
  }

  lemma MovePromise(w: World, m: Move, k: nat, h: Request)
    requires CanMove(w, m) && InvW(w) && Promised(w.net, k, h)
    ensures Promised(Moved(w, m).net, k, h)
  {
    hide InvW, Inv, NextBook, Next, Promised, Log;
    match m
    case Left(act) => LeftPromise(w.net, act, k, h) by { WorldNet(w); }
    case Right(act) =>
      InvFlips(w);
      OtherEndStays(Flip(w.net), act);
      RightLog(w, act);
      SamePromise(w.net, Moved(w, m).net, k, h);
  }

  lemma SamePromise(s: Net, t: Net, k: nat, h: Request)
    requires Promised(s, k, h) && t.a == s.a && Log(t.ab) == Log(s.ab)
    ensures Promised(t, k, h)
  {
  }

  /** What reading does to the stream that is read. */
  lemma RightLog(w: World, act: Action)
    requires Enabled(Flip(w.net), act) && InvW(w)
    ensures var p := Next(Flip(w.net), act).ba; Log(p) == Log(w.net.ab) && p.wire == w.net.ab.wire
  {
    hide InvW, Inv, Encode, Decode, Load, Store, Log, Line, Next, Offer, Landing, Served, Serving;
    InvFlips(w);
    WorldNet(FlipW(w));
    ReadWire(Flip(w.net), act);
    match act
    case Drive(n) =>
      if AwaitsReply(w.net.b) { ReplyFacts(Flip(w.net), n); } else { OtherTakes(FlipW(w), act); }
    case Input(n) =>
      if w.net.b.rphase == Body { BodyFacts(Flip(w.net), n); } else { HeaderFacts(Flip(w.net), n); }
    case _ => OtherTakes(FlipW(w), act);
  }

  lemma ReadWire(s: Net, act: Action)
    requires Enabled(s, act)
    ensures Next(s, act).ba.wire == s.ba.wire
  {
    hide Encode, Decode, Load, Store, Offer, Framed, Written, TakeReply, Arrived, Replied, Retrieve;
  }

  // ---------------------------------------------------------------- the puts of a run

  /** The remote writes among the segments, as puts. */
  function PutsIn(segs: seq<Seg>): seq<Puts.Put> {
    if segs == [] then []
    else
      var n := |segs| - 1;
      PutsIn(segs[..n])
      + (if segs[n].Frame? && segs[n].hdr.kind.RemWr? then [Puts.Put(segs[n].hdr.remAddr, segs[n].body)] else [])
  }

  lemma PutsSnoc(segs: seq<Seg>, g: Seg)
    ensures PutsIn(segs + [g])
            == PutsIn(segs)
               + (if g.Frame? && g.hdr.kind.RemWr? then [Puts.Put(g.hdr.remAddr, g.body)] else [])
  {
    assert (segs + [g])[..|segs|] == segs;
  }

  /** The put of segment `k` comes after those of the segments before it. */
  lemma {:induction false} PutAt(segs: seq<Seg>, k: nat)
    requires k < |segs| && segs[k].Frame? && segs[k].hdr.kind.RemWr?
    ensures var p := |PutsIn(segs[..k])|;
            p < |PutsIn(segs)| && PutsIn(segs)[p] == Puts.Put(segs[k].hdr.remAddr, segs[k].body)
  {
    var n := |segs| - 1;
    if k < n {
      PutAt(segs[..n], k);
      assert segs[..n][..k] == segs[..k];
    }
  }

  /** How far the puts of a connection have got. */
  function PosOf(s: Net): Puts.Pos {
    Puts.Pos(|PutsIn(s.ab.seen)|, if TakesWrite(s.b) then s.b.rbytes else 0)
  }

  /** The move lands bytes of a put. */
  predicate Lands(s: Net, m: Move) { m.Right? && m.act.Input? && TakesWrite(s.b) }

  /** Any other move leaves all puts where they are. */
  lemma OtherPos(w: World, m: Move)
    requires CanMove(w, m) && InvW(w) && !Lands(w.net, m)
    ensures PosOf(Moved(w, m).net) == PosOf(w.net)
  {
    hide InvW, Inv, NextBook, Next, PutsIn, Decode, Log, Line;
    match m
    case Left(act) =>
      OtherEndStays(w.net, act);
      LeftReadsNothing(w.net, act);
    case Right(act) =>
      InvFlips(w);
      RightPos(FlipW(w), act);
  }

  /** The same on the side that reads. */
  lemma RightPos(w: World, act: Action)
    requires Enabled(w.net, act) && InvW(w) && !(act.Input? && TakesWrite(w.net.a))
    ensures PutsIn(Next(w.net, act).ba.seen) == PutsIn(w.net.ba.seen)
    ensures TakesWrite(w.net.a) ==>
              TakesWrite(Next(w.net, act).a) && Next(w.net, act).a.rbytes == w.net.a.rbytes
    ensures !TakesWrite(w.net.a) && TakesWrite(Next(w.net, act).a) ==> Next(w.net, act).a.rbytes == 0
  {
    hide InvW, Inv, NextBook, Next, PutsIn, Decode, Log, Line, Load, Store, Offer, Landing, Served, Serving;
    var s := w.net;
    WorldNet(w);
    if s.ba.todo != [] { PutsSnoc(s.ba.seen, s.ba.todo[0]); }
    match act
    case Drive(n) =>
      if AwaitsReply(s.a) {
        TakeStep(s, n);
        ReplyFacts(s, n);
        ReplyNoPut(s);
      } else {
        OtherTakes(w, act);
        OtherReads(s, act);
      }
    case Input(n) =>
      if s.a.rphase == Body {
        BodyStep(s, n);
        BodyFacts(s, n);
      } else {
        HeaderStep(s, n);
        HeaderFacts(s, n);
      }
    case Output(n) =>
      OtherTakes(w, act);
      RepliedSame(s, n);
    case _ =>
      OtherTakes(w, act);
      OtherReads(s, act);
  }

  /** The segment that answers a read is no put. */
  lemma ReplyNoPut(s: Net)
    ensures Served(s) ==> s.ba.todo != [] && s.ba.todo[0].Reply?
  {
  }

  lemma OtherReads(s: Net, act: Action)
    requires Enabled(s, act) && !act.Input? && !act.Output? && !(act.Drive? && AwaitsReply(s.a))
    ensures var e, f := s.a, Next(s, act).a; f.rphase == e.rphase && f.rbytes == e.rbytes && f.preq == e.preq
  {
    hide Encode, Decode, Load, Store, Framed, Offer;
  }

  // ---------------------------------------------------------------- what the end of a run tells of its beginning

  /** `t` is `s` or later: what was written and read stays, and a put that lands goes on or ends. */
  predicate Later(s: Net, t: Net) {
    && s.ab.wire <= t.ab.wire && s.ab.seen <= t.ab.seen
    && (TakesWrite(s.b) ==> TakesWrite(t.b) || |s.ab.seen| < |t.ab.seen|)
  }

  lemma LaterTrans(s: Net, t: Net, u: Net)
    requires Later(s, t) && Later(t, u)
    ensures Later(s, u)
  {
    hide TakesWrite;
  }

  lemma MoveLater(w: World, m: Move)
    requires CanMove(w, m) && InvW(w)
    ensures Later(w.net, Moved(w, m).net)
  {
    hide InvW, Inv, NextBook, Next, Decode, Log, Line, TakesWrite, Enabled;
    match m
    case Left(act) =>
      OtherEndStays(w.net, act);
      LeftReadsNothing(w.net, act);
      LeftWire(w.net, act);
    case Right(act) =>
      InvFlips(w);
      RightLog(w, act);
      StepReads(FlipW(w), act);
      if TakesWrite(w.net.b) { RightLater(FlipW(w), act); }
  }

  lemma LeftWire(s: Net, act: Action)
    requires Enabled(s, act)
    ensures s.ab.wire <= Next(s, act).ab.wire
  {
    hide Encode, Decode, Load, Store, Offer, ReplyOffer, Written, TakeReply, Arrived, Replied, Retrieve;
  }

  lemma RightLater(w: World, act: Action)
    requires Enabled(w.net, act) && InvW(w) && TakesWrite(w.net.a)
    ensures TakesWrite(Next(w.net, act).a) || |Next(w.net, act).ba.seen| > |w.net.ba.seen|
  {
    hide InvW, Inv, NextBook, Next, Decode, Log, Line, Landing, Store;
    match act
    case Input(n) =>
      BodyStep(w.net, n);
      BodyFacts(w.net, n) by { WorldNet(w); }
    case _ => RightPos(w, act);
  }

  lemma {:induction false} RunLater(c: seq<World>, run: seq<Event>, mem: seq<byte>, j: nat)
    requires Sound(c, mem) && CanRunAll(c, run) && j < |c|
    ensures Later(c[j].net, RunAll(c, run)[j].net) && InvW(RunAll(c, run)[j])
    decreases |run|
  {
    hide InvW, Moved, CanMove, Later, Echo;
    if run == [] {
      LaterSame(c[j].net);
    } else {
      var e := run[0];
      var d := Happened(c, e);
      HappenedSound(c, e, mem);
      MoveLater(c[j], if j == e.conn then e.move else Right(Echo(c[e.conn], e.move)));
      RunLater(d, run[1..], Moved(c[e.conn], e.move).net.b.mem, j);
      LaterTrans(c[j].net, d[j].net, RunAll(c, run)[j].net);
    }
  }

  lemma LaterSame(s: Net)
    ensures Later(s, s)
  {
  }

  lemma {:induction false} RunPromise(c: seq<World>, run: seq<Event>, mem: seq<byte>, j: nat, k: nat, h: Request)
    requires Sound(c, mem) && CanRunAll(c, run) && j < |c| && Promised(c[j].net, k, h)
    ensures Promised(RunAll(c, run)[j].net, k, h)
    decreases |run|
  {
    hide InvW, Moved, CanMove, Promised, Echo;
    if run != [] {
      var e := run[0];
      HappenedSound(c, e, mem);
      MovePromise(c[j], if j == e.conn then e.move else Right(Echo(c[e.conn], e.move)), k, h);
      RunPromise(Happened(c, e), run[1..], Moved(c[e.conn], e.move).net.b.mem, j, k, h);
    }
  }

  /** The bytes on the line are the beginning of the segment that is read next in the end. */
  lemma LineIsSegment(p: Pipe, q: Pipe)
    requires PipeOk(p) && PipeOk(q) && p.wire <= q.wire && p.seen <= q.seen && |p.seen| < |q.seen|
    ensures var g := SegBytes(q.seen[|p.seen|]);
            forall i :: 0 <= i < |Line(p)| && i < |g| ==> Line(p)[i] == g[i]
  {
    hide Encode, SegBytes, Flat;
    var k := |p.seen|;
    var first, rest := SegBytes(q.seen[k]), Flat(q.seen[k + 1..]) + Flat(q.todo) + q.cur;
    assert p.wire == Flat(p.seen) + Line(p) by {
      FlatConcat(p.seen, p.todo);
    }
    assert q.wire == Flat(p.seen) + (first + rest) by {
      WireFrom(q, k);
      assert q.seen[..k] == p.seen;
    }
    SamePrefix(Flat(p.seen), Line(p), first, rest);
  }

  lemma WireFrom(q: Pipe, k: nat)
    requires PipeOk(q) && k < |q.seen|
    ensures q.wire == Flat(q.seen[..k]) + (SegBytes(q.seen[k]) + (Flat(q.seen[k + 1..]) + Flat(q.todo) + q.cur))
  {
    hide Encode, SegBytes, Flat;
    FlatConcat(q.seen, q.todo);
    FlatConcat(q.seen[..k], q.seen[k..]);
    assert q.seen == q.seen[..k] + q.seen[k..] && q.seen[k..][1..] == q.seen[k + 1..];
    FlatFirst(q.seen[k..]);
  }

  lemma FlatFirst(ss: seq<Seg>)
    requires ss != []
    ensures Flat(ss) == SegBytes(ss[0]) + Flat(ss[1..])
  {
    hide SegBytes;
  }

  lemma SamePrefix(a: seq<byte>, l: seq<byte>, g: seq<byte>, r: seq<byte>)
    requires a + l <= a + (g + r)
    ensures forall i :: 0 <= i < |l| && i < |g| ==> l[i] == g[i]
  {
    forall i | 0 <= i < |l| && i < |g| ensures l[i] == g[i] {
      assert (a + l)[|a| + i] == (a + (g + r))[|a| + i];
    }
  }

  /** The bytes that land are those of the frame that is read in the end. */
  lemma LandingBytes(w: World, v: World, n: nat)
    requires InvW(w) && InvW(v) && Enabled(Flip(w.net), Input(n)) && TakesWrite(w.net.b)
    requires Later(w.net, v.net) && |w.net.ab.seen| < |v.net.ab.seen|
    requires Promised(v.net, |w.net.ab.seen|, PeerHeader(w.net.b))
    ensures var g, h := v.net.ab.seen[|w.net.ab.seen|], PeerHeader(w.net.b);
            && w.net.b.rbytes + n <= h.length && n <= |w.net.ab.flight| && h.remAddr + h.length <= |w.net.b.mem|
            && g.Frame? && g.hdr == h && |g.body| == h.length
            && g.body[w.net.b.rbytes..w.net.b.rbytes + n] == w.net.ab.flight[..n]
  {
    hide InvW, Inv, Encode, Decode, Log, Line, Flat, PipeOk, Next, Enabled, Landing, Store, TakesWrite, SegBytes;
    LandsInBody(w.net);
    var k, h, b := |w.net.ab.seen|, PeerHeader(w.net.b), w.net.b;
    InvFlips(w);
    WorldNet(FlipW(w));
    BodyStep(Flip(w.net), n);
    BodyRead(Flip(w.net), n);
    PipesOk(w);
    PipesOk(v);
    FlightBound(w.net.ab, n);
    FrameWhole(v, k);
    SeenPromised(v.net, k, h);
    var g := v.net.ab.seen[k];
    LineIsSegment(w.net.ab, v.net.ab);
    FrameBytes(g);
    assert g.body[b.rbytes..b.rbytes + n] == w.net.ab.flight[..n];
  }

  lemma LandsInBody(s: Net)
    requires TakesWrite(s.b)
    ensures |s.b.preq| == HEADER && s.b.rphase == Body && PeerHeader(s.b).kind.RemWr?
  {
  }

  lemma PipesOk(w: World)
    requires InvW(w)
    ensures PipeOk(w.net.ab)
  {
    hide DataHalf, PipeOk, ControlOk, SenderOk, ReceiverOk, ReadOk, SegOk;
  }

  lemma SeenPromised(s: Net, k: nat, h: Request)
    requires Promised(s, k, h) && k < |s.ab.seen|
    ensures s.ab.seen[k].Frame? && s.ab.seen[k].hdr == h
  {
  }

  lemma FrameBytes(g: Seg)
    requires g.Frame?
    ensures |SegBytes(g)| == HEADER + |g.body|
    ensures forall i :: 0 <= i < |g.body| ==> SegBytes(g)[HEADER + i] == g.body[i]
  {
    hide Encode;
  }

  // ---------------------------------------------------------------- the run as deliveries of puts

  /** The puts that each connection has delivered. */
  function PutsOf(c: seq<World>): (puts: seq<seq<Puts.Put>>)
    ensures |puts| == |c|
  {
    seq(|c|, j requires 0 <= j < |c| => PutsIn(c[j].net.ab.seen))
  }

  /** No put is half delivered. */
  predicate Settled(c: seq<World>) { forall j :: 0 <= j < |c| ==> !TakesWrite(c[j].net.b) }

  /** Nothing but the peers' remote writes is stored between `lo` and `lo + len`. */
  predicate PutsOnly(c: seq<World>, run: seq<Event>, lo: nat, len: nat)
    requires CanRunAll(c, run)
    decreases |run|
  {
    run == []
    || ((run[0].move.Right? ==>
           var x := Stored(Flip(c[run[0].conn].net), run[0].move.act); x.who == Theirs || Clear(x, lo, len))
        && PutsOnly(Happened(c, run[0]), run[1..], lo, len))
  }

  predicate SameIn(x: seq<byte>, y: seq<byte>, lo: nat, len: nat) {
    |x| == |y| && forall a :: lo <= a < lo + len && a < |x| ==> x[a] == y[a]
  }

  /** The deliveries have got as far, and left the same bytes. */
  predicate Agrees(c: seq<World>, mem: seq<byte>, m: Puts.Master, lo: nat, len: nat) {
    && |m.pos| == |c| && (forall j :: 0 <= j < |c| ==> m.pos[j] == PosOf(c[j].net)) && SameIn(m.mem, mem, lo, len)
  }

  lemma SameAfterStore(x: seq<byte>, y: seq<byte>, a: nat, data: seq<byte>, lo: nat, len: nat)
    requires SameIn(x, y, lo, len)
    ensures SameIn(Store(x, a, data), Store(y, a, data), lo, len)
  {
  }

  lemma SameByLoad(x: seq<byte>, y: seq<byte>, z: seq<byte>, lo: nat, len: nat)
    requires SameIn(x, y, lo, len) && |z| == |y| && lo + len <= |y| && Load(z, lo, len) == Load(y, lo, len)
    ensures SameIn(x, z, lo, len)
  {
    forall a | lo <= a < lo + len ensures x[a] == z[a] {
      assert y[lo..lo + len][a - lo] == z[lo..lo + len][a - lo];
    }
  }

  lemma TheirsLands(s: Net, act: Action)
    requires Enabled(s, act) && Stored(s, act).who == Theirs
    ensures act.Input? && TakesWrite(s.a)
  {
    hide Decode;
  }

  /** A move that lands nothing stores nothing into the region. */
  lemma RegionStays(w: World, m: Move, lo: nat, len: nat)
    requires CanMove(w, m) && InvW(w) && !Lands(w.net, m)
    requires m.Right? ==> var x := Stored(Flip(w.net), m.act); x.who == Theirs || Clear(x, lo, len)
    ensures Load(Moved(w, m).net.b.mem, lo, len) == Load(w.net.b.mem, lo, len)
    ensures |Moved(w, m).net.b.mem| == |w.net.b.mem|
  {
    hide InvW, Inv, NextBook, Next, Stored, Load, TakesWrite, Clear, Store;
    EchoSame(w, m);
    match m
    case Left(act) => OtherEndStays(w.net, act);
    case Right(act) =>
      InvFlips(w);
      if Stored(Flip(w.net), act).who == Theirs { TheirsLands(Flip(w.net), act); }
      StoresOnlyThere(Flip(w.net), act, lo, len) by { WorldNet(FlipW(w)); }
  }

  /** Landing a part of a put: the memory, and how far the put has got. */
  lemma LandStep(w: World, n: nat)
    requires CanMove(w, Right(Input(n))) && InvW(w) && TakesWrite(w.net.b)
    ensures var t, h := Moved(w, Right(Input(n))).net, PeerHeader(w.net.b);
            && n <= |w.net.ab.flight| && w.net.b.rbytes + n <= h.length
            && t.b.mem == Store(w.net.b.mem, h.remAddr + w.net.b.rbytes, w.net.ab.flight[..n])
            && PosOf(t) == Puts.Advance(PosOf(w.net), n, h.length)
  {
    hide InvW, Inv, NextBook, Next, PutsIn, Decode, Log, Line, Store;
    InvFlips(w);
    WorldNet(FlipW(w));
    BodyStep(Flip(w.net), n);
    BodyFacts(Flip(w.net), n);
    if w.net.ab.todo != [] { PutsSnoc(w.net.ab.seen, w.net.ab.todo[0]); }
  }

  /** A landing move is a chunk. */
  lemma ChunkLands(c: seq<World>, i: nat, n: nat, mem: seq<byte>, m: Puts.Master, f: World, puts: seq<seq<Puts.Put>>,
          lo: nat, len: nat)
    requires Sound(c, mem) && i < |c| && CanHappen(c, Event(i, Right(Input(n)))) && TakesWrite(c[i].net.b)
    requires InvW(f) && Later(c[i].net, f.net) && !TakesWrite(f.net.b)
    requires Promised(f.net, |c[i].net.ab.seen|, PeerHeader(c[i].net.b))
    requires |puts| == |c| && puts[i] == PutsIn(f.net.ab.seen) && Agrees(c, mem, m, lo, len)
    ensures Puts.Can(m, puts, Puts.Chunk(i, n))
    ensures Agrees(Happened(c, Event(i, Right(Input(n)))), Moved(c[i], Right(Input(n))).net.b.mem,
                   Puts.Deliver(m, puts, Puts.Chunk(i, n)), lo, len)
  {
    hide InvW, Moved, CanMove, Promised, Echo, PutsIn, Store, TakesWrite, SameIn, Decode;
    var w, e := c[i], Event(i, Right(Input(n)));
    LandsInBody(w.net);
    var h, k := PeerHeader(w.net.b), |w.net.ab.seen|;
    LandingBytes(w, f, n) by { MoveIsInput(w, n); }
    LandStep(w, n);
    var g := f.net.ab.seen[k];
    PutAt(f.net.ab.seen, k);
    assert f.net.ab.seen[..k] == w.net.ab.seen;
    PosParts(w.net);
    SameAfterStore(m.mem, mem, h.remAddr + w.net.b.rbytes, w.net.ab.flight[..n], lo, len);
    EchoPos(c, e, mem);
  }

  lemma MoveIsInput(w: World, n: nat)
    requires CanMove(w, Right(Input(n)))
    ensures Enabled(Flip(w.net), Input(n))
  {
  }

  lemma PosParts(s: Net)
    ensures PosOf(s).k == |PutsIn(s.ab.seen)| && (TakesWrite(s.b) ==> PosOf(s).part == s.b.rbytes)
  {
  }

  /** The puts of the connections that only notice stay where they are. */
  lemma EchoPos(c: seq<World>, e: Event, mem: seq<byte>)
    requires Sound(c, mem) && CanHappen(c, e)
    ensures forall j :: 0 <= j < |c| && j != e.conn ==> PosOf(Happened(c, e)[j].net) == PosOf(c[j].net)
  {
    hide InvW, Moved, CanMove, Echo, PosOf;
    EchoSame(c[e.conn], e.move);
    forall j | 0 <= j < |c| && j != e.conn ensures PosOf(Happened(c, e)[j].net) == PosOf(c[j].net) {
      OtherPos(c[j], Right(Echo(c[e.conn], e.move)));
    }
  }

  /** Any other move is none. */
  lemma NoChunk(c: seq<World>, e: Event, mem: seq<byte>, m: Puts.Master, lo: nat, len: nat)
    requires Sound(c, mem) && CanHappen(c, e) && !Lands(c[e.conn].net, e.move) && Agrees(c, mem, m, lo, len)
    requires lo + len <= |mem|
    requires e.move.Right? ==>
               var x := Stored(Flip(c[e.conn].net), e.move.act); x.who == Theirs || Clear(x, lo, len)
    ensures Agrees(Happened(c, e), Moved(c[e.conn], e.move).net.b.mem, m, lo, len)
  {
    hide InvW, Moved, Echo, PosOf, SameIn, Lands, Load, Stored, Clear;
    OtherPos(c[e.conn], e.move);
    EchoPos(c, e, mem);
    RegionStays(c[e.conn], e.move, lo, len);
    SameByLoad(m.mem, mem, Moved(c[e.conn], e.move).net.b.mem, lo, len);
  }

  /** A run of the cluster is a run of deliveries. */
  lemma {:induction false} Simulate(c: seq<World>, run: seq<Event>, mem: seq<byte>, m: Puts.Master,
          puts: seq<seq<Puts.Put>>, lo: nat, len: nat)
    returns (cs: seq<Puts.Chunk>)
    requires Sound(c, mem) && CanRunAll(c, run) && Settled(RunAll(c, run)) && puts == PutsOf(RunAll(c, run))
    requires PutsOnly(c, run, lo, len) && lo + len <= |mem| && Agrees(c, mem, m, lo, len)
    ensures Puts.CanAll(m, puts, cs)
    ensures var d := RunAll(c, run);
            && (forall j :: 0 <= j < |d| ==> Agrees(d, d[j].net.b.mem, Puts.DeliverAll(m, puts, cs), lo, len))
            && (forall j :: 0 <= j < |d| ==> |d[j].net.b.mem| == |mem|)
    decreases |run|
  {
    hide InvW, Moved, CanMove, Agrees, Echo, Lands, Puts.Can, Puts.Deliver, PutsIn, TakesWrite, Stored, Clear,
      CanHappen;
    cs := [];
    if run != [] {
      var e := run[0];
      CanIndex(c, e);
      var mem' := Moved(c[e.conn], e.move).net.b.mem;
      HappenedSound(c, e, mem);
      SameSize(c[e.conn], e.move);
      if Lands(c[e.conn].net, e.move) {
        var chunk := ChunkOf(c, run, mem, m, puts, lo, len);
        var rest := Simulate(Happened(c, e), run[1..], mem', Puts.Deliver(m, puts, chunk), puts, lo, len);
        cs := [chunk] + rest;
        assert cs[1..] == rest;
      } else {
        NoChunk(c, e, mem, m, lo, len);
        cs := Simulate(Happened(c, e), run[1..], mem', m, puts, lo, len);
      }
    }
  }

  lemma CanIndex(c: seq<World>, e: Event)
    requires CanHappen(c, e)
    ensures e.conn < |c| && CanMove(c[e.conn], e.move)
  {
  }

  lemma SameSize(w: World, m: Move)
    requires CanMove(w, m) && InvW(w)
    ensures |Moved(w, m).net.b.mem| == |w.net.b.mem|
  {
    hide InvW, Moved, CanMove, Echo;
    EchoSame(w, m);
  }

  /** The first step of a run that lands bytes, seen from the end of the run. */
  lemma ChunkOf(c: seq<World>, run: seq<Event>, mem: seq<byte>, m: Puts.Master, puts: seq<seq<Puts.Put>>, lo: nat,
          len: nat)
    returns (chunk: Puts.Chunk)
    requires Sound(c, mem) && run != [] && CanRunAll(c, run)
    requires Settled(RunAll(c, run)) && puts == PutsOf(RunAll(c, run))
    requires Agrees(c, mem, m, lo, len) && Lands(c[run[0].conn].net, run[0].move)
    ensures Puts.Can(m, puts, chunk)
    ensures Agrees(Happened(c, run[0]), Moved(c[run[0].conn], run[0].move).net.b.mem, Puts.Deliver(m, puts, chunk),
                   lo, len)
  {
    hide InvW, Moved, CanMove, Agrees, Echo, Puts.Can, Puts.Deliver, PutsIn, Later, Promised;
    var e := run[0];
    var i, n := e.conn, e.move.act.n;
    chunk := Puts.Chunk(i, n);
    RunLater(c, run, mem, i);
    LandingPromised(c[i], n);
    RunPromise(c, run, mem, i, |c[i].net.ab.seen|, PeerHeader(c[i].net.b));
    ChunkLands(c, i, n, mem, m, RunAll(c, run)[i], puts, lo, len);
  }

  lemma LandingPromised(w: World, n: nat)
    requires CanMove(w, Right(Input(n))) && InvW(w) && TakesWrite(w.net.b)
    ensures Promised(w.net, |w.net.ab.seen|, PeerHeader(w.net.b))
  {
    hide InvW, Inv, Promised;
    InvFlips(w);
    HeaderPromises(Flip(w.net), n) by { WorldNet(FlipW(w)); }
    assert Flip(Flip(w.net)) == w.net;
  }

  // ---------------------------------------------------------------- the master in the end

  lemma ClusterStarts(mems: seq<seq<byte>>, master: seq<byte>, lo: nat, len: nat)
    ensures Sound(Cluster(mems, master), master)
    ensures Agrees(Cluster(mems, master), master, Puts.Start(master, |mems|), lo, len)
  {
    hide InvW;
    forall j | 0 <= j < |mems| ensures InvW(Cluster(mems, master)[j]) { InitData(mems[j], master); }
  }

  /** What was put fits the memory. */
  lemma {:induction false} PutsFit(segs: seq<Seg>, size: nat, k: nat)
    requires forall i :: 0 <= i < |segs| ==> SegOk(segs[i], size)
    requires k < |PutsIn(segs)|
    ensures PutsIn(segs)[k].at + |PutsIn(segs)[k].data| <= size
    decreases |segs|
  {
    var n := |segs| - 1;
    if k < |PutsIn(segs[..n])| {
      PutsFit(segs[..n], size, k);
    }
  }

  lemma SeenOk(w: World, i: nat)
    requires InvW(w) && i < |w.net.ab.seen|
    ensures SegOk(w.net.ab.seen[i], |w.net.b.mem|)
  {
    hide DataHalf, PipeOk, ControlOk, SenderOk, ReceiverOk, ReadOk, SegOk;
    assert Log(w.net.ab)[i] == w.net.ab.seen[i];
  }

  lemma EndFits(c: seq<World>, run: seq<Event>, mem: seq<byte>)
    requires Sound(c, mem) && CanRunAll(c, run)
    requires forall j :: 0 <= j < |c| ==> |RunAll(c, run)[j].net.b.mem| == |mem|
    ensures Puts.Fits(PutsOf(RunAll(c, run)), |mem|)
  {
    hide InvW, PutsIn, Later, CanRunAll, RunAll;
    var d := RunAll(c, run);
    var puts: seq<seq<Puts.Put>> := PutsOf(d);
    forall j: nat, k: nat | j < |puts| && k < |puts[j]| ensures puts[j][k].at + |puts[j][k].data| <= |mem| {
      RunLater(c, run, mem, j);
      forall i | 0 <= i < |d[j].net.ab.seen| ensures SegOk(d[j].net.ab.seen[i], |mem|) { SeenOk(d[j], i); }
      PutsFit(d[j].net.ab.seen, |mem|, k);
    }
  }

  lemma EndDrained(c: seq<World>, mem: seq<byte>, m: Puts.Master, lo: nat, len: nat)
    requires Settled(c) && Agrees(c, mem, m, lo, len)
    ensures Puts.Drained(m, PutsOf(c))
  {
    hide TakesWrite, PutsIn, SameIn;
  }

  /** Puts of different connections that share no place: when none is half delivered, the region holds, in each
      connection's places, what that connection's puts alone would have left in it, in order, and elsewhere what it held
      at the start - however the handlers and the kernel cut and mixed them. */
  lemma PutsMerge(mems: seq<seq<byte>>, master: seq<byte>, run: seq<Event>, lo: nat, len: nat, i: nat, a: nat)
    requires CanRunAll(Cluster(mems, master), run) && PutsOnly(Cluster(mems, master), run, lo, len)
    requires var d := RunAll(Cluster(mems, master), run); Settled(d) && Puts.Disjoint(PutsOf(d))
    requires lo <= a < lo + len <= |master| && i < |mems|
    ensures var d := RunAll(Cluster(mems, master), run);
            var puts := PutsOf(d);
            forall j :: 0 <= j < |d| ==>
              && |d[j].net.b.mem| == |master|
              && (Puts.Touches(puts[i], a) ==> d[j].net.b.mem[a] == Puts.Serial(master, puts[i])[a])
              && ((forall k :: 0 <= k < |puts| ==> !Puts.Touches(puts[k], a)) ==> d[j].net.b.mem[a] == master[a])
  {
    hide InvW, Settled, PutsOnly, CanRunAll, RunAll, Cluster, PutsIn, Puts.Disjoint, Puts.Touches, Puts.Serial,
      Puts.CanAll, Puts.DeliverAll, Puts.Drained, Puts.Fits, Sound, PosOf;
    var c := Cluster(mems, master);
    ClusterSize(mems, master);
    ClusterStarts(mems, master, lo, len);
    var d, m := RunAll(c, run), Puts.Start(master, |mems|);
    var cs := Simulate(c, run, master, m, PutsOf(d), lo, len);
    EndFits(c, run, master);
    EndDrained(d, d[0].net.b.mem, Puts.DeliverAll(m, PutsOf(d), cs), lo, len);
    Puts.DisjointPutsCommute(master, PutsOf(d), cs, i, a);
  }

  lemma ClusterSize(mems: seq<seq<byte>>, master: seq<byte>)
    ensures |Cluster(mems, master)| == |mems|
  {
  }

  /** Two such runs that deliver the same puts leave the same bytes in the region. */
  lemma MasterDetermined(mems: seq<seq<byte>>, mems': seq<seq<byte>>, master: seq<byte>, run: seq<Event>,
          run': seq<Event>, lo: nat, len: nat, j: nat, a: nat)
    requires CanRunAll(Cluster(mems, master), run) && PutsOnly(Cluster(mems, master), run, lo, len)
    requires CanRunAll(Cluster(mems', master), run') && PutsOnly(Cluster(mems', master), run', lo, len)
    requires var d, d' := RunAll(Cluster(mems, master), run), RunAll(Cluster(mems', master), run');
             && Settled(d) && Settled(d') && PutsOf(d) == PutsOf(d') && Puts.Disjoint(PutsOf(d))
             && j < |d| && j < |d'|
    requires lo <= a < lo + len <= |master|
    ensures var d, d' := RunAll(Cluster(mems, master), run), RunAll(Cluster(mems', master), run');
            |d[j].net.b.mem| == |d'[j].net.b.mem| == |master| && d[j].net.b.mem[a] == d'[j].net.b.mem[a]
  {
    hide Settled, PutsOnly, CanRunAll, RunAll, Cluster, PutsIn, Puts.Disjoint, Puts.Touches, Puts.Serial;
    ClusterSize(mems, master);
    ClusterSize(mems', master);
    var puts := PutsOf(RunAll(Cluster(mems, master), run));
    var i: nat := 0;
    if k: nat :| k < |puts| && Puts.Touches(puts[k], a) {
      i := k;
    }
    PutsMerge(mems, master, run, lo, len, i, a);
    PutsMerge(mems', master, run', lo, len, i, a);
  }

  /** A byte of the master: that of the last remote write of its mirror that covers it. */
  predicate Covers(g: Seg, a: nat) {
    g.Frame? && g.hdr.kind.RemWr? && g.hdr.remAddr <= a < g.hdr.remAddr + |g.body|
  }

  lemma ClusterFits(mems: seq<seq<byte>>, master: seq<byte>, run: seq<Event>, lo: nat, len: nat, i: nat, q: nat)
    requires CanRunAll(Cluster(mems, master), run) && i < |mems|
    requires PutsOnly(Cluster(mems, master), run, lo, len) && lo + len <= |master| && i < |mems|
    requires Settled(RunAll(Cluster(mems, master), run))
    requires i < |RunAll(Cluster(mems, master), run)|
    requires q < |PutsIn(RunAll(Cluster(mems, master), run)[i].net.ab.seen)|
    ensures var puts := PutsIn(RunAll(Cluster(mems, master), run)[i].net.ab.seen);
            puts[q].at + |puts[q].data| <= |master|
  {
    hide InvW, Settled, PutsOnly, CanRunAll, RunAll, Cluster, PutsIn, Puts.CanAll, Puts.DeliverAll, Sound, Agrees;
    var c := Cluster(mems, master);
    ClusterSize(mems, master);
    ClusterStarts(mems, master, lo, len);
    var cs := Simulate(c, run, master, Puts.Start(master, |mems|), PutsOf(RunAll(c, run)), lo, len);
    EndFits(c, run, master);
    assert PutsOf(RunAll(c, run))[i] == PutsIn(RunAll(c, run)[i].net.ab.seen);
  }

  predicate PutCovers(p: Puts.Put, a: nat) {
    p.at <= a < p.at + |p.data|
  }

  /** The puts behind that of segment `k` are those of the segments behind it. */
  lemma {:induction false} LastAmongPuts(segs: seq<Seg>, k: nat, a: nat)
    requires k < |segs| && Covers(segs[k], a) && forall m :: k < m < |segs| ==> !Covers(segs[m], a)
    ensures forall q :: |PutsIn(segs[..k])| < q < |PutsIn(segs)| ==> !PutCovers(PutsIn(segs)[q], a)
  {
    var n := |segs| - 1;
    var front := segs[..n];
    if k < n {
      assert !Covers(segs[n], a);
      LastAmongPuts(front, k, a);
      assert front[..k] == segs[..k];
      forall q | |PutsIn(segs[..k])| < q < |PutsIn(segs)| ensures !PutCovers(PutsIn(segs)[q], a) {
        if q < |PutsIn(front)| {
          assert PutsIn(segs)[q] == PutsIn(front)[q];
        }
      }
    }
  }

  /** In terms of frames alone: where frame `k` of connection `i` is the last of its mirror to cover a byte, the master
      holds that frame's byte. */
  lemma LastWriteStays(mems: seq<seq<byte>>, master: seq<byte>, run: seq<Event>, lo: nat, len: nat, i: nat, k: nat,
          a: nat)
    requires CanRunAll(Cluster(mems, master), run) && PutsOnly(Cluster(mems, master), run, lo, len)
    requires var d := RunAll(Cluster(mems, master), run); Settled(d) && Puts.Disjoint(PutsOf(d))
    requires lo <= a < lo + len <= |master| && i < |mems| && i < |RunAll(Cluster(mems, master), run)|
    requires var seen := RunAll(Cluster(mems, master), run)[i].net.ab.seen;
             k < |seen| && Covers(seen[k], a) && forall m :: k < m < |seen| ==> !Covers(seen[m], a)
    ensures var d := RunAll(Cluster(mems, master), run);
            forall j :: 0 <= j < |d| ==>
              |d[j].net.b.mem| == |master|
              && d[j].net.b.mem[a] == d[i].net.ab.seen[k].body[a - d[i].net.ab.seen[k].hdr.remAddr]
  {
    hide InvW, Settled, PutsOnly, CanRunAll, RunAll, Cluster, PutsIn, Puts.Disjoint, Puts.Serial, Sound;
    var d := RunAll(Cluster(mems, master), run);
    var seen, puts := d[i].net.ab.seen, PutsIn(d[i].net.ab.seen);
    PutsMerge(mems, master, run, lo, len, i, a);
    PutAt(seen, k);
    var p := |PutsIn(seen[..k])|;
    assert puts == PutsOf(d)[i];
    LastAmongPuts(seen, k, a);
    ClusterStarts(mems, master, lo, len);
    forall q: nat | q < |puts| ensures puts[q].at + |puts[q].data| <= |master| {
      ClusterFits(mems, master, run, lo, len, i, q);
    }
    Puts.LastPutStays(master, puts, p, a);
  }
}
