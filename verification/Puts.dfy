/** Puts from many mirrors into one master: each connection delivers its puts in order and in pieces. */
module Puts {
  import opened Wire
  import opened InetEndpoint

  /** A put writes `data` at offset `at` of the master. */
  datatype Put = Put(at: nat, data: seq<byte>)

  /** How far a connection has got: `k` whole puts and `part` bytes of the next. */
  datatype Pos = Pos(k: nat, part: nat)

  datatype Master = Master(mem: seq<byte>, pos: seq<Pos>)

  predicate Touches(list: seq<Put>, a: nat) {
    exists k :: 0 <= k < |list| && list[k].at <= a < list[k].at + |list[k].data|
  }

  /** No two mirrors put into the same place; one mirror's own puts may overlap. */
  ghost predicate Disjoint(puts: seq<seq<Put>>) {
    forall i, j, a: nat :: 0 <= i < j < |puts| && Touches(puts[i], a) ==> !Touches(puts[j], a)
  }

  predicate Fits(puts: seq<seq<Put>>, size: nat) {
    forall i, k :: 0 <= i < |puts| && 0 <= k < |puts[i]| ==> puts[i][k].at + |puts[i][k].data| <= size
  }

  function Start(mem: seq<byte>, n: nat): Master { Master(mem, seq(n, _ => Pos(0, 0))) }

  /** Connection `conn` delivers the next `n` bytes of its current put. */
  datatype Chunk = Chunk(conn: nat, n: nat)

  predicate Can(m: Master, puts: seq<seq<Put>>, c: Chunk) {
    c.conn < |m.pos| == |puts|
    && m.pos[c.conn].k < |puts[c.conn]| && m.pos[c.conn].part + c.n <= |puts[c.conn][m.pos[c.conn].k].data|
  }

  function Advance(p: Pos, n: nat, total: nat): Pos {
    if p.part + n == total then Pos(p.k + 1, 0) else Pos(p.k, p.part + n)
  }

  function Deliver(m: Master, puts: seq<seq<Put>>, c: Chunk): Master
    requires Can(m, puts, c)
  {
    var p := m.pos[c.conn];
    var put := puts[c.conn][p.k];
    Master(Store(m.mem, put.at + p.part, put.data[p.part..p.part + c.n]),
           m.pos[c.conn := Advance(p, c.n, |put.data|)])
  }

  // ---------------------------------------------------------------- one mirror alone

  /** A mirror's puts one after the other into a master of its own. */
  function Serial(mem: seq<byte>, list: seq<Put>): (r: seq<byte>)
    ensures |r| == |mem|
  {
    if list == [] then mem
    else Store(Serial(mem, list[..|list| - 1]), list[|list| - 1].at, list[|list| - 1].data)
  }

  function Alone(mem: seq<byte>, list: seq<Put>, p: Pos): (r: seq<byte>)
    requires p.k <= |list|
    ensures |r| == |mem|
  {
    var whole := Serial(mem, list[..p.k]);
    if p.k < |list| && p.part <= |list[p.k].data| then Store(whole, list[p.k].at, list[p.k].data[..p.part]) else whole
  }

  lemma AloneStep(mem: seq<byte>, list: seq<Put>, p: Pos, n: nat)
    requires p.k < |list| && p.part + n <= |list[p.k].data| && list[p.k].at + |list[p.k].data| <= |mem|
    ensures var put := list[p.k];
            Alone(mem, list, Advance(p, n, |put.data|))
            == Store(Alone(mem, list, p), put.at + p.part, put.data[p.part..p.part + n])
  {
    hide Serial, Store;
    var put := list[p.k];
    var whole := Serial(mem, list[..p.k]);
    var q := Advance(p, n, |put.data|);
    StoreJoin(whole, put.at, put.data[..p.part], put.data[p.part..p.part + n]);
    assert put.data[..p.part + n] == put.data[..p.part] + put.data[p.part..p.part + n];
    if p.part + n == |put.data| {
      assert put.data[..p.part + n] == put.data;
      SerialNext(mem, list, p.k);
      NothingPut(mem, list, p.k + 1);
    }
  }

  lemma SerialNext(mem: seq<byte>, list: seq<Put>, k: nat)
    requires k < |list|
    ensures Serial(mem, list[..k + 1]) == Store(Serial(mem, list[..k]), list[k].at, list[k].data)
  {
    assert list[..k + 1][..k] == list[..k];
  }

  lemma SerialNone(mem: seq<byte>)
    ensures Serial(mem, []) == mem
  {
  }

  lemma NothingPut(mem: seq<byte>, list: seq<Put>, k: nat)
    requires k <= |list|
    ensures Alone(mem, list, Pos(k, 0)) == Serial(mem, list[..k])
  {
    if k < |list| {
      assert Store(Serial(mem, list[..k]), list[k].at, []) == Serial(mem, list[..k]);
    }
  }

  /** What one mirror's puts leave at a place: the byte of the last put that covers it, or the old one. */
  lemma {:induction false} LastPutStays(mem: seq<byte>, list: seq<Put>, k: nat, a: nat)
    requires k < |list| && a < |mem| && list[k].at <= a < list[k].at + |list[k].data|
    requires forall j :: 0 <= j < |list| ==> list[j].at + |list[j].data| <= |mem|
    requires forall j :: k < j < |list| ==> !(list[j].at <= a < list[j].at + |list[j].data|)
    ensures Serial(mem, list)[a] == list[k].data[a - list[k].at]
    decreases |list|
  {
    hide Store;
    var n := |list| - 1;
    var before := Serial(mem, list[..n]);
    StoreAt(before, list[n].at, list[n].data, a);
    if k < n {
      LastPutStays(mem, list[..n], k, a);
    }
  }

  // ---------------------------------------------------------------- all together

  /** Where mirror `i` puts, the master is as if `i` were alone; where nobody puts, it is as it was. */
  predicate Merged(m: Master, puts: seq<seq<Put>>, mem0: seq<byte>) {
    |m.mem| == |mem0| && |m.pos| == |puts| && (forall i :: 0 <= i < |puts| ==> m.pos[i].k <= |puts[i]|)
    && (forall i, a: nat :: 0 <= i < |puts| && a < |mem0| && Touches(puts[i], a) ==>
          m.mem[a] == Alone(mem0, puts[i], m.pos[i])[a])
    && (forall a: nat :: a < |mem0| && (forall i :: 0 <= i < |puts| ==> !Touches(puts[i], a)) ==> m.mem[a] == mem0[a])
  }

  lemma InPut(list: seq<Put>, k: nat, a: nat)
    requires k < |list| && list[k].at <= a < list[k].at + |list[k].data|
    ensures Touches(list, a)
  {
  }

  lemma StoreAt(mem: seq<byte>, lo: nat, data: seq<byte>, a: nat)
    requires lo + |data| <= |mem| && a < |mem|
    ensures Store(mem, lo, data)[a] == if lo <= a < lo + |data| then data[a - lo] else mem[a]
  {
  }

  lemma DeliverMerges(m: Master, puts: seq<seq<Put>>, mem0: seq<byte>, c: Chunk)
    requires Disjoint(puts) && Fits(puts, |mem0|) && Merged(m, puts, mem0) && Can(m, puts, c)
    ensures Merged(Deliver(m, puts, c), puts, mem0)
  {
    hide Alone, Touches, Store;
    var t, p := Deliver(m, puts, c), m.pos[c.conn];
    var put := puts[c.conn][p.k];
    var lo, data := put.at + p.part, put.data[p.part..p.part + c.n];
    AloneStep(mem0, puts[c.conn], p, c.n);
    forall a: nat | a < |mem0|
      ensures t.mem[a] == if lo <= a < lo + |data| then data[a - lo] else m.mem[a]
      ensures Alone(mem0, puts[c.conn], t.pos[c.conn])[a]
              == if lo <= a < lo + |data| then data[a - lo] else Alone(mem0, puts[c.conn], p)[a]
    {
      StoreAt(m.mem, lo, data, a);
      StoreAt(Alone(mem0, puts[c.conn], p), lo, data, a);
    }
    forall a: nat | lo <= a < lo + |data| ensures Touches(puts[c.conn], a) {
      InPut(puts[c.conn], p.k, a);
    }
    forall i, a: nat | 0 <= i < |puts| && a < |mem0| && Touches(puts[i], a)
      ensures t.mem[a] == Alone(mem0, puts[i], t.pos[i])[a]
    {
      if i != c.conn {
        assert !Touches(puts[c.conn], a);
      }
    }
  }

  predicate CanAll(m: Master, puts: seq<seq<Put>>, cs: seq<Chunk>)
    decreases |cs|
  {
    cs == [] || (Can(m, puts, cs[0]) && CanAll(Deliver(m, puts, cs[0]), puts, cs[1..]))
  }

  function DeliverAll(m: Master, puts: seq<seq<Put>>, cs: seq<Chunk>): Master
    requires CanAll(m, puts, cs)
    decreases |cs|
  {
    if cs == [] then m else DeliverAll(Deliver(m, puts, cs[0]), puts, cs[1..])
  }

  lemma {:induction false} AllMerge(m: Master, puts: seq<seq<Put>>, mem0: seq<byte>, cs: seq<Chunk>)
    requires Disjoint(puts) && Fits(puts, |mem0|) && Merged(m, puts, mem0) && CanAll(m, puts, cs)
    ensures Merged(DeliverAll(m, puts, cs), puts, mem0)
    decreases |cs|
  {
    hide Disjoint, Fits, Merged, Can, Deliver;
    if cs != [] {
      DeliverMerges(m, puts, mem0, cs[0]);
      AllMerge(Deliver(m, puts, cs[0]), puts, mem0, cs[1..]);
    }
  }

  predicate Drained(m: Master, puts: seq<seq<Put>>) {
    |m.pos| == |puts| && forall i :: 0 <= i < |puts| ==> m.pos[i] == Pos(|puts[i]|, 0)
  }

  /** Once all connections are drained, for every chunking and interleaving, the master holds in each mirror's places
      what that mirror's puts alone would have left there, and everywhere else its old content. */
  lemma DisjointPutsCommute(mem0: seq<byte>, puts: seq<seq<Put>>, cs: seq<Chunk>, i: nat, a: nat)
    requires Disjoint(puts) && Fits(puts, |mem0|) && a < |mem0|
    requires CanAll(Start(mem0, |puts|), puts, cs) && Drained(DeliverAll(Start(mem0, |puts|), puts, cs), puts)
    ensures var mem := DeliverAll(Start(mem0, |puts|), puts, cs).mem;
            |mem| == |mem0|
            && (i < |puts| && Touches(puts[i], a) ==> mem[a] == Serial(mem0, puts[i])[a])
            && ((forall j :: 0 <= j < |puts| ==> !Touches(puts[j], a)) ==> mem[a] == mem0[a])
  {
    hide Disjoint, Fits, Touches, Alone, Serial, DeliverAll, CanAll;
    var m := Start(mem0, |puts|);
    forall j | 0 <= j < |puts| ensures Alone(mem0, puts[j], Pos(0, 0)) == mem0 {
      NothingPut(mem0, puts[j], 0);
      SerialNone(mem0);
      assert puts[j][..0] == [];
    }
    assert Merged(m, puts, mem0);
    AllMerge(m, puts, mem0, cs);
    if i < |puts| {
      NothingPut(mem0, puts[i], |puts[i]|);
      assert puts[i][..|puts[i]|] == puts[i];
    }
  }

  /** Two complete deliveries of the same puts leave the same master, whatever the order. */
  lemma OrderDoesNotMatter(mem0: seq<byte>, puts: seq<seq<Put>>, cs: seq<Chunk>, ds: seq<Chunk>)
    requires Disjoint(puts) && Fits(puts, |mem0|)
    requires CanAll(Start(mem0, |puts|), puts, cs) && Drained(DeliverAll(Start(mem0, |puts|), puts, cs), puts)
    requires CanAll(Start(mem0, |puts|), puts, ds) && Drained(DeliverAll(Start(mem0, |puts|), puts, ds), puts)
    ensures DeliverAll(Start(mem0, |puts|), puts, cs).mem == DeliverAll(Start(mem0, |puts|), puts, ds).mem
  {
    hide Disjoint, Fits, Touches, Serial, DeliverAll, CanAll, Drained;
    var x, y := DeliverAll(Start(mem0, |puts|), puts, cs).mem, DeliverAll(Start(mem0, |puts|), puts, ds).mem;
    AllSize(Start(mem0, |puts|), puts, cs);
    AllSize(Start(mem0, |puts|), puts, ds);
    forall a | 0 <= a < |mem0| ensures x[a] == y[a] {
      if i: nat :| i < |puts| && Touches(puts[i], a) {
        DisjointPutsCommute(mem0, puts, cs, i, a);
        DisjointPutsCommute(mem0, puts, ds, i, a);
      } else {
        DisjointPutsCommute(mem0, puts, cs, 0, a);
        DisjointPutsCommute(mem0, puts, ds, 0, a);
      }
    }
    assert x == y;
  }

  lemma {:induction false} AllSize(m: Master, puts: seq<seq<Put>>, cs: seq<Chunk>)
    requires CanAll(m, puts, cs)
    ensures |DeliverAll(m, puts, cs).mem| == |m.mem|
    decreases |cs|
  {
    if cs != [] {
      AllSize(Deliver(m, puts, cs[0]), puts, cs[1..]);
    }
  }

  /** A chunk is what a handler does with the next bytes of a RemWr body: the same bytes change in the process's memory,
      and the handler is ready for the next header exactly when the put is whole. */
  lemma ChunkIsArrival(m: Master, puts: seq<seq<Put>>, c: Chunk, e: Endpoint)
    requires Can(m, puts, c) && |e.preq| == HEADER && e.rphase == Body && e.mem == m.mem && PeerHeader(e).kind.RemWr?
    requires var p := m.pos[c.conn];
             var put := puts[c.conn][p.k];
             PeerHeader(e).remAddr == put.at && PeerHeader(e).length == |put.data| && e.rbytes == p.part
    ensures var p := m.pos[c.conn];
            var data := puts[c.conn][p.k].data[p.part..p.part + c.n];
            var q, f := Deliver(m, puts, c), Arrived(e, data);
            Demand(e).Some? && |data| <= Demand(e).value && f.mem == q.mem
            && (f.rphase == Free <==> q.pos[c.conn] == Pos(p.k + 1, 0))
            && (f.rphase == Body ==> f.rbytes == q.pos[c.conn].part)
  {
    hide Decode, Store;
  }
}
