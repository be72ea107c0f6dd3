/** Completion matching: the stash in front of an InfiniBand completion queue, and the rotating queue of LM-INET. */
module Completions {
  import opened Wire
  import opened InetHandler
  import opened Seqs

  /** A completion carries the id of its request. */
  datatype Wc = Wc(id: nat, data: int)

  /** Position of the first completion with this id, or the length. */
  function FirstOf(s: seq<Wc>, id: nat): (i: nat)
    ensures i <= |s| && (i < |s| ==> s[i].id == id) && forall j :: 0 <= j < i ==> s[j].id != id
  {
    if s == [] || s[0].id == id then 0 else 1 + FirstOf(s[1..], id)
  }

  /** The completions of one request, in order. */
  function Of(s: seq<Wc>, id: nat): seq<Wc> {
    if s == [] then [] else Of(s[..|s| - 1], id) + if s[|s| - 1].id == id then [s[|s| - 1]] else []
  }

  lemma {:induction false} OfJoin(a: seq<Wc>, b: seq<Wc>, id: nat)
    ensures Of(a + b, id) == Of(a, id) + Of(b, id)
  {
    if b == [] {
      assert a + b == a;
    } else {
      assert (a + b)[..|a + b| - 1] == a + b[..|b| - 1];
      OfJoin(a, b[..|b| - 1], id);
    }
  }

  lemma OfOne(c: Wc, id: nat)
    ensures Of([c], id) == if c.id == id then [c] else []
  {
    assert [c][..0] == [];
  }

  lemma {:induction false} OfNone(s: seq<Wc>, id: nat)
    requires forall j :: 0 <= j < |s| ==> s[j].id != id
    ensures Of(s, id) == []
  {
    if s != [] {
      OfNone(s[..|s| - 1], id);
    }
  }

  lemma OfSplit(s: seq<Wc>, i: nat, id: nat)
    requires i < |s|
    ensures Of(s, id) == Of(s[..i], id) + (if s[i].id == id then [s[i]] else []) + Of(s[i + 1..], id)
  {
    assert s == s[..i] + ([s[i]] + s[i + 1..]);
    OfJoin(s[..i], [s[i]] + s[i + 1..], id);
    OfJoin([s[i]], s[i + 1..], id);
    OfOne(s[i], id);
  }

  // ---------------------------------------------------------------- the stash

  datatype Kind = SendQueue | RecvQueue | OtherQueue

  /** A stash `wq` and the completions the device has not been asked for yet. */
  datatype Side = Side(wq: seq<Wc>, cq: seq<Wc>)

  /** One call: the stash is searched first; otherwise one completion is polled, and kept for another caller
      when it is not ours. `polls` is false when the device reports nothing or an error. */
  function Get(s: Side, id: nat, polls: bool): (Side, Option<Wc>) {
    var i := FirstOf(s.wq, id);
    if i < |s.wq| then (Side(s.wq[..i] + s.wq[i + 1..], s.cq), Some(s.wq[i]))
    else if !polls || s.cq == [] then (s, None)
    else if s.cq[0].id != id then (Side(s.wq + [s.cq[0]], s.cq[1..]), None)
    else (Side(s.wq, s.cq[1..]), Some(s.cq[0]))
  }

  class RdmaContext {
    var active: bool
    var swq: seq<Wc>
    var rwq: seq<Wc>
    var scq: seq<Wc>
    var rcq: seq<Wc>

    function Sends(): Side
      reads this
    {
      Side(swq, scq)
    }

    function Recvs(): Side
      reads this
    {
      Side(rwq, rcq)
    }

    method Scan(wq: seq<Wc>, id: nat) returns (idx: nat)
      ensures idx == FirstOf(wq, id)
    {
      idx := 0;
      while idx < |wq|
        invariant idx <= |wq| && FirstOf(wq, id) == idx + FirstOf(wq[idx..], id)
      {
        if wq[idx].id == id {
          return;
        }
        idx := idx + 1;
      }
    }

    method GetComp(kind: Kind, id: nat, polls: bool) returns (ret: int, wc: Option<Wc>)
      modifies this
      ensures active == old(active)
      ensures !active || kind == OtherQueue ==>
              ret == -1 && wc == None && Sends() == old(Sends()) && Recvs() == old(Recvs())
      ensures active && kind == SendQueue ==> (Sends(), wc) == Get(old(Sends()), id, polls) && Recvs() == old(Recvs())
      ensures active && kind == RecvQueue ==> (Recvs(), wc) == Get(old(Recvs()), id, polls) && Sends() == old(Sends())
      ensures ret == if wc.Some? then 0 else -1
    {
      ret, wc := -1, None;
      if !active || kind == OtherQueue {
        return;
      }
      var wq, cq := if kind == SendQueue then swq else rwq, if kind == SendQueue then scq else rcq;
      var idx := Scan(wq, id);
      if idx < |wq| {
        ret, wc := 0, Some(wq[idx]);
        wq := wq[..idx] + wq[idx + 1..];
      } else if polls && cq != [] {
        var c := cq[0];
        cq := cq[1..];
        if c.id != id {
          wq := wq + [c];
        } else {
          ret, wc := 0, Some(c);
        }
      }
      if kind == SendQueue {
        swq, scq := wq, cq;
      } else {
        rwq, rcq := wq, cq;
      }
    }

    /** Waiting ends as soon as the completion is in the stash or among the finitely many in the queue; what was
        polled before it is then in the stash, in order. */
    method WaitComp(kind: Kind, id: nat) returns (wc: Wc)
      requires active && kind != OtherQueue
      requires var s := if kind == SendQueue then Sends() else Recvs();
               FirstOf(s.wq, id) < |s.wq| || FirstOf(s.cq, id) < |s.cq|
      modifies this
      ensures kind == SendQueue ==> (Sends(), wc) == Waited(old(Sends()), id) && Recvs() == old(Recvs())
      ensures kind == RecvQueue ==> (Recvs(), wc) == Waited(old(Recvs()), id) && Sends() == old(Sends())
    {
      ghost var s0 := if kind == SendQueue then Sends() else Recvs();
      ghost var s := s0;
      var ret, c := GetComp(kind, id, true);
      while ret != 0
        invariant active && ret == (if c.Some? then 0 else -1)
        invariant FirstOf(s.wq, id) < |s.wq| || FirstOf(s.cq, id) < |s.cq|
        invariant Waited(s, id) == Waited(s0, id)
        invariant ((if kind == SendQueue then Sends() else Recvs()), c) == Get(s, id, true)
        invariant (if kind == SendQueue then Recvs() else Sends()) == old(if kind == SendQueue
                  then Recvs() else Sends())
        decreases |s.cq|
      {
        WaitedStep(s, id);
        s := if kind == SendQueue then Sends() else Recvs();
        ret, c := GetComp(kind, id, true);
      }
      WaitedStep(s, id);
      wc := c.value;
    }
  }

  function Waited(s: Side, id: nat): (Side, Wc)
    requires FirstOf(s.wq, id) < |s.wq| || FirstOf(s.cq, id) < |s.cq|
  {
    var i, j := FirstOf(s.wq, id), FirstOf(s.cq, id);
    if i < |s.wq| then (Side(s.wq[..i] + s.wq[i + 1..], s.cq), s.wq[i])
    else (Side(s.wq + s.cq[..j], s.cq[j + 1..]), s.cq[j])
  }

  lemma WaitedStep(s: Side, id: nat)
    requires FirstOf(s.wq, id) < |s.wq| || FirstOf(s.cq, id) < |s.cq|
    ensures var (t, c) := Get(s, id, true);
            if c.Some? then Waited(s, id) == (t, c.value)
            else
              (FirstOf(t.wq, id) < |t.wq| || FirstOf(t.cq, id) < |t.cq|) && |t.cq| < |s.cq|
              && Waited(s, id) == Waited(t, id)
  {
    var (t, c) := Get(s, id, true);
    var i := FirstOf(s.wq, id);
    if i == |s.wq| && c.Some? {
      assert FirstOf(s.cq, id) == 0;
      assert s.wq + s.cq[..0] == s.wq;
    } else if i == |s.wq| {
      NotYet(s.wq, s.cq[0], id);
      NextPolled(s.wq, s.cq, id);
    }
  }

  lemma NextPolled(wq: seq<Wc>, cq: seq<Wc>, id: nat)
    requires cq != [] && cq[0].id != id
    ensures FirstOf(cq, id) == FirstOf(cq[1..], id) + 1
    ensures var j := FirstOf(cq[1..], id); (wq + [cq[0]]) + cq[1..][..j] == wq + cq[..j + 1]
  {
    var j := FirstOf(cq[1..], id);
    assert cq[..j + 1] == [cq[0]] + cq[1..][..j];
  }

  lemma NotYet(s: seq<Wc>, c: Wc, id: nat)
    requires FirstOf(s, id) == |s| && c.id != id
    ensures FirstOf(s + [c], id) == |s + [c]|
  {
    assert forall j :: 0 <= j < |s| ==> (s + [c])[j] == s[j] && s[j].id != id;
  }

  // ---------------------------------------------------------------- any sequence of calls

  /** What happens on one side: the device delivers a completion, or a caller asks for one. */
  datatype Event = Deliver(wc: Wc) | Ask(id: nat, polls: bool)

  datatype Trace = Trace(side: Side, delivered: seq<Wc>, returned: seq<Wc>, mine: bool)

  function Happens(t: Trace, e: Event): Trace {
    match e
    case Deliver(c) => t.(side := Side(t.side.wq, t.side.cq + [c]), delivered := t.delivered + [c])
    case Ask(id, polls) =>
      var (s, c) := Get(t.side, id, polls);
      if c.Some? then Trace(s, t.delivered, t.returned + [c.value], t.mine && c.value.id == id)
      else t.(side := s)
  }

  function After(t: Trace, es: seq<Event>): Trace
    decreases |es|
  {
    if es == [] then t else After(Happens(t, es[0]), es[1..])
  }

  const NOTHING := Trace(Side([], []), [], [], true)

  predicate PerId(t: Trace, id: nat) {
    Of(t.returned, id) + Of(t.side.wq, id) + Of(t.side.cq, id) == Of(t.delivered, id)
  }

  /** Moving the middle to the front when nothing stands before it, or taking it out. */
  lemma MiddleFirst(a: seq<Wc>, x: seq<Wc>, b: seq<Wc>)
    requires a == [] || x == []
    ensures a + x + b == x + (a + b)
  {
    if a == [] {
      assert [] + x + b == x + ([] + b);
    } else {
      assert a + [] + b == [] + (a + b);
    }
  }

  lemma FoundPerId(wq: seq<Wc>, i: nat, k: nat)
    requires i < |wq| && forall j :: 0 <= j < i ==> wq[j].id != wq[i].id
    ensures Of(wq, k) == (if wq[i].id == k then [wq[i]] else []) + Of(wq[..i] + wq[i + 1..], k)
  {
    hide Of;
    OfSplit(wq, i, k);
    OfJoin(wq[..i], wq[i + 1..], k);
    if wq[i].id == k {
      OfNone(wq[..i], k);
    }
    MiddleFirst(Of(wq[..i], k), if wq[i].id == k then [wq[i]] else [], Of(wq[i + 1..], k));
  }

  lemma PolledPerId(wq: seq<Wc>, cq: seq<Wc>, k: nat)
    requires cq != []
    ensures Of(cq, k) == Of([cq[0]], k) + Of(cq[1..], k)
    ensures Of(wq + [cq[0]], k) == Of(wq, k) + Of([cq[0]], k)
  {
    hide Of;
    assert cq == [cq[0]] + cq[1..];
    OfJoin([cq[0]], cq[1..], k);
    OfJoin(wq, [cq[0]], k);
  }

  lemma GetPerId(s: Side, id: nat, polls: bool, k: nat)
    ensures var (t, c) := Get(s, id, polls);
            Of(s.wq, k) + Of(s.cq, k)
            == (if c.Some? && c.value.id == k then [c.value] else []) + Of(t.wq, k) + Of(t.cq, k)
  {
    hide Of, FirstOf;
    var i := FirstOf(s.wq, id);
    if i < |s.wq| {
      FoundPerId(s.wq, i, k);
    } else if polls && s.cq != [] {
      PolledPerId(s.wq, s.cq, k);
      OfOne(s.cq[0], k);
      if s.cq[0].id == id && k == id {
        OfNone(s.wq, k);
      }
    }
  }

  lemma HappensPerId(t: Trace, e: Event, k: nat)
    requires PerId(t, k)
    ensures PerId(Happens(t, e), k)
  {
    hide Get, Of;
    match e
    case Deliver(c) =>
      OfJoin(t.side.cq, [c], k);
      OfJoin(t.delivered, [c], k);
    case Ask(id, polls) =>
      GetPerId(t.side, id, polls, k);
      var (s, c) := Get(t.side, id, polls);
      if c.Some? {
        OfJoin(t.returned, [c.value], k);
        OfOne(c.value, k);
        assert Of(t.returned + [c.value], k) + Of(s.wq, k) + Of(s.cq, k)
            == Of(t.returned, k) + (Of([c.value], k) + Of(s.wq, k) + Of(s.cq, k));
      }
      assert Of(t.returned, k) + Of(t.side.wq, k) + Of(t.side.cq, k)
          == Of(t.returned, k) + (Of(t.side.wq, k) + Of(t.side.cq, k));
  }

  /** Each id has a queue of its own, whatever the other callers ask for: what was returned under an id, then the
      stash, then the completion queue, are together its completions in the order the device delivered them. */
  lemma {:induction false} StashIsOneQueuePerId(es: seq<Event>, k: nat)
    ensures PerId(After(NOTHING, es), k)
  {
    AfterPerId(NOTHING, es, k);
  }

  lemma {:induction false} AfterPerId(t: Trace, es: seq<Event>, k: nat)
    requires PerId(t, k)
    ensures PerId(After(t, es), k)
    decreases |es|
  {
    hide PerId, Happens;
    if es != [] {
      HappensPerId(t, es[0], k);
      AfterPerId(Happens(t, es[0]), es[1..], k);
    }
  }

  /** No call ever returns another request's completion. */
  lemma {:induction false} OnlyOwnId(t: Trace, es: seq<Event>)
    ensures After(t, es).mine == t.mine
    decreases |es|
  {
    if es != [] {
      OnlyOwnId(Happens(t, es[0]), es[1..]);
    }
  }

  /** A call succeeds exactly when its completion is stashed or is the next one polled; it asks the device only when
      nothing is stashed for it, and then for one completion, which is stashed when it is another's. */
  lemma GetSucceeds(s: Side, id: nat, polls: bool)
    ensures Get(s, id, polls).1.Some? <==> Of(s.wq, id) != [] || (polls && s.cq != [] && s.cq[0].id == id)
    ensures var (t, c) := Get(s, id, polls);
            if Of(s.wq, id) != [] then t.cq == s.cq && |t.wq| == |s.wq| - 1
            else if polls && s.cq != [] then
              t.cq == s.cq[1..] && t.wq == if s.cq[0].id == id then s.wq else s.wq + [s.cq[0]]
            else t == s
  {
    var i := FirstOf(s.wq, id);
    if i < |s.wq| {
      OfSplit(s.wq, i, id);
    } else {
      OfNone(s.wq, id);
    }
  }

  // ---------------------------------------------------------------- the rotating queue

  /** Alone: the queue is turned up to the first completion with the id, which takes as many pops as its position plus
      one, and that completion is taken out. */
  method InetWaitComp(q: Queue<Wc>, id: nat) returns (comp: Wc, pops: nat)
    requires FirstOf(q.items, id) < |q.items|
    modifies q
    ensures var s := old(q.items);
            var i := FirstOf(s, id);
            comp == s[i] && pops == i + 1 && q.items == s[i + 1..] + s[..i]
  {
    ghost var s := q.items;
    ghost var i := FirstOf(s, id);
    pops := 0;
    while true
      invariant pops <= i && q.items == s[pops..] + s[..pops]
      decreases i - pops
    {
      ghost var rest := s[pops + 1..] + s[..pops];
      assert q.items == [s[pops]] + rest;
      var rc, c := q.PopHead();
      assert ([c.value] + q.items)[1..] == q.items && ([s[pops]] + rest)[1..] == rest;
      if rc == 0 {
        pops := pops + 1;
        if c.value.id == id {
          comp := c.value;
          break;
        } else {
          q.PushTail(c.value);
          assert s[..pops] == s[..pops - 1] + [c.value];
        }
      }
    }
  }

  /** A waiter between two critical sections: it may hold a completion it has popped, or have got its own. */
  datatype Waiter = Waiter(id: nat, held: Option<Wc>, got: Option<Wc>)

  datatype Ring = Ring(queue: seq<Wc>, waiters: seq<Waiter>, delivered: multiset<Wc>)

  /** Waiter `w` pops the head (an empty queue gives it nothing, and it tries again), looks at what it popped, or a
      request completes. */
  datatype Turn = Pop(w: nat) | Look(w: nat) | Complete(wc: Wc)

  predicate TurnEnabled(r: Ring, t: Turn) {
    match t
    case Pop(w) => w < |r.waiters| && r.waiters[w].held == None && r.waiters[w].got == None
    case Look(w) => w < |r.waiters| && r.waiters[w].held.Some?
    case Complete(_) => true
  }

  function Take(r: Ring, t: Turn): Ring
    requires TurnEnabled(r, t)
  {
    match t
    case Pop(w) =>
      if r.queue == [] then r
      else r.(queue := r.queue[1..], waiters := r.waiters[w := r.waiters[w].(held := Some(r.queue[0]))])
    case Look(w) =>
      var x := r.waiters[w];
      if x.held.value.id == x.id then r.(waiters := r.waiters[w := x.(held := None, got := x.held)])
      else r.(queue := r.queue + [x.held.value], waiters := r.waiters[w := x.(held := None)])
    case Complete(c) => r.(queue := r.queue + [c], delivered := r.delivered + multiset{c})
  }

  /** How often a completion is in the waiters' hands. */
  function Hands(ws: seq<Waiter>, c: Wc): nat {
    if ws == [] then 0
    else Hands(ws[..|ws| - 1], c) + One(ws[|ws| - 1].held == Some(c)) + One(ws[|ws| - 1].got == Some(c))
  }

  /** Completion `c` is in the queue and in hands as often as it was delivered. */
  predicate Conserved(r: Ring, c: Wc) { multiset(r.queue)[c] + Hands(r.waiters, c) == r.delivered[c] }

  /** Nobody has another's completion for good. */
  predicate OwnOnly(r: Ring) {
    forall w :: 0 <= w < |r.waiters| && r.waiters[w].got.Some? ==>
      r.waiters[w].held == None && r.waiters[w].got.value.id == r.waiters[w].id
  }

  lemma {:induction false} HandsSet(ws: seq<Waiter>, w: nat, x: Waiter, c: Wc)
    requires w < |ws|
    ensures Hands(ws[w := x], c) + One(ws[w].held == Some(c)) + One(ws[w].got == Some(c))
            == Hands(ws, c) + One(x.held == Some(c)) + One(x.got == Some(c))
  {
    var n := |ws| - 1;
    if w < n {
      assert ws[w := x][..n] == ws[..n][w := x];
      HandsSet(ws[..n], w, x, c);
    } else {
      assert ws[w := x][..n] == ws[..n];
    }
  }

  lemma BagHead(q: seq<Wc>, c: Wc)
    requires q != []
    ensures multiset(q)[c] == multiset(q[1..])[c] + One(q[0] == c)
  {
    assert q == [q[0]] + q[1..];
  }

  lemma BagLast(q: seq<Wc>, d: Wc, c: Wc)
    ensures multiset(q + [d])[c] == multiset(q)[c] + One(d == c)
  {
  }

  lemma TakeOwnOnly(r: Ring, t: Turn)
    requires OwnOnly(r) && TurnEnabled(r, t)
    ensures OwnOnly(Take(r, t))
  {
  }

  lemma TakeConserves(r: Ring, t: Turn, c: Wc)
    requires OwnOnly(r) && Conserved(r, c) && TurnEnabled(r, t)
    ensures Conserved(Take(r, t), c)
  {
    hide Hands;
    match t
    case Pop(w) =>
      if r.queue != [] {
        HandsSet(r.waiters, w, Take(r, t).waiters[w], c);
        BagHead(r.queue, c);
      }
    case Look(w) =>
      HandsSet(r.waiters, w, Take(r, t).waiters[w], c);
      BagLast(r.queue, r.waiters[w].held.value, c);
    case Complete(d) => BagLast(r.queue, d, c);
  }

  lemma TakeKeeps(r: Ring, t: Turn, c: Wc)
    requires OwnOnly(r) && Conserved(r, c) && TurnEnabled(r, t)
    ensures OwnOnly(Take(r, t)) && Conserved(Take(r, t), c)
  {
    hide Hands, Take, OwnOnly, Conserved, TurnEnabled;
    TakeOwnOnly(r, t);
    TakeConserves(r, t, c);
  }

  predicate CanTurn(r: Ring, ts: seq<Turn>)
    decreases |ts|
  {
    ts == [] || (TurnEnabled(r, ts[0]) && CanTurn(Take(r, ts[0]), ts[1..]))
  }

  function Turned(r: Ring, ts: seq<Turn>): Ring
    requires CanTurn(r, ts)
    decreases |ts|
  {
    if ts == [] then r else Turned(Take(r, ts[0]), ts[1..])
  }

  /** In every run of any number of waiters no completion is lost, doubled or taken by the wrong waiter. */
  lemma {:induction false} RingConserves(r: Ring, ts: seq<Turn>, c: Wc)
    requires OwnOnly(r) && Conserved(r, c) && CanTurn(r, ts)
    ensures OwnOnly(Turned(r, ts)) && Conserved(Turned(r, ts), c)
    decreases |ts|
  {
    hide OwnOnly, Conserved, Take, TurnEnabled;
    if ts != [] {
      TakeKeeps(r, ts[0], c);
      RingConserves(Take(r, ts[0]), ts[1..], c);
    }
  }

  // ---------------------------------------------------------------- when waiting must end

  /** The waiter still has to find its completion: it has not got it and does not hold it. */
  predicate Seeks(x: Waiter) { x.got == None && (x.held.Some? ==> x.held.value.id != x.id) }

  function Seekers(ws: seq<Waiter>): nat {
    if ws == [] then 0 else Seekers(ws[..|ws| - 1]) + One(Seeks(ws[|ws| - 1]))
  }

  function Holders(ws: seq<Waiter>): nat {
    if ws == [] then 0 else Holders(ws[..|ws| - 1]) + One(ws[|ws| - 1].held.Some?)
  }

  /** All that still seek seek one id, and the queue has a completion of that id for each of them. */
  predicate Supplied(r: Ring, id: nat) {
    Seekers(r.waiters) <= |Of(r.queue, id)|
    && forall w :: 0 <= w < |r.waiters| && Seeks(r.waiters[w]) ==> r.waiters[w].id == id
  }

  ghost predicate Calm(r: Ring) { exists id :: Supplied(r, id) }

  /** Nothing new completes. */
  predicate WaitersOnly(ts: seq<Turn>) { forall i :: 0 <= i < |ts| ==> !ts[i].Complete? }

  ghost predicate EndsWithin(r: Ring, n: nat) {
    forall ts :: CanTurn(r, ts) && WaitersOnly(ts) ==> |ts| <= n
  }

  /** However the waiters take turns, they run out of turns. */
  ghost predicate MustEnd(r: Ring) { exists n: nat :: EndsWithin(r, n) }

  lemma {:induction false} CountsSet(ws: seq<Waiter>, w: nat, x: Waiter)
    requires w < |ws|
    ensures Seekers(ws[w := x]) + One(Seeks(ws[w])) == Seekers(ws) + One(Seeks(x))
    ensures Holders(ws[w := x]) + One(ws[w].held.Some?) == Holders(ws) + One(x.held.Some?)
    ensures Seeks(ws[w]) ==> Seekers(ws) > 0
  {
    hide Seeks;
    var n := |ws| - 1;
    if w < n {
      assert ws[w := x][..n] == ws[..n][w := x];
      CountsSet(ws[..n], w, x);
    } else {
      assert ws[w := x][..n] == ws[..n];
    }
  }

  lemma {:induction false} SomeSeeker(ws: seq<Waiter>) returns (w: nat)
    requires Seekers(ws) > 0
    ensures w < |ws| && Seeks(ws[w])
  {
    var n := |ws| - 1;
    if Seeks(ws[n]) {
      w := n;
    } else {
      w := SomeSeeker(ws[..n]);
    }
  }

  lemma OfHead(q: seq<Wc>, id: nat)
    requires q != []
    ensures |Of(q, id)| == |Of(q[1..], id)| + One(q[0].id == id)
    ensures FirstOf(q, id) == if q[0].id == id then 0 else 1 + FirstOf(q[1..], id)
  {
    OfSplit(q, 0, id);
    assert Of(q[..0], id) == [];
  }

  lemma OfLast(q: seq<Wc>, c: Wc, id: nat)
    ensures |Of(q + [c], id)| == |Of(q, id)| + One(c.id == id)
    ensures Of(q, id) != [] ==> FirstOf(q + [c], id) == FirstOf(q, id) < |q|
  {
    OfJoin(q, [c], id);
    OfOne(c, id);
    if FirstOf(q, id) == |q| {
      OfNone(q, id);
    } else {
      FirstStays(q, c, id);
    }
  }

  lemma {:induction false} FirstStays(q: seq<Wc>, c: Wc, id: nat)
    requires FirstOf(q, id) < |q|
    ensures FirstOf(q + [c], id) == FirstOf(q, id)
  {
    if q[0].id != id {
      assert (q + [c])[1..] == q[1..] + [c];
      FirstStays(q[1..], c, id);
    }
  }

  /** A waiter that has got its completion holds none. */
  predicate OneHand(r: Ring) {
    forall w :: 0 <= w < |r.waiters| && r.waiters[w].got.Some? ==> r.waiters[w].held == None
  }

  /** What is left to do, for a queue and hands that together never have more than `size` completions. */
  function Left(r: Ring, id: nat, size: nat): nat {
    (2 * size + 2) * Seekers(r.waiters) + 2 * FirstOf(r.queue, id) + Holders(r.waiters)
  }

  predicate Small(r: Ring, size: nat) { |r.queue| + Holders(r.waiters) <= size }

  lemma PopLasts(r: Ring, w: nat, id: nat, size: nat)
    requires Supplied(r, id) && Small(r, size) && TurnEnabled(r, Pop(w))
    ensures var t := Take(r, Pop(w));
            Supplied(t, id) && Small(t, size) && Left(t, id, size) < Left(r, id, size)
  {
    hide Of, FirstOf, Seekers, Holders;
    var r1 := Take(r, Pop(w));
    CountsSet(r.waiters, w, r1.waiters[w]);
    NoneOf(r, id);
    OfHead(r.queue, id);
    if r.queue[0].id == id {
      Fewer(2 * size + 2, Seekers(r.waiters));
    }
  }

  lemma LookLasts(r: Ring, w: nat, id: nat, size: nat)
    requires Supplied(r, id) && Small(r, size) && TurnEnabled(r, Look(w)) && r.waiters[w].got == None
    ensures var t := Take(r, Look(w));
            Supplied(t, id) && Small(t, size) && Left(t, id, size) < Left(r, id, size)
  {
    hide Of, FirstOf, Seekers, Holders;
    var x, r1 := r.waiters[w], Take(r, Look(w));
    CountsSet(r.waiters, w, r1.waiters[w]);
    if x.held.value.id != x.id {
      NoneOf(r, id);
      OfLast(r.queue, x.held.value, id);
    }
  }

  lemma NoneOf(r: Ring, id: nat)
    requires Supplied(r, id) && Seekers(r.waiters) > 0
    ensures r.queue != [] && Of(r.queue, id) != []
  {
  }

  lemma Fewer(a: nat, n: nat)
    requires n > 0
    ensures a * (n - 1) == a * n - a
  {
  }

  lemma {:induction false} SuppliedEnds(r: Ring, ts: seq<Turn>, id: nat, size: nat)
    requires Supplied(r, id) && Small(r, size) && OneHand(r) && CanTurn(r, ts) && WaitersOnly(ts)
    ensures |ts| <= Left(r, id, size)
    decreases |ts|
  {
    hide Supplied, Small, Left;
    if ts != [] {
      if ts[0].Pop? { PopLasts(r, ts[0].w, id, size); } else { LookLasts(r, ts[0].w, id, size); }
      assert forall i :: 0 <= i < |ts[1..]| ==> ts[1..][i] == ts[i + 1];
      SuppliedEnds(Take(r, ts[0]), ts[1..], id, size);
    }
  }

  /** Without supply some waiter has a turn that leaves it so. */
  lemma NeverSupplied(r: Ring) returns (t: Turn)
    requires !Calm(r)
    ensures TurnEnabled(r, t) && !t.Complete? && !Calm(Take(r, t))
  {
    hide Of, Seekers, Supplied, Calm;
    assert Seekers(r.waiters) > 0 by { NobodySeeks(r); }
    var u := SomeSeeker(r.waiters);
    if v: nat :| v < |r.waiters| && Seeks(r.waiters[v]) && r.waiters[v].id != r.waiters[u].id {
      t := TwoIds(r, u, v);
    } else {
      t := TooFew(r, u);
    }
  }

  lemma NobodySeeks(r: Ring)
    requires !Calm(r)
    ensures Seekers(r.waiters) > 0
  {
    if Seekers(r.waiters) == 0 {
      forall w | 0 <= w < |r.waiters| ensures !Seeks(r.waiters[w]) {
        CountsSet(r.waiters, w, r.waiters[w]);
      }
      assert Supplied(r, 0);
    }
  }

  lemma TwoSeek(r: Ring, u: nat, v: nat)
    requires u < |r.waiters| && v < |r.waiters| && Seeks(r.waiters[u]) && Seeks(r.waiters[v])
    requires r.waiters[u].id != r.waiters[v].id
    ensures !Calm(r)
  {
  }

  lemma TwoIds(r: Ring, u: nat, v: nat) returns (t: Turn)
    requires u < |r.waiters| && v < |r.waiters| && Seeks(r.waiters[u]) && Seeks(r.waiters[v])
    requires r.waiters[u].id != r.waiters[v].id
    ensures TurnEnabled(r, t) && !t.Complete? && !Calm(Take(r, t))
  {
    hide Calm;
    if r.waiters[u].held.Some? {
      t := Look(u);
    } else if r.waiters[v].held.Some? {
      t := Look(v);
    } else if r.queue != [] && r.queue[0].id == r.waiters[u].id {
      t := Pop(v);
    } else {
      t := Pop(u);
    }
    TwoSeek(Take(r, t), u, v);
  }

  predicate Short(r: Ring, id: nat) { Seekers(r.waiters) > |Of(r.queue, id)| }

  /** More seekers than completions, one of them seeking this id. */
  lemma ShortIsNotCalm(r: Ring, u: nat)
    requires u < |r.waiters| && Seeks(r.waiters[u]) && Short(r, r.waiters[u].id)
    ensures !Calm(r)
  {
  }

  lemma TooFew(r: Ring, u: nat) returns (t: Turn)
    requires u < |r.waiters| && Seeks(r.waiters[u]) && !Calm(r)
    requires forall v :: 0 <= v < |r.waiters| && Seeks(r.waiters[v]) ==> r.waiters[v].id == r.waiters[u].id
    ensures TurnEnabled(r, t) && !t.Complete? && !Calm(Take(r, t))
  {
    hide Of, Seekers;
    var x, id := r.waiters[u], r.waiters[u].id;
    assert !Supplied(r, id);
    if x.held.Some? {
      t := Look(u);
      OfLast(r.queue, x.held.value, id);
    } else {
      t := Pop(u);
      if r.queue != [] {
        OfHead(r.queue, id);
      }
    }
    var r1 := Take(r, t);
    CountsSet(r.waiters, u, r1.waiters[u]);
    var w := SomeSeeker(r1.waiters);
    assert w != u ==> r1.waiters[w] == r.waiters[w];
    ShortIsNotCalm(r1, w);
  }

  lemma {:induction false} TurnsOn(r: Ring, n: nat) returns (ts: seq<Turn>)
    requires !Calm(r)
    ensures |ts| == n && CanTurn(r, ts) && WaitersOnly(ts)
    decreases n
  {
    hide Calm, TurnEnabled, Take;
    if n == 0 {
      ts := [];
    } else {
      var t := NeverSupplied(r);
      var rest := TurnsOn(Take(r, t), n - 1);
      ts := [t] + rest;
      assert ts[1..] == rest;
    }
  }

  /** Waiting must end exactly when all waiters that still seek seek one id and there is a completion for each of them:
      with ids of their own, when at most one still seeks and its completion has arrived. */
  lemma MustEndExactly(r: Ring)
    requires OneHand(r)
    ensures MustEnd(r) <==> Calm(r)
  {
    hide Supplied, Left, CanTurn, WaitersOnly;
    if Calm(r) {
      var id :| Supplied(r, id);
      var size := |r.queue| + Holders(r.waiters);
      forall ts | CanTurn(r, ts) && WaitersOnly(ts) ensures |ts| <= Left(r, id, size) {
        SuppliedEnds(r, ts, id, size);
      }
      assert EndsWithin(r, Left(r, id, size));
    } else {
      forall n: nat ensures !EndsWithin(r, n) {
        var ts := TurnsOn(r, n + 1);
      }
    }
  }

  // ---------------------------------------------------------------- in step for ever

  lemma OneTurn(r: Ring, t: Turn, ts: seq<Turn>)
    requires TurnEnabled(r, t) && CanTurn(Take(r, t), ts)
    ensures CanTurn(r, [t] + ts) && Turned(r, [t] + ts) == Turned(Take(r, t), ts)
  {
    assert ([t] + ts)[1..] == ts;
  }

  lemma NoTurn(r: Ring)
    ensures CanTurn(r, []) && Turned(r, []) == r
  {
  }

  predicate IdleAt(r: Ring, w: nat) { w < |r.waiters| && r.waiters[w].held == None && r.waiters[w].got == None }

  /** The waiter whose id is not at the head turns the queue by one. */
  lemma TurnOne(r: Ring, w: nat) returns (r1: Ring)
    requires IdleAt(r, w) && r.queue != [] && r.queue[0].id != r.waiters[w].id
    ensures TurnEnabled(r, Pop(w)) && TurnEnabled(Take(r, Pop(w)), Look(w))
    ensures r1 == Take(Take(r, Pop(w)), Look(w)) == r.(queue := r.queue[1..] + [r.queue[0]])
  {
    r1 := Take(Take(r, Pop(w)), Look(w));
    assert r1.waiters == r.waiters;
  }

  lemma {:induction false} TurnSome(r: Ring, u: nat, v: nat, k: nat) returns (ts: seq<Turn>)
    requires IdleAt(r, u) && IdleAt(r, v) && r.waiters[u].id != r.waiters[v].id && k <= |r.queue|
    ensures |ts| == 2 * k && WaitersOnly(ts) && CanTurn(r, ts)
    ensures Turned(r, ts) == r.(queue := r.queue[k..] + r.queue[..k])
    decreases k
  {
    hide CanTurn, Turned, Take, TurnEnabled;
    if k == 0 {
      ts := [];
      NoTurn(r);
      assert r.queue[0..] + r.queue[..0] == r.queue;
    } else {
      var w := if r.queue[0].id == r.waiters[u].id then v else u;
      var r1 := TurnOne(r, w);
      var q := r.queue;
      var rest := TurnSome(r1, u, v, k - 1);
      assert r1.queue[k - 1..] + r1.queue[..k - 1] == q[k..] + q[..k];
      OneTurn(Take(r, Pop(w)), Look(w), rest);
      OneTurn(r, Pop(w), [Look(w)] + rest);
      ts := [Pop(w)] + ([Look(w)] + rest);
    }
  }

  /** Two waiters with different ids, whatever is in the queue, can take turns for ever: after two turns for each
      completion everything is as before, and neither has got its own, even if it was there. */
  lemma InStepForEver(r: Ring, u: nat, v: nat) returns (ts: seq<Turn>)
    requires IdleAt(r, u) && IdleAt(r, v) && r.waiters[u].id != r.waiters[v].id && r.queue != []
    ensures ts != [] && WaitersOnly(ts) && CanTurn(r, ts) && Turned(r, ts) == r
  {
    ts := TurnSome(r, u, v, |r.queue|);
    assert r.queue[|r.queue|..] + r.queue[..|r.queue|] == r.queue;
  }

  /** The smallest case: both completions are there. */
  lemma LockstepTurnsForEver(a: Wc, b: Wc)
    requires a.id != b.id
    ensures var r := Ring([b, a], [Waiter(a.id, None, None), Waiter(b.id, None, None)], multiset{a, b});
            exists ts :: |ts| == 4 && CanTurn(r, ts) && Turned(r, ts) == r
  {
    var r := Ring([b, a], [Waiter(a.id, None, None), Waiter(b.id, None, None)], multiset{a, b});
    var ts := TurnSome(r, 0, 1, 2);
    assert r.queue[2..] + r.queue[..2] == r.queue;
  }
}
