/** How the LM-INET handler takes requests from its queue into its connection table, and
    whether a request can get lost there. */
module InetTable {
  import opened Wire
  import opened InetEndpoint
  import opened InetHandler

  /** The part of a table entry that concerns this side's request. */
  datatype Slot = Slot(req: Option<Request>, phase: Phase, bytes: nat)

  /** `refused` are the descriptors that epoll does not accept: those it watches already, and unusable ones. */
  datatype Desk =
    Desk(queue: seq<Request>, fds: seq<nat>, table: map<nat, Slot>, comps: seq<Request>, refused: set<nat>)

  /** A context is known by its file descriptor. */
  function Fd(r: Request): nat { r.context }

  predicate WellFormed(t: map<nat, Slot>) {
    forall fd :: fd in t ==> (t[fd].req.None? <==> t[fd].phase == Free)
  }

  const FREE_SLOT: Slot := Slot(None, Free, 0)

  /** Epoll refuses one of these descriptors, added one after the other. */
  predicate Refuses(fds: seq<nat>, refused: set<nat>)
    decreases |fds|
  {
    fds != [] && (fds[0] in refused || Refuses(fds[1..], refused + {fds[0]}))
  }

  /** New descriptors enter the table up to the first that epoll refuses, which enters it as well; an entry that is
      already there stays. */
  function Registered(t: map<nat, Slot>, fds: seq<nat>, refused: set<nat>): (r: map<nat, Slot>)
    ensures WellFormed(t) ==> WellFormed(r)
    ensures forall fd :: fd in t ==> fd in r && r[fd] == t[fd]
    ensures forall fd :: fd in r ==> fd in t || (fd in fds && r[fd] == FREE_SLOT)
    ensures !Refuses(fds, refused) ==> forall fd :: fd in fds ==> fd in r
    decreases |fds|
  {
    if fds == [] then t
    else
      var t1 := if fds[0] in t then t else t[fds[0] := FREE_SLOT];
      if fds[0] in refused then t1 else Registered(t1, fds[1..], refused + {fds[0]})
  }

  /** The descriptors that stay queued: those behind the first that is refused. */
  function Waiting(fds: seq<nat>, refused: set<nat>): (r: seq<nat>)
    ensures |r| <= |fds| && r == fds[|fds| - |r|..]
    ensures !Refuses(fds, refused) ==> r == []
    decreases |fds|
  {
    if fds == [] then []
    else if fds[0] in refused then fds[1..] else Waiting(fds[1..], refused + {fds[0]})
  }

  /** What epoll refuses afterwards: also the descriptors it has just begun to watch. */
  function Watched(fds: seq<nat>, refused: set<nat>): (r: set<nat>)
    ensures refused <= r
    decreases |fds|
  {
    if fds == [] || fds[0] in refused then refused else Watched(fds[1..], refused + {fds[0]})
  }

  /** The first descriptor of the queue. */
  lemma RegisterStep(t: map<nat, Slot>, fds: seq<nat>, refused: set<nat>)
    ensures fds == [] ==> Registered(t, fds, refused) == t && Waiting(fds, refused) == []
                          && Watched(fds, refused) == refused && !Refuses(fds, refused)
    ensures fds != [] ==>
              var fd, rest := fds[0], fds[1..];
              var t1 := if fd in t then t else t[fd := FREE_SLOT];
              if fd in refused then
                Registered(t, fds, refused) == t1 && Waiting(fds, refused) == rest
                && Watched(fds, refused) == refused && Refuses(fds, refused)
              else
                Registered(t, fds, refused) == Registered(t1, rest, refused + {fd})
                && Waiting(fds, refused) == Waiting(rest, refused + {fd})
                && Watched(fds, refused) == Watched(rest, refused + {fd})
                && (Refuses(fds, refused) <==> Refuses(rest, refused + {fd}))
  {
  }

  /** One is refused exactly when epoll refuses it from the start or it is queued twice. */
  lemma {:induction false} RefusesExactly(fds: seq<nat>, refused: set<nat>)
    ensures Refuses(fds, refused)
            <==> (exists i :: 0 <= i < |fds| && fds[i] in refused)
                 || (exists i, j :: 0 <= i < j < |fds| && fds[i] == fds[j])
    decreases |fds|
  {
    if fds != [] && fds[0] !in refused {
      var rest, more := fds[1..], refused + {fds[0]};
      RefusesExactly(rest, more);
      if i :| 0 <= i < |fds| && fds[i] in refused {
        assert rest[i - 1] in more;
      } else if i, j :| 0 <= i < j < |fds| && fds[i] == fds[j] {
        assert if i == 0 then rest[j - 1] in more else rest[i - 1] == rest[j - 1];
      }
    }
  }

  /** The oldest queued request is for a connection that still works on another one. */
  predicate Busy(d: Desk) {
    d.queue != [] && Fd(d.queue[0]) in d.table && d.table[Fd(d.queue[0])].phase != Free
  }

  /** One round of the retrieval loop, and whether the loop goes on. */
  function FetchOne(d: Desk): (Desk, bool)
    requires d.queue != [] && WellFormed(d.table)
  {
    var r := d.queue[0];
    var d1 := d.(queue := d.queue[1..]);
    if Busy(d) then (d1.(comps := d.comps + [d.table[Fd(r)].req.value]), false)
    else
      var d2 := if Fd(r) in d.table then d1
        else
          d1.(table := Registered(d.table, d.fds, d.refused), fds := Waiting(d.fds, d.refused),
              refused := Watched(d.fds, d.refused));
      if Fd(r) !in d2.table then (d2.(comps := d.comps + [r.(status := FAIL)]), false)
      else (d2.(table := d2.table[Fd(r) := Slot(Some(r), Header, 0)]), true)
  }

  function FetchAll(d: Desk): (r: Desk)
    requires WellFormed(d.table)
    ensures WellFormed(r.table)
    decreases |d.queue|
  {
    if d.queue == [] then d
    else
      var (d', more) := FetchOne(d);
      if more then FetchAll(d') else d'
  }

  // ---------------------------------------------------------------- the handler

  class RequestDesk {
    const reqQueue: Queue<Request>
    const compQueue: Queue<Request>
    const fdQueue: Queue<nat>
    var refused: set<nat>
    var table: map<nat, Slot>

    ghost predicate Valid()
      reads this
    {
      reqQueue != compQueue && WellFormed(table)
    }

    ghost function View(): Desk
      reads this, reqQueue, compQueue, fdQueue
    {
      Desk(reqQueue.items, fdQueue.items, table, compQueue.items, refused)
    }

    constructor (refused: set<nat>)
      ensures Valid() && View() == Desk([], [], map[], [], refused)
      ensures fresh(reqQueue) && fresh(compQueue) && fresh(fdQueue)
    {
      this.refused := refused;
      reqQueue := new Queue();
      compQueue := new Queue();
      fdQueue := new Queue();
      table := map[];
    }

    method SubmitRequest(r: Request)
      requires Valid()
      modifies reqQueue
      ensures Valid() && View() == old(View()).(queue := old(reqQueue.items) + [r])
    {
      reqQueue.PushTail(r);
    }

    method RetrieveFdFromQueue() returns (rc: int)
      requires Valid()
      modifies this`table, this`refused, fdQueue
      ensures Valid()
      ensures View() == old(View()).(table := Registered(old(table), old(fdQueue.items), old(refused)),
                                     fds := Waiting(old(fdQueue.items), old(refused)),
                                     refused := Watched(old(fdQueue.items), old(refused)))
      ensures rc == if Refuses(old(fdQueue.items), old(refused)) then -1 else 0
    {
      hide Registered, Waiting, Watched, Refuses;
      ghost var fds := fdQueue.items;
      while |fdQueue.items| > 0
        invariant Valid()
        invariant reqQueue.items == old(reqQueue.items) && compQueue.items == old(compQueue.items)
        invariant Registered(table, fdQueue.items, refused) == Registered(old(table), fds, old(refused))
        invariant Waiting(fdQueue.items, refused) == Waiting(fds, old(refused))
        invariant Watched(fdQueue.items, refused) == Watched(fds, old(refused))
        invariant Refuses(fdQueue.items, refused) <==> Refuses(fds, old(refused))
        decreases |fdQueue.items|
      {
        ghost var before := fdQueue.items;
        RegisterStep(table, before, refused);
        var popped, fd := fdQueue.PopHead();
        assert before == [fd.value] + fdQueue.items && before[1..] == fdQueue.items;
        if fd.value !in table {
          table := table[fd.value := FREE_SLOT];
        }
        if fd.value in refused {
          return -1;
        }
        refused := refused + {fd.value};
      }
      RegisterStep(table, [], refused);
      return 0;
    }

    method RetrieveReqFromQueue()
      requires Valid()
      modifies this`table, this`refused, reqQueue, compQueue, fdQueue
      ensures Valid() && View() == FetchAll(old(View()))
      ensures exists n :: Answered(old(View()), View(), n)
    {
      hide Registered, Waiting, Watched, Refuses, Answered;
      ghost var n := Answers(View());
      while |reqQueue.items| > 0
        invariant Valid() && FetchAll(View()) == FetchAll(old(View()))
        decreases |reqQueue.items|
      {
        ghost var d := View();
        var rc, req := reqQueue.PopHead();
        var r := req.value;
        if Fd(r) in table {
          if table[Fd(r)].phase != Free {
            compQueue.PushTail(table[Fd(r)].req.value);
            assert View() == FetchOne(d).0;
            return;
          }
        } else {
          var _ := RetrieveFdFromQueue();
          if Fd(r) !in table {
            compQueue.PushTail(r.(status := FAIL));
            assert View() == FetchOne(d).0;
            return;
          }
        }
        table := table[Fd(r) := Slot(Some(r), Header, 0)];
        assert View() == FetchOne(d).0;
      }
    }
  }

  // ---------------------------------------------------------------- conservation

  function Count(rs: seq<Request>, id: nat): nat {
    if rs == [] then 0 else (if rs[0].id == id then 1 else 0) + Count(rs[1..], id)
  }

  lemma {:induction false} CountSnoc(rs: seq<Request>, r: Request, id: nat)
    ensures Count(rs + [r], id) == Count(rs, id) + (if r.id == id then 1 else 0)
  {
    if rs == [] {
      assert [r][1..] == [];
    } else {
      CountSnoc(rs[1..], r, id);
      assert (rs + [r])[1..] == rs[1..] + [r];
    }
  }

  function Holders(t: map<nat, Slot>, id: nat): set<nat> {
    set fd | fd in t && t[fd].req.Some? && t[fd].req.value.id == id
  }

  /** In how many places - queue, connections, completions - a request is. */
  function Places(d: Desk, id: nat): nat {
    Count(d.queue, id) + |Holders(d.table, id)| + Count(d.comps, id)
  }

  lemma RegisterHolds(t: map<nat, Slot>, fds: seq<nat>, refused: set<nat>, id: nat)
    ensures Holders(Registered(t, fds, refused), id) == Holders(t, id)
  {
    hide Refuses;
  }

  /** Placing a request into a free entry. */
  lemma PlaceHolds(t: map<nat, Slot>, r: Request, id: nat)
    requires WellFormed(t) && Fd(r) in t && t[Fd(r)].phase == Free
    ensures |Holders(t[Fd(r) := Slot(Some(r), Header, 0)], id)| == |Holders(t, id)| + (if r.id == id then 1 else 0)
  {
    assert Fd(r) !in Holders(t, id);
    assert Holders(t[Fd(r) := Slot(Some(r), Header, 0)], id) == Holders(t, id) + (if r.id == id then {Fd(r)} else {});
  }

  /** One round moves one request from the queue to one other place, unless its connection is busy. */
  lemma FetchOnePlaces(d: Desk, id: nat)
    requires WellFormed(d.table) && d.queue != []
    ensures !Busy(d) ==> Places(FetchOne(d).0, id) == Places(d, id)
    ensures Busy(d) ==>
              Places(FetchOne(d).0, id) + (if d.queue[0].id == id then 1 else 0)
              == Places(d, id) + (if d.table[Fd(d.queue[0])].req.value.id == id then 1 else 0)
  {
    hide Registered, Waiting, Watched, Holders;
    var r := d.queue[0];
    assert Count(d.queue, id) == (if r.id == id then 1 else 0) + Count(d.queue[1..], id);
    if Busy(d) {
      CountSnoc(d.comps, d.table[Fd(r)].req.value, id);
    } else {
      var t := if Fd(r) in d.table then d.table else Registered(d.table, d.fds, d.refused);
      RegisterHolds(d.table, d.fds, d.refused, id);
      if FetchOne(d).1 {
        PlaceHolds(t, r, id);
      } else {
        CountSnoc(d.comps, r.(status := FAIL), id);
      }
    }
  }

  /** Retrieval conserves requests if and only if it meets no busy connection: there the waiting
      request vanishes and the running one is reported twice. */
  lemma ConservedIffNotBusy(d: Desk)
    requires WellFormed(d.table) && d.queue != []
    requires forall id :: Places(d, id) <= 1
    ensures (forall id :: Places(FetchOne(d).0, id) == Places(d, id)) <==> !Busy(d)
  {
    forall id ensures !Busy(d) ==> Places(FetchOne(d).0, id) == Places(d, id) {
      FetchOnePlaces(d, id);
    }
    if Busy(d) {
      var r, l := d.queue[0], d.table[Fd(d.queue[0])].req.value;
      assert Fd(r) in Holders(d.table, l.id);
      HolderCounts(d, l.id);
      assert r.id != l.id;
      FetchOnePlaces(d, r.id);
    }
  }

  lemma HolderCounts(d: Desk, id: nat)
    requires Holders(d.table, id) != {} && Places(d, id) <= 1
    ensures Count(d.queue, id) == 0
  {
  }

  /** At most one outstanding request per connection, queued ones included. */
  predicate OneEach(d: Desk) {
    && (forall i, j :: 0 <= i < j < |d.queue| ==> Fd(d.queue[i]) != Fd(d.queue[j]))
    && (forall i :: 0 <= i < |d.queue| && Fd(d.queue[i]) in d.table ==> d.table[Fd(d.queue[i])].phase == Free)
  }

  /** Under that rule a whole retrieval conserves every request. */
  lemma {:induction false} FetchAllConserves(d: Desk, id: nat)
    requires WellFormed(d.table) && OneEach(d)
    ensures Places(FetchAll(d), id) == Places(d, id)
    decreases |d.queue|
  {
    hide Places, Registered, Waiting, Watched, Refuses;
    if d.queue != [] {
      var (d', more) := FetchOne(d);
      FetchOnePlaces(d, id);
      if more {
        assert forall i :: 0 <= i < |d'.queue| ==> d'.queue[i] == d.queue[i + 1];
        FetchAllConserves(d', id);
      }
    }
  }

  /** Working through the queue, the loop comes to a request for a connection that is busy, be it with an older
      request or with one it has just placed. */
  predicate MeetsBusy(d: Desk)
    requires WellFormed(d.table)
    decreases |d.queue|
  {
    d.queue != [] && (Busy(d) || (FetchOne(d).1 && MeetsBusy(FetchOne(d).0)))
  }

  /** A whole retrieval conserves all requests if and only if it meets no busy connection. */
  lemma {:induction false} ConservedExactly(d: Desk)
    requires WellFormed(d.table) && forall id :: Places(d, id) <= 1
    ensures (forall id :: Places(FetchAll(d), id) == Places(d, id)) <==> !MeetsBusy(d)
    decreases |d.queue|
  {
    hide Places, Registered, Waiting, Watched, Holders;
    if d.queue != [] {
      ConservedIffNotBusy(d);
      var (d1, more) := FetchOne(d);
      if more {
        assert forall id :: Places(d1, id) == Places(d, id);
        ConservedExactly(d1);
      }
    }
  }

  /** Every queued request is for a descriptor that has a connection or is queued to get one, and epoll takes them. */
  predicate Known(d: Desk) {
    && (forall i :: 0 <= i < |d.queue| ==> Fd(d.queue[i]) in d.table || Fd(d.queue[i]) in d.fds)
    && !Refuses(d.fds, d.refused)
  }

  /** One round at a known descriptor that is not busy: its request is placed, and the rest is known still. */
  lemma KnownRound(d: Desk)
    requires WellFormed(d.table) && d.queue != [] && Known(d) && !Busy(d)
    ensures var (d', more) := FetchOne(d);
            && more && WellFormed(d'.table) && d'.queue == d.queue[1..] && Known(d') && (OneEach(d') <==> OneEach(d))
  {
    hide Registered, Waiting, Watched, Refuses;
    var d' := FetchOne(d).0;
    NoneRefused();
    assert forall i :: 0 <= i < |d'.queue| ==> d'.queue[i] == d.queue[i + 1];
    NextOneEach(d);
  }

  lemma NoneRefused()
    ensures forall r: set<nat> :: !Refuses([], r)
  {
  }

  lemma NextOneEach(d: Desk)
    requires WellFormed(d.table) && d.queue != [] && !Busy(d) && FetchOne(d).1
    ensures OneEach(FetchOne(d).0) <==> OneEach(d)
  {
    hide Registered, Waiting, Watched, Refuses;
    var r, d' := d.queue[0], FetchOne(d).0;
    if OneEach(d') {
      forall i | 0 < i < |d.queue| ensures Fd(d.queue[i]) != Fd(r) {
        assert d'.queue[i - 1] == d.queue[i];
      }
      forall i, j | 0 <= i < j < |d.queue| ensures Fd(d.queue[i]) != Fd(d.queue[j]) {
        assert i > 0 ==> d'.queue[i - 1] == d.queue[i] && d'.queue[j - 1] == d.queue[j];
      }
      forall i | 0 <= i < |d.queue| && Fd(d.queue[i]) in d.table
        ensures d.table[Fd(d.queue[i])].phase == Free
      {
        assert i > 0 ==> d'.queue[i - 1] == d.queue[i];
      }
    }
    if OneEach(d) {
      assert forall i :: 0 <= i < |d'.queue| ==> d'.queue[i] == d.queue[i + 1];
    }
  }

  /** With one outstanding request per descriptor the loop meets no busy connection. */
  lemma {:induction false} OneEachMeetsNone(d: Desk)
    requires WellFormed(d.table) && OneEach(d)
    ensures !MeetsBusy(d)
    decreases |d.queue|
  {
    hide OneEach, Registered, Waiting, Watched, Refuses;
    if d.queue != [] {
      assert !Busy(d) by { HeadFree(d); }
      if FetchOne(d).1 {
        NextOneEach(d);
        OneEachMeetsNone(FetchOne(d).0);
      }
    }
  }

  lemma HeadFree(d: Desk)
    requires OneEach(d)
    ensures !Busy(d)
  {
  }

  /** When all descriptors are known, that rule is all there is to it. */
  lemma {:induction false} MeetsBusyExactly(d: Desk)
    requires WellFormed(d.table) && Known(d)
    ensures MeetsBusy(d) <==> !OneEach(d)
    decreases |d.queue|
  {
    hide OneEach, Registered, Waiting, Watched, Refuses, Known;
    if d.queue == [] {
      NoneQueued(d);
    } else if Busy(d) {
      if OneEach(d) { HeadFree(d); }
    } else {
      KnownRound(d);
      MeetsBusyExactly(FetchOne(d).0);
    }
  }

  lemma NoneQueued(d: Desk)
    requires d.queue == []
    ensures OneEach(d)
  {
  }

  /** At known descriptors a retrieval conserves all requests if and only if at most one is outstanding for each. */
  lemma ConservedIffOneEach(d: Desk)
    requires WellFormed(d.table) && Known(d) && forall id :: Places(d, id) <= 1
    ensures (forall id :: Places(FetchAll(d), id) == Places(d, id)) <==> OneEach(d)
  {
    hide OneEach, Known, Places, MeetsBusy;
    ConservedExactly(d);
    MeetsBusyExactly(d);
  }

  /** Two requests queued for one idle connection: the first is placed and reported as if it had ended, the second is
      gone. */
  lemma TwoAtOnce(fd: nat, r0: Request, r1: Request)
    requires Fd(r0) == Fd(r1) == fd && r0.id != r1.id
    ensures var d := Desk([r0, r1], [], map[fd := FREE_SLOT], [], {});
            && WellFormed(d.table) && Known(d) && !OneEach(d)
            && Places(d, r0.id) == 1 && Places(FetchAll(d), r0.id) == 2
            && Places(d, r1.id) == 1 && Places(FetchAll(d), r1.id) == 0
  {
    hide FetchAll, Count, WellFormed;
    TwoRounds(fd, r0, r1);
    CountTwo(r0, r1);
    var t := map[fd := Slot(Some(r0), Header, 0)];
    assert Holders(map[fd := FREE_SLOT], r0.id) == {} && Holders(map[fd := FREE_SLOT], r1.id) == {};
    assert Holders(t, r0.id) == {fd} && Holders(t, r1.id) == {};
  }

  lemma TwoRounds(fd: nat, r0: Request, r1: Request)
    requires Fd(r0) == Fd(r1) == fd
    ensures var d := Desk([r0, r1], [], map[fd := FREE_SLOT], [], {});
            && WellFormed(d.table) && Known(d) && !OneEach(d)
            && FetchAll(d) == Desk([], [], map[fd := Slot(Some(r0), Header, 0)], [r0], {})
  {
    hide Registered, Waiting, Watched;
    var d := Desk([r0, r1], [], map[fd := FREE_SLOT], [], {});
    var d1 := Desk([r1], [], map[fd := Slot(Some(r0), Header, 0)], [], {});
    var d2 := Desk([], [], d1.table, [r0], {});
    assert [r0, r1][1..] == [r1] && [r1][1..] == [];
    assert d.table[fd := Slot(Some(r0), Header, 0)] == d1.table;
    assert FetchOne(d) == (d1, true);
    assert [] + [r0] == [r0];
    assert FetchOne(d1) == (d2, false);
    assert FetchAll(d1) == d2;
    assert !OneEach(d) by { assert Fd(d.queue[0]) == Fd(d.queue[1]); }
  }

  lemma CountTwo(r0: Request, r1: Request)
    requires r0.id != r1.id
    ensures Count([r0, r1], r0.id) == 1 == Count([r0, r1], r1.id)
    ensures Count([], r0.id) == 0 == Count([], r1.id) && Count([r0], r0.id) == 1 && Count([r0], r1.id) == 0
  {
    assert [r0, r1][1..] == [r1] && [r1][1..] == [] && [r0][1..] == [];
    assert Count([r1], r0.id) == 0 && Count([r1], r1.id) == 1;
  }

  // ---------------------------------------------------------------- what is answered

  /** How many of the descriptors epoll accepts before it refuses one. */
  function Accepted(fds: seq<nat>, refused: set<nat>): (k: nat)
    ensures k <= |fds|
    decreases |fds|
  {
    if fds == [] || fds[0] in refused then 0 else 1 + Accepted(fds[1..], refused + {fds[0]})
  }

  lemma {:induction false} AcceptedIs(fds: seq<nat>, refused: set<nat>)
    ensures var k := Accepted(fds, refused);
            && (forall i :: 0 <= i < k ==> fds[i] !in refused && fds[i] !in fds[..i])
            && (k < |fds| ==> fds[k] in refused || fds[k] in fds[..k])
    decreases |fds|
  {
    if fds != [] && fds[0] !in refused {
      var m := Accepted(fds[1..], refused + {fds[0]});
      AcceptedIs(fds[1..], refused + {fds[0]});
      forall i | 0 <= i < m + 1 ensures fds[i] !in refused && fds[i] !in fds[..i] {
        if i > 0 {
          assert fds[i] == fds[1..][i - 1];
          FrontOf(fds, i - 1);
        }
      }
      FrontOf(fds, m);
    }
  }

  lemma {:induction false} RegisteredKeys(t: map<nat, Slot>, fds: seq<nat>, refused: set<nat>)
    ensures var r, k := Registered(t, fds, refused), Accepted(fds, refused);
            && (forall fd :: fd in r <==> fd in t || fd in fds[..k] || (k < |fds| && fd == fds[k]))
            && (forall fd :: fd in r ==> r[fd] == if fd in t then t[fd] else Slot(None, Free, 0))
    decreases |fds|
  {
    hide WellFormed, Refuses;
    if fds != [] && fds[0] !in refused {
      var t1 := if fds[0] in t then t else t[fds[0] := FREE_SLOT];
      RegisteredKeys(t1, fds[1..], refused + {fds[0]});
      FrontOf(fds, Accepted(fds[1..], refused + {fds[0]}));
    }
  }

  lemma {:induction false} WaitingIs(fds: seq<nat>, refused: set<nat>)
    ensures var k := Accepted(fds, refused); Waiting(fds, refused) == if k < |fds| then fds[k + 1..] else []
    decreases |fds|
  {
    hide Refuses, Watched;
    if fds != [] && fds[0] !in refused {
      var m := Accepted(fds[1..], refused + {fds[0]});
      WaitingIs(fds[1..], refused + {fds[0]});
      if m < |fds[1..]| {
        assert fds[1..][m + 1..] == fds[m + 2..];
      }
    }
  }

  lemma {:induction false} WatchedIs(fds: seq<nat>, refused: set<nat>)
    ensures var k := Accepted(fds, refused);
            forall fd :: fd in Watched(fds, refused) <==> fd in refused || fd in fds[..k]
    decreases |fds|
  {
    hide Refuses, Waiting;
    if fds != [] && fds[0] !in refused {
      WatchedIs(fds[1..], refused + {fds[0]});
      FrontOf(fds, Accepted(fds[1..], refused + {fds[0]}));
    }
  }

  /** How registration goes: the first `k` descriptors are accepted, and number `k`, if there is one, is refused because
      epoll does not take it or already watches it. It has an entry all the same; those behind it stay queued. */
  lemma RegisteredExactly(t: map<nat, Slot>, fds: seq<nat>, refused: set<nat>) returns (k: nat)
    ensures k <= |fds|
    ensures forall i :: 0 <= i < k ==> fds[i] !in refused && fds[i] !in fds[..i]
    ensures k < |fds| ==> fds[k] in refused || fds[k] in fds[..k]
    ensures forall fd :: fd in Registered(t, fds, refused)
              <==> fd in t || fd in fds[..k] || (k < |fds| && fd == fds[k])
    ensures forall fd :: fd in Registered(t, fds, refused) ==>
              Registered(t, fds, refused)[fd] == if fd in t then t[fd] else Slot(None, Free, 0)
    ensures Waiting(fds, refused) == if k < |fds| then fds[k + 1..] else []
    ensures forall fd :: fd in Watched(fds, refused) <==> fd in refused || fd in fds[..k]
  {
    hide Registered, Waiting, Watched, Refuses, WellFormed, Accepted;
    k := Accepted(fds, refused);
    AcceptedIs(fds, refused);
    RegisteredKeys(t, fds, refused);
    WaitingIs(fds, refused);
    WatchedIs(fds, refused);
  }

  lemma FrontOf(fds: seq<nat>, m: nat)
    requires m < |fds|
    ensures forall fd :: fd in fds[..m + 1] <==> fd == fds[0] || fd in fds[1..][..m]
  {
    assert fds[..m + 1] == [fds[0]] + fds[1..][..m];
  }

  /** A request for a descriptor that has no connection, and gets none by registering the queued ones: it is reported as
      it was submitted but with status Fail, and the loop ends. */
  lemma UnknownFails(d: Desk) returns (k: nat)
    requires WellFormed(d.table) && d.queue != [] && Fd(d.queue[0]) !in d.table
    ensures k <= |d.fds| && (k < |d.fds| ==> d.fds[k] in d.refused || d.fds[k] in d.fds[..k])
    ensures forall i :: 0 <= i < k ==> d.fds[i] !in d.refused && d.fds[i] !in d.fds[..i]
    ensures Fd(d.queue[0]) !in d.fds[..k] && !(k < |d.fds| && Fd(d.queue[0]) == d.fds[k]) ==>
              var (e, more) := FetchOne(d);
              var r := d.queue[0];
              && !more && e.queue == d.queue[1..]
              && e.comps == d.comps + [Request(r.id, r.context, r.kind, 0x12, r.addr, r.remAddr, r.length)]
    ensures Fd(d.queue[0]) in d.fds[..k] || (k < |d.fds| && Fd(d.queue[0]) == d.fds[k]) ==>
              var (e, more) := FetchOne(d);
              && more && e.queue == d.queue[1..] && e.comps == d.comps
              && Fd(d.queue[0]) in e.table && e.table[Fd(d.queue[0])] == Slot(Some(d.queue[0]), Header, 0)
  {
    hide Registered, Waiting, Watched, WellFormed;
    k := RegisteredExactly(d.table, d.fds, d.refused);
  }

  /** Request `i` of the queue has been placed into its connection, which was free. */
  predicate Placed(d: Desk, e: Desk, i: nat)
    requires i < |d.queue|
  {
    var fd := Fd(d.queue[i]);
    && fd in e.table && e.table[fd] == Slot(Some(d.queue[i]), Header, 0)
    && (fd in d.table ==> d.table[fd].phase == Free) && fd !in Fds(d.queue[..i])
  }

  function Fds(rs: seq<Request>): set<nat> { set r | r in rs :: Fd(r) }

  /** The connections no request was placed into are as they were, or new and free. */
  predicate OthersKept(d: Desk, e: Desk, n: nat)
    requires n <= |d.queue|
  {
    && (forall fd :: fd in d.table ==> fd in e.table)
    && (forall fd :: fd in e.table && fd !in Fds(d.queue[..n]) ==>
          e.table[fd] == if fd in d.table then d.table[fd] else Slot(None, Free, 0))
  }

  /** The answer that ends a retrieval early: the request itself, failed, when nobody knows its descriptor; the request
      that is running, as it is, when the connection is busy. */
  predicate Answer(r: Request, e: Desk, a: Request) {
    if Fd(r) !in e.table then a == Request(r.id, r.context, r.kind, 0x12, r.addr, r.remAddr, r.length)
    else e.table[Fd(r)].phase != Free && e.table[Fd(r)].req == Some(a)
  }

  /** How a retrieval that leaves `e` went: the first `n` requests are placed; if there are more, request number `n`
      gets an answer, which is the only one, and those behind it stay queued. */
  predicate Answered(d: Desk, e: Desk, n: nat) {
    && n <= |d.queue| && (forall i :: 0 <= i < n ==> Placed(d, e, i)) && OthersKept(d, e, n)
    && (n == |d.queue| ==> e.queue == [] && e.comps == d.comps)
    && (n < |d.queue| ==>
          && e.queue == d.queue[n + 1..]
          && |e.comps| == |d.comps| + 1 && e.comps[..|d.comps|] == d.comps
          && Answer(d.queue[n], e, e.comps[|d.comps|]))
  }

  lemma {:induction false} Answers(d: Desk) returns (n: nat)
    requires WellFormed(d.table)
    ensures Answered(d, FetchAll(d), n)
    decreases |d.queue|
  {
    hide Registered, Waiting, Watched, Answered, FetchOne, WellFormed;
    n := 0;
    if d.queue == [] {
      NothingQueued(d);
    } else {
      var (d', more) := FetchOne(d);
      RoundDoes(d);
      if more {
        var m := Answers(d');
        OneMorePlaced(d, d', FetchAll(d'), m);
        n := m + 1;
      } else {
        EndsHere(d, d');
      }
    }
  }

  lemma NothingQueued(d: Desk)
    requires d.queue == []
    ensures Answered(d, d, 0)
  {
    assert Fds(d.queue[..0]) == {};
  }

  lemma EndsHere(d: Desk, e: Desk)
    requires d.queue != [] && e.queue == d.queue[1..] && OthersKept(d, e, 0)
    requires |e.comps| == |d.comps| + 1 && e.comps[..|d.comps|] == d.comps
    requires Answer(d.queue[0], e, e.comps[|d.comps|])
    ensures Answered(d, e, 0)
  {
    hide OthersKept, Answer;
  }

  lemma OneMorePlaced(d: Desk, d': Desk, e: Desk, m: nat)
    requires d.queue != [] && d'.queue == d.queue[1..] && d'.comps == d.comps && Placed(d, d', 0)
    requires forall fd :: fd in d.table ==> fd in d'.table
    requires forall fd :: fd in d'.table && fd != Fd(d.queue[0]) ==>
               d'.table[fd] == if fd in d.table then d.table[fd] else Slot(None, Free, 0)
    requires Answered(d', e, m)
    ensures Answered(d, e, m + 1)
  {
    hide Placed, OthersKept, Answer;
    PlacedFirst(d, d', e, m);
    forall i | 0 <= i < m + 1 ensures Placed(d, e, i) {
      if i > 0 {
        PlacedLater(d, d', e, i - 1);
      }
    }
    if m < |d'.queue| {
      assert d'.queue[m + 1..] == d.queue[m + 2..];
    }
  }

  /** One round, spelled out. */
  lemma RoundDoes(d: Desk)
    requires WellFormed(d.table) && d.queue != []
    ensures var (e, more) := FetchOne(d);
            var r := d.queue[0];
            && WellFormed(e.table) && e.queue == d.queue[1..]
            && (if more then
                  && e.comps == d.comps && Placed(d, e, 0) && (forall fd :: fd in d.table ==> fd in e.table)
                  && (forall fd :: fd in e.table && fd != Fd(r) ==>
                        e.table[fd] == if fd in d.table then d.table[fd] else Slot(None, Free, 0))
                else
                  && |e.comps| == |d.comps| + 1 && e.comps[..|d.comps|] == d.comps
                  && Answer(r, e, e.comps[|d.comps|]) && OthersKept(d, e, 0))
  {
    hide Registered, Waiting, Watched;
    assert Fds(d.queue[..0]) == {};
    var k := RegisteredExactly(d.table, d.fds, d.refused);
  }

  lemma PlacedFirst(d: Desk, d': Desk, e: Desk, n: nat)
    requires d.queue != [] && d'.queue == d.queue[1..] && n <= |d'.queue|
    requires Placed(d, d', 0) && OthersKept(d', e, n) && (forall i :: 0 <= i < n ==> Placed(d', e, i))
    requires forall fd :: fd in d.table ==> fd in d'.table
    requires forall fd :: fd in d'.table && fd != Fd(d.queue[0]) ==>
               d'.table[fd] == if fd in d.table then d.table[fd] else Slot(None, Free, 0)
    ensures Placed(d, e, 0) && OthersKept(d, e, n + 1)
  {
    var fd := Fd(d.queue[0]);
    FdsFront(d.queue, n);
    TakenStaysOut(d', e, n, fd);
    assert Fds(d.queue[..0]) == {};
  }

  /** Nothing is placed into a connection that is taken. */
  lemma TakenStaysOut(d: Desk, e: Desk, n: nat, fd: nat)
    requires n <= |d.queue| && fd in d.table && d.table[fd].phase != Free
    requires forall i :: 0 <= i < n ==> Placed(d, e, i)
    ensures fd !in Fds(d.queue[..n])
  {
    hide Placed;
    forall i | 0 <= i < n ensures Fd(d.queue[i]) != fd { PlacedWasFree(d, e, i); }
  }

  lemma PlacedWasFree(d: Desk, e: Desk, i: nat)
    requires i < |d.queue| && Placed(d, e, i)
    ensures Fd(d.queue[i]) in d.table ==> d.table[Fd(d.queue[i])].phase == Free
  {
  }

  lemma FdsFront(q: seq<Request>, n: nat)
    requires n < |q|
    ensures Fds(q[..n + 1]) == {Fd(q[0])} + Fds(q[1..][..n])
  {
    assert q[..n + 1] == [q[0]] + q[1..][..n];
  }

  lemma PlacedLater(d: Desk, d': Desk, e: Desk, i: nat)
    requires d.queue != [] && d'.queue == d.queue[1..] && i < |d'.queue| && Placed(d, d', 0) && Placed(d', e, i)
    requires forall fd :: fd in d.table ==> fd in d'.table
    requires forall fd :: fd in d'.table && fd != Fd(d.queue[0]) ==>
               d'.table[fd] == if fd in d.table then d.table[fd] else Slot(None, Free, 0)
    ensures Placed(d, e, i + 1)
  {
    FdsFront(d.queue, i);
  }

  // ---------------------------------------------------------------- one descriptor

  /** Each entry holds a request of its own descriptor. */
  predicate OwnSlots(t: map<nat, Slot>) { forall fd :: fd in t && t[fd].req.Some? ==> Fd(t[fd].req.value) == fd }

  function OfFd(rs: seq<Request>, fd: nat): seq<Request> {
    if rs == [] then [] else OfFd(rs[..|rs| - 1], fd) + if Fd(rs[|rs| - 1]) == fd then [rs[|rs| - 1]] else []
  }

  lemma OfFdSnoc(rs: seq<Request>, r: Request, fd: nat)
    ensures OfFd(rs + [r], fd) == OfFd(rs, fd) + if Fd(r) == fd then [r] else []
  {
    assert (rs + [r])[..|rs|] == rs;
  }

  lemma {:induction false} OfFdHead(rs: seq<Request>, fd: nat)
    requires rs != []
    ensures OfFd(rs, fd) == (if Fd(rs[0]) == fd then [rs[0]] else []) + OfFd(rs[1..], fd)
    decreases |rs|
  {
    var n := |rs| - 1;
    if n > 0 {
      OfFdHead(rs[..n], fd);
      assert rs[..n][1..] == rs[1..][..n - 1];
    } else {
      assert rs[..0] == [] && rs[1..] == [];
    }
  }

  /** The desk as one connection sees it: its own requests in the queue, in its entry and among the completions. */
  predicate Sees(d: Desk, fd: nat, e: Endpoint) {
    && fd in d.table && d.table[fd] == Slot(e.lreq, e.lphase, e.lbytes)
    && e.queue == OfFd(d.queue, fd) && e.comps == OfFd(d.comps, fd)
  }

  /** One round is a retrieval at the connection whose request is the oldest, and nothing at any other. */
  lemma FetchIsRetrieve(d: Desk, fd: nat, e: Endpoint)
    requires WellFormed(d.table) && OwnSlots(d.table) && d.queue != [] && Sees(d, fd, e)
    ensures OwnSlots(FetchOne(d).0.table)
    ensures Fd(d.queue[0]) == fd ==>
              e.queue != [] && (e.lphase != Free ==> e.lreq.Some?) && Sees(FetchOne(d).0, fd, Retrieve(e))
    ensures Fd(d.queue[0]) != fd ==> Sees(FetchOne(d).0, fd, e)
  {
    hide OfFd, Registered, Waiting, Watched;
    var r := d.queue[0];
    OfFdHead(d.queue, fd);
    if Busy(d) {
      OfFdSnoc(d.comps, d.table[Fd(r)].req.value, fd);
    } else {
      OfFdSnoc(d.comps, r.(status := FAIL), fd);
    }
  }

  function Retrieves(e: Endpoint, k: nat): Endpoint
    decreases k
  {
    if k == 0 || e.queue == [] || (e.lphase != Free && e.lreq.None?) then e else Retrieves(Retrieve(e), k - 1)
  }

  /** The whole loop is, at each connection, a number of retrievals. */
  lemma {:induction false} FetchAllIsRetrieves(d: Desk, fd: nat, e: Endpoint) returns (k: nat)
    requires WellFormed(d.table) && OwnSlots(d.table) && Sees(d, fd, e)
    ensures Sees(FetchAll(d), fd, Retrieves(e, k)) && k <= |e.queue|
    decreases |d.queue|
  {
    hide OfFd, Registered, Waiting, Watched, Retrieve, FetchOne, Sees;
    k := 0;
    if d.queue != [] {
      var (d', more) := FetchOne(d);
      FetchIsRetrieve(d, fd, e);
      RoundShortens(d);
      if Fd(d.queue[0]) == fd {
        RetrieveShortens(e);
        if more { k := FetchAllIsRetrieves(d', fd, Retrieve(e)); }
        k := k + 1;
      } else if more {
        k := FetchAllIsRetrieves(d', fd, e);
      }
    }
  }

  lemma RoundShortens(d: Desk)
    requires d.queue != [] && WellFormed(d.table)
    ensures WellFormed(FetchOne(d).0.table) && |FetchOne(d).0.queue| < |d.queue|
  {
    hide Registered, Waiting, Watched;
  }

  lemma RetrieveShortens(e: Endpoint)
    requires e.queue != [] && (e.lphase != Free ==> e.lreq.Some?)
    ensures |Retrieve(e).queue| == |e.queue| - 1
  {
  }
}
