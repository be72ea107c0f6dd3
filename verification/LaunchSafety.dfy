/** Every step of the launch protocol keeps the invariant; what it says of every reachable state. */
module LaunchSafety {
  import opened Resources
  import opened Launch

  // ---------------------------------------------------------------- steps inside one group

  predicate SameStanding(x: Group, y: Group) {
    Keeps(x, y) && KeepsLaunches(x, y) && StandingOf(x) == StandingOf(y)
    && (x.phase == Queued <==> y.phase == Queued) && (x.phase == Hosting <==> y.phase == Hosting)
  }

  lemma QueueSame(s: State, g: nat, x: Group)
    requires g < |s.groups| && QueueOk(s) && SameStanding(s.groups[g], x)
    ensures QueueOk(Put(s, g, x))
  {
    hide QueueFit;
    assert Tickets(s.groups[g := x]) == Tickets(s.groups) && Lines(Put(s, g, x)) == Lines(s);
  }

  lemma NodesSame(s: State, g: nat, x: Group)
    requires g < |s.groups| && NodesOk(s) && SameStanding(s.groups[g], x)
    ensures NodesOk(Put(s, g, x))
  {
    hide NodesFit;
    assert Standings(s.groups[g := x]) == Standings(s.groups);
  }

  lemma PutKeeps(s: State, g: nat, x: Group)
    requires Inv(s) && g < |s.groups| && SameStanding(s.groups[g], x) && LocalOk(x) && Linked(s.groups, g, x)
    ensures Inv(Put(s, g, x))
  {
    hide LocalOk, Linked, AllLinked, AllOwned, KeepsLaunches, QueueOk, NodesOk;
    QueueSame(s, g, x);
    OwnedSet(s.groups, g, x, |s.queues|);
    NodesSame(s, g, x);
    LinkedSet(s.groups, g, x);
  }

  lemma ResumeKeeps(s: State, g: nat, p: nat)
    requires Inv(s) && Enabled(s, Resume(g, p))
    ensures Inv(Next(s, Resume(g, p)))
  {
    hide QueueOk, NodesOk, AllOwned, LiveCount, PhaseOk;
    var x := s.groups[g];
    assert Linked(s.groups, g, x) && PeOk(x, p) && PeLinked(s.groups, g, x, p);
    var pe := x.pes[p].(state := Running);
    SetPeLocal(x, p, pe);
    var y := SetPe(x, p, pe);
    SetPeLinked(s.groups, g, x, p, pe);
    assert SameStanding(x, y);
    PutKeeps(s, g, y);
  }

  lemma SetPeLinked(gs: seq<Group>, g: nat, x: Group, p: nat, pe: Pe)
    requires Linked(gs, g, x) && p < |x.pes| && PeLinked(gs, g, SetPe(x, p, pe), p)
    ensures Linked(gs, g, SetPe(x, p, pe))
  {
    var y := SetPe(x, p, pe);
    forall q | 0 <= q < |y.pes| ensures PeLinked(gs, g, y, q) {
      if q != p {
        assert PeLinked(gs, g, x, q);
      }
    }
  }

  lemma ExitInv(s: State, g: nat, p: nat)
    requires Inv(s) && Enabled(s, Exit(g, p))
    ensures Inv(Next(s, Exit(g, p)))
  {
    hide QueueOk, NodesOk, AllOwned, LiveCount, PhaseOk;
    var x := s.groups[g];
    assert Linked(s.groups, g, x) && PeOk(x, p) && PeLinked(s.groups, g, x, p);
    ExitLocal(x, p);
    var y := ExitPe(x, p);
    var pe := x.pes[p].(state := Exited);
    SetPeLinked(s.groups, g, x, p, pe);
    assert Linked(s.groups, g, y) by { SamePes(s.groups, g, SetPe(x, p, pe), y); }
    assert SameStanding(x, y);
    PutKeeps(s, g, y);
  }

  lemma ExitDoes(x: Group, p: nat)
    requires p < |x.pes| && x.pes[p].state != Exited
    ensures var y := ExitPe(x, p);
            && LiveCount(y.pes) == LiveCount(x.pes) - 1 && y.events == x.events + 1
            && |y.pes| == |x.pes| && y.pes[p].state == Exited
  {
    LiveSet(x.pes, p, x.pes[p].(state := Exited));
  }

  /** One PE fewer is live and one more event is queued, in this group and in no other. */
  lemma ExitKeeps(s: State, g: nat, p: nat)
    requires Inv(s) && Enabled(s, Exit(g, p))
    ensures Inv(Next(s, Exit(g, p)))
    ensures var t, x := Next(s, Exit(g, p)), s.groups[g];
            && |t.groups| == |s.groups| && (forall h :: 0 <= h < |s.groups| && h != g ==> t.groups[h] == s.groups[h])
            && LiveCount(t.groups[g].pes) == LiveCount(x.pes) - 1 && t.groups[g].events == x.events + 1
            && |t.groups[g].pes| == |x.pes| && t.groups[g].pes[p].state == Exited
  {
    hide Inv, LiveCount;
    ExitInv(s, g, p);
    ExitDoes(s.groups[g], p);
  }

  lemma SamePes(gs: seq<Group>, g: nat, x: Group, y: Group)
    requires Linked(gs, g, x) && y.pes == x.pes && y.comp == x.comp && y.level == x.level && y.job == x.job
    ensures Linked(gs, g, y)
  {
    forall p | 0 <= p < |y.pes| ensures PeLinked(gs, g, y, p) {
      assert PeLinked(gs, g, x, p);
    }
  }

  lemma SpawnKeeps(s: State, g: nat, ok: bool)
    requires Inv(s) && Enabled(s, Spawn(g, ok))
    ensures Inv(Next(s, Spawn(g, ok)))
  {
    hide QueueOk, NodesOk, AllOwned, LiveCount;
    var x := s.groups[g];
    var y := SpawnOn(x, ok);
    SpawnLocal(x, ok);
    assert Linked(s.groups, g, x);
    forall q | 0 <= q < |y.pes| ensures PeLinked(s.groups, g, y, q) {
      if q < |x.pes| {
        assert PeLinked(s.groups, g, x, q) && y.pes[q] == x.pes[q];
      }
    }
    assert SameStanding(x, y);
    PutKeeps(s, g, y);
  }

  /** The group after a step of its thread at the end of a round. */
  function Rounded(x: Group, a: Action): Group
    requires a.Take? ==> x.phase.Waiting? && x.phase.left > 0 && x.events > 0
  {
    match a
    case Close(_) => EndRound(x)
    case Take(_) => TakeEvent(x)
    case _ => NextRound(x)
  }

  lemma RoundedOk(s: State, a: Action)
    requires GroupsOk(s.groups, |s.queues|) && (a.Close? || a.Take? || a.Again?) && Enabled(s, a)
    ensures LocalOk(Rounded(s.groups[a.gid], a)) && Next(s, a) == Put(s, a.gid, Rounded(s.groups[a.gid], a))
    ensures SameStanding(s.groups[a.gid], Rounded(s.groups[a.gid], a))
  {
    hide LocalOk;
    var x := s.groups[a.gid];
    match a
    case Close(_) => CloseLocal(x);
    case Take(_) => TakeLocal(x);
    case Again(_) => AgainLocal(x);
  }

  lemma RoundKeeps(s: State, a: Action)
    requires Inv(s) && (a.Close? || a.Take? || a.Again?) && Enabled(s, a)
    ensures Inv(Next(s, a))
  {
    hide QueueOk, NodesOk, AllOwned, Linked, GroupsOk, SameStanding, LocalOk, Next;
    RoundedOk(s, a);
    SamePes(s.groups, a.gid, s.groups[a.gid], Rounded(s.groups[a.gid], a));
    PutKeeps(s, a.gid, Rounded(s.groups[a.gid], a));
  }

  // ---------------------------------------------------------------- a launch

  lemma StartLocal(s: State, g: nat, p: nat)
    requires Inv(s) && Enabled(s, Start(g, p))
    ensures GroupsOk(Next(s, Start(g, p)).groups, |s.queues|)
    ensures Next(s, Start(g, p)).groups[|s.groups|].level == s.groups[g].level + 1
  {
    hide QueueOk, NodesOk, AllLinked, AllOwned;
    var x := s.groups[g];
    assert PeOk(x, p);
    SetPeLocal(x, p, LaunchPe(x.pes[p], |s.groups|));
  }

  lemma StartLinked(s: State, g: nat, p: nat)
    requires Inv(s) && Enabled(s, Start(g, p))
    ensures AllLinked(Next(s, Start(g, p)).groups)
  {
    hide QueueOk, NodesOk, AllOwned;
    var x, t := s.groups[g], Next(s, Start(g, p));
    var c := |s.groups|;
    var gs1 := s.groups + [t.groups[c]];
    LinkedAdd(s.groups, t.groups[c]);
    assert LocalOk(x);
    assert Linked(gs1, g, gs1[g]) && PeLinked(gs1, g, x, p);
    var pe := LaunchPe(x.pes[p], c);
    var y := SetPe(x, p, pe);
    assert ChildOf(gs1[c], g, y, p, |x.pes[p].children|);
    assert PeLinked(gs1, g, y, p);
    SetPeLinked(gs1, g, x, p, pe);
    LinkedSet(gs1, g, y);
    assert gs1[g := y] == t.groups;
  }

  lemma NoneUnique()
    ensures Unique([])
  {
  }

  lemma UniqueSnoc(q: seq<nat>, x: nat)
    requires Unique(q) && x !in q
    ensures Unique(q + [x])
  {
  }

  lemma {:induction false} UniqueTwo(a: seq<nat>, b: seq<nat>)
    ensures Unique(a + b) <==> Unique(a) && Unique(b) && forall x :: x in a ==> x !in b
  {
    var q := a + b;
    if Unique(q) {
      forall i, j | 0 <= i < j < |a| ensures a[i] != a[j] { assert q[i] != q[j]; }
      forall i, j | 0 <= i < j < |b| ensures b[i] != b[j] { assert q[|a| + i] != q[|a| + j]; }
      forall i, j | 0 <= i < |a| && 0 <= j < |b| ensures a[i] != b[j] { assert q[i] != q[|a| + j]; }
    } else if Unique(a) && Unique(b) && forall x :: x in a ==> x !in b {
      forall i, j | 0 <= i < j < |q| ensures q[i] != q[j] {
        assert if i < |a| then q[i] in a else q[i] == b[i - |a|];
        assert if j < |a| then q[j] == a[j] else q[j] == b[j - |a|];
      }
    }
  }

  /** Turning or dropping the head of a list of distinct groups. */
  lemma UniqueTurned(h: nat, rest: seq<nat>, more: seq<nat>)
    requires Unique([h] + rest + more)
    ensures Unique(rest + [h] + more) && Unique(rest + more) && h !in rest + more
  {
    hide Unique;
    UniqueTwo([h] + rest, more);
    UniqueTwo([h], rest);
    UniqueTwo(rest, [h]);
    UniqueTwo(rest + [h], more);
    UniqueTwo(rest, more);
    assert h in [h] && h in [h] + rest;
    assert forall x :: x in rest ==> x in [h] + rest;
  }

  lemma SameNodesOk(s: State, t: State)
    requires NodesOk(s) && t.nodes == s.nodes && t.groups == s.groups
    ensures NodesOk(t)
  {
  }

  lemma HeadQueued(s: State, j: nat)
    requires QueueOk(s) && HasHead(s, j)
    ensures s.groups[s.queues[j][0]].phase == Queued && s.groups[s.queues[j][0]].job == j
  {
    hide Unique;
    var g := s.queues[j][0];
    assert OfJob(Lines(s)[j], Tickets(s.groups), j) && Lines(s)[j][0] == g;
    assert Tickets(s.groups)[g] == Ticket(j, true);
  }

  lemma FitPosted(lines: seq<seq<nat>>, ts: seq<Ticket>, j: nat)
    requires QueueFit(lines, ts) && j < |lines|
    ensures QueueFit(lines[j := lines[j] + [|ts|]], ts + [Ticket(j, true)])
  {
    hide Unique;
    assert OfJob(lines[j], ts, j);
    UniqueSnoc(lines[j], |ts|);
    forall i | 0 <= i < |lines| && i != j ensures OfJob(lines[i], ts + [Ticket(j, true)], i) {
      assert OfJob(lines[i], ts, i);
    }
  }

  lemma FitTurned(lines: seq<seq<nat>>, ts: seq<Ticket>, j: nat, h: nat, rest: seq<nat>, more: seq<nat>)
    requires QueueFit(lines, ts) && j < |lines| && lines[j] == [h] + rest + more
    ensures QueueFit(lines[j := rest + [h] + more], ts)
  {
    hide Unique;
    assert OfJob(lines[j], ts, j);
    UniqueTurned(h, rest, more);
    forall x ensures x in rest + [h] + more <==> x in [h] + rest + more {
    }
  }

  lemma FitTaken(lines: seq<seq<nat>>, ts: seq<Ticket>, j: nat, h: nat, rest: seq<nat>, more: seq<nat>)
    requires QueueFit(lines, ts) && j < |lines| && lines[j] == [h] + rest + more && h < |ts|
    ensures QueueFit(lines[j := rest + more], ts[h := Ticket(j, false)])
  {
    hide Unique;
    assert OfJob(lines[j], ts, j);
    UniqueTurned(h, rest, more);
    forall x ensures x in [h] + rest + more <==> x == h || x in rest + more {
    }
    forall i | 0 <= i < |lines| && i != j ensures OfJob(lines[i], ts[h := Ticket(j, false)], i) {
      assert OfJob(lines[i], ts, i) && ts[h] == Ticket(j, true);
    }
  }

  lemma StartQueue(s: State, g: nat, p: nat)
    requires Inv(s) && Enabled(s, Start(g, p))
    ensures QueueOk(Next(s, Start(g, p)))
  {
    hide NodesOk, AllLinked, AllOwned, LocalOk, QueueFit;
    var x, t, c := s.groups[g], Next(s, Start(g, p)), |s.groups|;
    FitPosted(Lines(s), Tickets(s.groups), x.job);
    assert Lined(t, x.job) == Lined(s, x.job) + [c];
    assert Lines(t) == Lines(s)[x.job := Lines(s)[x.job] + [c]];
    assert Tickets(t.groups) == Tickets(s.groups) + [Ticket(x.job, true)];
  }

  lemma FitAdd(nodes: seq<Resource>, st: seq<Standing>, level: int)
    requires NodesFit(nodes, st)
    ensures NodesFit(nodes, st + [Standing(level, [])])
  {
    hide AllConsistent, Unique;
    var t := st + [Standing(level, [])];
    forall i, l | 0 <= i < |nodes| && l in nodes[i].recLevels ensures Somebody(t, l, i) {
      assert Somebody(st, l, i);
      var g :| 0 <= g < |st| && OnNode(st[g], l, i);
      assert OnNode(t[g], l, i);
    }
    NoneUnique();
  }

  lemma StartNodes(s: State, g: nat, p: nat)
    requires Inv(s) && Enabled(s, Start(g, p))
    ensures NodesOk(Next(s, Start(g, p)))
  {
    hide QueueOk, AllOwned, AllLinked, LocalOk, NodesFit;
    var t := Next(s, Start(g, p));
    var c := t.groups[|s.groups|];
    FitAdd(s.nodes, Standings(s.groups), c.level);
    assert Standings(t.groups) == Standings(s.groups) + [Standing(c.level, [])];
  }

  lemma LinedAfterStart(s: State, g: nat, p: nat)
    requires Inv(s) && Enabled(s, Start(g, p))
    ensures var t := Next(s, Start(g, p));
            Lined(t, s.groups[g].job) == Lined(s, s.groups[g].job) + [|s.groups|]
    ensures Next(s, Start(g, p)).groups[g] == SetPe(s.groups[g], p, LaunchPe(s.groups[g].pes[p], |s.groups|))
  {
    hide NodesOk, AllLinked, AllOwned, LocalOk, QueueFit;
  }

  lemma StartOwned(s: State, g: nat, p: nat)
    requires Inv(s) && Enabled(s, Start(g, p))
    ensures AllOwned(Next(s, Start(g, p)).groups, |s.queues|)
  {
    hide QueueOk, NodesOk, AllLinked, LocalOk;
    var x, t := s.groups[g], Next(s, Start(g, p));
    forall h | |s.queues| <= h < |t.groups| ensures Owned(t.groups, h) {
      if h < |s.groups| {
        assert Owned(s.groups, h);
      }
    }
  }

  /** The child is new and waits, one level below its parent and last of its job's line; the launching PE is blocked
      on it. */
  lemma StartKeeps(s: State, g: nat, p: nat)
    requires Inv(s) && Enabled(s, Start(g, p))
    ensures Inv(Next(s, Start(g, p)))
    ensures var t, x, c := Next(s, Start(g, p)), s.groups[g], |s.groups|;
            && |t.groups| == c + 1 && t.groups[c].phase == Queued && t.groups[c].level == x.level + 1
            && t.groups[c].parent == Parent(g, p, |x.pes[p].children|)
            && t.groups[c].comp == Prog(x, p)[|x.pes[p].children|] && Lined(t, x.job) == Lined(s, x.job) + [c]
            && t.groups[g].pes[p].state == Blocked && t.groups[g].pes[p].children == x.pes[p].children + [c]
  {
    LinedAfterStart(s, g, p);
    hide QueueOk, NodesOk, AllLinked, AllOwned, GroupsOk;
    StartLocal(s, g, p);
    StartLinked(s, g, p);
    StartOwned(s, g, p);
    StartQueue(s, g, p);
    StartNodes(s, g, p);
  }

  // ---------------------------------------------------------------- a grant, or the back of the queue

  /** Polling moves an event into the list and changes nothing else. */
  lemma PollKeeps(s: State, j: nat)
    requires Inv(s)
    ensures Inv(Polled(s, j))
    ensures var p := Polled(s, j);
            p.nodes == s.nodes && p.groups == s.groups && forall i :: Lined(p, i) == Lined(s, i)
  {
    hide GroupsOk, AllLinked, AllOwned, NodesFit, QueueFit;
    var p := Polled(s, j);
    forall i: nat ensures Lined(p, i) == Lined(s, i) {
      if i == j && p != s {
        assert (s.queues[j] + [s.posted[j][0]]) + s.posted[j][1..] == s.queues[j] + s.posted[j];
      }
    }
    assert Lines(p) == Lines(s);
  }

  lemma RotateKeeps(s: State, j: nat, created: seq<bool>)
    requires Inv(s) && HasHead(s, j) && |created| == |s.nodes| && HeadGrant(s, j, created) == []
    ensures Inv(Tried(s, j, created))
  {
    hide LocalOk, AllLinked, AllOwned, NodesOk, Picks, QueueFit;
    var t := Tried(s, j, created);
    var h, rest, more := s.queues[j][0], s.queues[j][1..], s.posted[j];
    assert Lined(s, j) == [h] + rest + more && Lined(t, j) == rest + [h] + more;
    FitTurned(Lines(s), Tickets(s.groups), j, h, rest, more);
    assert Lines(t) == Lines(s)[j := rest + [h] + more];
    SameNodesOk(s, t);
  }

  lemma GrantLocal(s: State, j: nat, created: seq<bool>)
    requires Inv(s) && HasHead(s, j) && |created| == |s.nodes| && HeadGrant(s, j, created) != []
    ensures var t := Tried(s, j, created);
            GroupsOk(t.groups, |s.queues|) && AllLinked(t.groups) && AllOwned(t.groups, |s.queues|)
  {
    hide QueueOk, NodesOk, AllOwned, Picks, ChildOf;
    var h := s.queues[j][0];
    var x, grant := s.groups[h], HeadGrant(s, j, created);
    HeadQueued(s, j);
    PicksAtMost(s.nodes, x.level, DEF_RES_CNT, created, |s.nodes|);
    var y := GrantTo(x, grant);
    assert LocalOk(y);
    LinkedSet(s.groups, h, y);
    OwnedSet(s.groups, h, y, |s.queues|);
  }

  lemma GrantQueue(s: State, j: nat, created: seq<bool>)
    requires Inv(s) && HasHead(s, j) && |created| == |s.nodes| && HeadGrant(s, j, created) != []
    ensures QueueOk(Tried(s, j, created))
  {
    hide LocalOk, AllLinked, AllOwned, NodesOk, Picks, QueueFit;
    var t := Tried(s, j, created);
    var h, rest, more := s.queues[j][0], s.queues[j][1..], s.posted[j];
    HeadQueued(s, j);
    assert Lined(s, j) == [h] + rest + more && Lined(t, j) == rest + more;
    FitTaken(Lines(s), Tickets(s.groups), j, h, rest, more);
    assert Lines(t) == Lines(s)[j := rest + more];
    assert Tickets(t.groups) == Tickets(s.groups)[h := Ticket(j, false)];
  }

  /** The nodes after a grant or a release of nodes `g` at `level`. */
  lemma NodesAfter(rs: seq<Resource>, g: seq<nat>, level: int, i: nat, other: int)
    requires AllConsistent(rs) && i < |rs| && forall k :: k in g ==> k < |rs|
    ensures other in Granted(rs, g, level)[i].recLevels <==> other in rs[i].recLevels || (other == level && i in g)
    ensures other in Released(rs, g, level)[i].recLevels <==> other in rs[i].recLevels && !(other == level && i in g)
  {
    hide Enter, Leave;
    LevelsAfter(rs[i], level, other);
  }

  lemma FitGrant(nodes: seq<Resource>, st: seq<Standing>, h: nat, grant: seq<nat>)
    requires NodesFit(nodes, st) && h < |st| && st[h].on == [] && Unique(grant)
    requires forall i :: i in grant ==> i < |nodes| && st[h].level !in nodes[i].recLevels
    ensures NodesFit(Granted(nodes, grant, st[h].level), st[h := Standing(st[h].level, grant)])
  {
    hide Enter, Unique, Consistent, Somebody;
    var level := st[h].level;
    var nodes1, st1 := Granted(nodes, grant, level), st[h := Standing(level, grant)];
    forall i | 0 <= i < |nodes1| ensures Consistent(nodes1[i]) { LeaveConsistent(nodes[i], level); }
    forall i, l | 0 <= i < |nodes1|
      ensures l in nodes1[i].recLevels <==> l in nodes[i].recLevels || (l == level && i in grant)
    {
      NodesAfter(nodes, grant, level, i, l);
    }
    forall i, l | 0 <= i < |nodes1| && l in nodes1[i].recLevels ensures Somebody(st1, l, i) {
      StillThere(nodes, st, h, grant, i, l);
    }
    forall k | 0 <= k < |st1| ensures Marked(nodes1, st1[k]) {
      assert Marked(nodes, st[k]);
    }
    forall k, m | 0 <= k < |st1| && 0 <= m < |st1| && k != m ensures Apart(st1[k], st1[m]) {
      assert Apart(st[k], st[m]) && Marked(nodes, st[k]) && Marked(nodes, st[m]);
    }
  }

  lemma StillThere(nodes: seq<Resource>, st: seq<Standing>, h: nat, grant: seq<nat>, i: nat, l: int)
    requires NodesFit(nodes, st) && h < |st| && st[h].on == [] && i < |nodes|
    requires l in nodes[i].recLevels || (l == st[h].level && i in grant)
    ensures Somebody(st[h := Standing(st[h].level, grant)], l, i)
  {
    hide AllConsistent, Unique;
    var st1 := st[h := Standing(st[h].level, grant)];
    if l in nodes[i].recLevels {
      assert Somebody(st, l, i);
      var g :| 0 <= g < |st| && OnNode(st[g], l, i);
      assert OnNode(st1[g], l, i);
    } else {
      assert OnNode(st1[h], l, i);
    }
  }

  lemma GrantNodes(s: State, j: nat, created: seq<bool>)
    requires Inv(s) && HasHead(s, j) && |created| == |s.nodes| && HeadGrant(s, j, created) != []
    ensures NodesOk(Tried(s, j, created))
  {
    hide LocalOk, AllOwned, AllLinked, Picks, Unique, NodesFit, Granted;
    var h := s.queues[j][0];
    HeadQueued(s, j);
    var x, grant, t := s.groups[h], HeadGrant(s, j, created), Tried(s, j, created);
    PicksFree(s.nodes, x.level, DEF_RES_CNT, created, |s.nodes|);
    FitGrant(s.nodes, Standings(s.groups), h, grant);
    assert Standings(t.groups) == Standings(s.groups)[h := Standing(x.level, grant)];
  }

  /** The list of the job's thread once it has taken over the oldest event. */
  function ListAfterPoll(s: State, j: nat): seq<nat>
    requires j < |s.queues| && j < |s.posted|
  {
    s.queues[j] + (if s.posted[j] == [] then [] else [s.posted[j][0]])
  }

  /** One event is taken over, and the head of the list is granted or sent to the back. */
  ghost predicate Attempted(s: State, j: nat, created: seq<bool>, t: State)
    requires j < |s.queues| && j < |s.posted| && |created| == |s.nodes|
  {
    var list := ListAfterPoll(s, j);
    && |t.groups| == |s.groups| && |t.nodes| == |s.nodes| && |t.queues| == |s.queues|
    && list != [] && list[0] < |s.groups|
    && t.posted == (if s.posted[j] == [] then s.posted else s.posted[j := s.posted[j][1..]])
    && (forall i :: 0 <= i < |s.queues| && i != j ==> t.queues[i] == s.queues[i])
    && var h := list[0];
       var grant := Picks(s.nodes, s.groups[h].level, DEF_RES_CNT, created, |s.nodes|);
       if grant == [] then t.queues[j] == list[1..] + [h] && t.groups == s.groups && t.nodes == s.nodes
       else
         && t.queues[j] == list[1..]
         && s.groups[h].phase == Queued && t.groups[h].phase == Spawning(0) && t.groups[h].res == grant
         && t.groups[h].agentLevel == seq(|grant|, _ => s.groups[h].level + 1)
         && (forall g :: 0 <= g < |s.groups| && g != h ==> t.groups[g] == s.groups[g])
         && (forall i, level :: 0 <= i < |s.nodes| ==>
               (level in t.nodes[i].recLevels
                <==> level in s.nodes[i].recLevels || (level == s.groups[h].level && i in grant)))
  }

  lemma GrantLevels(s: State, j: nat, created: seq<bool>)
    requires NodesOk(s) && HasHead(s, j) && |created| == |s.nodes|
    ensures var level, grant := s.groups[s.queues[j][0]].level, HeadGrant(s, j, created);
            grant != [] ==>
              forall i, l :: 0 <= i < |s.nodes| ==>
                (l in Tried(s, j, created).nodes[i].recLevels
                 <==> l in s.nodes[i].recLevels || (l == level && i in grant))
  {
    hide AllConsistent, Picks;
    var level, grant := s.groups[s.queues[j][0]].level, HeadGrant(s, j, created);
    PicksFree(s.nodes, level, DEF_RES_CNT, created, |s.nodes|);
    if grant != [] {
      forall i, l | 0 <= i < |s.nodes|
        ensures l in Tried(s, j, created).nodes[i].recLevels
                <==> l in s.nodes[i].recLevels || (l == level && i in grant)
      {
        NodesAfter(s.nodes, grant, level, i, l);
      }
    }
  }

  lemma AttemptDoes(s: State, j: nat, created: seq<bool>)
    requires Inv(s) && Enabled(s, Attempt(j, created)) && |s.queues| == |s.posted|
    ensures Attempted(s, j, created, Next(s, Attempt(j, created)))
  {
    hide QueueOk, NodesOk, AllLinked, AllOwned, GroupsOk, Picks, Granted;
    var p := Polled(s, j);
    PollKeeps(s, j);
    HeadQueued(p, j);
    GrantLevels(p, j, created);
  }

  lemma AttemptInv(s: State, j: nat, created: seq<bool>)
    requires Inv(s) && Enabled(s, Attempt(j, created))
    ensures Inv(Next(s, Attempt(j, created)))
  {
    hide QueueOk, NodesOk, AllLinked, AllOwned, GroupsOk, Picks, Polled;
    var p := Polled(s, j);
    PollKeeps(s, j);
    if HeadGrant(p, j, created) == [] {
      RotateKeeps(p, j, created);
    } else {
      GrantLocal(p, j, created);
      GrantQueue(p, j, created);
      GrantNodes(p, j, created);
    }
  }

  lemma OneLineEach(s: State)
    requires QueueOk(s)
    ensures |s.queues| == |s.posted|
  {
  }

  /** One iteration of a job's thread: the oldest event joins the list, whose head is either granted its first free
      nodes, entered on exactly those and begins to spawn, or goes to the back. */
  lemma AttemptKeeps(s: State, j: nat, created: seq<bool>)
    requires Inv(s) && Enabled(s, Attempt(j, created))
    ensures Inv(Next(s, Attempt(j, created)))
    ensures |s.queues| == |s.posted| && j < |s.queues| && |created| == |s.nodes|
    ensures Attempted(s, j, created, Next(s, Attempt(j, created)))
  {
    hide QueueOk, NodesOk, AllLinked, AllOwned, GroupsOk, Picks, Tried, Attempted;
    OneLineEach(s);
    AttemptInv(s, j, created);
    AttemptDoes(s, j, created);
  }

  // ---------------------------------------------------------------- giving the nodes back

  lemma FitReturn(nodes: seq<Resource>, st: seq<Standing>, g: nat)
    requires NodesFit(nodes, st) && g < |st| && forall i :: i in st[g].on ==> i < |nodes|
    ensures NodesFit(Released(nodes, st[g].on, st[g].level), st[g := Standing(st[g].level, [])])
  {
    hide Leave, Unique, Consistent, Somebody;
    var level, on := st[g].level, st[g].on;
    var nodes1, st1 := Released(nodes, on, level), st[g := Standing(level, [])];
    forall i | 0 <= i < |nodes1| ensures Consistent(nodes1[i]) { LeaveConsistent(nodes[i], level); }
    forall i, l | 0 <= i < |nodes1|
      ensures l in nodes1[i].recLevels <==> l in nodes[i].recLevels && !(l == level && i in on)
    {
      NodesAfter(nodes, on, level, i, l);
    }
    forall k | 0 <= k < |st1| ensures Marked(nodes1, st1[k]) {
      assert Marked(nodes, st[k]) && (k != g ==> Apart(st[k], st[g]));
    }
    forall i, l | 0 <= i < |nodes1| && l in nodes1[i].recLevels ensures Somebody(st1, l, i) {
      OthersThere(nodes, st, g, i, l);
    }
    NoneUnique();
  }

  lemma OthersThere(nodes: seq<Resource>, st: seq<Standing>, g: nat, i: nat, l: int)
    requires NodesFit(nodes, st) && g < |st| && i < |nodes|
    requires l in nodes[i].recLevels && !(l == st[g].level && i in st[g].on)
    ensures Somebody(st[g := Standing(st[g].level, [])], l, i)
  {
    hide AllConsistent, Unique;
    assert Somebody(st, l, i);
    var k :| 0 <= k < |st| && OnNode(st[k], l, i);
    assert OnNode(st[g := Standing(st[g].level, [])][k], l, i);
  }

  lemma ReturnNodes(s: State, g: nat)
    requires Inv(s) && Enabled(s, Return(g))
    ensures NodesOk(Next(s, Return(g)))
  {
    hide LocalOk, AllOwned, AllLinked, QueueOk, NodesFit, Released;
    var x, t := s.groups[g], Next(s, Return(g));
    FitReturn(s.nodes, Standings(s.groups), g);
    assert Standings(t.groups) == Standings(s.groups)[g := Standing(x.level, [])];
  }

  lemma SameQueue(s: State, t: State)
    requires QueueOk(s) && t.queues == s.queues && t.posted == s.posted && Tickets(t.groups) == Tickets(s.groups)
    ensures QueueOk(t)
  {
    hide QueueFit;
    assert Lines(t) == Lines(s);
  }

  lemma ReturnLevels(s: State, g: nat)
    requires NodesOk(s) && Enabled(s, Return(g))
    ensures var t, x := Next(s, Return(g)), s.groups[g];
            && |t.nodes| == |s.nodes|
            && forall i, level :: 0 <= i < |s.nodes| ==>
                 (level in t.nodes[i].recLevels
                  <==> level in s.nodes[i].recLevels && !(level == x.level && i in x.res))
  {
    hide AllConsistent;
    forall i, level | 0 <= i < |s.nodes|
      ensures level in Next(s, Return(g)).nodes[i].recLevels
              <==> level in s.nodes[i].recLevels && !(level == s.groups[g].level && i in s.groups[g].res)
    {
      NodesAfter(s.nodes, s.groups[g].res, s.groups[g].level, i, level);
    }
  }

  lemma ReturnGroups(s: State, g: nat)
    requires Inv(s) && Enabled(s, Return(g))
    ensures var t := Next(s, Return(g));
            GroupsOk(t.groups, |s.queues|) && AllLinked(t.groups) && AllOwned(t.groups, |s.queues|)
  {
    hide NodesOk, QueueOk, AllOwned, LocalOk, ChildOf;
    var x := s.groups[g];
    var y := x.(phase := Retired);
    RetireLocal(x);
    assert Linked(s.groups, g, x);
    SamePes(s.groups, g, x, y);
    LinkedSet(s.groups, g, y);
    OwnedSet(s.groups, g, y, |s.queues|);
  }

  /** The group's level leaves exactly the group's nodes, and no other level leaves any. */
  lemma ReturnKeeps(s: State, g: nat)
    requires Inv(s) && Enabled(s, Return(g))
    ensures Inv(Next(s, Return(g)))
    ensures var t, x := Next(s, Return(g)), s.groups[g];
            && |t.nodes| == |s.nodes|
            && forall i, level :: 0 <= i < |s.nodes| ==>
                 (level in t.nodes[i].recLevels
                  <==> level in s.nodes[i].recLevels && !(level == x.level && i in x.res))
  {
    hide NodesOk, AllOwned, AllLinked, GroupsOk, Released, QueueOk;
    ReturnLevels(s, g);
    ReturnGroups(s, g);
    ReturnNodes(s, g);
    SameQueue(s, Next(s, Return(g)));
  }

  // ---------------------------------------------------------------- every run

  /** Every step keeps the invariant. */
  lemma StepKeeps(s: State, a: Action)
    requires Inv(s) && Enabled(s, a)
    ensures Inv(Next(s, a))
  {
    hide Inv, Enabled, Next;
    match a
    case Start(g, p) => StartKeeps(s, g, p);
    case Resume(g, p) => ResumeKeeps(s, g, p);
    case Exit(g, p) => ExitKeeps(s, g, p);
    case Attempt(j, created) => AttemptKeeps(s, j, created);
    case Spawn(g, ok) => SpawnKeeps(s, g, ok);
    case Return(g) => ReturnKeeps(s, g);
    case _ => RoundKeeps(s, a);
  }

  lemma MainOk(j: nat, prog: Program, gs: seq<Group>)
    ensures LocalOk(MainGroup(j, prog)) && Linked(gs, j, MainGroup(j, prog))
  {
    var x := MainGroup(j, prog);
    LiveAdd([], x.pes[0]);
    assert PeOk(x, 0);
    assert PeLinked(gs, j, x, 0);
  }

  lemma MainsOk(n: nat, mains: seq<Program>)
    ensures var s := Init(n, mains); GroupsOk(s.groups, |mains|) && AllLinked(s.groups) && AllOwned(s.groups, |mains|)
  {
    hide LocalOk, Linked;
    var s := Init(n, mains);
    forall g | 0 <= g < |s.groups| ensures LocalOk(s.groups[g]) && Linked(s.groups, g, s.groups[g]) {
      MainOk(g, mains[g], s.groups);
    }
  }

  lemma InitOk(n: nat, mains: seq<Program>)
    ensures Inv(Init(n, mains))
  {
    hide GroupsOk, AllLinked, AllOwned;
    var s := Init(n, mains);
    MainsOk(n, mains);
    assert NodesOk(s);
    assert QueueOk(s);
  }

  predicate CanRun(s: State, run: seq<Action>)
    decreases |run|
  {
    run == [] || (Enabled(s, run[0]) && CanRun(Next(s, run[0]), run[1..]))
  }

  function Run(s: State, run: seq<Action>): State
    requires CanRun(s, run)
    decreases |run|
  {
    if run == [] then s else Run(Next(s, run[0]), run[1..])
  }

  lemma {:induction false} RunKeeps(s: State, run: seq<Action>)
    requires Inv(s) && CanRun(s, run)
    ensures Inv(Run(s, run))
    decreases |run|
  {
    hide Inv, Enabled, Next;
    if run != [] {
      StepKeeps(s, run[0]);
      RunKeeps(Next(s, run[0]), run[1..]);
    }
  }
}
