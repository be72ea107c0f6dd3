/** The launch protocol never deadlocks and always finishes. */
module LaunchProgress {
  import opened Resources
  import opened Launch
  import opened LaunchSafety
  import opened LaunchTheorems

  // ---------------------------------------------------------------- no deadlock

  predicate Unfinished(x: Group) {
    if x.phase == Hosting then exists p :: 0 <= p < |x.pes| && x.pes[p].state != Exited else x.phase != Retired
  }

  lemma UnfinishedMeans(x: Group)
    ensures x.phase == Hosting ==> (Unfinished(x) <==> exists p :: 0 <= p < |x.pes| && x.pes[p].state != Exited)
    ensures x.phase != Hosting ==> (Unfinished(x) <==> x.phase != Retired)
  {
  }

  /** Every main program has ended and every group has released its nodes. */
  predicate Quiet(s: State) { forall g :: 0 <= g < |s.groups| ==> !Unfinished(s.groups[g]) }

  /** A step that is not merely sending the head of a queue to its back. */
  predicate Productive(s: State, a: Action) {
    Enabled(s, a) && (a.Attempt? ==> HeadGrant(Polled(s, a.job), a.job, a.created) != [])
  }

  lemma {:induction false} Deepest(gs: seq<Group>, n: nat) returns (g: nat)
    requires n <= |gs| && exists h :: 0 <= h < n && Unfinished(gs[h])
    ensures g < n && Unfinished(gs[g])
    ensures forall h :: 0 <= h < n && Unfinished(gs[h]) ==> gs[h].level <= gs[g].level
  {
    hide Unfinished;
    if exists h :: 0 <= h < n - 1 && Unfinished(gs[h]) {
      g := Deepest(gs, n - 1);
      if Unfinished(gs[n - 1]) && gs[n - 1].level > gs[g].level {
        g := n - 1;
      }
    } else {
      g := n - 1;
    }
  }

  /** A live PE can always move when everything below its group has finished. */
  lemma PeMoves(s: State, g: nat, p: nat) returns (a: Action)
    requires Inv(s) && HasPe(s, g, p) && s.groups[g].pes[p].state != Exited
    requires forall h :: 0 <= h < |s.groups| && s.groups[h].level > s.groups[g].level ==> !Unfinished(s.groups[h])
    ensures Productive(s, a) && !a.Attempt?
  {
    hide LiveCount, NodesOk, Unfinished;
    var x := s.groups[g];
    assert LocalOk(x) && PeOk(x, p) && Linked(s.groups, g, x) && PeLinked(s.groups, g, x, p);
    var pe := x.pes[p];
    if pe.state == Blocked {
      var k := |pe.children| - 1;
      var c := pe.children[k];
      assert ChildOf(s.groups[c], g, x, p, k);
      assert LocalOk(s.groups[c]) && LocalOk(s.groups[g]);
      assert Done(s.groups[c]) by { UnfinishedMeans(s.groups[c]); }
      a := Resume(g, p);
    } else if |pe.children| < |Prog(x, p)| {
      a := Start(g, p);
    } else {
      a := Exit(g, p);
    }
  }

  /** Where a started group's thread is, it has a slot left, an event or live PEs, or nothing to wait for. */
  lemma ThreadWaits(x: Group)
    requires LocalOk(x)
    ensures x.phase.Spawning? ==> x.phase.idx <= |x.res|
    ensures x.phase.Waiting? && x.phase.left > 0 && x.events == 0 ==>
              exists p :: 0 <= p < |x.pes| && x.pes[p].state != Exited
  {
    hide LiveCount, PeOk;
    NoneLive(x.pes);
  }

  lemma CanReturn(s: State, g: nat)
    requires NodesOk(s) && g < |s.groups| && s.groups[g].phase.Acked?
    ensures Enabled(s, Return(g))
  {
    hide AllConsistent;
    assert Marked(s.nodes, Standings(s.groups)[g]);
  }

  /** A started group that has not released its nodes can move when everything below it has finished. */
  lemma GroupMoves(s: State, g: nat) returns (a: Action)
    requires Inv(s) && g < |s.groups| && Unfinished(s.groups[g]) && s.groups[g].phase != Queued
    requires forall h :: 0 <= h < |s.groups| && s.groups[h].level > s.groups[g].level ==> !Unfinished(s.groups[h])
    ensures Productive(s, a) && !a.Attempt?
  {
    hide QueueOk, AllLinked, AllOwned, Unfinished, LocalOk, NodesOk;
    var x := s.groups[g];
    ThreadWaits(x);
    UnfinishedMeans(x);
    match x.phase
    case Spawning(idx) => a := if idx < |x.res| then Spawn(g, true) else Close(g);
    case Acked =>
      CanReturn(s, g);
      a := Return(g);
    case Waiting(left) =>
      if left == 0 {
        a := Again(g);
      } else if x.events > 0 {
        a := Take(g);
      } else {
        var p :| 0 <= p < |x.pes| && x.pes[p].state != Exited;
        a := PeMoves(s, g, p);
      }
    case Hosting =>
      var p :| 0 <= p < |x.pes| && x.pes[p].state != Exited;
      a := PeMoves(s, g, p);
    case _ => assert false;
  }

  /** `run` only sends queued groups to the back of their queue, and then `a` is productive. */
  predicate GetsOn(s: State, run: seq<Action>, a: Action) {
    CanRun(s, run) && (forall i :: 0 <= i < |run| ==> run[i].Attempt?)
    && Run(s, run).groups == s.groups && Run(s, run).nodes == s.nodes && Productive(Run(s, run), a)
  }

  function AllTrue(n: nat): seq<bool> { seq(n, _ => true) }

  /** A level with no group on any node is granted the first node. */
  lemma {:induction false} FreshLevelGranted(rs: seq<Resource>, level: int, n: nat)
    requires 0 < n <= |rs| && forall i :: 0 <= i < |rs| ==> level !in rs[i].recLevels
    ensures Picks(rs, level, DEF_RES_CNT, AllTrue(|rs|), n) != []
  {
    if n > 1 {
      FreshLevelGranted(rs, level, n - 1);
    }
  }

  function Turned(s: State, j: nat): State
    requires j < |s.queues| && s.queues[j] != []
  {
    s.(queues := s.queues[j := s.queues[j][1..] + [s.queues[j][0]]])
  }

  /** The head of the list, after polling, is granted, or goes to the back and nothing else changes. */
  lemma HeadTried(s: State, j: nat)
    requires Inv(s) && j < |s.queues| && Lined(s, j) != []
    ensures var a, p := Attempt(j, AllTrue(|s.nodes|)), Polled(s, j);
            && p.groups == s.groups && p.nodes == s.nodes && j < |p.queues| && p.queues[j] != []
            && p.queues[j][0] < |s.groups| && Enabled(s, a)
            && var free := Picks(s.nodes, s.groups[p.queues[j][0]].level, DEF_RES_CNT, a.created, |s.nodes|);
               (free != [] ==> Productive(s, a)) && (free == [] ==> !Productive(s, a) && Next(s, a) == Turned(p, j))
  {
    hide Picks, LocalOk, AllLinked, AllOwned, NodesOk, QueueFit;
    PollKeeps(s, j);
    var p := Polled(s, j);
    assert Lined(p, j) == Lined(s, j) && p.queues[j] != [];
    FirstWaits(p, j);
  }

  lemma FirstWaits(s: State, j: nat)
    requires QueueOk(s) && j < |s.queues| && s.queues[j] != []
    ensures s.queues[j][0] < |s.groups|
  {
    assert OfJob(Lines(s)[j], Tickets(s.groups), j) && Lines(s)[j][0] == s.queues[j][0];
    assert Lines(s)[j][0] in Lines(s)[j];
  }

  predicate Grantable(s: State, g: nat) {
    g < |s.groups| && Picks(s.nodes, s.groups[g].level, DEF_RES_CNT, AllTrue(|s.nodes|), |s.nodes|) != []
  }

  /** A grantable group in the thread's list at place `k` is reached, or another granted, in at most `k` turns. */
  lemma {:induction false} RotateToGrant(s: State, j: nat, k: nat) returns (run: seq<Action>)
    requires Inv(s) && j < |s.queues| == |s.posted| && k < |s.queues[j]| && Grantable(s, s.queues[j][k])
    ensures GetsOn(s, run, Attempt(j, AllTrue(|s.nodes|))) && |run| <= k
    decreases k
  {
    hide Picks, Inv, Enabled, Next, Productive, QueueFit;
    var a := Attempt(j, AllTrue(|s.nodes|));
    HeadTried(s, j);
    if Productive(s, a) {
      run := [];
    } else {
      var p, t := Polled(s, j), Next(s, a);
      StepKeeps(s, a);
      assert p.queues[j][k] == s.queues[j][k] && k > 0;
      assert t.queues[j][k - 1] == p.queues[j][k];
      var rest := RotateToGrant(t, j, k - 1);
      run := [a] + rest;
      assert run[1..] == rest;
    }
  }

  /** One that is still to be polled, at place `k` of the events, is in the list after `k + 1` turns. */
  lemma {:induction false} PollToGrant(s: State, j: nat, k: nat) returns (run: seq<Action>)
    requires Inv(s) && j < |s.queues| == |s.posted| && k < |s.posted[j]| && Grantable(s, s.posted[j][k])
    ensures GetsOn(s, run, Attempt(j, AllTrue(|s.nodes|))) && |run| <= |s.queues[j]| + 2 * k
    decreases k
  {
    hide Picks, Inv, Enabled, Next, Productive, QueueFit;
    var a := Attempt(j, AllTrue(|s.nodes|));
    assert Lined(s, j) != [];
    HeadTried(s, j);
    if Productive(s, a) {
      run := [];
    } else {
      var p, t := Polled(s, j), Next(s, a);
      StepKeeps(s, a);
      var n := |s.queues[j]|;
      assert |p.queues[j]| == n + 1 && p.queues[j][n] == s.posted[j][0] && p.posted[j] == s.posted[j][1..];
      var rest: seq<Action>;
      if k == 0 {
        assert n > 0;
        assert t.queues[j][n - 1] == p.queues[j][n];
        rest := RotateToGrant(t, j, n - 1);
      } else {
        assert t.posted[j][k - 1] == s.posted[j][k];
        rest := PollToGrant(t, j, k - 1);
      }
      run := [a] + rest;
      assert run[1..] == rest;
    }
  }

  lemma QueueGetsOn(s: State, g: nat) returns (run: seq<Action>)
    requires Inv(s) && g < |s.groups| && s.groups[g].phase == Queued && Grantable(s, g)
    requires s.groups[g].job < |s.queues| == |s.posted|
    ensures var j := s.groups[g].job;
            GetsOn(s, run, Attempt(j, AllTrue(|s.nodes|))) && |run| <= |s.queues[j]| + 2 * |s.posted[j]|
  {
    hide LocalOk, AllLinked, AllOwned, NodesOk, Picks, GetsOn, OfJob;
    var j := s.groups[g].job;
    assert Tickets(s.groups)[g].waits && g in Lines(s)[j] && Lines(s)[j] == s.queues[j] + s.posted[j];
    if g in s.queues[j] {
      var k :| 0 <= k < |s.queues[j]| && s.queues[j][k] == g;
      run := RotateToGrant(s, j, k);
    } else {
      var k :| 0 <= k < |s.posted[j]| && s.posted[j][k] == g;
      run := PollToGrant(s, j, k);
    }
  }

  lemma JobsBounded(s: State, g: nat)
    requires Inv(s) && g < |s.groups|
    ensures s.groups[g].job < |s.queues| == |s.posted|
  {
    hide LocalOk, AllLinked, AllOwned, NodesOk, OfJob;
    assert Tickets(s.groups)[g].job < |Lines(s)|;
  }

  predicate WithinTwoTurns(s: State, run: seq<Action>) {
    run != [] ==>
      exists j :: 0 <= j < |s.queues| && j < |s.posted| && |run| <= |s.queues[j]| + 2 * |s.posted[j]|
  }

  /** A group of this level that has been started and has not finished. */
  predicate StartedAt(x: Group, level: int) { x.level == level && x.phase != Queued && Unfinished(x) }

  lemma SomethingMoves(s: State) returns (run: seq<Action>, a: Action)
    requires Inv(s) && s.nodes != [] && !Quiet(s)
    ensures GetsOn(s, run, a) && WithinTwoTurns(s, run)
  {
    hide LocalOk, AllLinked, AllOwned, Unfinished, NodesFit, Picks, QueueFit;
    var g := Deepest(s.groups, |s.groups|);
    var x := s.groups[g];
    if h: nat :| h < |s.groups| && StartedAt(s.groups[h], x.level) {
      a := GroupMoves(s, h);
      run := [];
    } else {
      assert x.phase == Queued;
      JobsBounded(s, g);
      NobodyOn(s, x.level);
      FreshLevelGranted(s.nodes, x.level, |s.nodes|);
      run := QueueGetsOn(s, g);
      a := Attempt(x.job, AllTrue(|s.nodes|));
    }
  }

  /** In every unfinished state of a run, with at least one node, some step is productive after at most two turns of one
      job's line. */
  lemma NoDeadlock(s: State) returns (run: seq<Action>, a: Action)
    requires Reachable(s) && s.nodes != [] && !Quiet(s)
    ensures GetsOn(s, run, a) && WithinTwoTurns(s, run)
  {
    hide Reachable, Inv, Quiet, GetsOn, WithinTwoTurns;
    ReachableInv(s);
    run, a := SomethingMoves(s);
  }

  lemma HolderStarted(x: Group, level: int)
    requires Holds(x) && x.level == level
    ensures StartedAt(x, level)
  {
  }

  lemma NobodyOn(s: State, level: int)
    requires NodesOk(s)
    requires forall h :: 0 <= h < |s.groups| ==> !StartedAt(s.groups[h], level)
    ensures forall i :: 0 <= i < |s.nodes| ==> level !in s.nodes[i].recLevels
  {
    hide StartedAt, AllConsistent;
    forall i | 0 <= i < |s.nodes| ensures level !in s.nodes[i].recLevels {
      if level in s.nodes[i].recLevels {
        NodeTaken(s, i, level);
      }
    }
  }

  /** A level on a node is that of a started group. */
  lemma NodeTaken(s: State, i: nat, level: int)
    requires NodesOk(s) && i < |s.nodes| && level in s.nodes[i].recLevels
    ensures exists g :: 0 <= g < |s.groups| && StartedAt(s.groups[g], level)
  {
    hide StartedAt, AllConsistent;
    var st := Standings(s.groups);
    assert Somebody(st, level, i);
    var g :| 0 <= g < |st| && OnNode(st[g], level, i);
    HolderStarted(s.groups[g], level);
  }

  // ---------------------------------------------------------------- termination

  /** Turns of the spawn loop and the steps around it that one more round can take. */
  const ROUND: nat := DEF_RES_CNT + 2

  /** All the steps that running a computation can take, its launches included. */
  function CompWork(c: Comp): nat
    decreases c, 2, 0
  {
    QueuedWork(|c.pes|) + PesWork(c, |c.pes|)
  }

  function QueuedWork(max: nat): nat { DEF_RES_CNT + 4 + ROUND * max + ROUND }

  function PesWork(c: Comp, n: nat): nat
    decreases c, 1, n
  {
    if n == 0 then 0 else PesWork(c, n - 1) + 2 + RestWork(c, n - 1, 0)
  }

  /** The launches of program `p` from number `k` on. */
  function RestWork(c: Comp, p: nat, k: nat): nat
    decreases c, 0, if p < |c.pes| && k < |c.pes[p].launches| then |c.pes[p].launches| - k else 0
  {
    if p < |c.pes| && k < |c.pes[p].launches| then 2 + CompWork(c.pes[p].launches[k]) + RestWork(c, p, k + 1) else 0
  }

  /** What PE `p` still has to do, whether or not it has been spawned. */
  function PeWork(x: Group, p: nat): nat {
    if p >= |x.pes| then 2 + RestWork(x.comp, p, 0)
    else
      match x.pes[p].state
      case Exited => 0
      case Running => 2 + RestWork(x.comp, p, |x.pes[p].children|)
      case Blocked => 3 + RestWork(x.comp, p, |x.pes[p].children|)
  }

  function GroupPes(x: Group, n: nat): nat { if n == 0 then 0 else GroupPes(x, n - 1) + PeWork(x, n - 1) }

  function Less(a: nat, b: nat): nat { if a >= b then a - b else 0 }

  /** A failed spawn can cost one more round, once. */
  function Spare(x: Group): nat { if x.peids == |x.pes| then ROUND else 0 }

  /** The steps the group's own thread still has to take. */
  function ThreadWork(x: Group): nat {
    var left := Less(Max(x), x.spawned);
    match x.phase
    case Hosting => 0
    case Queued => QueuedWork(Max(x))
    case Spawning(idx) => Less(|x.res|, idx) + 3 + ROUND * (if idx == 0 then Less(left, 1) else left) + Spare(x)
    case Waiting(_) => 2 + ROUND * left + Spare(x)
    case Acked => 1
    case Retired => 0
  }

  function GroupWork(x: Group): nat { ThreadWork(x) + x.events + GroupPes(x, Max(x)) }

  function Work(gs: seq<Group>): nat { if gs == [] then 0 else Work(gs[..|gs| - 1]) + GroupWork(gs[|gs| - 1]) }

  lemma {:induction false} WorkSet(gs: seq<Group>, g: nat, x: Group)
    requires g < |gs|
    ensures Work(gs[g := x]) == Work(gs) - GroupWork(gs[g]) + GroupWork(x)
  {
    hide GroupWork;
    var n := |gs| - 1;
    if g < n {
      assert gs[g := x][..n] == gs[..n][g := x];
      WorkSet(gs[..n], g, x);
    } else {
      assert gs[g := x][..n] == gs[..n];
    }
  }

  lemma WorkAdd(gs: seq<Group>, x: Group)
    ensures Work(gs + [x]) == Work(gs) + GroupWork(x)
  {
    assert (gs + [x])[..|gs|] == gs;
  }

  /** Changing one PE changes the sum by that PE's share. */
  lemma {:induction false} GroupPesSet(x: Group, y: Group, p: nat, n: nat)
    requires p < n && forall q :: 0 <= q < n && q != p ==> PeWork(y, q) == PeWork(x, q)
    ensures GroupPes(y, n) + PeWork(x, p) == GroupPes(x, n) + PeWork(y, p)
  {
    hide PeWork;
    if p < n - 1 {
      GroupPesSet(x, y, p, n - 1);
    } else {
      GroupPesSame(x, y, n - 1);
    }
  }

  lemma {:induction false} GroupPesSame(x: Group, y: Group, n: nat)
    requires forall q :: 0 <= q < n ==> PeWork(y, q) == PeWork(x, q)
    ensures GroupPes(y, n) == GroupPes(x, n)
  {
    hide PeWork;
    if n > 0 {
      GroupPesSame(x, y, n - 1);
    }
  }

  lemma {:induction false} NewGroupWork(x: Group, n: nat)
    requires x.pes == []
    ensures GroupPes(x, n) == PesWork(x.comp, n)
  {
    if n > 0 {
      NewGroupWork(x, n - 1);
    }
  }

  /** A step that changes one group and lowers its work lowers the sum. */
  lemma OneGroup(s: State, g: nat, y: Group)
    requires g < |s.groups| && GroupWork(y) < GroupWork(s.groups[g])
    ensures Work(s.groups[g := y]) < Work(s.groups)
  {
    hide GroupWork, Work;
    WorkSet(s.groups, g, y);
  }

  lemma GroupOk(s: State, g: nat)
    requires Inv(s) && g < |s.groups|
    ensures LocalOk(s.groups[g])
  {
    hide LocalOk, NodesOk, QueueOk, AllLinked, AllOwned;
  }

  lemma SpawnLess(x: Group, ok: bool)
    requires LocalOk(x) && x.phase.Spawning? && x.phase.idx < |x.res| && (ok || x.peids == |x.pes|)
    ensures ThreadWork(SpawnOn(x, ok)) < ThreadWork(x) && SpawnOn(x, ok).events == x.events
  {
    hide LiveCount, PeOk;
  }

  lemma SpawnStep(s: State, g: nat, ok: bool)
    requires Inv(s) && Enabled(s, Spawn(g, ok))
    ensures Work(Next(s, Spawn(g, ok)).groups) < Work(s.groups)
  {
    hide Inv, LiveCount, RestWork, GroupPes, Work, LocalOk, ThreadWork;
    var x := s.groups[g];
    var y := SpawnOn(x, ok);
    GroupOk(s, g);
    SpawnLocal(x, ok);
    SpawnLess(x, ok);
    forall q | 0 <= q < Max(x) ensures PeWork(y, q) == PeWork(x, q) {
    }
    GroupPesSame(x, y, Max(x));
    OneGroup(s, g, y);
  }

  /** The other steps of the group's thread leave the PEs alone. */
  lemma ThreadLess(s: State, a: Action)
    requires (a.Close? || a.Take? || a.Again? || a.Return?) && Enabled(s, a) && LocalOk(s.groups[a.gid])
    ensures var x, y := s.groups[a.gid], Next(s, a).groups[a.gid];
            y.pes == x.pes && y.comp == x.comp && ThreadWork(y) + y.events < ThreadWork(x) + x.events
  {
    hide LiveCount, PeOk;
  }

  lemma ThreadStep(s: State, a: Action)
    requires Inv(s) && Enabled(s, a) && (a.Close? || a.Take? || a.Again? || a.Return?)
    ensures Work(Next(s, a).groups) < Work(s.groups)
  {
    hide Inv, LocalOk, RestWork, GroupPes, Work, ThreadWork;
    var x, y := s.groups[a.gid], Next(s, a).groups[a.gid];
    GroupOk(s, a.gid);
    ThreadLess(s, a);
    forall q | 0 <= q < Max(x) ensures PeWork(y, q) == PeWork(x, q) {
    }
    GroupPesSame(x, y, Max(x));
    OneGroup(s, a.gid, y);
  }

  lemma PeStep(s: State, a: Action)
    requires Inv(s) && Enabled(s, a) && (a.Resume? || a.Exit?)
    ensures Work(Next(s, a).groups) < Work(s.groups)
  {
    hide Inv, RestWork, GroupPes, Work, PeOk, PhaseOk;
    var x, y := s.groups[a.gid], Next(s, a).groups[a.gid];
    GroupOk(s, a.gid);
    GroupPesSet(x, y, a.pe, Max(x));
    assert ThreadWork(y) == ThreadWork(x);
    WorkSet(s.groups, a.gid, y);
  }

  lemma StartStep(s: State, g: nat, p: nat)
    requires Inv(s) && Enabled(s, Start(g, p))
    ensures Work(Next(s, Start(g, p)).groups) < Work(s.groups)
  {
    hide LiveCount, NodesOk, QueueOk, AllLinked, AllOwned, GroupPes, Work;
    var t := Next(s, Start(g, p));
    var x, y, c := s.groups[g], t.groups[g], t.groups[|s.groups|];
    assert LocalOk(x) && PeOk(x, p);
    GroupPesSet(x, y, p, Max(x));
    WorkSet(s.groups, g, y);
    WorkAdd(s.groups[g := y], c);
    assert t.groups == s.groups[g := y] + [c];
    NewGroupWork(c, Max(c));
    assert GroupWork(c) == CompWork(c.comp);
  }

  lemma TriedStep(s: State, j: nat, created: seq<bool>)
    requires Inv(s) && HasHead(s, j) && |created| == |s.nodes|
    ensures var w := Work(Tried(s, j, created).groups);
            if HeadGrant(s, j, created) == [] then w == Work(s.groups) else w < Work(s.groups)
  {
    hide LiveCount, NodesOk, AllLinked, AllOwned, RestWork, GroupPes, Work, Picks, QueueFit;
    var h := s.queues[j][0];
    var x, y := s.groups[h], Tried(s, j, created).groups[h];
    assert LocalOk(x);
    HeadQueued(s, j);
    PicksAtMost(s.nodes, x.level, DEF_RES_CNT, created, |s.nodes|);
    forall q | 0 <= q < Max(x) ensures PeWork(y, q) == PeWork(x, q) {
    }
    GroupPesSame(x, y, Max(x));
    WorkSet(s.groups, h, y);
  }

  lemma AttemptStep(s: State, j: nat, created: seq<bool>)
    requires Inv(s) && Enabled(s, Attempt(j, created))
    ensures var w := Work(Next(s, Attempt(j, created)).groups);
            if HeadGrant(Polled(s, j), j, created) == [] then w == Work(s.groups) else w < Work(s.groups)
  {
    hide Inv, Work, Tried, HeadGrant;
    PollKeeps(s, j);
    TriedStep(Polled(s, j), j, created);
  }

  /** A productive step leaves less work; a turn of a queue leaves it as it was. */
  lemma StepWorks(s: State, a: Action)
    requires Inv(s) && Enabled(s, a)
    ensures Productive(s, a) ==> Work(Next(s, a).groups) < Work(s.groups)
    ensures !Productive(s, a) ==> Work(Next(s, a).groups) == Work(s.groups)
  {
    hide Inv, Enabled, Next, Work, HeadGrant;
    if a.Start? {
      StartStep(s, a.gid, a.pe);
    } else if a.Attempt? {
      AttemptStep(s, a.job, a.created);
    } else if a.Resume? || a.Exit? {
      PeStep(s, a);
    } else if a.Spawn? {
      SpawnStep(s, a.gid, a.ok);
    } else {
      ThreadStep(s, a);
    }
  }

  function Productives(s: State, run: seq<Action>): nat
    requires CanRun(s, run)
    decreases |run|
  {
    if run == [] then 0
    else (if Productive(s, run[0]) then 1 else 0) + Productives(Next(s, run[0]), run[1..])
  }

  lemma {:induction false} BoundedFrom(s: State, run: seq<Action>)
    requires Inv(s) && CanRun(s, run)
    ensures Productives(s, run) + Work(Run(s, run).groups) <= Work(s.groups)
    decreases |run|
  {
    hide Inv, Enabled, Next, Work, Productive;
    if run != [] {
      StepKeeps(s, run[0]);
      StepWorks(s, run[0]);
      BoundedFrom(Next(s, run[0]), run[1..]);
    }
  }

  /** The work of the main programs' launch trees. */
  function TreeWork(mains: seq<Program>): nat {
    if mains == [] then 0 else TreeWork(mains[..|mains| - 1]) + PesWork(Comp([mains[|mains| - 1]]), 1)
  }

  lemma {:induction false} InitWork(n: nat, mains: seq<Program>)
    ensures Work(Init(n, mains).groups) == TreeWork(mains)
  {
    hide PesWork, RestWork;
    if mains != [] {
      var k := |mains| - 1;
      InitWork(n, mains[..k]);
      assert Init(n, mains).groups[..k] == Init(n, mains[..k]).groups;
      MainWork(k, mains[k]);
    }
  }

  lemma MainWork(j: nat, prog: Program)
    ensures GroupWork(MainGroup(j, prog)) == PesWork(Comp([prog]), 1)
  {
    var x := MainGroup(j, prog);
    assert GroupPes(x, 1) == GroupPes(x, 0) + PeWork(x, 0);
    assert PesWork(Comp([prog]), 1) == PesWork(Comp([prog]), 0) + 2 + RestWork(Comp([prog]), 0, 0);
  }

  /** Launches terminate: however long the run, its productive steps are bounded by the size of the launch trees. */
  lemma Terminates(n: nat, mains: seq<Program>, run: seq<Action>)
    requires CanRun(Init(n, mains), run)
    ensures Productives(Init(n, mains), run) <= TreeWork(mains)
  {
    hide Inv, Run, CanRun, Productives, Work, TreeWork, Init;
    InitOk(n, mains);
    InitWork(n, mains);
    BoundedFrom(Init(n, mains), run);
  }

  lemma {:induction false} RunJoin(s: State, r0: seq<Action>, r1: seq<Action>)
    requires CanRun(s, r0) && CanRun(Run(s, r0), r1)
    ensures CanRun(s, r0 + r1) && Run(s, r0 + r1) == Run(Run(s, r0), r1)
    decreases |r0|
  {
    hide Enabled, Next;
    if r0 == [] {
      assert r0 + r1 == r1;
    } else {
      assert (r0 + r1)[1..] == r0[1..] + r1;
      RunJoin(Next(s, r0[0]), r0[1..], r1);
    }
  }

  /** From every reachable state the system can run until everything has finished. */
  lemma {:induction false} CanFinish(s: State) returns (run: seq<Action>)
    requires Inv(s) && s.nodes != []
    ensures CanRun(s, run) && Quiet(Run(s, run))
    decreases Work(s.groups)
  {
    hide Inv, Enabled, Next, Work, Quiet, Productive;
    if Quiet(s) {
      run := [];
    } else {
      var turn, a := SomethingMoves(s);
      var t := Run(s, turn);
      RunKeeps(s, turn);
      ProductiveEnabled(t, a);
      StepKeeps(t, a);
      StepWorks(t, a);
      var u := Next(t, a);
      SameNodes(t, a);
      var rest := CanFinish(u);
      assert [a][1..] == [] && Run(t, [a]) == u;
      RunJoin(s, turn, [a]);
      RunJoin(s, turn + [a], rest);
      run := turn + [a] + rest;
    }
  }

  lemma ProductiveEnabled(s: State, a: Action)
    requires Productive(s, a)
    ensures Enabled(s, a)
  {
  }

  lemma SameNodes(s: State, a: Action)
    requires Enabled(s, a)
    ensures |Next(s, a).nodes| == |s.nodes|
  {
  }

  /** When everything has finished, every main program has run its whole launch tree. */
  lemma QuietMeansAllRan(s: State, j: nat, k: nat)
    requires Inv(s) && Quiet(s) && j < |s.queues| && k < |Prog(s.groups[j], 0)|
    ensures |s.groups[j].pes| == 1 && k < |s.groups[j].pes[0].children|
    ensures RanWhole(s.groups, s.groups[j].pes[0].children[k], Prog(s.groups[j], 0)[k])
  {
    hide LiveCount, NodesOk, QueueOk, AllOwned, RanWhole;
    var x := s.groups[j];
    assert LocalOk(x) && Linked(s.groups, j, x);
    assert x.pes[0].state == Exited && PeOk(x, 0) && PeLinked(s.groups, j, x, 0);
    var c := x.pes[0].children[k];
    assert ChildOf(s.groups[c], j, x, 0, k);
    AckMeansWholeTree(s, c);
  }

  /** No step changes what a group runs, or how many nodes and jobs there are. */
  lemma StepComps(s: State, a: Action)
    requires Enabled(s, a)
    ensures var t := Next(s, a);
            && |s.groups| <= |t.groups| && |t.nodes| == |s.nodes| && |t.queues| == |s.queues|
            && forall g :: 0 <= g < |s.groups| ==> t.groups[g].comp == s.groups[g].comp
  {
    hide Picks;
  }

  lemma {:induction false} RunComps(s: State, run: seq<Action>)
    requires CanRun(s, run)
    ensures var t := Run(s, run);
            && |s.groups| <= |t.groups| && |t.nodes| == |s.nodes| && |t.queues| == |s.queues|
            && forall g :: 0 <= g < |s.groups| ==> t.groups[g].comp == s.groups[g].comp
    decreases |run|
  {
    hide Enabled, Next;
    if run != [] {
      StepComps(s, run[0]);
      RunComps(Next(s, run[0]), run[1..]);
    }
  }

  /** When every main program has ended and nothing is left to do, each job has run the launches of its own main
      program, every one of them down to its leaves, and all nodes are empty. */
  lemma EveryJobRan(n: nat, mains: seq<Program>, run: seq<Action>, j: nat)
    requires CanRun(Init(n, mains), run) && Quiet(Run(Init(n, mains), run)) && j < |mains|
    ensures var s := Run(Init(n, mains), run);
            && |s.nodes| == n && (forall i :: 0 <= i < n ==> s.nodes[i] == Resource(0, []))
            && j < |s.groups| && |s.groups[j].pes| == 1 && |s.groups[j].pes[0].children| == |mains[j].launches|
            && forall k :: 0 <= k < |mains[j].launches| ==>
                 RanWhole(s.groups, s.groups[j].pes[0].children[k], mains[j].launches[k])
  {
    hide Inv, Quiet, RanWhole, Run, CanRun;
    var s := Run(Init(n, mains), run);
    InitOk(n, mains);
    RunKeeps(Init(n, mains), run);
    RunComps(Init(n, mains), run);
    EndsEmpty(s);
    MainEnded(s, j);
    forall k | 0 <= k < |mains[j].launches|
      ensures RanWhole(s.groups, s.groups[j].pes[0].children[k], mains[j].launches[k])
    {
      QuietMeansAllRan(s, j, k);
    }
  }

  lemma MainEnded(s: State, j: nat)
    requires Inv(s) && Quiet(s) && j < |s.queues|
    ensures j < |s.groups| && |s.groups[j].pes| == 1 && |s.groups[j].pes[0].children| == |Prog(s.groups[j], 0)|
  {
    hide LiveCount, NodesOk, QueueOk, AllOwned;
    var x := s.groups[j];
    assert LocalOk(x);
    UnfinishedMeans(x);
    assert PeOk(x, 0);
  }

  /** When all groups have released their nodes, every node is empty. */
  lemma EndsEmpty(s: State)
    requires Inv(s) && Quiet(s)
    ensures forall i :: 0 <= i < |s.nodes| ==> s.nodes[i] == Resource(0, [])
  {
    hide GroupsOk, QueueOk, AllLinked, AllOwned, Unfinished;
    forall i | 0 <= i < |s.nodes| ensures s.nodes[i] == Resource(0, []) {
      assert Consistent(s.nodes[i]);
      if s.nodes[i].recLevels != [] {
        NodeTaken(s, i, s.nodes[i].recLevels[0]);
      }
    }
  }
}
