/** What the launch protocol promises in every reachable state. */
module LaunchTheorems {
  import opened Resources
  import opened Launch
  import opened LaunchSafety

  ghost predicate Reachable(s: State) {
    exists n: nat, mains: seq<Program>, run: seq<Action> :: CanRun(Init(n, mains), run) && s == Run(Init(n, mains), run)
  }

  lemma ReachableInv(s: State)
    requires Reachable(s)
    ensures Inv(s)
  {
    hide Inv, Run, Init;
    var n: nat, mains: seq<Program>, run: seq<Action> :| CanRun(Init(n, mains), run) && s == Run(Init(n, mains), run);
    InitOk(n, mains);
    RunKeeps(Init(n, mains), run);
  }

  // ---------------------------------------------------------------- an acknowledgement covers the whole subtree

  /** The group ran its computation to the end: each PE exited after launching its whole program,
      and every group it launched, which ran the computation at that place, did the same. */
  predicate RanWhole(gs: seq<Group>, g: nat, c: Comp)
    decreases c
  {
    g < |gs| && gs[g].comp == c && Done(gs[g]) && gs[g].events == 0 && |gs[g].pes| == |c.pes|
    && forall p :: 0 <= p < |c.pes| ==>
         gs[g].pes[p].state == Exited && |gs[g].pes[p].children| == |c.pes[p].launches|
         && forall k :: 0 <= k < |c.pes[p].launches| ==>
              RanWhole(gs, gs[g].pes[p].children[k], c.pes[p].launches[k])
  }

  lemma {:induction false} AckMeansWholeTree(s: State, g: nat)
    requires Inv(s) && g < |s.groups| && Done(s.groups[g])
    ensures RanWhole(s.groups, g, s.groups[g].comp)
    decreases |s.groups| - g
  {
    hide LiveCount, NodesOk, QueueOk;
    var x := s.groups[g];
    NoneLive(x.pes);
    assert Linked(s.groups, g, x) && LocalOk(x);
    forall p | 0 <= p < |x.comp.pes|
      ensures x.pes[p].state == Exited && |x.pes[p].children| == |Prog(x, p)|
      ensures forall k :: 0 <= k < |Prog(x, p)| ==> RanWhole(s.groups, x.pes[p].children[k], Prog(x, p)[k])
    {
      assert PeOk(x, p) && PeLinked(s.groups, g, x, p);
      forall k | 0 <= k < |Prog(x, p)| ensures RanWhole(s.groups, x.pes[p].children[k], Prog(x, p)[k]) {
        assert ChildOf(s.groups[x.pes[p].children[k]], g, x, p, k);
        AckMeansWholeTree(s, x.pes[p].children[k]);
      }
    }
  }

  /** A PE goes on after a launch only when the whole subtree of that launch has exited. */
  lemma ResumeAfterWholeTree(s: State, g: nat, p: nat)
    requires Reachable(s) && Enabled(s, Resume(g, p))
    ensures var x := s.groups[g];
            var k := |x.pes[p].children| - 1;
            k < |Prog(x, p)| && RanWhole(s.groups, x.pes[p].children[k], Prog(x, p)[k])
  {
    hide LiveCount, NodesOk, QueueOk, RanWhole;
    ReachableInv(s);
    var x := s.groups[g];
    var k := |x.pes[p].children| - 1;
    assert Linked(s.groups, g, x) && PeLinked(s.groups, g, x, p);
    assert ChildOf(s.groups[x.pes[p].children[k]], g, x, p, k);
    AckMeansWholeTree(s, x.pes[p].children[k]);
  }

  // ---------------------------------------------------------------- levels

  /** One launch: launch number `slot` of PE `pe`. */
  datatype Hop = Hop(pe: nat, slot: nat)

  /** `path` leads from group `g` down to group `h`, launch by launch. */
  predicate Leads(gs: seq<Group>, g: nat, path: seq<Hop>, h: nat)
    decreases |path|
  {
    if path == [] then g == h
    else
      g < |gs| && path[0].pe < |gs[g].pes| && path[0].slot < |gs[g].pes[path[0].pe].children|
      && Leads(gs, gs[g].pes[path[0].pe].children[path[0].slot], path[1..], h)
  }

  lemma {:induction false} PathLevel(s: State, g: nat, path: seq<Hop>, h: nat)
    requires Inv(s) && g < |s.groups| && Leads(s.groups, g, path, h)
    ensures h < |s.groups| && s.groups[h].level == s.groups[g].level + |path|
    ensures s.groups[h].job == s.groups[g].job
    decreases |path|
  {
    hide LiveCount, NodesOk, QueueOk, LocalOk;
    if path != [] {
      var x := s.groups[g];
      var c := x.pes[path[0].pe].children[path[0].slot];
      assert Linked(s.groups, g, x) && PeLinked(s.groups, g, x, path[0].pe);
      assert ChildOf(s.groups[c], g, x, path[0].pe, path[0].slot);
      PathLevel(s, c, path[1..], h);
    }
  }

  lemma LeadsOn(gs: seq<Group>, g: nat, path: seq<Hop>, h: nat, hop: Hop)
    requires Leads(gs, g, path, h) && h < |gs| && hop.pe < |gs[h].pes| && hop.slot < |gs[h].pes[hop.pe].children|
    ensures Leads(gs, g, path + [hop], gs[h].pes[hop.pe].children[hop.slot])
    decreases |path|
  {
    if path == [] {
      assert path + [hop] == [hop];
    } else {
      assert (path + [hop])[1..] == path[1..] + [hop];
      LeadsOn(gs, gs[g].pes[path[0].pe].children[path[0].slot], path[1..], h, hop);
    }
  }

  /** Every group was launched, directly or not, by the main program of its job. */
  lemma {:induction false} EveryGroupHasPath(s: State, h: nat) returns (path: seq<Hop>)
    requires Inv(s) && h < |s.groups|
    ensures s.groups[h].job < |s.queues| && Leads(s.groups, s.groups[h].job, path, h)
    decreases h
  {
    hide LiveCount, NodesOk, QueueOk, LocalOk;
    if h < |s.queues| {
      path := [];
    } else {
      assert Owned(s.groups, h);
      var up := s.groups[h].parent;
      assert Linked(s.groups, up.gid, s.groups[up.gid]) && PeLinked(s.groups, up.gid, s.groups[up.gid], up.pe);
      assert ChildOf(s.groups[h], up.gid, s.groups[up.gid], up.pe, up.slot);
      path := EveryGroupHasPath(s, up.gid);
      LeadsOn(s.groups, s.groups[up.gid].job, path, up.gid, Hop(up.pe, up.slot));
      path := path + [Hop(up.pe, up.slot)];
    }
  }

  /** The level that scheduler, agent and scheduler hand on is the depth of the launch below the main program. */
  lemma LevelIsDepth(s: State, j: nat, path: seq<Hop>, h: nat)
    requires Reachable(s) && j < |s.queues| && Leads(s.groups, j, path, h)
    ensures h < |s.groups| && s.groups[h].level == |path| - 1 && s.groups[h].job == s.groups[j].job
  {
    ReachableInv(s);
    assert LocalOk(s.groups[j]);
    PathLevel(s, j, path, h);
  }

  // ---------------------------------------------------------------- one live PE per device, per level on a node

  predicate LiveAt(s: State, g: nat, p: nat, node: nat) {
    g < |s.groups| && p < |s.groups[g].pes| && s.groups[g].pes[p].state != Exited && s.groups[g].phase != Hosting
    && s.groups[g].pes[p].device < |s.groups[g].res| && s.groups[g].res[s.groups[g].pes[p].device] == node
  }

  /** A group with a live PE holds its nodes, and its live PEs sit on different ones. */
  lemma LiveHolds(s: State, g: nat, p: nat, node: nat)
    requires GroupsOk(s.groups, |s.queues|) && LiveAt(s, g, p, node)
    ensures Holds(s.groups[g]) && node in s.groups[g].res
  {
    hide LiveCount;
    assert LocalOk(s.groups[g]);
    NoneLive(s.groups[g].pes);
  }

  lemma LiveApart(s: State, g: nat, p: nat, q: nat, node: nat)
    requires Inv(s) && LiveAt(s, g, p, node) && LiveAt(s, g, q, node)
    ensures p == q
  {
    hide LiveCount, QueueOk, AllLinked, AllOwned, PeOk, AllConsistent;
    assert LocalOk(s.groups[g]);
    NoneLive(s.groups[g].pes);
    assert Marked(s.nodes, Standings(s.groups)[g]);
  }

  /** Two live PEs on one node belong to groups of different levels. */
  lemma OneLivePePerLevel(s: State, g: nat, p: nat, h: nat, q: nat, node: nat)
    requires Reachable(s) && LiveAt(s, g, p, node) && LiveAt(s, h, q, node) && (g, p) != (h, q)
    ensures s.groups[g].level != s.groups[h].level
  {
    hide LocalOk, QueueOk, AllLinked, AllOwned, Reachable, AllConsistent;
    ReachableInv(s);
    LiveHolds(s, g, p, node);
    LiveHolds(s, h, q, node);
    if g == h {
      LiveApart(s, g, p, q, node);
    } else {
      var st := Standings(s.groups);
      assert Apart(st[g], st[h]);
      assert node in st[g].on && node in st[h].on;
    }
  }

  /** A live PE has a device of its group's grant. */
  lemma LivePeHasNode(s: State, g: nat, p: nat)
    requires Reachable(s) && HasPe(s, g, p) && s.groups[g].pes[p].state != Exited && s.groups[g].phase != Hosting
    ensures exists node: nat ::
            LiveAt(s, g, p, node) && node < |s.nodes| && s.groups[g].level in s.nodes[node].recLevels
  {
    hide LiveCount, QueueOk, AllLinked;
    ReachableInv(s);
    var x := s.groups[g];
    assert LocalOk(x) && PeOk(x, p);
    NoneLive(x.pes);
    var node := x.res[x.pes[p].device];
    assert Marked(s.nodes, Standings(s.groups)[g]) && node in Standings(s.groups)[g].on;
    assert LiveAt(s, g, p, node);
  }

  /** Even when one request fails, the guard of the spawn call, which would report a PE that does not exist, never
      fires: a PE is counted exactly when the agent started it, and never more than the maximum. Every device of the
      grant gets one turn, and every request uses up one id. */
  lemma EverySpawnIsReal(s: State, g: nat, ok: bool)
    requires Reachable(s) && Enabled(s, Spawn(g, ok))
    ensures var x, t := s.groups[g], Next(s, Spawn(g, ok));
            && t.nodes == s.nodes && t.queues == s.queues && t.posted == s.posted && |t.groups| == |s.groups|
            && (forall h :: 0 <= h < |s.groups| && h != g ==> t.groups[h] == s.groups[h])
            && t.groups[g].phase == Spawning(x.phase.idx + 1) && t.groups[g].res == x.res
            && t.groups[g].spawned == |t.groups[g].pes| <= Max(x)
            && if x.spawned == Max(x) then t.groups[g].pes == x.pes && t.groups[g].peids == x.peids
               else
                 && MaxPeid(x) < Max(x) && x.peids <= Max(x) && t.groups[g].peids == x.peids + 1
                 && t.groups[g].pes == x.pes + if ok then [Pe(x.phase.idx, [], Running)] else []
  {
    hide LiveCount, QueueOk, AllLinked, NodesOk;
    ReachableInv(s);
    assert LocalOk(s.groups[g]);
  }

  // ---------------------------------------------------------------- how many nodes a launch gets

  /** A node without a group of this level, on which a device can be created. */
  predicate FreeNode(nodes: seq<Resource>, created: seq<bool>, level: int, i: nat) {
    i < |nodes| && i < |created| && level !in nodes[i].recLevels && created[i]
  }

  predicate NoneFree(nodes: seq<Resource>, created: seq<bool>, level: int, from: nat, to: nat) {
    forall i :: from <= i < to ==> !FreeNode(nodes, created, level, i)
  }

  /** All the free nodes among the first `n` when there are at most two, and else the first two of them. */
  predicate FirstTwo(nodes: seq<Resource>, created: seq<bool>, level: int, n: nat, res: seq<nat>) {
    if res == [] then NoneFree(nodes, created, level, 0, n)
    else
      && FreeNode(nodes, created, level, res[0]) && NoneFree(nodes, created, level, 0, res[0])
      && if |res| == 1 then NoneFree(nodes, created, level, res[0] + 1, n)
         else
           |res| == 2 && res[0] < res[1] && FreeNode(nodes, created, level, res[1])
           && NoneFree(nodes, created, level, res[0] + 1, res[1])
  }

  lemma {:induction false} PicksFirstTwo(nodes: seq<Resource>, created: seq<bool>, level: int, n: nat)
    requires n <= |nodes| <= |created|
    ensures FirstTwo(nodes, created, level, n, Picks(nodes, level, DEF_RES_CNT, created, n))
  {
    if n > 0 {
      PicksFirstTwo(nodes, created, level, n - 1);
    }
  }

  /** One iteration of a job's thread, in terms of nodes alone: the head of its list starts on the first two free nodes,
      or the only one, and when there is none it goes to the back and everything else stays as it was. */
  predicate HeadServed(s: State, j: nat, created: seq<bool>, t: State) {
    && j < |s.queues| && j < |s.posted| && j < |t.queues| && |t.groups| == |s.groups|
    && var list := ListAfterPoll(s, j);
       && list != [] && list[0] < |s.groups|
       && var level, x := s.groups[list[0]].level, t.groups[list[0]];
          if NoneFree(s.nodes, created, level, 0, |s.nodes|) then
            x.phase == Queued && t.groups == s.groups && t.nodes == s.nodes && t.queues[j] == list[1..] + [list[0]]
          else
            x.phase == Spawning(0) && FirstTwo(s.nodes, created, level, |s.nodes|, x.res) && t.queues[j] == list[1..]
  }

  lemma HeadGetsFirstTwo(s: State, j: nat, created: seq<bool>)
    requires Inv(s) && Enabled(s, Attempt(j, created))
    ensures HeadServed(s, j, created, Next(s, Attempt(j, created)))
  {
    hide Picks, Inv, Enabled, Next, FreeNode;
    AttemptKeeps(s, j, created);
    HeadWaits(s, j, created);
    PicksFirstTwo(s.nodes, created, s.groups[ListAfterPoll(s, j)[0]].level, |s.nodes|);
    NodeIndices(s.nodes, created, s.groups[ListAfterPoll(s, j)[0]].level);
  }

  lemma NodeIndices(nodes: seq<Resource>, created: seq<bool>, level: int)
    ensures forall i: nat :: FreeNode(nodes, created, level, i) ==> i < |nodes|
  {
  }

  /** The head of the list waits. */
  lemma HeadWaits(s: State, j: nat, created: seq<bool>)
    requires Inv(s) && Enabled(s, Attempt(j, created)) && j < |s.queues| && j < |s.posted|
    ensures ListAfterPoll(s, j) != [] && ListAfterPoll(s, j)[0] < |s.groups|
    ensures s.groups[ListAfterPoll(s, j)[0]].phase == Queued
  {
    hide NodesOk, AllLinked, AllOwned, GroupsOk, QueueOk, Picks;
    PollKeeps(s, j);
    HeadQueued(Polled(s, j), j);
  }

  /** No group is ever on more than two nodes, or has more than two live PEs. */
  lemma AtMostTwo(s: State, g: nat)
    requires Reachable(s) && g < |s.groups|
    ensures (s.groups[g].phase.Spawning? || s.groups[g].phase.Waiting? || s.groups[g].phase.Acked?) ==>
              1 <= |s.groups[g].res| <= 2
    ensures LiveCount(s.groups[g].pes) <= 2
  {
    hide LiveCount, QueueOk, AllLinked, NodesOk, AllOwned;
    ReachableInv(s);
    assert LocalOk(s.groups[g]);
    LiveAtMost(s.groups[g].pes);
  }

  lemma {:induction false} LiveAtMost(pes: seq<Pe>)
    ensures LiveCount(pes) <= |pes|
  {
    if pes != [] {
      LiveAtMost(pes[..|pes| - 1]);
    }
  }
}
