/** Nested launches: queued groups, granted groups spawning PEs in rounds, and PEs that launch a
    child group and block until it is acknowledged. One action is one step of one thread. */
module Launch {
  import opened Resources

  /** A computation runs one program per PE; a program launches computations, one after the other. */
  datatype Comp = Comp(pes: seq<Program>)
  datatype Program = Program(launches: seq<Comp>)

  datatype PeState = Running | Blocked | Exited

  /** `device` indexes the group's grant; `children` are the groups this PE has launched. */
  datatype Pe = Pe(device: nat, children: seq<nat>, state: PeState)

  /** Hosting: the main program of a job. The others follow the group's thread. */
  datatype Phase = Hosting | Queued | Spawning(idx: nat) | Waiting(left: nat) | Acked | Retired

  /** Which launch of which PE of which group created this group. */
  datatype Parent = Parent(gid: nat, pe: nat, slot: nat)

  /** `agentLevel` is the level the agent of each granted device was told; `spawned` and `active` are the
      group thread's counters, `peids` the id counter, `events` the PE exits not yet taken. */
  datatype Group = Group(job: nat, parent: Parent, comp: Comp, level: int, phase: Phase,
                         res: seq<nat>, agentLevel: seq<int>,
                         spawned: nat, peids: nat, active: nat, pes: seq<Pe>, events: nat)

  /** `groups` is indexed by group id and begins with one main program per job. Per job, `posted` are the start events
      the job's thread has not polled yet, and `queues` the list it keeps itself. */
  datatype State = State(nodes: seq<Resource>, groups: seq<Group>, queues: seq<seq<nat>>, posted: seq<seq<nat>>)

  const DEF_RES_CNT: nat := 2

  predicate Done(x: Group) { x.phase.Acked? || x.phase.Retired? }

  predicate Holds(x: Group) { x.phase.Spawning? || x.phase.Waiting? || x.phase.Acked? }

  function Max(x: Group): nat { |x.comp.pes| }

  function Prog(x: Group, p: nat): seq<Comp> { if p < |x.comp.pes| then x.comp.pes[p].launches else [] }

  function MainGroup(job: nat, prog: Program): Group {
    Group(job, Parent(job, 0, 0), Comp([prog]), -1, Hosting, [], [0], 1, 1, 1, [Pe(0, [], Running)], 0)
  }

  function Init(n: nat, mains: seq<Program>): State {
    State(seq(n, _ => Resource(0, [])),
          seq(|mains|, j requires 0 <= j < |mains| => MainGroup(j, mains[j])),
          seq(|mains|, _ => []), seq(|mains|, _ => []))
  }

  // ---------------------------------------------------------------- steps of one group's thread and PEs

  function NewGroup(job: nat, parent: Parent, comp: Comp, level: int): Group {
    Group(job, parent, comp, level, Queued, [], [], 0, 0, 0, [], 0)
  }

  /** The level in the launch request: the agent of the PE's device echoes what it was told at its creation. */
  function WireLevel(x: Group, p: nat): int
    requires p < |x.pes| && x.pes[p].device < |x.agentLevel|
  {
    x.agentLevel[x.pes[p].device]
  }

  function SetPe(x: Group, p: nat, pe: Pe): Group
    requires p < |x.pes|
  {
    x.(pes := x.pes[p := pe])
  }

  function LaunchPe(pe: Pe, child: nat): Pe { Pe(pe.device, pe.children + [child], Blocked) }

  function ExitPe(x: Group, p: nat): Group
    requires p < |x.pes|
  {
    SetPe(x, p, x.pes[p].(state := Exited)).(events := x.events + 1)
  }

  /** The device is created with the group's level plus one. */
  function GrantTo(x: Group, grant: seq<nat>): Group {
    x.(phase := Spawning(0), active := 0, res := grant, agentLevel := seq(|grant|, _ => x.level + 1))
  }

  function MaxPeid(x: Group): nat { if x.peids > 0 then x.peids - 1 else 0 }

  /** One turn of the spawn loop; `ok` tells whether the agent can start the PE. When the guard in the spawn call
      fires, the call reports success without a PE; when the agent fails, the id is used up. */
  function SpawnOn(x: Group, ok: bool): Group
    requires x.phase.Spawning?
  {
    var idx := x.phase.idx;
    if x.spawned >= Max(x) then x.(phase := Spawning(idx + 1))
    else if MaxPeid(x) >= Max(x) then
      x.(phase := Spawning(idx + 1), spawned := x.spawned + 1, active := x.active + 1)
    else if !ok then
      x.(phase := Spawning(idx + 1), peids := x.peids + 1)
    else
      x.(phase := Spawning(idx + 1), spawned := x.spawned + 1, active := x.active + 1,
         peids := x.peids + 1, pes := x.pes + [Pe(idx, [], Running)])
  }

  function EndRound(x: Group): Group { x.(phase := Waiting(x.active)) }

  function TakeEvent(x: Group): Group
    requires x.phase.Waiting? && x.phase.left > 0 && x.events > 0
  {
    x.(phase := Waiting(x.phase.left - 1), events := x.events - 1)
  }

  function NextRound(x: Group): Group {
    if x.spawned < Max(x) then x.(phase := Spawning(0), active := 0) else x.(phase := Acked)
  }

  // ---------------------------------------------------------------- the system

  datatype Action =
    | Start(gid: nat, pe: nat)
    | Resume(gid: nat, pe: nat)
    | Exit(gid: nat, pe: nat)
    | Attempt(job: nat, created: seq<bool>)
    | Spawn(gid: nat, ok: bool)
    | Close(gid: nat)
    | Take(gid: nat)
    | Again(gid: nat)
    | Return(gid: nat)

  predicate HasPe(s: State, g: nat, p: nat) { g < |s.groups| && p < |s.groups[g].pes| }

  /** An iteration of the job's thread begins by taking over one event, when there is one. */
  function Polled(s: State, j: nat): State {
    if j < |s.queues| && j < |s.posted| && s.posted[j] != [] then
      s.(queues := s.queues[j := s.queues[j] + [s.posted[j][0]]], posted := s.posted[j := s.posted[j][1..]])
    else s
  }

  /** The head of a job's list, when there is one. */
  predicate HasHead(s: State, j: nat) {
    j < |s.queues| && s.queues[j] != [] && s.queues[j][0] < |s.groups|
  }

  function HeadGrant(s: State, j: nat, created: seq<bool>): seq<nat>
    requires HasHead(s, j) && |s.nodes| <= |created|
  {
    Picks(s.nodes, s.groups[s.queues[j][0]].level, DEF_RES_CNT, created, |s.nodes|)
  }

  /** A group's spawn requests fail at most once. */
  predicate Enabled(s: State, a: Action) {
    match a
    case Start(g, p) =>
      HasPe(s, g, p) && s.groups[g].pes[p].state == Running && s.groups[g].pes[p].device < |s.groups[g].agentLevel|
      && |s.groups[g].pes[p].children| < |Prog(s.groups[g], p)| && s.groups[g].job < |s.posted|
    case Resume(g, p) =>
      HasPe(s, g, p) && s.groups[g].pes[p].state == Blocked && s.groups[g].pes[p].children != []
      && (var c := s.groups[g].pes[p].children[|s.groups[g].pes[p].children| - 1];
          c < |s.groups| && Done(s.groups[c]))
    case Exit(g, p) =>
      HasPe(s, g, p) && s.groups[g].pes[p].state == Running
      && |s.groups[g].pes[p].children| == |Prog(s.groups[g], p)|
    case Attempt(j, created) => HasHead(Polled(s, j), j) && |created| == |s.nodes|
    case Spawn(g, ok) =>
      g < |s.groups| && s.groups[g].phase.Spawning? && s.groups[g].phase.idx < |s.groups[g].res|
      && (ok || s.groups[g].peids == |s.groups[g].pes|)
    case Close(g) => g < |s.groups| && s.groups[g].phase.Spawning? && s.groups[g].phase.idx == |s.groups[g].res|
    case Take(g) =>
      g < |s.groups| && s.groups[g].phase.Waiting? && s.groups[g].phase.left > 0 && s.groups[g].events > 0
    case Again(g) => g < |s.groups| && s.groups[g].phase.Waiting? && s.groups[g].phase.left == 0
    case Return(g) =>
      g < |s.groups| && s.groups[g].phase.Acked? && forall i :: i in s.groups[g].res ==> i < |s.nodes|
  }

  function Put(s: State, g: nat, x: Group): State
    requires g < |s.groups|
  {
    s.(groups := s.groups[g := x])
  }

  /** A launch creates the child group at the level on the wire and posts its start event to the job's thread. */
  function Launched(s: State, g: nat, p: nat): State
    requires Enabled(s, Start(g, p))
  {
    var x := s.groups[g];
    var c := |s.groups|;
    var k := |x.pes[p].children|;
    State(s.nodes,
          s.groups[g := SetPe(x, p, LaunchPe(x.pes[p], c))]
            + [NewGroup(x.job, Parent(g, p, k), Prog(x, p)[k], WireLevel(x, p))],
          s.queues,
          s.posted[x.job := s.posted[x.job] + [c]])
  }

  /** The job's thread tries the head of its list: granted at least one node it starts, otherwise it goes to the back.
      */
  function Tried(s: State, j: nat, created: seq<bool>): State
    requires HasHead(s, j) && |created| == |s.nodes|
  {
    var h, rest := s.queues[j][0], s.queues[j][1..];
    var grant := HeadGrant(s, j, created);
    if grant == [] then s.(queues := s.queues[j := rest + [h]])
    else
      s.(nodes := Granted(s.nodes, grant, s.groups[h].level),
         groups := s.groups[h := GrantTo(s.groups[h], grant)],
         queues := s.queues[j := rest])
  }

  function Next(s: State, a: Action): State
    requires Enabled(s, a)
  {
    match a
    case Start(g, p) => Launched(s, g, p)
    case Resume(g, p) => Put(s, g, SetPe(s.groups[g], p, s.groups[g].pes[p].(state := Running)))
    case Exit(g, p) => Put(s, g, ExitPe(s.groups[g], p))
    case Attempt(j, created) => Tried(Polled(s, j), j, created)
    case Spawn(g, ok) => Put(s, g, SpawnOn(s.groups[g], ok))
    case Close(g) => Put(s, g, EndRound(s.groups[g]))
    case Take(g) => Put(s, g, TakeEvent(s.groups[g]))
    case Again(g) => Put(s, g, NextRound(s.groups[g]))
    case Return(g) =>
      Put(s, g, s.groups[g].(phase := Retired)).(nodes := Released(s.nodes, s.groups[g].res, s.groups[g].level))
  }

  // ---------------------------------------------------------------- what one group keeps

  function LiveCount(pes: seq<Pe>): nat {
    if pes == [] then 0
    else LiveCount(pes[..|pes| - 1]) + if pes[|pes| - 1].state == Exited then 0 else 1
  }

  predicate PeOk(x: Group, p: nat)
    requires p < |x.pes|
  {
    var pe := x.pes[p];
    pe.device < |x.agentLevel| && |pe.children| <= |Prog(x, p)|
    && (pe.state == Exited ==> |pe.children| == |Prog(x, p)|)
    && (pe.state == Blocked ==> pe.children != [])
  }

  /** The PEs of this round sit on devices of their own among the first `used`; those of earlier rounds have exited. */
  predicate RoundOk(x: Group, used: nat) {
    |x.agentLevel| == |x.res| && 1 <= |x.res| <= DEF_RES_CNT && x.active <= |x.pes| && x.active <= used <= |x.res|
    && (forall i :: 0 <= i < |x.pes| - x.active ==> x.pes[i].state == Exited)
    && (forall i :: |x.pes| - x.active <= i < |x.pes| ==> x.pes[i].device < used)
    && (forall i, j :: |x.pes| - x.active <= i < j < |x.pes| ==> x.pes[i].device < x.pes[j].device)
  }

  predicate PhaseOk(x: Group) {
    match x.phase
    case Hosting => |x.pes| == |x.comp.pes| == 1 && x.level == -1 && x.res == []
    case Queued => x.pes == [] && x.events == 0
    case Spawning(idx) => RoundOk(x, idx) && LiveCount(x.pes) + x.events == x.active
    case Waiting(left) => RoundOk(x, |x.res|) && left <= x.active && LiveCount(x.pes) + x.events == left
    case Acked => RoundOk(x, |x.res|) && |x.pes| == Max(x) && LiveCount(x.pes) == x.events == 0
    case Retired => |x.pes| == Max(x) && LiveCount(x.pes) == x.events == 0
  }

  predicate LocalOk(x: Group) {
    x.spawned == |x.pes| <= Max(x) && |x.pes| <= x.peids <= |x.pes| + 1 && (x.phase == Hosting || x.level >= 0)
    && (forall p :: 0 <= p < |x.pes| ==> PeOk(x, p))
    && (forall d :: 0 <= d < |x.agentLevel| ==> x.agentLevel[d] == x.level + 1)
    && PhaseOk(x)
  }

  lemma {:induction false} LiveSet(pes: seq<Pe>, p: nat, pe: Pe)
    requires p < |pes|
    ensures LiveCount(pes[p := pe])
            == LiveCount(pes) + (if pe.state == Exited then 0 else 1) - if pes[p].state == Exited then 0 else 1
  {
    var n := |pes| - 1;
    if p < n {
      assert pes[p := pe][..n] == pes[..n][p := pe];
      LiveSet(pes[..n], p, pe);
    } else {
      assert pes[p := pe][..n] == pes[..n];
    }
  }

  lemma LiveAdd(pes: seq<Pe>, pe: Pe)
    ensures LiveCount(pes + [pe]) == LiveCount(pes) + if pe.state == Exited then 0 else 1
  {
    assert (pes + [pe])[..|pes|] == pes;
  }

  /** No live PE is left exactly when every PE has exited. */
  lemma {:induction false} NoneLive(pes: seq<Pe>)
    ensures LiveCount(pes) == 0 <==> forall p :: 0 <= p < |pes| ==> pes[p].state == Exited
  {
    if pes != [] {
      var n := |pes| - 1;
      NoneLive(pes[..n]);
      if LiveCount(pes[..n]) == 0 {
        assert forall p :: 0 <= p < n ==> pes[p] == pes[..n][p];
      } else {
        var p :| 0 <= p < n && pes[..n][p].state != Exited;
        assert pes[p].state != Exited;
      }
    }
  }

  lemma SetPeLocal(x: Group, p: nat, pe: Pe)
    requires LocalOk(x) && p < |x.pes| && pe.device == x.pes[p].device
    requires x.pes[p].state != Exited && pe.state != Exited
    requires |pe.children| <= |Prog(x, p)| && (pe.state == Blocked ==> pe.children != [])
    ensures LocalOk(SetPe(x, p, pe))
  {
    hide LiveCount;
    LiveSet(x.pes, p, pe);
    NoneLive(x.pes);
    var y := SetPe(x, p, pe);
    forall q | 0 <= q < |y.pes| ensures PeOk(y, q) {
      assert PeOk(x, q);
    }
  }

  lemma ExitLocal(x: Group, p: nat)
    requires LocalOk(x) && p < |x.pes| && x.pes[p].state == Running && |x.pes[p].children| == |Prog(x, p)|
    ensures LocalOk(ExitPe(x, p))
  {
    hide LiveCount;
    LiveSet(x.pes, p, x.pes[p].(state := Exited));
    NoneLive(x.pes);
    var y := ExitPe(x, p);
    forall q | 0 <= q < |y.pes| ensures PeOk(y, q) {
      assert PeOk(x, q);
    }
  }

  lemma SpawnLocal(x: Group, ok: bool)
    requires LocalOk(x) && x.phase.Spawning? && x.phase.idx < |x.res| && (ok || x.peids == |x.pes|)
    ensures LocalOk(SpawnOn(x, ok))
    ensures SpawnOn(x, ok).pes == if ok && x.spawned < Max(x) then x.pes + [Pe(x.phase.idx, [], Running)] else x.pes
  {
    hide LiveCount;
    var idx, y := x.phase.idx, SpawnOn(x, ok);
    LiveAdd(x.pes, Pe(idx, [], Running));
    forall q | 0 <= q < |y.pes| ensures PeOk(y, q) {
      if q < |x.pes| {
        assert PeOk(x, q) && y.pes[q] == x.pes[q];
      }
    }
  }

  /** A step of the group's thread that leaves its PEs alone. */
  lemma SamePesOk(x: Group, y: Group)
    requires y.pes == x.pes && y.comp == x.comp && y.agentLevel == x.agentLevel
    ensures (forall p :: 0 <= p < |x.pes| ==> PeOk(x, p)) ==> forall p :: 0 <= p < |y.pes| ==> PeOk(y, p)
  {
    if forall p :: 0 <= p < |x.pes| ==> PeOk(x, p) {
      forall p | 0 <= p < |y.pes| ensures PeOk(y, p) {
        assert PeOk(x, p);
      }
    }
  }

  lemma CloseLocal(x: Group)
    requires LocalOk(x) && x.phase.Spawning? && x.phase.idx == |x.res|
    ensures LocalOk(EndRound(x))
  {
    hide LiveCount, PeOk;
    SamePesOk(x, EndRound(x));
  }

  lemma TakeLocal(x: Group)
    requires LocalOk(x) && x.phase.Waiting? && x.phase.left > 0 && x.events > 0
    ensures LocalOk(TakeEvent(x))
  {
    hide LiveCount, PeOk;
    SamePesOk(x, TakeEvent(x));
  }

  lemma AgainLocal(x: Group)
    requires LocalOk(x) && x.phase.Waiting? && x.phase.left == 0
    ensures LocalOk(NextRound(x))
  {
    hide LiveCount, PeOk;
    NoneLive(x.pes);
    SamePesOk(x, NextRound(x));
  }

  lemma RetireLocal(x: Group)
    requires LocalOk(x) && x.phase.Acked?
    ensures LocalOk(x.(phase := Retired))
  {
    hide LiveCount, PeOk;
    SamePesOk(x, x.(phase := Retired));
  }

  // ---------------------------------------------------------------- parents and children

  /** The children of PE `p` of group `g`: each is the group its launch created, one level down, and every
      one but the one a blocked PE waits for is acknowledged. */
  predicate PeLinked(gs: seq<Group>, g: nat, x: Group, p: nat)
    requires p < |x.pes|
  {
    var pe := x.pes[p];
    forall k :: 0 <= k < |pe.children| ==>
      g < pe.children[k] < |gs| && ChildOf(gs[pe.children[k]], g, x, p, k)
      && (k < |pe.children| - 1 || pe.state != Blocked ==> Done(gs[pe.children[k]]))
  }

  predicate ChildOf(y: Group, g: nat, x: Group, p: nat, k: nat) {
    k < |Prog(x, p)| && y.parent == Parent(g, p, k) && y.comp == Prog(x, p)[k]
    && y.level == x.level + 1 && y.job == x.job
  }

  predicate Linked(gs: seq<Group>, g: nat, x: Group) {
    forall p :: 0 <= p < |x.pes| ==> PeLinked(gs, g, x, p)
  }

  predicate AllLinked(gs: seq<Group>) { forall g :: 0 <= g < |gs| ==> Linked(gs, g, gs[g]) }

  /** What no step takes from a group. */
  predicate Keeps(x: Group, y: Group) {
    y.job == x.job && y.parent == x.parent && y.comp == x.comp && y.level == x.level && (Done(x) ==> Done(y))
  }

  lemma LinkedSet(gs: seq<Group>, g: nat, x: Group)
    requires g < |gs| && AllLinked(gs) && Keeps(gs[g], x) && Linked(gs, g, x)
    ensures AllLinked(gs[g := x])
  {
    hide ChildOf, Done;
    var t := gs[g := x];
    forall h | 0 <= h < |t| ensures Linked(t, h, t[h]) {
      forall p | 0 <= p < |t[h].pes| ensures PeLinked(t, h, t[h], p) {
        PeLinkedSet(gs, g, x, h, t[h], p);
      }
    }
  }

  lemma PeLinkedSet(gs: seq<Group>, g: nat, x: Group, h: nat, y: Group, p: nat)
    requires g < |gs| && Keeps(gs[g], x) && p < |y.pes| && PeLinked(gs, h, y, p)
    ensures PeLinked(gs[g := x], h, y, p)
  {
    var t, pe := gs[g := x], y.pes[p];
    forall k | 0 <= k < |pe.children|
      ensures h < pe.children[k] < |t| && ChildOf(t[pe.children[k]], h, y, p, k)
      ensures k < |pe.children| - 1 || pe.state != Blocked ==> Done(t[pe.children[k]])
    {
      assert ChildOf(gs[pe.children[k]], h, y, p, k);
    }
  }

  lemma LinkedAdd(gs: seq<Group>, x: Group)
    requires AllLinked(gs) && x.pes == []
    ensures AllLinked(gs + [x])
  {
    hide ChildOf, Done;
    var t := gs + [x];
    forall h | 0 <= h < |t| ensures Linked(t, h, t[h]) {
      if h < |gs| {
        assert Linked(gs, h, gs[h]);
        forall p | 0 <= p < |t[h].pes| ensures PeLinked(t, h, t[h], p) {
          assert PeLinked(gs, h, gs[h], p);
        }
      }
    }
  }

  /** The launch recorded as a group's parent is that group's. */
  predicate Owned(gs: seq<Group>, g: nat)
    requires g < |gs|
  {
    var up := gs[g].parent;
    up.gid < g && up.pe < |gs[up.gid].pes| && up.slot < |gs[up.gid].pes[up.pe].children|
    && gs[up.gid].pes[up.pe].children[up.slot] == g
  }

  predicate AllOwned(gs: seq<Group>, jobs: nat) { forall g :: jobs <= g < |gs| ==> Owned(gs, g) }

  predicate KeepsLaunches(x: Group, y: Group) {
    |x.pes| <= |y.pes| && forall p :: 0 <= p < |x.pes| ==> x.pes[p].children <= y.pes[p].children
  }

  lemma OwnedSet(gs: seq<Group>, g: nat, x: Group, jobs: nat)
    requires g < |gs| && AllOwned(gs, jobs) && Keeps(gs[g], x) && KeepsLaunches(gs[g], x)
    ensures AllOwned(gs[g := x], jobs)
  {
    var t := gs[g := x];
    forall h | jobs <= h < |t| ensures Owned(t, h) {
      assert Owned(gs, h);
    }
  }

  // ---------------------------------------------------------------- the queues

  /** What the queues know of a group: its job, and whether it waits for nodes. */
  datatype Ticket = Ticket(job: nat, waits: bool)

  function Tickets(gs: seq<Group>): (ts: seq<Ticket>)
    ensures |ts| == |gs| && forall g :: 0 <= g < |gs| ==> ts[g] == Ticket(gs[g].job, gs[g].phase == Queued)
  {
    seq(|gs|, g requires 0 <= g < |gs| => Ticket(gs[g].job, gs[g].phase == Queued))
  }

  /** A job's list followed by the events not polled yet. */
  function Lined(s: State, j: nat): seq<nat> {
    if j < |s.queues| && j < |s.posted| then s.queues[j] + s.posted[j] else []
  }

  function Lines(s: State): (ls: seq<seq<nat>>)
    ensures |ls| == |s.queues| && forall j :: 0 <= j < |ls| ==> ls[j] == Lined(s, j)
  {
    seq(|s.queues|, j requires 0 <= j < |s.queues| => Lined(s, j))
  }

  predicate OfJob(line: seq<nat>, ts: seq<Ticket>, j: nat) {
    Unique(line) && forall g :: g in line ==> g < |ts| && ts[g] == Ticket(j, true)
  }

  /** Each line has, once, exactly the job's groups that wait for nodes. */
  predicate QueueFit(lines: seq<seq<nat>>, ts: seq<Ticket>) {
    (forall j :: 0 <= j < |lines| ==> OfJob(lines[j], ts, j))
    && (forall g :: 0 <= g < |ts| ==> ts[g].job < |lines| && (ts[g].waits ==> g in lines[ts[g].job]))
  }

  predicate QueueOk(s: State) { |s.posted| == |s.queues| && QueueFit(Lines(s), Tickets(s.groups)) }

  // ---------------------------------------------------------------- who is on which node

  /** What a group's thread holds: its level, and its nodes until it has released them. */
  datatype Standing = Standing(level: int, on: seq<nat>)

  function StandingOf(x: Group): Standing { Standing(x.level, if Holds(x) then x.res else []) }

  function Standings(gs: seq<Group>): (st: seq<Standing>)
    ensures |st| == |gs| && forall g :: 0 <= g < |gs| ==> st[g] == StandingOf(gs[g])
  {
    seq(|gs|, g requires 0 <= g < |gs| => StandingOf(gs[g]))
  }

  predicate OnNode(x: Standing, level: int, i: nat) { x.level == level && i in x.on }

  predicate Somebody(st: seq<Standing>, level: int, i: nat) {
    exists g :: 0 <= g < |st| && OnNode(st[g], level, i)
  }

  predicate Marked(nodes: seq<Resource>, x: Standing) {
    forall i :: i in x.on ==> i < |nodes| && x.level in nodes[i].recLevels
  }

  /** Two groups of one level never share a node. */
  predicate Apart(x: Standing, y: Standing) {
    x.level == y.level ==> forall i :: i in x.on ==> i !in y.on
  }

  /** A level is on a node exactly when a group of that level holds the node, and then one group only. */
  predicate NodesFit(nodes: seq<Resource>, st: seq<Standing>) {
    AllConsistent(nodes)
    && (forall g :: 0 <= g < |st| ==> Marked(nodes, st[g]))
    && (forall i, level :: 0 <= i < |nodes| && level in nodes[i].recLevels ==> Somebody(st, level, i))
    && (forall g, h :: 0 <= g < |st| && 0 <= h < |st| && g != h ==> Apart(st[g], st[h]))
    && (forall g :: 0 <= g < |st| ==> Unique(st[g].on))
  }

  predicate NodesOk(s: State) { NodesFit(s.nodes, Standings(s.groups)) }

  predicate GroupsOk(gs: seq<Group>, jobs: nat) {
    jobs <= |gs| && (forall g :: 0 <= g < |gs| ==>
      LocalOk(gs[g]) && (gs[g].phase == Hosting <==> g < jobs) && (g < jobs ==> gs[g].job == g))
  }

  ghost predicate Inv(s: State) {
    GroupsOk(s.groups, |s.queues|) && AllLinked(s.groups) && AllOwned(s.groups, |s.queues|) && QueueOk(s) && NodesOk(s)
  }
}
