/** The recursion scheduler's node list, shared by groups of different recursion levels. */
module Resources {
  import opened Seqs

  /** One node: the levels of the groups that occupy it, and how many there are. */
  datatype Resource = Resource(numOccupants: int, recLevels: seq<int>)

  predicate Distinct(s: seq<int>) { forall i, j :: 0 <= i < j < |s| ==> s[i] != s[j] }

  predicate Consistent(r: Resource) { r.numOccupants == |r.recLevels| && Distinct(r.recLevels) }

  predicate AllConsistent(rs: seq<Resource>) { forall i :: 0 <= i < |rs| ==> Consistent(rs[i]) }

  // ---------------------------------------------------------------- what a grant takes

  predicate Takes(rs: seq<Resource>, level: int, created: seq<bool>, i: nat)
    requires i < |rs| <= |created|
  {
    level !in rs[i].recLevels && created[i]
  }

  /** The nodes among the first `n` that a request at `level` takes when it wants `req` of them:
      in list order, each that has no group of that level and on which a device can be created. */
  function Picks(rs: seq<Resource>, level: int, req: nat, created: seq<bool>, n: nat): (g: seq<nat>)
    requires n <= |rs| <= |created|
    ensures forall i :: i in g ==> i < n
    ensures forall i :: 0 <= i < |g| ==> g[i] < n
    ensures Unique(g)
  {
    if n == 0 then []
    else
      var g := Picks(rs, level, req, created, n - 1);
      if |g| < req && Takes(rs, level, created, n - 1) then g + [n - 1] else g
  }

  predicate Unique(g: seq<nat>) { forall i, j :: 0 <= i < j < |g| ==> g[i] != g[j] }

  function Enter(r: Resource, level: int): Resource {
    Resource(r.numOccupants + 1, r.recLevels + [level])
  }

  /** A group of `level` leaves a node: its level is struck out where it is found; the counter drops in any case. */
  function Leave(r: Resource, level: int): Resource {
    Resource(r.numOccupants - 1, Without(r.recLevels, level))
  }

  function Granted(rs: seq<Resource>, g: seq<nat>, level: int): (r: seq<Resource>)
    requires forall i :: i in g ==> i < |rs|
    ensures |r| == |rs|
    ensures forall i :: 0 <= i < |rs| ==> r[i] == if i in g then Enter(rs[i], level) else rs[i]
  {
    seq(|rs|, i requires 0 <= i < |rs| => if i in g then Enter(rs[i], level) else rs[i])
  }

  function Released(rs: seq<Resource>, g: seq<nat>, level: int): (r: seq<Resource>)
    requires forall i :: i in g ==> i < |rs|
    ensures |r| == |rs|
    ensures forall i :: 0 <= i < |rs| ==> r[i] == if i in g then Leave(rs[i], level) else rs[i]
  {
    seq(|rs|, i requires 0 <= i < |rs| => if i in g then Leave(rs[i], level) else rs[i])
  }

  /** Every node below `n` that the level could take, in list order. */
  function FreeList(rs: seq<Resource>, level: int, created: seq<bool>, n: nat): (f: seq<nat>)
    requires n <= |rs| <= |created|
    ensures forall i :: 0 <= i < |f| ==> f[i] < n
    ensures forall i, j :: 0 <= i < j < |f| ==> f[i] < f[j]
  {
    if n == 0 then []
    else
      var f := FreeList(rs, level, created, n - 1);
      if Takes(rs, level, created, n - 1) then f + [n - 1] else f
  }

  lemma {:induction false} FreeListIsFree(rs: seq<Resource>, level: int, created: seq<bool>, n: nat)
    requires n <= |rs| <= |created|
    ensures forall k: nat :: k in FreeList(rs, level, created, n) <==> k < n && Takes(rs, level, created, k)
  {
    if n > 0 {
      FreeListIsFree(rs, level, created, n - 1);
    }
  }

  function Min(a: nat, b: nat): nat { if a <= b then a else b }

  /** A grant is exactly the first min(requested, free at this level) free nodes. */
  lemma {:induction false} GrantTakesFirstFree(rs: seq<Resource>, level: int, req: nat, created: seq<bool>, n: nat)
    requires n <= |rs| <= |created|
    ensures var f := FreeList(rs, level, created, n);
            Picks(rs, level, req, created, n) == f[..Min(req, |f|)]
  {
    if n > 0 {
      GrantTakesFirstFree(rs, level, req, created, n - 1);
      hide Takes;
      var f0, f := FreeList(rs, level, created, n - 1), FreeList(rs, level, created, n);
      assert f[..|f0|] == f0;
      assert req <= |f0| ==> f[..req] == f0[..req];
      assert |f| <= req ==> f[..|f|] == f;
    }
  }

  lemma {:induction false} WithoutMember(s: seq<int>, x: int)
    requires Distinct(s)
    ensures forall y :: y in Without(s, x) <==> y in s && y != x
    ensures Distinct(Without(s, x))
    ensures |Without(s, x)| == if x in s then |s| - 1 else |s|
  {
    if x in s {
      var j :| 0 <= j < |s| && s[j] == x;
      var a, b := s[..j], s[j + 1..];
      assert x !in a && x !in b;
      WithoutAt(s, x, j);
      forall y ensures y in a + b <==> y in s && y != x {
        assert s == a + [x] + b;
      }
    } else {
      WithoutNone(s, x);
    }
  }

  // ---------------------------------------------------------------- the list in place

  class ResourceList {
    const list: array<Resource>

    ghost predicate Valid()
      reads list
    {
      AllConsistent(list[..])
    }

    constructor (n: nat)
      ensures Valid() && fresh(list) && list[..] == seq(n, _ => Resource(0, []))
    {
      list := new Resource[n](_ => Resource(0, []));
      new;
      assert list[..] == seq(n, _ => Resource(0, []));
    }

    /** Is a group of this level already on the node? */
    method Occupied(idx: nat, level: int) returns (deny: bool)
      requires idx < list.Length && list[idx].numOccupants == |list[idx].recLevels|
      ensures deny <==> level in list[idx].recLevels
    {
      deny := false;
      if list[idx].numOccupants > 0 {
        var j := 0;
        while j < list[idx].numOccupants && !deny
          invariant 0 <= j <= |list[idx].recLevels|
          invariant deny <==> level in list[idx].recLevels[..j]
        {
          deny := list[idx].recLevels[j] == level;
          j := j + 1;
        }
        assert !deny ==> list[idx].recLevels[..j] == list[idx].recLevels;
      }
    }

    /** `created[i]` tells whether a device can be created on node `i`. */
    method FindExecRes(level: int, reqNum: nat, created: seq<bool>) returns (grant: seq<nat>)
      requires Valid() && list.Length <= |created|
      modifies list
      ensures grant == Picks(old(list[..]), level, reqNum, created, list.Length)
      ensures list[..] == Granted(old(list[..]), grant, level)
      ensures forall i :: 0 <= i < list.Length ==>
                list[i] == var r := old(list[..])[i];
                           if i in grant then Resource(r.numOccupants + 1, r.recLevels + [level]) else r
    {
      hide Picks, Enter, Distinct;
      ghost var was := list[..];
      grant := [];
      PicksNone(was, level, reqNum, created);
      var idx := 0;
      while idx < list.Length
        invariant 0 <= idx <= list.Length
        invariant grant == Picks(was, level, reqNum, created, idx)
        invariant forall i :: 0 <= i < list.Length ==> list[i] == if i in grant then Enter(was[i], level) else was[i]
      {
        if |grant| == reqNum {
          PicksFull(was, level, reqNum, created, idx, list.Length);
          break;
        }
        assert idx !in grant && list[idx] == was[idx] && Consistent(was[idx]);
        var deny := Occupied(idx, level);
        PicksAtMost(was, level, reqNum, created, idx);
        PicksNext(was, level, reqNum, created, idx);
        if !deny && created[idx] {
          list[idx] := Resource(list[idx].numOccupants + 1, list[idx].recLevels + [level]);
          EnterIs(was[idx], level);
          grant := grant + [idx];
        }
        idx := idx + 1;
      }
      assert list[..] == Granted(was, grant, level);
      forall i | 0 <= i < list.Length && i in grant { EnterIs(was[i], level); }
    }

    method ReleaseExecRes(grant: seq<nat>, level: int)
      requires Valid() && Unique(grant) && forall i :: i in grant ==> i < list.Length
      modifies list
      ensures list[..] == Released(old(list[..]), grant, level)
    {
      hide Leave, Distinct;
      ghost var was := list[..];
      for k := 0 to |grant|
        invariant forall i :: 0 <= i < list.Length ==>
                  list[i] == if i in grant[..k] then Leave(was[i], level) else was[i]
      {
        var idx := grant[k];
        assert idx in grant && idx !in grant[..k] && list[idx] == was[idx] && Consistent(was[idx]);
        LeaveOne(idx, level);
        assert forall i :: i in grant[..k + 1] <==> i in grant[..k] || i == idx;
      }
      assert grant[..|grant|] == grant;
      assert list[..] == Released(was, grant, level);
    }

    method LeaveOne(idx: nat, level: int)
      requires idx < list.Length && list[idx].numOccupants == |list[idx].recLevels|
      modifies list
      ensures list[idx] == Leave(old(list[idx]), level)
      ensures forall i :: 0 <= i < list.Length && i != idx ==> list[i] == old(list[i])
    {
      var r := list[idx];
      var j := 0;
      while j < r.numOccupants
        invariant 0 <= j <= r.numOccupants && level !in r.recLevels[..j]
        invariant list[idx] == r
      {
        if r.recLevels[j] == level {
          WithoutAt(r.recLevels, level, j);
          list[idx] := Resource(r.numOccupants, r.recLevels[..j] + r.recLevels[j + 1..]);
          break;
        }
        j := j + 1;
      }
      if j == r.numOccupants {
        assert r.recLevels[..j] == r.recLevels;
        WithoutNone(r.recLevels, level);
      }
      list[idx] := Resource(list[idx].numOccupants - 1, list[idx].recLevels);
    }
  }

  lemma EnterIs(r: Resource, level: int)
    ensures Enter(r, level) == Resource(r.numOccupants + 1, r.recLevels + [level])
  {
  }

  lemma PicksNone(rs: seq<Resource>, level: int, req: nat, created: seq<bool>)
    requires |rs| <= |created|
    ensures Picks(rs, level, req, created, 0) == []
  {
  }

  lemma PicksNext(rs: seq<Resource>, level: int, req: nat, created: seq<bool>, n: nat)
    requires n < |rs| <= |created|
    ensures var g := Picks(rs, level, req, created, n);
            Picks(rs, level, req, created, n + 1) == if |g| < req && Takes(rs, level, created, n) then g + [n] else g
  {
  }

  lemma PicksAtMost(rs: seq<Resource>, level: int, req: nat, created: seq<bool>, n: nat)
    requires n <= |rs| <= |created|
    ensures |Picks(rs, level, req, created, n)| <= req
  {
  }

  lemma {:induction false} PicksFull(rs: seq<Resource>, level: int, req: nat, created: seq<bool>, m: nat, n: nat)
    requires m <= n <= |rs| <= |created| && |Picks(rs, level, req, created, m)| == req
    ensures Picks(rs, level, req, created, n) == Picks(rs, level, req, created, m)
    decreases n
  {
    if m < n {
      PicksFull(rs, level, req, created, m, n - 1);
    }
  }

  // ---------------------------------------------------------------- one allocator per level

  /** The nodes a level occupies. */
  function Held(rs: seq<Resource>, level: int): set<nat> {
    set i: nat | i < |rs| && level in rs[i].recLevels
  }

  /** A node's counter and levels stay right on release exactly when the level is there, and on entry
      exactly when it is not. */
  lemma LeaveConsistent(r: Resource, level: int)
    requires Consistent(r)
    ensures Consistent(Leave(r, level)) <==> level in r.recLevels
    ensures Consistent(Enter(r, level)) <==> level !in r.recLevels
  {
    WithoutMember(r.recLevels, level);
    if level in r.recLevels {
      var i :| 0 <= i < |r.recLevels| && r.recLevels[i] == level;
      assert Enter(r, level).recLevels[i] == Enter(r, level).recLevels[|r.recLevels|];
    }
  }

  /** The levels on a node after one of them entered or left. */
  lemma LevelsAfter(r: Resource, level: int, other: int)
    requires Consistent(r)
    ensures other in Enter(r, level).recLevels <==> other in r.recLevels || other == level
    ensures other in Leave(r, level).recLevels <==> other in r.recLevels && other != level
  {
    WithoutMember(r.recLevels, level);
  }

  datatype Op = Grant(level: int, req: nat, created: seq<bool>) | Release(level: int, grant: seq<nat>)

  /** A group releases nodes its level holds, each once. */
  predicate Allowed(rs: seq<Resource>, op: Op) {
    match op
    case Grant(_, _, created) => |rs| <= |created|
    case Release(level, g) => Unique(g) && forall i :: i in g ==> i in Held(rs, level)
  }

  function Taken(rs: seq<Resource>, op: Op): seq<nat>
    requires Allowed(rs, op)
  {
    match op
    case Grant(level, req, created) => Picks(rs, level, req, created, |rs|)
    case Release(_, g) => g
  }

  function Apply(rs: seq<Resource>, op: Op): seq<Resource>
    requires Allowed(rs, op)
  {
    match op
    case Grant(level, _, _) => Granted(rs, Taken(rs, op), level)
    case Release(level, g) => Released(rs, g, level)
  }

  /** The allocator a level would have for itself: a set of taken nodes. */
  function SoloPicks(held: set<nat>, req: nat, created: seq<bool>, n: nat): seq<nat>
    requires n <= |created|
  {
    if n == 0 then []
    else
      var g := SoloPicks(held, req, created, n - 1);
      if |g| < req && n - 1 !in held && created[n - 1] then g + [n - 1] else g
  }

  function SoloTaken(held: set<nat>, op: Op, n: nat): seq<nat>
    requires op.Grant? ==> n <= |op.created|
  {
    match op
    case Grant(_, req, created) => SoloPicks(held, req, created, n)
    case Release(_, g) => g
  }

  function SoloApply(held: set<nat>, op: Op, n: nat): set<nat>
    requires op.Grant? ==> n <= |op.created|
  {
    var g := set i | i in SoloTaken(held, op, n);
    if op.Grant? then held + g else held - g
  }

  lemma {:induction false} PicksSolo(rs: seq<Resource>, level: int, req: nat, created: seq<bool>, n: nat)
    requires n <= |rs| <= |created|
    ensures Picks(rs, level, req, created, n) == SoloPicks(Held(rs, level), req, created, n)
  {
    if n > 0 {
      PicksSolo(rs, level, req, created, n - 1);
    }
  }

  lemma {:induction false} PicksFree(rs: seq<Resource>, level: int, req: nat, created: seq<bool>, n: nat)
    requires n <= |rs| <= |created|
    ensures forall i :: i in Picks(rs, level, req, created, n) ==> level !in rs[i].recLevels
  {
    if n > 0 {
      PicksFree(rs, level, req, created, n - 1);
    }
  }

  lemma GrantRefines(rs: seq<Resource>, op: Op, level: int)
    requires AllConsistent(rs) && Allowed(rs, op) && op.Grant?
    ensures AllConsistent(Apply(rs, op))
    ensures Held(Apply(rs, op), level)
            == if op.level == level then SoloApply(Held(rs, level), op, |rs|) else Held(rs, level)
  {
    hide Picks, SoloPicks, Enter, Distinct, Consistent, Takes;
    var g, t := Taken(rs, op), Apply(rs, op);
    PicksFree(rs, op.level, op.req, op.created, |rs|);
    PicksSolo(rs, op.level, op.req, op.created, |rs|);
    forall i | 0 <= i < |rs|
      ensures Consistent(t[i])
      ensures level in t[i].recLevels <==> level in rs[i].recLevels || (level == op.level && i in g)
    {
      LeaveConsistent(rs[i], op.level);
      LevelsAfter(rs[i], op.level, level);
    }
  }

  lemma ReleaseRefines(rs: seq<Resource>, op: Op, level: int)
    requires AllConsistent(rs) && Allowed(rs, op) && op.Release?
    ensures AllConsistent(Apply(rs, op))
    ensures Held(Apply(rs, op), level)
            == if op.level == level then SoloApply(Held(rs, level), op, |rs|) else Held(rs, level)
  {
    hide Leave, Distinct, Consistent;
    var g, t := Taken(rs, op), Apply(rs, op);
    forall i | 0 <= i < |rs|
      ensures Consistent(t[i])
      ensures level in t[i].recLevels <==> level in rs[i].recLevels && !(level == op.level && i in g)
    {
      LeaveConsistent(rs[i], op.level);
      LevelsAfter(rs[i], op.level, level);
    }
  }

  /** One operation: the list stays consistent, the level in question behaves like its own
      allocator, and every other level is left as it was. */
  lemma ApplyRefines(rs: seq<Resource>, op: Op, level: int)
    requires AllConsistent(rs) && Allowed(rs, op)
    ensures AllConsistent(Apply(rs, op)) && |Apply(rs, op)| == |rs|
    ensures op.level == level ==>
              Taken(rs, op) == SoloTaken(Held(rs, level), op, |rs|)
              && Held(Apply(rs, op), level) == SoloApply(Held(rs, level), op, |rs|)
    ensures op.level != level ==> Held(Apply(rs, op), level) == Held(rs, level)
  {
    hide Picks, SoloPicks, Enter, Leave, Distinct, Consistent, Held, SoloApply;
    if op.Grant? {
      GrantRefines(rs, op, level);
      PicksSolo(rs, op.level, op.req, op.created, |rs|);
    } else {
      ReleaseRefines(rs, op, level);
    }
  }

  predicate AllAllowed(rs: seq<Resource>, ops: seq<Op>)
    decreases |ops|
  {
    ops == [] || (Allowed(rs, ops[0]) && AllAllowed(Apply(rs, ops[0]), ops[1..]))
  }

  /** What the operations of one level took or returned, and the nodes it ends up with. */
  function SharedRun(rs: seq<Resource>, ops: seq<Op>, level: int): (seq<seq<nat>>, set<nat>)
    requires AllAllowed(rs, ops)
    decreases |ops|
  {
    if ops == [] then ([], Held(rs, level))
    else
      var (rest, held) := SharedRun(Apply(rs, ops[0]), ops[1..], level);
      (if ops[0].level == level then [Taken(rs, ops[0])] + rest else rest, held)
  }

  /** The same operations of that level on an allocator of its own. */
  function SoloRun(held: set<nat>, ops: seq<Op>, level: int, n: nat): (seq<seq<nat>>, set<nat>)
    requires forall i :: 0 <= i < |ops| && ops[i].Grant? ==> n <= |ops[i].created|
    decreases |ops|
  {
    if ops == [] then ([], held)
    else if ops[0].level != level then SoloRun(held, ops[1..], level, n)
    else
      var (rest, end) := SoloRun(SoloApply(held, ops[0], n), ops[1..], level, n);
      ([SoloTaken(held, ops[0], n)] + rest, end)
  }

  /** Sharing the list is invisible: however operations of all levels interleave, each level
      gets the grants it would get from a list of its own. */
  lemma {:induction false} LevelsIndependent(rs: seq<Resource>, ops: seq<Op>, level: int)
    requires AllConsistent(rs) && AllAllowed(rs, ops)
    requires forall i :: 0 <= i < |ops| && ops[i].Grant? ==> |rs| <= |ops[i].created|
    ensures SharedRun(rs, ops, level) == SoloRun(Held(rs, level), ops, level, |rs|)
    decreases |ops|
  {
    if ops != [] {
      ApplyRefines(rs, ops[0], level);
      LevelsIndependent(Apply(rs, ops[0]), ops[1..], level);
    }
  }

  lemma LeaveUndoesEnter(r: Resource, level: int)
    requires level !in r.recLevels
    ensures Leave(Enter(r, level), level) == r
  {
    var s := r.recLevels + [level];
    assert s[..|r.recLevels|] == r.recLevels;
    WithoutAt(s, level, |r.recLevels|);
  }

  /** A release right after its grant leaves the list exactly as it was. */
  lemma ReleaseUndoesGrant(rs: seq<Resource>, level: int, req: nat, created: seq<bool>)
    requires AllConsistent(rs) && |rs| <= |created|
    ensures var g := Picks(rs, level, req, created, |rs|);
            Released(Granted(rs, g, level), g, level) == rs
  {
    hide Picks, Enter, Leave;
    var g := Picks(rs, level, req, created, |rs|);
    PicksFree(rs, level, req, created, |rs|);
    forall i | 0 <= i < |rs| ensures Released(Granted(rs, g, level), g, level)[i] == rs[i] {
      if i in g {
        LeaveUndoesEnter(rs[i], level);
      }
    }
  }
}
