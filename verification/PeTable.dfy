/** PE ids and the two PE tables of a group, under spawn, kill, respawn and exit by many threads. */
module PeTable {
  import opened Seqs

  /** The job, group and device a PE record names. */
  datatype Pe = Pe(peid: nat, jid: nat, gid: nat, did: nat)

  datatype Tables = Tables(peidCnt: nat, peTab: map<nat, Pe>, killedTab: map<nat, Pe>)

  // ---------------------------------------------------------------- the table operations, entry by entry

  /** Entries are inserted in order; a key that is already there keeps its entry. */
  function Insert(tab: map<nat, Pe>, pes: seq<Pe>): map<nat, Pe> {
    if pes == [] then tab
    else
      var t := Insert(tab, pes[..|pes| - 1]);
      var pe := pes[|pes| - 1];
      if pe.peid in t then t else t[pe.peid := pe]
  }

  /** Keys are erased in order up to the first that is missing or whose record does not suit the one asked for. */
  function Erase(tab: map<nat, Pe>, pes: seq<Pe>, suits: (Pe, Pe) -> bool): (map<nat, Pe>, bool)
    decreases |pes|
  {
    if pes == [] then (tab, true)
    else if pes[0].peid !in tab || !suits(pes[0], tab[pes[0].peid]) then (tab, false)
    else Erase(tab - {pes[0].peid}, pes[1..], suits)
  }

  /** The kill path compares nothing with the record found, the exit path everything, a respawn job and group. */
  function Anything(): (Pe, Pe) -> bool { (_, _) => true }
  function SameJobGroupDevice(): (Pe, Pe) -> bool {
    (p: Pe, q: Pe) => p.jid == q.jid && p.gid == q.gid && p.did == q.did
  }
  function SameJobGroup(): (Pe, Pe) -> bool { (p: Pe, q: Pe) => p.jid == q.jid && p.gid == q.gid }

  /** What an exit notice asks for. */
  function Asked(peids: seq<nat>, jid: nat, gid: nat, did: nat): (pes: seq<Pe>)
    ensures |pes| == |peids| && forall i :: 0 <= i < |peids| ==> pes[i] == Pe(peids[i], jid, gid, did)
  {
    seq(|peids|, i requires 0 <= i < |peids| => Pe(peids[i], jid, gid, did))
  }

  /** What other threads make of the live table while the lock is free for the time numbered so. */
  type Others = (nat, map<nat, Pe>) -> map<nat, Pe>

  /** How often an exit notice looks for a PE that is not registered yet. */
  const LOOKS: nat := 2000000000

  /** Looks again for a missing id, the lock being free before each look and once more at the end: the table then, and
      the times so far. */
  function Search(tab: map<nat, Pe>, id: nat, others: Others, t: nat, looks: nat): (map<nat, Pe>, nat)
    requires looks < LOOKS
    decreases LOOKS - looks
  {
    var tab1 := others(t, tab);
    if id in tab1 || looks + 1 >= LOOKS then (others(t + 1, tab1), t + 2)
    else Search(tab1, id, others, t + 1, looks + 1)
  }

  /** Erasing as an exit notice does: a missing id is looked for before it is given up. */
  function EraseLate(tab: map<nat, Pe>, pes: seq<Pe>, suits: (Pe, Pe) -> bool, others: Others, t: nat)
    : (map<nat, Pe>, bool)
    decreases |pes|
  {
    if pes == [] then (tab, true)
    else
      var id := pes[0].peid;
      var (tab1, t1) := if id in tab then (tab, t) else Search(tab, id, others, t, 0);
      if id !in tab1 || !suits(pes[0], tab1[id]) then (tab1, false)
      else EraseLate(tab1 - {id}, pes[1..], suits, others, t1)
  }

  class Group {
    const jid: nat
    const gid: nat
    var peidCnt: nat
    var peTab: map<nat, Pe>
    var killedTab: map<nat, Pe>

    constructor (jid: nat, gid: nat)
      ensures this.jid == jid && this.gid == gid && peidCnt == 0 && peTab == map[] && killedTab == map[]
    {
      this.jid, this.gid := jid, gid;
      peidCnt, peTab, killedTab := 0, map[], map[];
    }

    /** Hands out the ids `start` to `start + num - 1`. */
    method GetNewPeids(num: nat) returns (start: nat, end: int)
      modifies this`peidCnt
      ensures start == old(peidCnt) && end == start + num - 1 && peidCnt == old(peidCnt) + num
    {
      start := peidCnt;
      peidCnt := peidCnt + num;
      end := peidCnt - 1;
    }

    method RegisterPes(job: nat, deviceJob: nat, deviceGroup: nat, pes: seq<Pe>) returns (ret: int)
      modifies this`peTab
      ensures ret == if jid == job && deviceGroup == gid && deviceJob == job then 0 else -1
      ensures peTab == if ret == 0 then Insert(old(peTab), pes) else old(peTab)
    {
      if jid != job || deviceGroup != gid || deviceJob != job {
        return -1;
      }
      for idx := 0 to |pes|
        invariant peTab == Insert(old(peTab), pes[..idx])
      {
        assert pes[..idx + 1][..idx] == pes[..idx];
        if pes[idx].peid !in peTab {
          peTab := peTab[pes[idx].peid := pes[idx]];
        }
      }
      assert pes[..|pes|] == pes;
      return 0;
    }

    /** The kill path: only the first entry is compared with the caller's. */
    method UnregisterPes(job: nat, device: nat, pes: seq<Pe>) returns (ret: int)
      requires pes != []
      modifies this`peTab
      ensures var r := Erase(old(peTab), pes, Anything());
              if pes[0].jid == job && pes[0].gid == gid && pes[0].did == device then
                peTab == r.0 && ret == if r.1 then 0 else -1
              else peTab == old(peTab) && ret == -1
      ensures |pes| == 1 ==>
                if pes[0].jid == job && pes[0].gid == gid && pes[0].did == device && pes[0].peid in old(peTab) then
                  ret == 0 && peTab == old(peTab) - {pes[0].peid}
                else ret == -1 && peTab == old(peTab)
    {
      if pes[0].jid != job || pes[0].gid != gid || pes[0].did != device {
        return -1;
      }
      for idx := 0 to |pes|
        invariant Erase(old(peTab), pes, Anything()) == Erase(peTab, pes[idx..], Anything())
      {
        assert pes[idx..][1..] == pes[idx + 1..];
        if pes[idx].peid !in peTab {
          return -1;
        }
        peTab := peTab - {pes[idx].peid};
      }
      return 0;
    }

    /** The search of the exit path; the lock is held before and after. */
    method FindLate(id: nat, others: Others, t0: nat) returns (t: nat)
      modifies this`peTab
      ensures (peTab, t) == Search(old(peTab), id, others, t0, 0)
    {
      t := t0;
      var retryCnt := 0;
      var found := false;
      while !found && retryCnt < LOOKS
        invariant retryCnt <= LOOKS
        invariant !found && retryCnt < LOOKS ==>
                    Search(peTab, id, others, t, retryCnt) == Search(old(peTab), id, others, t0, 0)
        invariant found || retryCnt == LOOKS ==>
                    (others(t, peTab), t + 1) == Search(old(peTab), id, others, t0, 0)
        decreases LOOKS - retryCnt
      {
        peTab := others(t, peTab);
        found := id in peTab;
        t := t + 1;
        retryCnt := retryCnt + 1;
      }
      peTab := others(t, peTab);
      t := t + 1;
    }

    /** The exit path: every entry found, at once or late, is compared with the caller's job, this group and the
        device. */
    method UnregisterIds(job: nat, device: nat, peids: seq<nat>, others: Others) returns (ret: int)
      modifies this`peTab
      ensures var r := EraseLate(old(peTab), Asked(peids, job, gid, device), SameJobGroupDevice(), others, 0);
              peTab == r.0 && ret == if r.1 then 0 else -1
      ensures |peids| == 1 && peids[0] in old(peTab) ==>
                var pe := old(peTab)[peids[0]];
                if pe.jid == job && pe.gid == gid && pe.did == device then
                  ret == 0 && peTab == old(peTab) - {peids[0]}
                else ret == -1 && peTab == old(peTab)
    {
      hide Search;
      ghost var asked := Asked(peids, job, gid, device);
      var t := 0;
      for idx := 0 to |peids|
        invariant EraseLate(old(peTab), asked, SameJobGroupDevice(), others, 0)
                  == EraseLate(peTab, asked[idx..], SameJobGroupDevice(), others, t)
      {
        assert asked[idx..][1..] == asked[idx + 1..];
        if peids[idx] !in peTab {
          t := FindLate(peids[idx], others, t);
          if peids[idx] !in peTab {
            return -1;
          }
        }
        var pe := peTab[peids[idx]];
        if pe.jid != job || pe.gid != gid || pe.did != device {
          return -1;
        }
        peTab := peTab - {peids[idx]};
      }
      return 0;
    }

    method RegisterKilledPes(job: nat, deviceJob: nat, deviceGroup: nat, pes: seq<Pe>) returns (ret: int)
      modifies this`killedTab
      ensures ret == if jid == job && deviceGroup == gid && deviceJob == job then 0 else -1
      ensures killedTab == if ret == 0 then Insert(old(killedTab), pes) else old(killedTab)
    {
      if jid != job || deviceGroup != gid || deviceJob != job {
        return -1;
      }
      for idx := 0 to |pes|
        invariant killedTab == Insert(old(killedTab), pes[..idx])
      {
        assert pes[..idx + 1][..idx] == pes[..idx];
        if pes[idx].peid !in killedTab {
          killedTab := killedTab[pes[idx].peid := pes[idx]];
        }
      }
      assert pes[..|pes|] == pes;
      return 0;
    }

    method UnregisterKilledPes(job: nat, deviceJob: nat, deviceGroup: nat, pes: seq<Pe>) returns (ret: int)
      modifies this`killedTab
      ensures var r := Erase(old(killedTab), pes, SameJobGroup());
              if jid == job && deviceGroup == gid && deviceJob == job then
                killedTab == r.0 && ret == if r.1 then 0 else -1
              else killedTab == old(killedTab) && ret == -1
      ensures |pes| == 1 && jid == job && deviceGroup == gid && deviceJob == job ==>
                if pes[0].peid in old(killedTab) && old(killedTab)[pes[0].peid].jid == pes[0].jid
                   && old(killedTab)[pes[0].peid].gid == pes[0].gid then
                  ret == 0 && killedTab == old(killedTab) - {pes[0].peid}
                else ret == -1 && killedTab == old(killedTab)
    {
      if jid != job || deviceGroup != gid || deviceJob != job {
        return -1;
      }
      for idx := 0 to |pes|
        invariant Erase(old(killedTab), pes, SameJobGroup()) == Erase(killedTab, pes[idx..], SameJobGroup())
      {
        assert pes[idx..][1..] == pes[idx + 1..];
        if pes[idx].peid !in killedTab {
          return -1;
        }
        var pe := killedTab[pes[idx].peid];
        if pes[idx].jid != pe.jid || pes[idx].gid != pe.gid {
          return -1;
        }
        killedTab := killedTab - {pes[idx].peid};
      }
      return 0;
    }
  }

  /** Nobody else touches the table. */
  ghost predicate Undisturbed(others: Others) { forall t: nat, tab :: others(t, tab) == tab }

  /** Once the id is in the table, nobody else takes it out. */
  ghost predicate KeepsId(others: Others, id: nat) { forall t: nat, tab :: id in tab ==> id in others(t, tab) }

  /** The table after the lock was free `n` times. */
  function Grown(tab: map<nat, Pe>, others: Others, t: nat, n: nat): map<nat, Pe>
    decreases n
  {
    if n == 0 then tab else Grown(others(t, tab), others, t + 1, n - 1)
  }

  lemma {:induction false} KeptWhileGrowing(tab: map<nat, Pe>, id: nat, others: Others, t: nat, n: nat)
    requires KeepsId(others, id) && id in tab
    ensures id in Grown(tab, others, t, n)
    decreases n
  {
    if n > 0 {
      KeptWhileGrowing(others(t, tab), id, others, t + 1, n - 1);
    }
  }

  /** A search finds the id exactly when somebody registers it before the last look. */
  lemma {:induction false} SearchExactly(tab: map<nat, Pe>, id: nat, others: Others, t: nat, looks: nat)
    requires KeepsId(others, id) && looks < 2000000000
    ensures id in Search(tab, id, others, t, looks).0 <==> id in Grown(tab, others, t, 2000000000 - looks + 1)
    decreases LOOKS - looks
  {
    var tab1 := others(t, tab);
    if id in tab1 {
      KeptWhileGrowing(tab1, id, others, t + 1, LOOKS - looks);
    } else if looks + 1 >= LOOKS {
      assert Grown(tab1, others, t + 1, 1) == Grown(others(t + 1, tab1), others, t + 2, 0);
    } else {
      SearchExactly(tab1, id, others, t + 1, looks + 1);
    }
  }

  lemma {:induction false} SearchAlone(tab: map<nat, Pe>, id: nat, others: Others, t: nat, looks: nat)
    requires Undisturbed(others) && looks < LOOKS
    ensures Search(tab, id, others, t, looks).0 == tab
    decreases LOOKS - looks
  {
    if id !in tab && looks + 1 < LOOKS {
      SearchAlone(tab, id, others, t + 1, looks + 1);
    }
  }

  /** Undisturbed, looking again is of no use: the exit path erases as the kill path would with its comparison. */
  lemma {:induction false} LateAlone(tab: map<nat, Pe>, pes: seq<Pe>, suits: (Pe, Pe) -> bool, others: Others, t: nat)
    requires Undisturbed(others)
    ensures EraseLate(tab, pes, suits, others, t) == Erase(tab, pes, suits)
    decreases |pes|
  {
    hide Search, Undisturbed;
    if pes != [] {
      var id := pes[0].peid;
      if id !in tab {
        SearchAlone(tab, id, others, t, 0);
      } else if suits(pes[0], tab[id]) {
        LateAlone(tab - {id}, pes[1..], suits, others, t);
      }
    }
  }

  /** The notice of one PE: accepted exactly when the PE is, or in time becomes, registered with this job, group and
      device; then it is out of the table. */
  lemma LateNotice(tab: map<nat, Pe>, pe: Pe, suits: (Pe, Pe) -> bool, others: Others)
    requires KeepsId(others, pe.peid) && pe.peid !in tab
    ensures var (t, ok) := EraseLate(tab, [pe], suits, others, 0);
            var found := Search(tab, pe.peid, others, 0, 0).0;
            && (pe.peid in found <==> pe.peid in Grown(tab, others, 0, 2000000001))
            && (ok <==> pe.peid in found && suits(pe, found[pe.peid]))
            && t == if ok then found - {pe.peid} else found
  {
    hide Search, Grown;
    SearchExactly(tab, pe.peid, others, 0, 0);
    var (found, t1) := Search(tab, pe.peid, others, 0, 0);
    if pe.peid in found && suits(pe, found[pe.peid]) {
      assert [pe][1..] == [];
      assert EraseLate(found - {pe.peid}, [], suits, others, t1) == (found - {pe.peid}, true);
    }
  }

  lemma {:induction false} InsertFresh(tab: map<nat, Pe>, pes: seq<Pe>)
    requires forall i, j :: 0 <= i < j < |pes| ==> pes[i].peid != pes[j].peid
    requires forall i :: 0 <= i < |pes| ==> pes[i].peid !in tab
    ensures forall k :: k in Insert(tab, pes) <==> k in tab || exists i :: 0 <= i < |pes| && pes[i].peid == k
  {
    if pes != [] {
      var n := |pes| - 1;
      InsertFresh(tab, pes[..n]);
      forall k ensures k in Insert(tab, pes) <==> k in tab || exists i :: 0 <= i < |pes| && pes[i].peid == k {
        if i :| 0 <= i < n && pes[i].peid == k {
          assert pes[..n][i].peid == k;
        }
      }
    }
  }

  predicate FirstNamed(pes: seq<Pe>, i: nat) {
    i < |pes| && forall j :: 0 <= j < i ==> pes[j].peid != pes[i].peid
  }

  /** Registering keeps every entry that is there, and adds for each new id the first record that names it. */
  lemma {:induction false} InsertExactly(tab: map<nat, Pe>, pes: seq<Pe>)
    ensures forall id :: id in Insert(tab, pes) <==> id in tab || Named(pes, id)
    ensures forall id :: id in tab ==> Insert(tab, pes)[id] == tab[id]
    ensures forall i: nat :: FirstNamed(pes, i) && pes[i].peid !in tab ==>
              pes[i].peid in Insert(tab, pes) && Insert(tab, pes)[pes[i].peid] == pes[i]
    decreases |pes|
  {
    if pes != [] {
      hide Named;
      var n := |pes| - 1;
      InsertExactly(tab, pes[..n]);
      NamedSnoc(pes);
      forall i: nat | FirstNamed(pes, i) && pes[i].peid !in tab
        ensures pes[i].peid in Insert(tab, pes) && Insert(tab, pes)[pes[i].peid] == pes[i]
      {
        FirstNamedFront(pes, i);
      }
    } else {
      assert forall id :: !Named(pes, id);
    }
  }

  lemma FirstNamedFront(pes: seq<Pe>, i: nat)
    requires FirstNamed(pes, i)
    ensures var n := |pes| - 1; if i < n then FirstNamed(pes[..n], i) else !Named(pes[..n], pes[i].peid)
  {
  }

  lemma NamedSnoc(pes: seq<Pe>)
    requires pes != []
    ensures forall id :: Named(pes, id) <==> Named(pes[..|pes| - 1], id) || id == pes[|pes| - 1].peid
  {
    var n := |pes| - 1;
    forall id ensures Named(pes, id) <==> Named(pes[..n], id) || id == pes[n].peid {
      if i :| 0 <= i < |pes| && pes[i].peid == id {
        assert i < n ==> pes[..n][i].peid == id;
      }
      if i :| 0 <= i < n && pes[..n][i].peid == id {
        assert pes[i].peid == id;
      }
      assert pes[n].peid == id ==> Named(pes, id);
    }
  }

  /** A call that refuses entry `k` has already erased the entries before it, and nothing else. */
  lemma {:induction false} EraseStopsAt(tab: map<nat, Pe>, pes: seq<Pe>, suits: (Pe, Pe) -> bool) returns (k: nat)
    ensures var (t, ok) := Erase(tab, pes, suits);
            k <= |pes| && (ok <==> k == |pes|)
            && (forall id :: id in t <==> id in tab && !Named(pes[..k], id))
            && (forall i :: 0 <= i < k ==> pes[i].peid in tab && suits(pes[i], tab[pes[i].peid]))
            && (k < |pes| ==> pes[k].peid !in t || !suits(pes[k], t[pes[k].peid]))
    decreases |pes|
  {
    k := 0;
    if pes != [] && pes[0].peid in tab && suits(pes[0], tab[pes[0].peid]) {
      var m := EraseStopsAt(tab - {pes[0].peid}, pes[1..], suits);
      k := m + 1;
      forall id ensures Named(pes[..k], id) <==> id == pes[0].peid || Named(pes[1..][..m], id) {
        assert pes[..k] == [pes[0]] + pes[1..][..m];
        if id == pes[0].peid {
          assert pes[..k][0].peid == id;
        } else if i :| 0 <= i < m && pes[1..][..m][i].peid == id {
          assert pes[..k][i + 1].peid == id;
        }
      }
    }
  }

  lemma {:induction false} EraseKeeps(tab: map<nat, Pe>, pes: seq<Pe>, suits: (Pe, Pe) -> bool)
    ensures forall id :: id in Erase(tab, pes, suits).0 ==> id in tab && Erase(tab, pes, suits).0[id] == tab[id]
    decreases |pes|
  {
    if pes != [] && pes[0].peid in tab && suits(pes[0], tab[pes[0].peid]) {
      EraseKeeps(tab - {pes[0].peid}, pes[1..], suits);
    }
  }

  /** An exit notice for many PEs, in terms of the fields: those whose record names this job, group and device go, up to
      the first that is missing or names another. */
  lemma NoticeStopsAt(tab: map<nat, Pe>, peids: seq<nat>, jid: nat, gid: nat, did: nat) returns (k: nat)
    ensures var (t, ok) := Erase(tab, Asked(peids, jid, gid, did), SameJobGroupDevice());
            && k <= |peids| && (ok <==> k == |peids|)
            && (forall i :: 0 <= i < k ==>
                  peids[i] in tab && tab[peids[i]] == Pe(tab[peids[i]].peid, jid, gid, did))
            && (forall id :: id in t <==> id in tab && id !in peids[..k])
            && (forall id :: id in t ==> t[id] == tab[id])
            && (k < |peids| ==>
                  peids[k] !in t || t[peids[k]].jid != jid || t[peids[k]].gid != gid || t[peids[k]].did != did)
  {
    hide Erase;
    var pes := Asked(peids, jid, gid, did);
    k := EraseStopsAt(tab, pes, SameJobGroupDevice());
    EraseKeeps(tab, pes, SameJobGroupDevice());
    forall id ensures Named(pes[..k], id) <==> id in peids[..k] {
      if id in peids[..k] {
        var i :| 0 <= i < k && peids[i] == id;
        assert pes[..k][i].peid == id;
      }
      if i :| 0 <= i < k && pes[..k][i].peid == id {
        assert peids[..k][i] == id;
      }
    }
  }

  /** Killing takes out whatever is registered under the ids, up to the first id that is not. */
  lemma KillStopsAt(tab: map<nat, Pe>, pes: seq<Pe>) returns (k: nat)
    ensures var (t, ok) := Erase(tab, pes, Anything());
            && k <= |pes| && (ok <==> k == |pes|) && (forall i :: 0 <= i < k ==> pes[i].peid in tab)
            && (forall id :: id in t <==> id in tab && !Named(pes[..k], id))
            && (k < |pes| ==> pes[k].peid !in t)
  {
    k := EraseStopsAt(tab, pes, Anything());
  }

  /** A respawn compares job and group of every entry, and not the device. */
  lemma RespawnStopsAt(tab: map<nat, Pe>, pes: seq<Pe>) returns (k: nat)
    ensures var (t, ok) := Erase(tab, pes, SameJobGroup());
            && k <= |pes| && (ok <==> k == |pes|)
            && (forall i :: 0 <= i < k ==>
                  pes[i].peid in tab && tab[pes[i].peid].jid == pes[i].jid && tab[pes[i].peid].gid == pes[i].gid)
            && (forall id :: id in t <==> id in tab && !Named(pes[..k], id))
            && (k < |pes| ==>
                  pes[k].peid !in t || t[pes[k].peid].jid != pes[k].jid || t[pes[k].peid].gid != pes[k].gid)
  {
    k := EraseStopsAt(tab, pes, SameJobGroup());
  }

  predicate Named(pes: seq<Pe>, id: nat) { exists i :: 0 <= i < |pes| && pes[i].peid == id }

  // ---------------------------------------------------------------- threads at lock granularity

  /** Where a thread is between two critical sections. `Passed` has gone by the spawn guard, `Pending` has ids and
      waits for the agent, `Killing` has asked the agent, `Moved` has taken the PE out of the live table,
      `Reviving` has taken it out of the killed table. */
  datatype Op =
    | Idle
    | Passed(num: nat)
    | Pending(start: nat, num: nat)
    | Killing(pe: Pe)
    | Moved(pe: Pe)
    | Reviving(pe: Pe)

  datatype Range = Range(start: nat, num: nat)

  /** `exited` and `failed` remember what happened to ids that are in no table; `ranges` what was handed out. */
  datatype State = State(t: Tables, exited: set<nat>, failed: set<nat>, threads: seq<Op>, ranges: seq<Range>)

  function Init(n: nat): State {
    State(Tables(0, map[], map[]), {}, {}, seq(n, _ => Idle), [])
  }

  datatype Step =
    | Guard(i: nat, num: nat, max: nat)
    | Allocate(i: nat)
    | Register(i: nat, did: nat)
    | SpawnFails(i: nat)
    | Kill(i: nat, pe: Pe)
    | KillRefused(i: nat)
    | Unregister(i: nat)
    | RegisterKilled(i: nat)
    | Respawn(i: nat, pe: Pe)
    | RespawnFails(i: nat)
    | Revive(i: nat, did: nat)
    | ExitNotice(pe: Pe)

  predicate At(s: State, i: nat) { i < |s.threads| }

  function MaxPeid(t: Tables): nat { if t.peidCnt > 0 then t.peidCnt - 1 else 0 }

  predicate Enabled(s: State, a: Step) {
    match a
    case Guard(i, _, max) => At(s, i) && s.threads[i] == Idle && MaxPeid(s.t) < max
    case Allocate(i) => At(s, i) && s.threads[i].Passed?
    case Register(i, _) => At(s, i) && s.threads[i].Pending?
    case SpawnFails(i) => At(s, i) && s.threads[i].Pending?
    case Kill(i, pe) => At(s, i) && s.threads[i] == Idle && pe.peid in s.t.peTab
    case KillRefused(i) => At(s, i) && s.threads[i].Killing?
    case Unregister(i) => At(s, i) && s.threads[i].Killing?
    case RegisterKilled(i) => At(s, i) && s.threads[i].Moved?
    case Respawn(i, pe) => At(s, i) && s.threads[i] == Idle
    case RespawnFails(i) => At(s, i) && s.threads[i].Reviving?
    case Revive(i, _) => At(s, i) && s.threads[i].Reviving?
    case ExitNotice(_) => true
  }

  function NewPes(start: nat, num: nat, did: nat): (pes: seq<Pe>)
    ensures |pes| == num && forall k :: 0 <= k < num ==> pes[k].peid == start + k
  {
    seq(num, k requires 0 <= k < num => Pe(start + k, 0, 0, did))
  }

  function Become(s: State, i: nat, op: Op): State
    requires At(s, i)
  {
    s.(threads := s.threads[i := op])
  }

  function Next(s: State, a: Step): State
    requires Enabled(s, a)
  {
    match a
    case Guard(i, num, _) => Become(s, i, Passed(num))
    case Allocate(i) =>
      var num := s.threads[i].num;
      Become(s, i, Pending(s.t.peidCnt, num)).(t := s.t.(peidCnt := s.t.peidCnt + num),
                                               ranges := s.ranges + [Range(s.t.peidCnt, num)])
    case Register(i, did) =>
      var op := s.threads[i];
      Become(s, i, Idle).(t := s.t.(peTab := Insert(s.t.peTab, NewPes(op.start, op.num, did))))
    case SpawnFails(i) =>
      var op := s.threads[i];
      Become(s, i, Idle).(failed := s.failed + (set k: nat | op.start <= k < op.start + op.num && Owns(op, k)))
    case Kill(i, pe) => Become(s, i, Killing(pe))
    case KillRefused(i) => Become(s, i, Idle)
    case Unregister(i) =>
      var pe := s.threads[i].pe;
      var (tab, ok) := Erase(s.t.peTab, [pe], Anything());
      Become(s, i, if ok then Moved(pe) else Idle).(t := s.t.(peTab := tab))
    case RegisterKilled(i) =>
      Become(s, i, Idle).(t := s.t.(killedTab := Insert(s.t.killedTab, [s.threads[i].pe])))
    case Respawn(i, pe) =>
      var (tab, ok) := Erase(s.t.killedTab, [pe], SameJobGroup());
      Become(s, i, if ok then Reviving(pe) else Idle).(t := s.t.(killedTab := tab))
    case RespawnFails(i) => Become(s, i, Idle).(failed := s.failed + {s.threads[i].pe.peid})
    case Revive(i, did) =>
      Become(s, i, Idle).(t := s.t.(peTab := Insert(s.t.peTab, [s.threads[i].pe.(did := did)])))
    case ExitNotice(pe) =>
      var (tab, ok) := Erase(s.t.peTab, [pe], SameJobGroupDevice());
      s.(t := s.t.(peTab := tab), exited := if ok then s.exited + {pe.peid} else s.exited)
  }

  // ---------------------------------------------------------------- every id has exactly one status

  predicate Owns(op: Op, id: nat) {
    match op
    case Pending(start, num) => start <= id < start + num
    case Moved(pe) => id == pe.peid
    case Reviving(pe) => id == pe.peid
    case _ => false
  }

  function Owners(threads: seq<Op>, id: nat): nat {
    if threads == [] then 0
    else Owners(threads[..|threads| - 1], id) + One(Owns(threads[|threads| - 1], id))
  }

  /** In how many of the live table, the killed table, the exited, the failed and the threads' hands an id is. */
  function Places(s: State, id: nat): nat {
    One(id in s.t.peTab) + One(id in s.t.killedTab) + One(id in s.exited) + One(id in s.failed) + Owners(s.threads, id)
  }

  ghost predicate Inv(s: State) { forall id: nat :: Places(s, id) == One(id < s.t.peidCnt) }

  lemma {:induction false} OwnersSet(threads: seq<Op>, i: nat, op: Op, id: nat)
    requires i < |threads|
    ensures Owners(threads[i := op], id) == Owners(threads, id) - One(Owns(threads[i], id)) + One(Owns(op, id))
    ensures Owns(threads[i], id) ==> Owners(threads, id) >= 1
  {
    hide Owns;
    var n := |threads| - 1;
    if i < n {
      assert threads[i := op][..n] == threads[..n][i := op];
      OwnersSet(threads[..n], i, op, id);
    } else {
      assert threads[i := op][..n] == threads[..n];
    }
  }

  lemma {:induction false} NobodyOwns(n: nat, id: nat)
    ensures Owners(seq(n, _ => Idle), id) == 0
  {
    if n > 0 {
      assert seq(n, _ => Idle)[..n - 1] == seq(n - 1, _ => Idle);
      NobodyOwns(n - 1, id);
    }
  }

  /** Registering ids that are in no table puts exactly them into the live table. */
  lemma RegisterInserts(s: State, start: nat, num: nat, did: nat, id: nat)
    requires forall k: nat :: start <= k < start + num ==> k !in s.t.peTab
    ensures id in Insert(s.t.peTab, NewPes(start, num, did)) <==> id in s.t.peTab || start <= id < start + num
  {
    var pes := NewPes(start, num, did);
    InsertFresh(s.t.peTab, pes);
    if start <= id < start + num {
      assert pes[id - start].peid == id;
    }
  }

  lemma OneErase(tab: map<nat, Pe>, pe: Pe, suits: (Pe, Pe) -> bool)
    ensures var (t, ok) := Erase(tab, [pe], suits);
            (ok <==> pe.peid in tab && suits(pe, tab[pe.peid])) && t == if ok then tab - {pe.peid} else tab
  {
    if pe.peid in tab && suits(pe, tab[pe.peid]) {
      assert Erase(tab - {pe.peid}, [pe][1..], suits) == (tab - {pe.peid}, true);
    }
  }

  lemma PlacesAre(s: State, id: nat)
    requires Inv(s)
    ensures Places(s, id) == One(id < s.t.peidCnt)
  {
    hide Places, One;
  }

  /** The ids a thread waits for an agent with are in no table. */
  lemma PendingNowhere(s: State, i: nat)
    requires Inv(s) && At(s, i) && s.threads[i].Pending?
    ensures forall k: nat :: Owns(s.threads[i], k) ==> k !in s.t.peTab
  {
    hide Owners, Inv;
    forall k: nat | Owns(s.threads[i], k) ensures k !in s.t.peTab {
      OwnersSet(s.threads, i, Idle, k);
      PlacesAre(s, k);
    }
  }

  lemma RegisterPlaces(s: State, i: nat, did: nat, id: nat)
    requires Inv(s) && Enabled(s, Register(i, did))
    ensures Places(Next(s, Register(i, did)), id) == One(id < s.t.peidCnt)
  {
    hide Owners, Insert, NewPes, Inv;
    var op := s.threads[i];
    OwnersSet(s.threads, i, Idle, id);
    PlacesAre(s, id);
    PendingNowhere(s, i);
    RegisterInserts(s, op.start, op.num, did, id);
  }

  lemma ExitPlaces(s: State, pe: Pe, id: nat)
    requires Inv(s)
    ensures Places(Next(s, ExitNotice(pe)), id) == One(id < s.t.peidCnt)
  {
    hide Owners, Erase, Inv;
    OneErase(s.t.peTab, pe, SameJobGroupDevice());
    PlacesAre(s, id);
    PlacesAre(s, pe.peid);
  }

  /** Steps that move one id between a table and a thread. */
  predicate MovesOne(a: Step) { a.Unregister? || a.RegisterKilled? || a.Respawn? || a.Revive? }

  lemma MovePlaces(s: State, a: Step, id: nat)
    requires Inv(s) && Enabled(s, a) && MovesOne(a)
    ensures Places(Next(s, a), id) == One(id < s.t.peidCnt)
  {
    hide Owners, Erase, Insert, NewPes, Inv;
    PlacesAre(s, id);
    var op := s.threads[a.i];
    OwnersSet(s.threads, a.i, Next(s, a).threads[a.i], id);
    match a
    case Unregister(i) => OneErase(s.t.peTab, op.pe, Anything());
    case RegisterKilled(i) => OneInsert(s.t.killedTab, op.pe);
    case Respawn(i, pe) => OneErase(s.t.killedTab, pe, SameJobGroup());
    case Revive(i, did) => OneInsert(s.t.peTab, op.pe.(did := did));
  }

  /** Every step moves ids between places and never loses or doubles one. */
  lemma StepPlaces(s: State, a: Step, id: nat)
    requires Inv(s) && Enabled(s, a)
    ensures Places(Next(s, a), id) == One(id < Next(s, a).t.peidCnt)
  {
    hide Owners, Erase, Insert, NewPes, Inv;
    if a.ExitNotice? {
      ExitPlaces(s, a.pe, id);
    } else if a.Register? {
      RegisterPlaces(s, a.i, a.did, id);
    } else if MovesOne(a) {
      MovePlaces(s, a, id);
    } else {
      PlacesAre(s, id);
      OwnersSet(s.threads, a.i, Next(s, a).threads[a.i], id);
    }
  }

  lemma OneInsert(tab: map<nat, Pe>, pe: Pe)
    ensures Insert(tab, [pe]) == if pe.peid in tab then tab else tab[pe.peid := pe]
  {
    assert [pe][..0] == [];
  }

  lemma StepKeeps(s: State, a: Step)
    requires Inv(s) && Enabled(s, a)
    ensures Inv(Next(s, a))
  {
    hide Places, Next, Enabled;
    forall id: nat ensures Places(Next(s, a), id) == One(id < Next(s, a).t.peidCnt) {
      StepPlaces(s, a, id);
    }
  }

  predicate CanRun(s: State, run: seq<Step>)
    decreases |run|
  {
    run == [] || (Enabled(s, run[0]) && CanRun(Next(s, run[0]), run[1..]))
  }

  function Run(s: State, run: seq<Step>): State
    requires CanRun(s, run)
    decreases |run|
  {
    if run == [] then s else Run(Next(s, run[0]), run[1..])
  }

  lemma {:induction false} RunKeeps(s: State, run: seq<Step>)
    requires Inv(s) && CanRun(s, run)
    ensures Inv(Run(s, run))
    decreases |run|
  {
    hide Inv, Next, Enabled;
    if run != [] {
      StepKeeps(s, run[0]);
      RunKeeps(Next(s, run[0]), run[1..]);
    }
  }

  /** In every run, every id handed out is in exactly one place, and no other id is anywhere. */
  lemma OneStatus(n: nat, run: seq<Step>, id: nat)
    requires CanRun(Init(n), run)
    ensures var s := Run(Init(n), run);
            Places(s, id) == One(id < s.t.peidCnt) && !(id in s.t.peTab && id in s.t.killedTab)
  {
    hide Next, Enabled, Owners, Run, CanRun;
    forall k: nat ensures Places(Init(n), k) == 0 { NobodyOwns(n, k); }
    RunKeeps(Init(n), run);
    assert Places(Run(Init(n), run), id) == One(id < Run(Init(n), run).t.peidCnt);
  }

  // ---------------------------------------------------------------- ranges and final statuses

  /** The ranges follow each other without gap or overlap from 0 up to the counter. */
  predicate Tile(ranges: seq<Range>, end: nat) {
    if ranges == [] then end == 0
    else
      var last := ranges[|ranges| - 1];
      last.start + last.num == end && Tile(ranges[..|ranges| - 1], last.start)
  }

  lemma StepTiles(s: State, a: Step)
    requires Enabled(s, a) && Tile(s.ranges, s.t.peidCnt)
    ensures Tile(Next(s, a).ranges, Next(s, a).t.peidCnt)
  {
    hide Erase, Insert;
    if a.Allocate? {
      var t := Next(s, a);
      assert t.ranges[..|t.ranges| - 1] == s.ranges;
    }
  }

  lemma {:induction false} RangesTile(s: State, run: seq<Step>)
    requires CanRun(s, run) && Tile(s.ranges, s.t.peidCnt)
    ensures Tile(Run(s, run).ranges, Run(s, run).t.peidCnt)
    decreases |run|
  {
    hide Next, Enabled, Tile;
    if run != [] {
      StepTiles(s, run[0]);
      RangesTile(Next(s, run[0]), run[1..]);
    }
  }

  /** Each id below the counter lies in exactly one of the ranges handed out. */
  lemma {:induction false} TileMeans(ranges: seq<Range>, end: nat, id: nat)
    requires Tile(ranges, end)
    ensures id < end <==> exists k :: 0 <= k < |ranges| && InRange(ranges[k], id)
    ensures forall j, k :: 0 <= j < k < |ranges| ==> !(InRange(ranges[j], id) && InRange(ranges[k], id))
  {
    if ranges != [] {
      var n := |ranges| - 1;
      TileMeans(ranges[..n], ranges[n].start, id);
      if id < ranges[n].start {
        var k :| 0 <= k < n && InRange(ranges[..n][k], id);
        assert InRange(ranges[k], id);
      }
      forall j, k | 0 <= j < k < |ranges| ensures !(InRange(ranges[j], id) && InRange(ranges[k], id)) {
        assert ranges[j] == ranges[..n][j] && (k < n ==> ranges[k] == ranges[..n][k]);
      }
    }
  }

  predicate InRange(r: Range, id: nat) { r.start <= id < r.start + r.num }

  /** An exited or failed id never comes back. */
  lemma {:induction false} EndedStays(s: State, run: seq<Step>, id: nat)
    requires Inv(s) && CanRun(s, run) && (id in s.exited || id in s.failed)
    ensures var t := Run(s, run); (id in t.exited || id in t.failed) && id !in t.t.peTab && id !in t.t.killedTab
    decreases |run|
  {
    hide Erase, Insert, Owners;
    if run == [] {
      assert Places(s, id) == One(id < s.t.peidCnt);
    } else {
      StepKeeps(s, run[0]);
      EndedStays(Next(s, run[0]), run[1..], id);
    }
  }

  // ---------------------------------------------------------------- what a step does to each id

  /** `Awaited`: handed out, and thread `thread` waits for the agent; `Taken`: thread `thread` has taken the PE out of
      the live table to kill it; `Returning`: out of the killed table to respawn it. */
  datatype Status =
    | Unused
    | Awaited(thread: nat)
    | Live(pe: Pe)
    | Taken(thread: nat, pe: Pe)
    | Killed(pe: Pe)
    | Returning(thread: nat, pe: Pe)
    | Exited
    | Failed

  function Holder(threads: seq<Op>, id: nat): (i: nat)
    ensures i <= |threads| && (i < |threads| ==> Owns(threads[i], id))
    ensures forall j :: 0 <= j < i ==> !Owns(threads[j], id)
  {
    if threads == [] || Owns(threads[0], id) then 0 else 1 + Holder(threads[1..], id)
  }

  function InHand(i: nat, op: Op): Status {
    match op
    case Pending(_, _) => Awaited(i)
    case Moved(pe) => Taken(i, pe)
    case Reviving(pe) => Returning(i, pe)
    case _ => Unused
  }

  function StatusOf(s: State, id: nat): Status {
    if id in s.t.peTab then Live(s.t.peTab[id])
    else if id in s.t.killedTab then Killed(s.t.killedTab[id])
    else if id in s.exited then Exited
    else if id in s.failed then Failed
    else
      var i := Holder(s.threads, id);
      if i < |s.threads| then InHand(i, s.threads[i]) else Unused
  }

  /** The status of an id after a step: what spawning, killing, respawning and exiting are for. */
  function StatusAfter(s: State, a: Step, id: nat): Status
    requires Enabled(s, a)
  {
    var st := StatusOf(s, id);
    match a
    case Guard(_, _, _) => st
    case Allocate(i) =>
      if s.t.peidCnt <= id < s.t.peidCnt + s.threads[i].num then Awaited(i) else st
    case Register(i, did) => if st == Awaited(i) then Live(Pe(id, 0, 0, did)) else st
    case SpawnFails(i) => if st == Awaited(i) then Failed else st
    case Kill(_, _) => st
    case KillRefused(_) => st
    case Unregister(i) =>
      if st.Live? && id == s.threads[i].pe.peid then Taken(i, s.threads[i].pe) else st
    case RegisterKilled(i) => if st.Taken? && st.thread == i then Killed(st.pe) else st
    case Respawn(i, pe) =>
      if st.Killed? && id == pe.peid && st.pe.jid == pe.jid && st.pe.gid == pe.gid then Returning(i, pe) else st
    case RespawnFails(i) => if st.Returning? && st.thread == i then Failed else st
    case Revive(i, did) => if st.Returning? && st.thread == i then Live(st.pe.(did := did)) else st
    case ExitNotice(pe) =>
      if st.Live? && id == pe.peid && st.pe.jid == pe.jid && st.pe.gid == pe.gid && st.pe.did == pe.did then Exited
      else st
  }

  /** Everything that can tell the status of an id is the same. */
  predicate SameAt(s: State, t: State, id: nat) {
    && (id in s.t.peTab <==> id in t.t.peTab) && (id in s.t.peTab ==> s.t.peTab[id] == t.t.peTab[id])
    && (id in s.t.killedTab <==> id in t.t.killedTab)
    && (id in s.t.killedTab ==> s.t.killedTab[id] == t.t.killedTab[id])
    && (id in s.exited <==> id in t.exited) && (id in s.failed <==> id in t.failed)
    && |s.threads| == |t.threads|
    && forall i :: 0 <= i < |s.threads| ==>
         (Owns(s.threads[i], id) <==> Owns(t.threads[i], id))
         && (Owns(s.threads[i], id) ==> s.threads[i] == t.threads[i])
  }

  lemma SameStatus(s: State, t: State, id: nat)
    requires SameAt(s, t, id)
    ensures StatusOf(s, id) == StatusOf(t, id)
  {
    var i, j := Holder(s.threads, id), Holder(t.threads, id);
    assert i == j;
  }

  lemma {:induction false} OwnersTwo(threads: seq<Op>, i: nat, j: nat, id: nat)
    requires i < j < |threads| && Owns(threads[i], id) && Owns(threads[j], id)
    ensures Owners(threads, id) >= 2
  {
    hide Owns;
    var n := |threads| - 1;
    if j < n {
      OwnersTwo(threads[..n], i, j, id);
    } else {
      OwnersSet(threads[..n], i, Idle, id);
    }
  }

  /** An id in a thread's hand is nowhere else, and its status is what the thread does with it. */
  lemma HeldStatus(s: State, i: nat, id: nat)
    requires Inv(s) && i < |s.threads| && Owns(s.threads[i], id)
    ensures StatusOf(s, id) == InHand(i, s.threads[i])
    ensures id !in s.t.peTab && id !in s.t.killedTab && id !in s.exited && id !in s.failed && id < s.t.peidCnt
    ensures forall j :: 0 <= j < |s.threads| && j != i ==> !Owns(s.threads[j], id)
  {
    hide Inv, Owners;
    PlacesAre(s, id);
    OwnersSet(s.threads, i, Idle, id);
    forall j | 0 <= j < |s.threads| && j != i ensures !Owns(s.threads[j], id) {
      if Owns(s.threads[j], id) {
        if i < j { OwnersTwo(s.threads, i, j, id); } else { OwnersTwo(s.threads, j, i, id); }
      }
    }
  }

  /** An id in a table is in no thread's hand, and in one table. */
  lemma TableStatus(s: State, id: nat)
    requires Inv(s) && (id in s.t.peTab || id in s.t.killedTab || id in s.exited || id in s.failed)
    ensures forall j :: 0 <= j < |s.threads| ==> !Owns(s.threads[j], id)
    ensures id in s.t.peTab ==> id !in s.t.killedTab && id !in s.exited && id !in s.failed
    ensures id in s.t.killedTab ==> id !in s.exited && id !in s.failed
    ensures id in s.exited ==> id !in s.failed
  {
    hide Inv;
    PlacesAre(s, id);
    forall j | 0 <= j < |s.threads| ensures !Owns(s.threads[j], id) {
      if Owns(s.threads[j], id) { HeldStatus(s, j, id); }
    }
  }

  lemma NothingThere(s: State, id: nat)
    requires Inv(s) && id >= s.t.peidCnt
    ensures StatusOf(s, id) == Unused
    ensures id !in s.t.peTab && id !in s.t.killedTab && id !in s.exited && id !in s.failed
    ensures forall j :: 0 <= j < |s.threads| ==> !Owns(s.threads[j], id)
  {
    hide Inv;
    PlacesAre(s, id);
    forall j | 0 <= j < |s.threads| ensures !Owns(s.threads[j], id) {
      if Owns(s.threads[j], id) { HeldStatus(s, j, id); }
    }
  }

  /** Thread `i` has let go of the id or never had it. */
  lemma OthersSame(s: State, t: State, i: nat, id: nat)
    requires i < |s.threads| == |t.threads| && t.threads == s.threads[i := t.threads[i]]
    requires !Owns(s.threads[i], id) && !Owns(t.threads[i], id)
    requires (id in s.t.peTab <==> id in t.t.peTab) && (id in s.t.peTab ==> s.t.peTab[id] == t.t.peTab[id])
    requires (id in s.t.killedTab <==> id in t.t.killedTab)
             && (id in s.t.killedTab ==> s.t.killedTab[id] == t.t.killedTab[id])
    requires (id in s.exited <==> id in t.exited) && (id in s.failed <==> id in t.failed)
    ensures StatusOf(t, id) == StatusOf(s, id)
  {
    hide Owns, StatusOf;
    SameStatus(s, t, id);
  }

  /** The status of an id in a thread's hand. */
  lemma StatusHeld(s: State, i: nat, id: nat)
    requires Inv(s) && i < |s.threads|
    ensures Owns(s.threads[i], id) <==>
              (StatusOf(s, id).Awaited? || StatusOf(s, id).Taken? || StatusOf(s, id).Returning?)
              && StatusOf(s, id).thread == i
  {
    hide Inv;
    if Owns(s.threads[i], id) { HeldStatus(s, i, id); }
  }

  lemma AllocateStatus(s: State, i: nat, id: nat)
    requires Inv(s) && Enabled(s, Allocate(i))
    ensures StatusOf(Next(s, Allocate(i)), id) == StatusAfter(s, Allocate(i), id)
  {
    hide Inv, StatusOf, Places;
    var t := Next(s, Allocate(i));
    StepKeeps(s, Allocate(i));
    if Owns(t.threads[i], id) {
      HeldStatus(t, i, id);
    } else {
      OthersSame(s, t, i, id);
    }
  }

  lemma RegisterStatus(s: State, i: nat, did: nat, id: nat)
    requires Inv(s) && Enabled(s, Register(i, did))
    ensures StatusOf(Next(s, Register(i, did)), id) == StatusAfter(s, Register(i, did), id)
  {
    hide Inv, Places, Insert;
    var t, op := Next(s, Register(i, did)), s.threads[i];
    PendingNowhere(s, i);
    RegisterInserts(s, op.start, op.num, did, id);
    RegisterRecords(s.t.peTab, op.start, op.num, did, id);
    StatusHeld(s, i, id);
    if Owns(op, id) {
      HeldStatus(s, i, id);
    } else {
      OthersSame(s, t, i, id);
    }
  }

  /** What registering puts into the live table, and what it leaves there. */
  lemma {:induction false} RegisterRecords(tab: map<nat, Pe>, start: nat, num: nat, did: nat, id: nat)
    requires forall k: nat :: start <= k < start + num ==> k !in tab
    ensures start <= id < start + num ==>
              && id in Insert(tab, NewPes(start, num, did))
              && Insert(tab, NewPes(start, num, did))[id] == Pe(id, 0, 0, did)
    ensures id in tab ==>
              id in Insert(tab, NewPes(start, num, did)) && Insert(tab, NewPes(start, num, did))[id] == tab[id]
    decreases num
  {
    hide Insert, NewPes;
    NewPesStep(tab, start, num, did);
    if num > 0 {
      RegisterRecords(tab, start, num - 1, did, id);
      NotYetRegistered(tab, start, num - 1, did);
    }
  }

  lemma NewPesStep(tab: map<nat, Pe>, start: nat, num: nat, did: nat)
    ensures num == 0 ==> Insert(tab, NewPes(start, num, did)) == tab
    ensures num > 0 ==>
              var t, k := Insert(tab, NewPes(start, num - 1, did)), start + num - 1;
              Insert(tab, NewPes(start, num, did)) == if k in t then t else t[k := Pe(k, 0, 0, did)]
  {
    if num > 0 {
      assert NewPes(start, num, did)[..num - 1] == NewPes(start, num - 1, did);
    }
  }

  lemma NotYetRegistered(tab: map<nat, Pe>, start: nat, num: nat, did: nat)
    requires forall k: nat :: start <= k < start + num + 1 ==> k !in tab
    ensures start + num !in Insert(tab, NewPes(start, num, did))
  {
    hide Insert;
    InsertFresh(tab, NewPes(start, num, did));
  }

  lemma KilledStatus(s: State, i: nat, id: nat)
    requires Inv(s) && Enabled(s, RegisterKilled(i))
    ensures StatusOf(Next(s, RegisterKilled(i)), id) == StatusAfter(s, RegisterKilled(i), id)
  {
    hide Inv, Places, Insert, Holder;
    var t, op := Next(s, RegisterKilled(i)), s.threads[i];
    OneInsert(s.t.killedTab, op.pe);
    StatusHeld(s, i, id);
    if Owns(op, id) {
      HeldStatus(s, i, id);
      assert id in t.t.killedTab && t.t.killedTab[id] == op.pe && id !in t.t.peTab;
      assert StatusOf(t, id) == Killed(op.pe);
    } else {
      OthersSame(s, t, i, id);
    }
  }

  lemma RespawnStatus(s: State, i: nat, pe: Pe, id: nat)
    requires Inv(s) && Enabled(s, Respawn(i, pe))
    ensures StatusOf(Next(s, Respawn(i, pe)), id) == StatusAfter(s, Respawn(i, pe), id)
  {
    hide Inv, Places, Erase, Holder;
    var t := Next(s, Respawn(i, pe));
    StepKeeps(s, Respawn(i, pe));
    OneErase(s.t.killedTab, pe, SameJobGroup());
    if Owns(t.threads[i], id) {
      HeldStatus(t, i, id);
      TableStatus(s, id);
      assert StatusOf(s, id) == Killed(s.t.killedTab[id]);
    } else {
      OthersSame(s, t, i, id);
      if StatusOf(s, id).Killed? { KilledMeans(s, id); }
    }
  }

  lemma KilledMeans(s: State, id: nat)
    requires StatusOf(s, id).Killed?
    ensures id in s.t.killedTab && StatusOf(s, id) == Killed(s.t.killedTab[id])
  {
  }

  lemma UnregisterStatus(s: State, i: nat, id: nat)
    requires Inv(s) && Enabled(s, Unregister(i))
    ensures StatusOf(Next(s, Unregister(i)), id) == StatusAfter(s, Unregister(i), id)
  {
    hide Inv, Places, Erase, Holder;
    var t := Next(s, Unregister(i));
    StepKeeps(s, Unregister(i));
    OneErase(s.t.peTab, s.threads[i].pe, Anything());
    if Owns(t.threads[i], id) {
      HeldStatus(t, i, id);
      assert StatusOf(s, id) == Live(s.t.peTab[id]);
    } else {
      OthersSame(s, t, i, id);
      if StatusOf(s, id).Live? { LiveMeans(s, id); }
    }
  }

  lemma LiveMeans(s: State, id: nat)
    requires StatusOf(s, id).Live?
    ensures id in s.t.peTab && StatusOf(s, id) == Live(s.t.peTab[id])
  {
  }

  lemma ReviveStatus(s: State, i: nat, did: nat, id: nat)
    requires Inv(s) && Enabled(s, Revive(i, did))
    ensures StatusOf(Next(s, Revive(i, did)), id) == StatusAfter(s, Revive(i, did), id)
  {
    hide Inv, Places, Insert, Holder;
    var t, op := Next(s, Revive(i, did)), s.threads[i];
    OneInsert(s.t.peTab, op.pe.(did := did));
    StatusHeld(s, i, id);
    if Owns(op, id) {
      HeldStatus(s, i, id);
      assert StatusOf(t, id) == Live(op.pe.(did := did));
    } else {
      OthersSame(s, t, i, id);
    }
  }

  lemma FailStatus(s: State, a: Step, id: nat)
    requires Inv(s) && Enabled(s, a) && (a.SpawnFails? || a.RespawnFails?)
    ensures StatusOf(Next(s, a), id) == StatusAfter(s, a, id)
  {
    hide Inv, Places;
    StatusHeld(s, a.i, id);
    if Owns(s.threads[a.i], id) {
      HeldStatus(s, a.i, id);
    } else {
      OthersSame(s, Next(s, a), a.i, id);
    }
  }

  lemma ExitStatus(s: State, pe: Pe, id: nat)
    requires Inv(s)
    ensures StatusOf(Next(s, ExitNotice(pe)), id) == StatusAfter(s, ExitNotice(pe), id)
  {
    hide Inv, Places, Erase;
    OneErase(s.t.peTab, pe, SameJobGroupDevice());
    if id in s.t.peTab {
      TableStatus(s, id);
    } else {
      SameStatus(s, Next(s, ExitNotice(pe)), id);
    }
  }

  /** What every step does to every id. */
  lemma StatusStep(s: State, a: Step, id: nat)
    requires Inv(s) && Enabled(s, a)
    ensures StatusOf(Next(s, a), id) == StatusAfter(s, a, id)
  {
    hide Inv, StatusOf, Erase, Insert;
    if a.Allocate? {
      AllocateStatus(s, a.i, id);
    } else if a.Register? {
      RegisterStatus(s, a.i, a.did, id);
    } else if a.ExitNotice? {
      ExitStatus(s, a.pe, id);
    } else if a.RegisterKilled? {
      KilledStatus(s, a.i, id);
    } else if a.Respawn? {
      RespawnStatus(s, a.i, a.pe, id);
    } else if a.Unregister? {
      UnregisterStatus(s, a.i, id);
    } else if a.Revive? {
      ReviveStatus(s, a.i, a.did, id);
    } else if a.SpawnFails? || a.RespawnFails? {
      FailStatus(s, a, id);
    } else {
      OthersSame(s, Next(s, a), a.i, id);
    }
  }

  /** The ways from one status to the next. */
  predicate Follows(x: Status, y: Status) {
    match x
    case Unused => y == x || y.Awaited?
    case Awaited(_) => y == x || y.Live? || y.Failed?
    case Live(_) => y == x || y.Taken? || y.Exited?
    case Taken(i, pe) => y == x || y == Killed(pe)
    case Killed(pe) => y == x || (y.Returning? && y.pe.jid == pe.jid && y.pe.gid == pe.gid)
    case Returning(_, pe) => y == x || y.Failed? || (y.Live? && y.pe == pe.(did := y.pe.did))
    case Exited => y == x
    case Failed => y == x
  }

  lemma StatusFollows(s: State, a: Step, id: nat)
    requires Inv(s) && Enabled(s, a)
    ensures Follows(StatusOf(s, id), StatusOf(Next(s, a), id))
  {
    hide Inv, Next, StatusOf;
    StatusStep(s, a, id);
    if id >= s.t.peidCnt { NothingThere(s, id); } else { Known(s, id); }
  }

  /** An id that was handed out has a status. */
  lemma Known(s: State, id: nat)
    requires Inv(s) && id < s.t.peidCnt
    ensures StatusOf(s, id) != Unused
  {
    hide Inv;
    PlacesAre(s, id);
    if forall j :: 0 <= j < |s.threads| ==> !Owns(s.threads[j], id) {
      NoOwners(s.threads, id);
    }
  }

  lemma {:induction false} NoOwners(threads: seq<Op>, id: nat)
    requires forall j :: 0 <= j < |threads| ==> !Owns(threads[j], id)
    ensures Owners(threads, id) == 0
  {
    if threads != [] {
      NoOwners(threads[..|threads| - 1], id);
    }
  }

  /** The statuses an id goes through. */
  function Life(s: State, run: seq<Step>, id: nat): seq<Status>
    requires CanRun(s, run)
    decreases |run|
  {
    [StatusOf(s, id)] + if run == [] then [] else Life(Next(s, run[0]), run[1..], id)
  }

  /** In every run every id begins unused and goes from status to status in these ways only. */
  lemma {:induction false} LifeFollows(s: State, run: seq<Step>, id: nat)
    requires Inv(s) && CanRun(s, run)
    ensures var l := Life(s, run, id);
            |l| == |run| + 1 && l[0] == StatusOf(s, id) && l[|run|] == StatusOf(Run(s, run), id)
            && forall i :: 0 <= i < |run| ==> Follows(l[i], l[i + 1])
    decreases |run|
  {
    hide Inv, Next, Enabled, StatusOf, Follows;
    if run != [] {
      StepKeeps(s, run[0]);
      StatusFollows(s, run[0], id);
      LifeFollows(Next(s, run[0]), run[1..], id);
    }
  }

  lemma LifeBegins(n: nat, run: seq<Step>, id: nat)
    requires CanRun(Init(n), run)
    ensures var l := Life(Init(n), run, id);
            |l| == |run| + 1 && l[0] == Unused && l[|run|] == StatusOf(Run(Init(n), run), id)
            && forall i :: 0 <= i < |run| ==> Follows(l[i], l[i + 1])
  {
    hide Next, Enabled, Owners, Run, CanRun, Life, StatusOf;
    forall k: nat ensures Places(Init(n), k) == 0 { NobodyOwns(n, k); }
    LifeFollows(Init(n), run, id);
    NothingThere(Init(n), id);
  }

  // ---------------------------------------------------------------- how far the guard lets the ids run

  /** Ids that threads which have gone by the guard are about to be given. */
  function Passing(threads: seq<Op>): nat {
    if threads == [] then 0
    else Passing(threads[..|threads| - 1]) + match threads[|threads| - 1] case Passed(num) => num case _ => 0
  }

  function Share(op: Op): nat { match op case Passed(num) => num case _ => 0 }

  lemma {:induction false} PassingSet(threads: seq<Op>, i: nat, op: Op)
    requires i < |threads|
    ensures Passing(threads[i := op]) + Share(threads[i]) == Passing(threads) + Share(op)
  {
    var n := |threads| - 1;
    if i < n {
      assert threads[i := op][..n] == threads[..n][i := op];
      PassingSet(threads[..n], i, op);
    } else {
      assert threads[i := op][..n] == threads[..n];
    }
  }

  /** No request asks for more than `most` ids, and the guard compares with `max`. */
  predicate Modest(run: seq<Step>, max: nat, most: nat) {
    forall k :: 0 <= k < |run| && run[k].Guard? ==> run[k].num <= most && run[k].max == max
  }

  lemma {:induction false} PassingAtMost(threads: seq<Op>, most: nat)
    requires forall i :: 0 <= i < |threads| ==> Share(threads[i]) <= most
    ensures Passing(threads) <= |threads| * most
  {
    if threads != [] {
      var n := |threads| - 1;
      PassingAtMost(threads[..n], most);
      assert |threads| * most == n * most + most;
    }
  }

  predicate Bounded(s: State, max: nat, most: nat) {
    && (forall i :: 0 <= i < |s.threads| ==> Share(s.threads[i]) <= most)
    && s.t.peidCnt + Passing(s.threads) <= max + |s.threads| * most
  }

  lemma StepBounded(s: State, a: Step, max: nat, most: nat)
    requires Enabled(s, a) && Bounded(s, max, most) && (a.Guard? ==> a.num <= most && a.max == max)
    ensures Bounded(Next(s, a), max, most)
  {
    hide Erase, Insert, Passing;
    if !a.ExitNotice? {
      PassingSet(s.threads, a.i, Next(s, a).threads[a.i]);
    }
    if a.Guard? {
      PassingAtMost(s.threads[a.i := Idle], most);
      PassingSet(s.threads, a.i, Idle);
      PassingWithout(s.threads, a.i, most);
    }
  }

  /** The threads but one. */
  lemma {:induction false} PassingWithout(threads: seq<Op>, i: nat, most: nat)
    requires i < |threads| && Share(threads[i]) == 0 && forall j :: 0 <= j < |threads| ==> Share(threads[j]) <= most
    ensures Passing(threads) + most <= |threads| * most
  {
    var n := |threads| - 1;
    assert |threads| * most == n * most + most;
    if i < n {
      PassingWithout(threads[..n], i, most);
    } else {
      PassingAtMost(threads[..n], most);
    }
  }

  lemma {:induction false} RunBounded(s: State, run: seq<Step>, max: nat, most: nat)
    requires CanRun(s, run) && Modest(run, max, most) && Bounded(s, max, most)
    ensures Bounded(Run(s, run), max, most) && |Run(s, run).threads| == |s.threads|
    decreases |run|
  {
    hide Enabled, Next, Bounded;
    if run != [] {
      StepBounded(s, run[0], max, most);
      SameThreads(s, run[0]);
      assert forall k :: 0 <= k < |run[1..]| ==> run[1..][k] == run[k + 1];
      RunBounded(Next(s, run[0]), run[1..], max, most);
    }
  }

  lemma SameThreads(s: State, a: Step)
    requires Enabled(s, a)
    ensures |Next(s, a).threads| == |s.threads|
  {
    hide Erase, Insert;
  }

  /** The guard compares before the ids are handed out: with `n` threads and requests for up to `most` PEs each, never
      more than `max + n * most` ids are given away. */
  lemma GuardBounds(n: nat, run: seq<Step>, max: nat, most: nat)
    requires CanRun(Init(n), run) && Modest(run, max, most)
    ensures Run(Init(n), run).t.peidCnt <= max + n * most
  {
    hide Run, CanRun, Modest;
    NobodyPasses(n);
    RunBounded(Init(n), run, max, most);
  }

  lemma {:induction false} NobodyPasses(n: nat)
    ensures Passing(seq(n, _ => Idle)) == 0
  {
    if n > 0 {
      assert seq(n, _ => Idle)[..n - 1] == seq(n - 1, _ => Idle);
      NobodyPasses(n - 1);
    }
  }

  /** The bound is reached: two threads, a maximum of one. */
  lemma GuardReached()
    ensures var run := [Guard(0, 1, 1), Allocate(0), SpawnFails(0), Guard(0, 1, 1), Guard(1, 1, 1), Allocate(0),
                        Allocate(1)];
            CanRun(Init(2), run) && Modest(run, 1, 1) && Run(Init(2), run).t.peidCnt == 1 + 2 * 1
  {
    hide Erase, Insert, Owns;
    var run := [Guard(0, 1, 1), Allocate(0), SpawnFails(0), Guard(0, 1, 1), Guard(1, 1, 1), Allocate(0),
                Allocate(1)];
    var s0 := Init(2);
    var s1 := Next(s0, run[0]);
    var s2 := Next(s1, run[1]);
    var s3 := Next(s2, run[2]);
    var s4 := Next(s3, run[3]);
    var s5 := Next(s4, run[4]);
    var s6 := Next(s5, run[5]);
    var s7 := Next(s6, run[6]);
    OneMore(s6, run[6..]);
    OneMore(s5, run[5..]);
    OneMore(s4, run[4..]);
    OneMore(s3, run[3..]);
    OneMore(s2, run[2..]);
    OneMore(s1, run[1..]);
    OneMore(s0, run);
  }

  lemma OneMore(s: State, run: seq<Step>)
    requires run != [] && Enabled(s, run[0]) && CanRun(Next(s, run[0]), run[1..])
    ensures CanRun(s, run) && Run(s, run) == Run(Next(s, run[0]), run[1..])
  {
  }
}
