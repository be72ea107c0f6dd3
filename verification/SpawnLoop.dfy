/** The spawn rounds of one group, when spawn requests to the agents may fail. */
module SpawnLoop {

  /** How many of the first `k` requests fail. */
  function Failures(ok: nat -> bool, k: nat): (f: nat)
    ensures f <= k
  {
    if k == 0 then 0 else Failures(ok, k - 1) + if ok(k - 1) then 0 else 1
  }

  /** No two live PEs share a device. */
  predicate OnePerDevice(tab: map<nat, nat>) { forall p, q :: p in tab && q in tab && p != q ==> tab[p] != tab[q] }

  /** The live PEs are exactly those with ids from `lo` up to `hi` whose requests succeeded; the devices below `devices`
      were asked in order, one request each. */
  predicate Placed(tab: map<nat, nat>, lo: nat, hi: nat, devices: nat, ok: nat -> bool) {
    OnePerDevice(tab) && hi - lo <= devices && (forall p :: p in tab ==> lo <= p < hi && tab[p] == p - lo)
    && forall p: nat :: lo <= p < hi ==> (p in tab <==> ok(p))
  }

  lemma PlaceOne(tab: map<nat, nat>, lo: nat, peid: nat, device: nat, ok: nat -> bool)
    requires Placed(tab, lo, peid, device, ok) && lo <= peid
    ensures Placed(tab, lo, peid, device + 1, ok)
    ensures !ok(peid) ==> Placed(tab, lo, peid + 1, device + 1, ok)
    ensures ok(peid) && device == peid - lo ==>
              Placed(tab[peid := device], lo, peid + 1, device + 1, ok) && |tab[peid := device]| == |tab| + 1
  {
    if ok(peid) && device == peid - lo {
      PlaceLive(tab, lo, peid, ok);
    }
  }

  lemma PlaceLive(tab: map<nat, nat>, lo: nat, peid: nat, ok: nat -> bool)
    requires lo <= peid && ok(peid) && Placed(tab, lo, peid, peid - lo, ok)
    ensures Placed(tab[peid := peid - lo], lo, peid + 1, peid - lo + 1, ok)
    ensures |tab[peid := peid - lo]| == |tab| + 1
  {
    assert peid !in tab;
    assert tab[peid := peid - lo].Keys == tab.Keys + {peid};
  }

  lemma PlaceNone(lo: nat, ok: nat -> bool)
    ensures Placed(map[], lo, lo, 0, ok)
  {
  }

  lemma FailuresNext(ok: nat -> bool, k: nat)
    ensures Failures(ok, k + 1) == Failures(ok, k) + if ok(k) then 0 else 1
  {
  }

  /** How far a round is: ids used, live PEs, PEs that existed, and PEs counted as spawned. */
  datatype Tally = Tally(peids: nat, tab: map<nat, nat>, ran: nat, spawned: nat)

  /** What holds after `idx` devices of a round that began with `from`. */
  predicate InRound(max: nat, from: Tally, idx: nat, t: Tally, ok: nat -> bool) {
    && Placed(t.tab, from.peids, t.peids, idx, ok) && |t.tab| == t.ran - from.ran
    && from.spawned <= t.spawned <= max
    && from.peids <= t.peids <= from.peids + idx && t.peids <= max + 1
    && t.ran == t.peids - Failures(ok, t.peids) && from.ran <= t.ran <= t.spawned
    && (t.ran < t.spawned ==> t.peids == max + 1 && t.ran < max)
    && (t.ran == t.spawned < max ==> t.peids == from.peids + idx)
    && (t.ran == t.spawned == max && from.spawned < max ==> t.peids > from.peids)
    && (from.spawned == max ==> t.peids == from.peids)
  }

  /** The next device: the guard fires, the request succeeds, or it fails. */
  lemma NextDevice(max: nat, from: Tally, idx: nat, t: Tally, ok: nat -> bool)
    requires InRound(max, from, idx, t, ok)
    ensures t.spawned == max ==> InRound(max, from, idx + 1, t, ok)
    ensures t.spawned < max ==>
              if t.peids > 0 && t.peids - 1 >= max then
                InRound(max, from, idx + 1, t.(spawned := t.spawned + 1), ok)
              else if ok(t.peids) then
                InRound(max, from, idx + 1, Tally(t.peids + 1, t.tab[t.peids := idx], t.ran + 1, t.spawned + 1), ok)
              else InRound(max, from, idx + 1, t.(peids := t.peids + 1), ok)
  {
    hide Placed, Failures;
    PlaceOne(t.tab, from.peids, t.peids, idx, ok);
    FailuresNext(ok, t.peids);
  }

  lemma RoundStarts(max: nat, from: Tally, ok: nat -> bool)
    requires from.spawned <= max && from.peids <= max + 1 && from.tab == map[]
    requires from.ran == from.spawned == from.peids - Failures(ok, from.peids)
    ensures InRound(max, from, 0, from, ok)
  {
    hide Placed, Failures;
    PlaceNone(from.peids, ok);
  }

  lemma RoundEnds(max: nat, from: Tally, n: nat, t: Tally, ok: nat -> bool)
    requires InRound(max, from, n, t, ok)
    ensures Placed(t.tab, from.peids, t.peids, n, ok) && |t.tab| == t.ran - from.ran && t.peids <= max + 1
    ensures from.peids <= t.peids <= from.peids + n && from.ran <= t.ran <= t.spawned
    ensures t.ran == t.peids - Failures(ok, t.peids)
    ensures t.ran < t.spawned ==> t.peids == max + 1 && t.ran < max
    ensures t.ran == t.spawned < max ==> t.peids == from.peids + n
    ensures t.ran == t.spawned == max && from.spawned < max ==> t.peids > from.peids
    ensures from.spawned == max ==> t.peids == from.peids
  {
    hide Placed, Failures;
  }

  /** Request number `k`, counted from 0, succeeds when `ok(k)`; `peTab` has the device of each live PE, `ran` counts
      the PEs that existed. */
  class GroupThread {
    const max: nat
    var peidCnt: nat
    var peTab: map<nat, nat>
    var ran: nat

    constructor (max: nat)
      ensures this.max == max && peidCnt == 0 && peTab == map[] && ran == 0
    {
      this.max := max;
      peidCnt, peTab, ran := 0, map[], 0;
    }

    function MaxPeid(): nat
      reads this
    {
      if peidCnt > 0 then peidCnt - 1 else 0
    }

    /** The guard reports success without asking for a PE; an id is used up even when the request fails. */
    method SpawnPe(device: nat, ok: nat -> bool) returns (ret: int)
      modifies this
      ensures old(MaxPeid()) >= max ==> ret == 0 && peidCnt == old(peidCnt) && peTab == old(peTab) && ran == old(ran)
      ensures old(MaxPeid()) < max ==>
                peidCnt == old(peidCnt) + 1
                && (if ok(old(peidCnt))
                  then ret == 0 && peTab == old(peTab)[old(peidCnt) := device] && ran == old(ran) + 1
                    else ret == -1 && peTab == old(peTab) && ran == old(ran))
    {
      if MaxPeid() >= max {
        return 0;
      }
      var peid := peidCnt;
      peidCnt := peidCnt + 1;
      if !ok(peid) {
        return -1;
      }
      peTab := peTab[peid := device];
      ran := ran + 1;
      return 0;
    }

    /** One round over the `n` devices of the grant, begun when all earlier PEs have exited: each device gets at most
        one PE, whatever fails. */
    method Round(n: nat, spawned0: nat, ok: nat -> bool) returns (spawned: nat, active: nat)
      requires spawned0 <= max && peidCnt <= max + 1 && ran == spawned0 == peidCnt - Failures(ok, peidCnt)
      requires peTab == map[]
      modifies this
      ensures Placed(peTab, old(peidCnt), peidCnt, n, ok) && |peTab| == ran - old(ran)
      ensures spawned0 <= spawned <= max && active == spawned - spawned0
      ensures old(peidCnt) <= peidCnt <= old(peidCnt) + n && peidCnt <= max + 1
      ensures ran == peidCnt - Failures(ok, peidCnt) && old(ran) <= ran <= spawned
      ensures ran < spawned ==> peidCnt == max + 1 && ran < max
      ensures ran == spawned < max ==> peidCnt == old(peidCnt) + n
      ensures ran == spawned == max && spawned0 < max ==> peidCnt > old(peidCnt)
      ensures spawned0 == max ==> peidCnt == old(peidCnt)
    {
      hide Placed, Failures, InRound;
      ghost var from := Tally(peidCnt, peTab, ran, spawned0);
      spawned, active := spawned0, 0;
      RoundStarts(max, from, ok);
      for idx := 0 to n
        invariant InRound(max, from, idx, Tally(peidCnt, peTab, ran, spawned), ok)
        invariant spawned0 <= spawned <= max && active == spawned - spawned0
      {
        NextDevice(max, from, idx, Tally(peidCnt, peTab, ran, spawned), ok);
        if spawned < max {
          var ret := SpawnPe(idx, ok);
          if ret == 0 && spawned < max {
            spawned := spawned + 1;
            active := active + 1;
          }
        }
      }
      RoundEnds(max, from, n, Tally(peidCnt, peTab, ran, spawned), ok);
    }

    /** All rounds. Only real PEs report an exit, so a round that counted one that is not real waits for ever:
        `hung`. That happens exactly when two of the first max + 1 requests fail. */
    method Routine(n: nat, ok: nat -> bool) returns (rounds: nat, spawned: nat, hung: bool)
      requires n >= 1 && peidCnt == 0 && peTab == map[] && ran == 0
      modifies this
      ensures hung <==> max > 0 && Failures(ok, max + 1) >= 2
      ensures hung ==> peidCnt == max + 1 && ran == max + 1 - Failures(ok, max + 1)
      ensures !hung ==> ran == spawned == max && peidCnt == max + Failures(ok, peidCnt) && peTab == map[]
      ensures !hung && max > 0 ==> (rounds - 1) * n < peidCnt <= rounds * n
      ensures max == 0 ==> rounds == 1 && peidCnt == 0
    {
      hide Failures, Product, Placed;
      rounds, spawned, hung := 0, 0, false;
      ghost var offered := 0;
      var again := true;
      NoRequests(ok);
      ProductStep(rounds, n);
      while again
        invariant offered == Product(rounds, n)
        invariant again ==> peidCnt == offered && ran == spawned && (spawned < max || (max == 0 && rounds == 0))
        invariant ran == peidCnt - Failures(ok, peidCnt) && ran <= max && peidCnt <= max + 1
        invariant !again ==> ran == spawned == max && (max == 0 ==> rounds == 1 && peidCnt == 0)
        invariant !again && max > 0 ==> offered - n < peidCnt <= offered
        invariant spawned <= max && peTab == map[]
        decreases if again then 1 else 0, max + 1 - peidCnt
      {
        var active;
        spawned, active := Round(n, spawned, ok);
        if ran < spawned {
          hung := true;
          return;
        }
        peTab := map[];
        ProductStep(rounds, n);
        rounds := rounds + 1;
        offered := offered + n;
        again := spawned < max;
      }
      FailuresStep(ok, peidCnt, max + 1);
      ProductStep(rounds - 1, n);
    }
  }

  function Product(a: nat, n: nat): nat { a * n }

  lemma ProductStep(a: nat, n: nat)
    ensures Product(a, n) == a * n && Product(0, n) == 0
    ensures Product(a + 1, n) == Product(a, n) + n == (a + 1) * n
  {
  }

  lemma NoRequests(ok: nat -> bool)
    ensures Failures(ok, 0) == 0
  {
  }

  lemma {:induction false} FailuresStep(ok: nat -> bool, k: nat, m: nat)
    requires k <= m
    ensures Failures(ok, k) <= Failures(ok, m) <= Failures(ok, k) + (m - k)
  {
    if k < m {
      FailuresStep(ok, k, m - 1);
    }
  }

  lemma {:induction false} NoFailures(ok: nat -> bool, k: nat)
    requires forall i: nat :: i < k ==> ok(i)
    ensures Failures(ok, k) == 0
  {
    if k > 0 {
      NoFailures(ok, k - 1);
    }
  }

  /** Without failures the thread takes ceil(max / n) rounds and runs PEs 0 to max - 1. */
  method RunWithoutFailures(max: nat, n: nat) returns (rounds: nat, ran: nat, hung: bool)
    requires n >= 1
    ensures !hung && ran == max && rounds == if max == 0 then 1 else (max + n - 1) / n
  {
    var g := new GroupThread(max);
    var spawned;
    rounds, spawned, hung := g.Routine(n, _ => true);
    NoFailures(_ => true, max + 1);
    NoFailures(_ => true, g.peidCnt);
    ran := g.ran;
    if max > 0 {
      CeilingBounds(max, n, rounds);
    }
  }

  lemma CeilingBounds(a: nat, n: nat, q: nat)
    requires n >= 1 && (q - 1) * n < a <= q * n
    ensures q == (a + n - 1) / n
  {
    var d, r := (a + n - 1) / n, (a + n - 1) % n;
    assert a + n - 1 == d * n + r;
    if d < q {
      assert d * n <= (q - 1) * n by { MulLeq(d, q - 1, n); }
    } else if d > q {
      assert (q + 1) * n <= d * n by { MulLeq(q + 1, d, n); }
    }
  }

  lemma MulLeq(x: int, y: int, n: nat)
    requires x <= y
    ensures x * n <= y * n
  {
  }
}
