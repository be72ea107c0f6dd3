/** The API's table of mapped memory: an ordered map from base address to entry, searched by any address inside. */
module MemTable {
  import opened Wire
  import opened Ranges

  /** A mapping; `id` stands for the rest of the entry. */
  datatype Entry = Entry(region: Region, id: nat)

  predicate Ordered(tab: seq<Entry>) {
    forall i, j :: 0 <= i < j < |tab| ==> tab[i].region.addr < tab[j].region.addr
  }

  /** The map's insertion: an entry whose key is already there is dropped. */
  function Inserted(tab: seq<Entry>, e: Entry): seq<Entry> {
    if tab == [] || e.region.addr < tab[0].region.addr then [e] + tab
    else if e.region.addr == tab[0].region.addr then tab
    else [tab[0]] + Inserted(tab[1..], e)
  }

  lemma InsertedStep(tab: seq<Entry>, e: Entry)
    ensures tab == [] || e.region.addr < tab[0].region.addr ==> Inserted(tab, e) == [e] + tab
    ensures tab != [] && e.region.addr == tab[0].region.addr ==> Inserted(tab, e) == tab
    ensures tab != [] && e.region.addr > tab[0].region.addr ==>
              Inserted(tab, e) == [tab[0]] + Inserted(tab[1..], e)
  {
  }

  /** The entry goes between those below it and the rest. */
  lemma {:induction false} InsertedAt(pre: seq<Entry>, post: seq<Entry>, e: Entry)
    requires forall d :: d in pre ==> d.region.addr < e.region.addr
    requires post != [] ==> post[0].region.addr >= e.region.addr
    ensures Inserted(pre + post, e)
            == if post != [] && post[0].region.addr == e.region.addr then pre + post else pre + ([e] + post)
    decreases |pre|
  {
    hide Inserted;
    InsertedStep(pre + post, e);
    if pre == [] {
      assert pre + post == post && pre + ([e] + post) == [e] + post;
    } else {
      var first, rest := [pre[0]], pre[1..];
      assert first + rest == pre && (pre + post)[1..] == rest + post && (pre + post)[0] == pre[0];
      InsertedAt(rest, post, e);
      assert first + (rest + post) == pre + post;
      assert first + (rest + ([e] + post)) == pre + ([e] + post);
    }
  }

  /** The scan's test: the upper end is base plus size minus one, computed in 64 bits. */
  predicate Hit(e: Entry, a: u64) { e.region.addr <= a <= (e.region.addr + e.region.length - 1) % U64 }

  predicate Contains(e: Entry, a: u64) { e.region.addr <= a < e.region.addr + e.region.length }

  /** First entry with this base address, and first entry that the scan's test hits, or the length. */
  function AtKey(tab: seq<Entry>, a: u64): (i: nat)
    ensures i <= |tab| && (i < |tab| ==> tab[i].region.addr == a) && forall j :: 0 <= j < i ==> tab[j].region.addr != a
  {
    if tab == [] || tab[0].region.addr == a then 0 else 1 + AtKey(tab[1..], a)
  }

  function FirstHit(tab: seq<Entry>, a: u64): (i: nat)
    ensures i <= |tab| && (i < |tab| ==> Hit(tab[i], a)) && forall j :: 0 <= j < i ==> !Hit(tab[j], a)
  {
    if tab == [] || Hit(tab[0], a) then 0 else 1 + FirstHit(tab[1..], a)
  }

  function Found(tab: seq<Entry>, a: u64): Option<Entry> {
    var k, i := AtKey(tab, a), FirstHit(tab, a);
    if k < |tab| then Some(tab[k]) else if i < |tab| then Some(tab[i]) else None
  }

  predicate BasedAt(tab: seq<Entry>, i: int, a: u64) { 0 <= i < |tab| && tab[i].region.addr == a }

  /** Entry `i` is the first of which the scan takes the address to lie between base and upper end. */
  predicate HitFirst(tab: seq<Entry>, i: int, a: u64) {
    0 <= i < |tab| && tab[i].region.addr <= a <= (tab[i].region.addr + tab[i].region.length - 1) % U64
    && forall j :: 0 <= j < i ==>
         !(tab[j].region.addr <= a <= (tab[j].region.addr + tab[j].region.length - 1) % U64)
  }

  /** An entry with this very base address goes before the first that the scan takes for the right one. */
  ghost predicate AnswersSearch(tab: seq<Entry>, a: u64, f: Option<Entry>) {
    if exists i :: BasedAt(tab, i, a) then exists i :: BasedAt(tab, i, a) && f == Some(tab[i])
    else if exists i :: HitFirst(tab, i, a) then exists i :: HitFirst(tab, i, a) && f == Some(tab[i])
    else f == None
  }

  lemma FoundExactly(tab: seq<Entry>, a: u64)
    ensures AnswersSearch(tab, a, Found(tab, a))
  {
    hide BasedAt, HitFirst;
    var k, i := AtKey(tab, a), FirstHit(tab, a);
    KeyIs(tab, a);
    HitIs(tab, a);
  }

  lemma KeyIs(tab: seq<Entry>, a: u64)
    ensures AtKey(tab, a) < |tab| ==> BasedAt(tab, AtKey(tab, a), a)
    ensures AtKey(tab, a) == |tab| ==> forall i :: !BasedAt(tab, i, a)
  {
  }

  lemma HitIs(tab: seq<Entry>, a: u64)
    ensures FirstHit(tab, a) < |tab| ==> HitFirst(tab, FirstHit(tab, a), a)
    ensures FirstHit(tab, a) == |tab| ==> forall i :: !HitFirst(tab, i, a)
  {
    assert forall i :: HitFirst(tab, i, a) ==> Hit(tab[i], a);
  }

  class Table {
    var tab: seq<Entry>

    constructor ()
      ensures tab == []
    {
      tab := [];
    }

    method RegisterMemEt(region: Region, id: nat)
      modifies this
      ensures tab == Inserted(old(tab), Entry(region, id))
    {
      var e := Entry(region, id);
      var i := 0;
      while i < |tab| && tab[i].region.addr < region.addr
        invariant i <= |tab| && forall j :: 0 <= j < i ==> tab[j].region.addr < region.addr
      {
        i := i + 1;
      }
      InsertedAt(tab[..i], tab[i..], e);
      assert tab[..i] + tab[i..] == tab;
      if i == |tab| || tab[i].region.addr != region.addr {
        tab := tab[..i] + ([e] + tab[i..]);
      }
    }

    method FindMemEt(addr: u64) returns (entry: Option<Entry>)
      ensures entry == Found(tab, addr)
      ensures AnswersSearch(tab, addr, entry)
    {
      hide AnswersSearch;
      FoundExactly(tab, addr);
      var k := AtKey(tab, addr);
      if k < |tab| {
        return Some(tab[k]);
      }
      var i := 0;
      while i < |tab|
        invariant i <= |tab| && FirstHit(tab, addr) == i + FirstHit(tab[i..], addr)
      {
        var lower := tab[i].region.addr;
        var upper := (lower + tab[i].region.length - 1) % U64;
        if addr >= lower && addr <= upper {
          return Some(tab[i]);
        }
        assert tab[i..][1..] == tab[i + 1..];
        i := i + 1;
      }
      return None;
    }
  }

  // ---------------------------------------------------------------- containment

  predicate NoOverlap(d: Entry, e: Entry) {
    d.region.addr + d.region.length <= e.region.addr || e.region.addr + e.region.length <= d.region.addr
  }

  /** Regions with base addresses of their own that share no byte. */
  predicate Separate(es: seq<Entry>) {
    forall i, j :: 0 <= i < j < |es| ==> NoOverlap(es[i], es[j]) && es[i].region.addr != es[j].region.addr
  }

  /** The table after registering these entries in this order. */
  function Registered(es: seq<Entry>): seq<Entry> {
    if es == [] then [] else Inserted(Registered(es[..|es| - 1]), es[|es| - 1])
  }

  lemma {:induction false} InsertedHas(tab: seq<Entry>, e: Entry)
    requires Ordered(tab)
    ensures Ordered(Inserted(tab, e))
    ensures forall d :: d in Inserted(tab, e) ==> d in tab || d == e
    ensures forall d :: d in tab ==> d in Inserted(tab, e)
    ensures (forall d :: d in tab ==> d.region.addr != e.region.addr) ==> e in Inserted(tab, e)
  {
    if tab != [] && e.region.addr > tab[0].region.addr {
      var rest := Inserted(tab[1..], e);
      InsertedHas(tab[1..], e);
      HeadTail(tab);
      OrderedFront(tab[0], rest);
    }
  }

  /** Registering an address again changes nothing. */
  lemma {:induction false} RegisteredTwice(tab: seq<Entry>, e: Entry, i: nat)
    requires Ordered(tab) && i < |tab| && tab[i].region.addr == e.region.addr
    ensures Inserted(tab, e) == tab
  {
    if i > 0 {
      RegisteredTwice(tab[1..], e, i - 1);
    }
  }

  lemma HeadTail(tab: seq<Entry>)
    requires tab != []
    ensures forall d :: d in tab <==> d == tab[0] || d in tab[1..]
  {
    assert tab == [tab[0]] + tab[1..];
  }

  /** An entry below all others can be put in front. */
  lemma OrderedFront(e: Entry, rest: seq<Entry>)
    requires Ordered(rest) && forall d :: d in rest ==> e.region.addr < d.region.addr
    ensures Ordered([e] + rest) && forall d :: d in [e] + rest <==> d == e || d in rest
  {
    forall j | 0 <= j < |rest| ensures e.region.addr < rest[j].region.addr {
      assert rest[j] in rest;
    }
  }

  lemma {:induction false} RegisteredHas(es: seq<Entry>)
    requires Separate(es)
    ensures Ordered(Registered(es)) && forall d :: d in Registered(es) <==> d in es
  {
    if es != [] {
      var n := |es| - 1;
      RegisteredHas(es[..n]);
      InsertedHas(Registered(es[..n]), es[n]);
      forall d | d in Registered(es[..n]) ensures d.region.addr != es[n].region.addr {
        var i :| 0 <= i < n && es[i] == d;
        assert NoOverlap(es[i], es[n]);
      }
      assert forall d :: d in es <==> d in es[..n] || d == es[n];
    }
  }

  lemma Pairwise(es: seq<Entry>, c: Entry, d: Entry)
    requires Separate(es) && c in es && d in es && c != d
    ensures NoOverlap(c, d) && c.region.addr != d.region.addr
  {
    var i :| 0 <= i < |es| && es[i] == c;
    var j :| 0 <= j < |es| && es[j] == d;
    assert if i < j then NoOverlap(es[i], es[j]) else NoOverlap(es[j], es[i]);
  }

  /** The answer to a search is the one region that contains the address, or that there is none. */
  predicate Right(f: Option<Entry>, es: seq<Entry>, a: u64) {
    match f
    case Some(e) => e in es && Contains(e, a) && forall d :: d in es && Contains(d, a) ==> d == e
    case None => forall d :: d in es ==> !Contains(d, a)
  }

  /** Not empty, and not wrapping around unless only the last address there is belongs to it. */
  predicate Sane(e: Entry) {
    e.region.length > 0 && (e.region.addr + e.region.length <= U64 || e.region.addr == U64 - 1)
  }

  /** Key or scan finds a sane entry at the addresses it contains, and at no other. */
  lemma SaneFound(e: Entry, a: u64)
    requires Sane(e)
    ensures Contains(e, a) <==> Hit(e, a) || e.region.addr == a
  {
    var lo, n := e.region.addr, e.region.length;
    if lo + n <= U64 {
      assert (lo + n - 1) % U64 == lo + n - 1;
    } else {
      assert (lo + n - 1) % U64 == lo + n - 1 - U64;
    }
  }

  /** Where the search looks: a region is found by key, by the scan, or not at all. */
  lemma FoundIs(es: seq<Entry>, a: u64)
    requires Separate(es)
    ensures match Found(Registered(es), a)
            case Some(e) =>
              e in es && (e.region.addr == a || (Hit(e, a) && forall d :: d in es ==> d.region.addr != a))
            case None => forall d :: d in es ==> d.region.addr != a && !Hit(d, a)
  {
    hide Registered, AtKey, FirstHit, Hit, Separate;
    var tab := Registered(es);
    RegisteredHas(es);
    var k, i := AtKey(tab, a), FirstHit(tab, a);
    if k < |tab| {
      assert tab[k] in tab;
    } else {
      assert forall d :: d in tab ==> d.region.addr != a;
      if i < |tab| {
        assert tab[i] in tab;
      } else {
        assert forall d :: d in tab ==> !Hit(d, a);
      }
    }
  }

  lemma SaneRight(es: seq<Entry>, a: u64)
    requires Separate(es) && forall e :: e in es ==> Sane(e)
    ensures Right(Found(Registered(es), a), es, a)
  {
    hide Registered, Found, Separate, Sane, Hit;
    FoundIs(es, a);
    forall d | d in es ensures Contains(d, a) <==> Hit(d, a) || d.region.addr == a {
      SaneFound(d, a);
    }
    forall c, d | c in es && d in es && Contains(c, a) && Contains(d, a) ensures c == d {
      if c != d {
        Pairwise(es, c, d);
      }
    }
  }

  /** An address at which the search answers wrongly because of an entry that is not sane. */
  lemma WrongSomewhere(es: seq<Entry>, e: Entry)
    requires Separate(es) && e in es && !Sane(e)
    ensures exists a: u64 :: !Right(Found(Registered(es), a), es, a)
  {
    hide Registered, Found, Separate;
    var a: u64 := if e.region.length == 0 then e.region.addr else U64 - 1;
    FoundIs(es, a);
    forall d | d in es && d != e ensures NoOverlap(d, e) && d.region.addr != e.region.addr {
      Pairwise(es, d, e);
    }
    assert !Right(Found(Registered(es), a), es, a);
  }

  /** For separate regions the search is right at every address exactly when all of them are sane. */
  lemma FindIsContainment(es: seq<Entry>)
    requires Separate(es)
    ensures (forall a: u64 :: Right(Found(Registered(es), a), es, a)) <==> forall e :: e in es ==> Sane(e)
  {
    hide Registered, Found, Separate, Sane, Right;
    if forall e :: e in es ==> Sane(e) {
      forall a: u64 ensures Right(Found(Registered(es), a), es, a) { SaneRight(es, a); }
    } else {
      var e :| e in es && !Sane(e);
      WrongSomewhere(es, e);
    }
  }

  // ---------------------------------------------------------------- puts from any address

  predicate Mapped(es: seq<Entry>) {
    Separate(es) && forall e :: e in es ==> e.region.length > 0 && NoWrap(e.region)
  }

  /** ivmSyncPut with its lookup: the entry found and the offset sent to the agent. */
  function SyncPutAt(tab: seq<Entry>, ptr: u64, length: u64): Option<(Entry, u64)> {
    match Found(tab, ptr)
    case None => None
    case Some(e) =>
      match SyncPut(e.region, e.region.length, ptr, length)
      case None => None
      case Some(offset) => Some((e, offset))
  }

  /** Where an agent has the mirror of a mapping, and where the master is. */
  datatype Home = Home(mirror: Region, master: Region)

  /** The whole way of a put: lookup and check in the API, the mirror's entry in the agent, the checks of agent and
      link. The result is the address written in the master. */
  function PutAt(tab: seq<Entry>, homes: map<nat, Home>, ptr: u64, length: u64): Option<u64> {
    match Found(tab, ptr)
    case None => None
    case Some(e) =>
      if e.id !in homes then None
      else Put(e.region, e.region.length, homes[e.id].mirror, homes[e.id].master, ptr, length)
  }

  /** Mirror and mapping have one size of at most 2^63 bytes, the master no more; no region wraps around. */
  predicate AtHome(e: Entry, homes: map<nat, Home>) {
    e.id in homes
    && (var h := homes[e.id];
        NoWrap(h.mirror) && NoWrap(h.master) && h.master.length <= e.region.length == h.mirror.length <= HALF)
  }

  predicate Fits(e: Entry, homes: map<nat, Home>, ptr: u64, length: u64) {
    e.id in homes && Contains(e, ptr) && ptr - e.region.addr + length <= homes[e.id].master.length
  }

  /** A put goes through exactly when one of the mappings contains its address and its range fits, and then it writes
      the same offset range of that mapping's master: agent and link refuse nothing the API let through but what a
      shorter master cannot take. */
  lemma PutGoesThrough(es: seq<Entry>, homes: map<nat, Home>, ptr: u64, length: u64)
    requires Mapped(es) && forall e :: e in es ==> AtHome(e, homes)
    ensures PutAt(Registered(es), homes, ptr, length).Some?
            <==> exists e :: e in es && Fits(e, homes, ptr, length)
    ensures forall e :: e in es && Fits(e, homes, ptr, length) ==>
              var h := homes[e.id];
              PutAt(Registered(es), homes, ptr, length) == Some(h.master.addr + (ptr - e.region.addr))
              && Inside(e.region, ptr, length) && Inside(h.master, h.master.addr + (ptr - e.region.addr), length)
  {
    hide Registered, Found, Put, SyncPut, Separate;
    SaneRight(es, ptr);
    var f := Found(Registered(es), ptr);
    if f.Some? {
      var e := f.value;
      assert AtHome(e, homes);
      ChecksCompose(e.region, homes[e.id].mirror, homes[e.id].master, ptr, length);
    }
  }

  /** The API check admits only ranges inside the mapping found exactly when no mapping has more than 2^63 bytes. */
  lemma SoundExactlyUpToHalf(es: seq<Entry>)
    requires Mapped(es)
    ensures (forall ptr: u64, length: u64 ::
               var f := SyncPutAt(Registered(es), ptr, length); f.Some? ==> Inside(f.value.0.region, ptr, length))
            <==> forall e :: e in es ==> e.region.length <= HALF
    ensures forall ptr: u64, length: u64 ::
              var f := SyncPutAt(Registered(es), ptr, length);
              f.Some? ==> f.value.0 in es && Contains(f.value.0, ptr) && f.value.1 == ptr - f.value.0.region.addr
  {
    hide Registered, Found, SyncPut, Separate;
    var tab := Registered(es);
    forall ptr: u64, length: u64
      ensures var f := SyncPutAt(tab, ptr, length);
              f.Some? ==> f.value.0 in es && Contains(f.value.0, ptr) && f.value.1 == ptr - f.value.0.region.addr
    {
      SaneRight(es, ptr);
      var f := Found(tab, ptr);
      if f.Some? {
        SyncPutAdmits(f.value.region, f.value.region.length, ptr, length);
      }
    }
    if forall e :: e in es ==> e.region.length <= HALF {
      forall ptr: u64, length: u64
        ensures var f := SyncPutAt(tab, ptr, length); f.Some? ==> Inside(f.value.0.region, ptr, length)
      {
        SaneRight(es, ptr);
        var f := Found(tab, ptr);
        if f.Some? {
          ChecksCompose(f.value.region, f.value.region, f.value.region, ptr, length);
        }
      }
    } else {
      var e :| e in es && e.region.length > HALF;
      LargeRegionAdmits(e.region);
      var last: u64 := e.region.addr + e.region.length - 1;
      SaneRight(es, last);
      assert Contains(e, last);
      assert SyncPutAt(tab, last, e.region.length).Some?;
    }
  }
}
