/** The bounded registry of recently active clients, as functions on a value. */
module LruSpec {
  import opened Wrappers
  import opened Messages

  datatype Event = Queried | Blocked | CacheHit | CacheMiss | Opened | Closed

  datatype Counts = Counts(queries: nat, blocked: nat, hits: nat, misses: nat, active: nat)

  const NO_COUNTS := Counts(0, 0, 0, 0, 0)

  /** A close without a matching open is not counted. */
  function Bump(c: Counts, event: Event): Counts {
    match event
    case Queried => c.(queries := c.queries + 1)
    case Blocked => c.(blocked := c.blocked + 1)
    case CacheHit => c.(hits := c.hits + 1)
    case CacheMiss => c.(misses := c.misses + 1)
    case Opened => c.(active := c.active + 1)
    case Closed => c.(active := if c.active > 0 then c.active - 1 else 0)
  }

  datatype Tracked = Tracked(counts: Counts, lastActivity: nat)

  datatype Registry = Registry(clients: map<IpAddr, Tracked>, clock: nat)

  const NEW_REGISTRY := Registry(map[], 1)

  ghost predicate IsOldest(clients: map<IpAddr, Tracked>, ip: IpAddr) {
    ip in clients && forall other :: other in clients ==> clients[ip].lastActivity <= clients[other].lastActivity
  }

  predicate MustEvict(r: Registry, capacity: nat, ip: IpAddr) {
    ip !in r.clients && |r.clients| >= capacity && r.clients != map[]
  }

  ghost predicate VictimOk(r: Registry, capacity: nat, ip: IpAddr, victim: Option<IpAddr>) {
    if MustEvict(r, capacity, ip) then victim.Some? && IsOldest(r.clients, victim.value) else victim.None?
  }

  function Without<V>(m: map<IpAddr, V>, victim: Option<IpAddr>): map<IpAddr, V> {
    if victim.Some? then m - {victim.value} else m
  }

  function CountsOf(clients: map<IpAddr, Tracked>, ip: IpAddr): Counts {
    if ip in clients then clients[ip].counts else NO_COUNTS
  }

  function WithClient(r: Registry, ip: IpAddr, event: Event, victim: Option<IpAddr>): Registry {
    Registry(Without(r.clients, victim)[ip := Tracked(Bump(CountsOf(r.clients, ip), event), r.clock)], r.clock + 1)
  }

  // ---- histories of calls executed one at a time ----

  datatype Call = Call(ip: IpAddr, event: Event, victim: Option<IpAddr>)

  ghost predicate IsHistory(capacity: nat, calls: seq<Call>)
    decreases |calls|, 0
  {
    calls == [] ||
    (IsHistory(capacity, calls[..|calls| - 1]) &&
     VictimOk(Replay(capacity, calls[..|calls| - 1]), capacity, calls[|calls| - 1].ip, calls[|calls| - 1].victim))
  }

  ghost function Replay(capacity: nat, calls: seq<Call>): Registry
    requires IsHistory(capacity, calls)
    decreases |calls|, 1
  {
    if calls == [] then NEW_REGISTRY
    else
      var call := calls[|calls| - 1];
      WithClient(Replay(capacity, calls[..|calls| - 1]), call.ip, call.event, call.victim)
  }

  // ---- the reference: distinct clients by recency ----

  function IndexOf(s: seq<IpAddr>, x: IpAddr): (i: nat)
    requires x in s
    ensures i < |s| && s[i] == x
    ensures forall j :: 0 <= j < i ==> s[j] != x
  {
    if s[0] == x then 0 else 1 + IndexOf(s[1..], x)
  }

  function MoveToFront(s: seq<IpAddr>, x: IpAddr): seq<IpAddr> {
    [x] + if x in s then s[..IndexOf(s, x)] + s[IndexOf(s, x) + 1..] else s
  }

  /** The distinct clients of a history, most recently active first. */
  function Recency(calls: seq<Call>): seq<IpAddr> {
    if calls == [] then [] else MoveToFront(Recency(calls[..|calls| - 1]), calls[|calls| - 1].ip)
  }

  function Bound(capacity: nat): nat {
    if capacity == 0 then 1 else capacity
  }

  /** The most recently active clients, as many as fit. */
  function Recent(calls: seq<Call>, capacity: nat): seq<IpAddr> {
    var r := Recency(calls);
    if |r| <= Bound(capacity) then r else r[..Bound(capacity)]
  }

  /** The events of `ip` since it last came in from outside the recent ones. */
  function Since(calls: seq<Call>, capacity: nat, ip: IpAddr): seq<Event> {
    if calls == [] then []
    else
      var call := calls[|calls| - 1];
      var before := calls[..|calls| - 1];
      if call.ip != ip then Since(before, capacity, ip)
      else if ip in Recent(before, capacity) then Since(before, capacity, ip) + [call.event]
      else [call.event]
  }

  function Tally(events: seq<Event>): Counts {
    if events == [] then NO_COUNTS else Bump(Tally(events[..|events| - 1]), events[|events| - 1])
  }

  // ---- what a tally counts ----

  function Opens(events: seq<Event>): int {
    (multiset(events)[Opened] as int) - multiset(events)[Closed]
  }

  lemma TallyLast(events: seq<Event>)
    requires events != []
    ensures var before, last := events[..|events| - 1], events[|events| - 1];
            && multiset(events) == multiset(before) + multiset{last}
            && (last.Closed? ==>
                  Tally(events).active == if Tally(before).active > 0 then Tally(before).active - 1 else 0)
            && (last.Opened? ==> Tally(events).active == Tally(before).active + 1)
            && (!last.Opened? && !last.Closed? ==> Tally(events).active == Tally(before).active)
  {
    assert events == events[..|events| - 1] + [events[|events| - 1]];
  }

  /** Each counter is the number of its events. */
  lemma {:induction false} TallyCounts(events: seq<Event>)
    ensures Tally(events).queries == multiset(events)[Queried]
    ensures Tally(events).blocked == multiset(events)[Blocked]
    ensures Tally(events).hits == multiset(events)[CacheHit]
    ensures Tally(events).misses == multiset(events)[CacheMiss]
  {
    if events != [] {
      TallyLast(events);
      TallyCounts(events[..|events| - 1]);
    }
  }

  lemma OpensLast(events: seq<Event>, j: nat)
    requires events != [] && j < |events|
    ensures var last := events[|events| - 1];
            Opens(events[j..]) == Opens(events[..|events| - 1][j..])
                                  + (if last.Opened? then 1 else if last.Closed? then -1 else 0)
  {
    assert events[j..] == events[..|events| - 1][j..] + [events[|events| - 1]];
  }

  /**
   * The connections counted open are the largest surplus of opens over closes in any final stretch
   * of the events: closes without an open count for nothing, however they fall.
   */
  lemma {:induction false} ActiveIsLargestSurplus(events: seq<Event>) returns (j: nat)
    ensures forall i :: 0 <= i <= |events| ==> Tally(events).active >= Opens(events[i..])
    ensures j <= |events| && Tally(events).active == Opens(events[j..])
  {
    if events == [] {
      j := 0;
    } else {
      var before := events[..|events| - 1];
      TallyLast(events);
      var k := ActiveIsLargestSurplus(before);
      forall i | 0 <= i < |events| ensures Opens(events[i..]) <= Tally(events).active {
        OpensLast(events, i);
      }
      assert events[|events|..] == [];
      if events[|events| - 1].Closed? && Tally(before).active == 0 {
        j := |events|;
      } else {
        j := k;
        OpensLast(events, k);
      }
    }
  }

  predicate Distinct(s: seq<IpAddr>) {
    forall i, j :: 0 <= i < j < |s| ==> s[i] != s[j]
  }

  lemma FrontIsDistinct(s: seq<IpAddr>, x: IpAddr)
    requires Distinct(s)
    ensures Distinct(MoveToFront(s, x))
  {
  }

  /** The registry agrees with a list of clients, most recent first. */
  ghost predicate Agrees(r: Registry, recent: seq<IpAddr>) {
    && Distinct(recent)
    && (forall ip :: ip in r.clients <==> ip in recent)
    && ByActivity(r, recent)
    && (forall ip :: ip in r.clients ==> r.clients[ip].lastActivity < r.clock)
  }

  ghost predicate ByActivity(r: Registry, recent: seq<IpAddr>) {
    forall i, j :: 0 <= i < j < |recent| ==>
      recent[i] in r.clients && recent[j] in r.clients &&
      r.clients[recent[i]].lastActivity > r.clients[recent[j]].lastActivity
  }

  lemma {:induction false} AgreesOnSize(r: Registry, recent: seq<IpAddr>)
    requires Agrees(r, recent)
    ensures |r.clients| == |recent|
  {
    assert r.clients.Keys == set ip | ip in recent;
    DistinctSize(recent);
  }

  lemma {:induction false} DistinctSize(s: seq<IpAddr>)
    requires Distinct(s)
    ensures |set ip | ip in s| == |s|
  {
    if s != [] {
      var init, last := s[..|s| - 1], s[|s| - 1];
      DistinctSize(init);
      assert s == init + [last];
      assert (set ip | ip in s) == (set ip | ip in init) + {last};
      assert last !in init;
    }
  }

  /** What stands where once `x` has moved to the front. */
  lemma FrontAt(s: seq<IpAddr>, x: IpAddr, k: nat)
    requires x in s && k < |s|
    ensures |MoveToFront(s, x)| == |s|
    ensures MoveToFront(s, x)[k] == if k == 0 then x else if k <= IndexOf(s, x) then s[k - 1] else s[k]
  {
  }

  lemma FrontContents(s: seq<IpAddr>, x: IpAddr, y: IpAddr)
    ensures y in MoveToFront(s, x) <==> y == x || y in s
  {
    if x in s {
      var i := IndexOf(s, x);
      assert s == s[..i] + [x] + s[i + 1..];
    }
  }

  /** Where a client that did not move to the front stood before. */
  function Place(p: nat, k: nat): nat
    requires k > 0
  {
    if k <= p then k - 1 else k
  }

  /** A client that did not move keeps its place among the others and its tick. */
  lemma Unmoved(r: Registry, recent: seq<IpAddr>, ip: IpAddr, event: Event, k: nat)
    requires Agrees(r, recent) && ip in recent && 0 < k < |recent|
    ensures |MoveToFront(recent, ip)| == |recent|
    ensures var r', x := WithClient(r, ip, event, None), MoveToFront(recent, ip)[k];
            && x == recent[Place(IndexOf(recent, ip), k)] && x in r.clients
            && x in r'.clients && r'.clients[x] == r.clients[x]
  {
    FrontAt(recent, ip, k);
    var p := IndexOf(recent, ip);
    OtherStays(r, recent, ip, event, p, Place(p, k));
  }

  lemma OtherStays(r: Registry, recent: seq<IpAddr>, ip: IpAddr, event: Event, p: nat, i: nat)
    requires Agrees(r, recent) && p < |recent| && recent[p] == ip && i < |recent| && i != p
    ensures var r', x := WithClient(r, ip, event, None), recent[i];
            x in r.clients && x in r'.clients && r'.clients[x] == r.clients[x]
  {
    assert recent[i] != ip && recent[i] in recent;
  }

  lemma TouchedFront(r: Registry, recent: seq<IpAddr>, ip: IpAddr, event: Event, j: nat)
    requires Agrees(r, recent) && ip in recent && 0 < j < |recent|
    ensures |MoveToFront(recent, ip)| == |recent|
    ensures var r', front := WithClient(r, ip, event, None), MoveToFront(recent, ip);
            && front[0] in r'.clients && front[j] in r'.clients
            && r'.clients[front[0]].lastActivity > r'.clients[front[j]].lastActivity
  {
    Unmoved(r, recent, ip, event, j);
  }

  lemma TouchedRest(r: Registry, recent: seq<IpAddr>, ip: IpAddr, event: Event, i: nat, j: nat)
    requires Agrees(r, recent) && ip in recent && 0 < i < j < |recent|
    ensures |MoveToFront(recent, ip)| == |recent|
    ensures var r', front := WithClient(r, ip, event, None), MoveToFront(recent, ip);
            && front[i] in r'.clients && front[j] in r'.clients
            && r'.clients[front[i]].lastActivity > r'.clients[front[j]].lastActivity
  {
    Unmoved(r, recent, ip, event, i);
    Unmoved(r, recent, ip, event, j);
  }

  lemma TouchByActivity(r: Registry, recent: seq<IpAddr>, ip: IpAddr, event: Event)
    requires Agrees(r, recent) && ip in recent
    ensures ByActivity(WithClient(r, ip, event, None), MoveToFront(recent, ip))
  {
    var r' := WithClient(r, ip, event, None);
    var front := MoveToFront(recent, ip);
    FrontAt(recent, ip, 0);
    forall i, j | 0 <= i < j < |front|
      ensures front[i] in r'.clients && front[j] in r'.clients
      ensures r'.clients[front[i]].lastActivity > r'.clients[front[j]].lastActivity
    {
      if i == 0 { TouchedFront(r, recent, ip, event, j); } else { TouchedRest(r, recent, ip, event, i, j); }
    }
  }

  /** A known client moves to the front. */
  lemma TouchAgrees(r: Registry, recent: seq<IpAddr>, ip: IpAddr, event: Event)
    requires Agrees(r, recent) && ip in recent
    ensures Agrees(WithClient(r, ip, event, None), MoveToFront(recent, ip))
  {
    FrontIsDistinct(recent, ip);
    TouchByActivity(r, recent, ip, event);
    forall x ensures x in MoveToFront(recent, ip) <==> x in WithClient(r, ip, event, None).clients {
      FrontContents(recent, ip, x);
    }
  }

  /** A new client with room for it goes to the front. */
  lemma AddAgrees(r: Registry, recent: seq<IpAddr>, ip: IpAddr, event: Event)
    requires Agrees(r, recent) && ip !in recent
    ensures Agrees(WithClient(r, ip, event, None), [ip] + recent)
  {
  }

  /** The client evicted is the last of the list. */
  lemma OldestIsLast(r: Registry, recent: seq<IpAddr>, victim: IpAddr)
    requires Agrees(r, recent) && IsOldest(r.clients, victim)
    ensures recent != [] && victim == recent[|recent| - 1]
  {
    var i := IndexOf(recent, victim);
    var last := recent[|recent| - 1];
    assert last in r.clients && recent[i] == victim;
  }

  lemma InitContents(recent: seq<IpAddr>, x: IpAddr)
    requires Distinct(recent) && recent != []
    ensures x in recent[..|recent| - 1] <==> x in recent && x != recent[|recent| - 1]
  {
    var init := recent[..|recent| - 1];
    assert recent == init + [recent[|recent| - 1]];
    if x in init { var i :| 0 <= i < |init| && init[i] == x; assert recent[i] == x; }
  }

  lemma EvictByActivity(r: Registry, recent: seq<IpAddr>, victim: IpAddr)
    requires Agrees(r, recent) && recent != [] && victim == recent[|recent| - 1]
    ensures ByActivity(r.(clients := r.clients - {victim}), recent[..|recent| - 1])
  {
    var init := recent[..|recent| - 1];
    forall i | 0 <= i < |init| ensures init[i] == recent[i] && recent[i] != victim && recent[i] in r.clients {
      assert recent[i] in recent;
    }
  }

  lemma EvictAgrees(r: Registry, recent: seq<IpAddr>, victim: IpAddr)
    requires Agrees(r, recent) && recent != [] && victim == recent[|recent| - 1]
    ensures Agrees(r.(clients := r.clients - {victim}), recent[..|recent| - 1])
  {
    EvictByActivity(r, recent, victim);
    forall x ensures x in recent[..|recent| - 1] <==> x in (r.clients - {victim}) {
      InitContents(recent, x);
    }
  }

  lemma ReplaceAgrees(r: Registry, recent: seq<IpAddr>, ip: IpAddr, event: Event, victim: IpAddr)
    requires Agrees(r, recent) && ip !in recent && IsOldest(r.clients, victim)
    ensures recent != [] && Agrees(WithClient(r, ip, event, Some(victim)), [ip] + recent[..|recent| - 1])
  {
    OldestIsLast(r, recent, victim);
    var r1 := r.(clients := r.clients - {victim});
    EvictAgrees(r, recent, victim);
    AddAgrees(r1, recent[..|recent| - 1], ip, event);
    assert WithClient(r1, ip, event, None) == WithClient(r, ip, event, Some(victim));
  }

  lemma {:induction false} RecencyIsDistinct(calls: seq<Call>)
    ensures Distinct(Recency(calls))
  {
    if calls != [] {
      RecencyIsDistinct(calls[..|calls| - 1]);
      FrontIsDistinct(Recency(calls[..|calls| - 1]), calls[|calls| - 1].ip);
    }
  }

  function Cut(s: seq<IpAddr>, n: nat): seq<IpAddr> {
    if |s| <= n then s else s[..n]
  }

  lemma CutKnown(s: seq<IpAddr>, n: nat, x: IpAddr)
    requires Distinct(s) && x in Cut(s, n)
    ensures Cut(MoveToFront(s, x), n) == MoveToFront(Cut(s, n), x)
  {
    var c := Cut(s, n);
    assert c[IndexOf(c, x)] == s[IndexOf(c, x)] == x;
    FrontAt(s, x, 0);
    FrontAt(c, x, 0);
    forall k | 0 <= k < |c| ensures Cut(MoveToFront(s, x), n)[k] == MoveToFront(c, x)[k] {
      FrontAt(s, x, k);
      FrontAt(c, x, k);
    }
  }

  lemma CutKeeps(s: seq<IpAddr>, n: nat, i: nat)
    requires i < |s|
    ensures i < n ==> s[i] in Cut(s, n)
  {
    if i < n { assert Cut(s, n)[i] == s[i]; }
  }

  lemma CutNew(s: seq<IpAddr>, n: nat, x: IpAddr)
    requires Distinct(s) && x !in Cut(s, n) && n > 0
    ensures Cut(MoveToFront(s, x), n) == [x] + if |s| < n then s else s[..n - 1]
  {
    if x in s {
      CutKeeps(s, n, IndexOf(s, x));
    }
  }

  /** One call keeps the agreement with the list of recent clients. */
  lemma CallAgrees(capacity: nat, r: Registry, s: seq<IpAddr>, call: Call)
    requires Distinct(s) && Agrees(r, Cut(s, Bound(capacity))) && VictimOk(r, capacity, call.ip, call.victim)
    ensures Agrees(WithClient(r, call.ip, call.event, call.victim), Cut(MoveToFront(s, call.ip), Bound(capacity)))
  {
    var n := Bound(capacity);
    var recent := Cut(s, n);
    AgreesOnSize(r, recent);
    if call.ip in recent {
      CutKnown(s, n, call.ip);
      TouchAgrees(r, recent, call.ip, call.event);
    } else {
      CutNew(s, n, call.ip);
      if call.victim.Some? {
        ReplaceAgrees(r, recent, call.ip, call.event, call.victim.value);
        assert recent[..|recent| - 1] == s[..n - 1];
      } else {
        AddAgrees(r, recent, call.ip, call.event);
        assert |s| < n && recent == s;
      }
    }
  }

  lemma {:induction false} RegistryAgrees(capacity: nat, calls: seq<Call>)
    requires IsHistory(capacity, calls)
    ensures Agrees(Replay(capacity, calls), Recent(calls, capacity))
  {
    if calls != [] {
      var before := calls[..|calls| - 1];
      RegistryAgrees(capacity, before);
      RecencyIsDistinct(before);
      CallAgrees(capacity, Replay(capacity, before), Recency(before), calls[|calls| - 1]);
    }
  }

  lemma {:induction false} CountsAgree(capacity: nat, calls: seq<Call>, ip: IpAddr)
    requires IsHistory(capacity, calls) && ip in Replay(capacity, calls).clients
    ensures Replay(capacity, calls).clients[ip].counts == Tally(Since(calls, capacity, ip))
  {
    var call, before := calls[|calls| - 1], calls[..|calls| - 1];
    RegistryAgrees(capacity, before);
    var events := Since(before, capacity, ip) + [call.event];
    assert events[..|events| - 1] == Since(before, capacity, ip);
    if ip in Replay(capacity, before).clients {
      CountsAgree(capacity, before, ip);
    } else {
      assert call.ip == ip;
      assert Tally([call.event]) == Bump(Tally([]), call.event);
    }
  }

  /**
   * After any history the registry tracks exactly the max(1, capacity) most recently active
   * distinct clients, each with the events since it last came in: a refinement of LRU.
   */
  lemma RefinesLru(capacity: nat, calls: seq<Call>, ip: IpAddr)
    requires IsHistory(capacity, calls)
    ensures ip in Replay(capacity, calls).clients <==> ip in Recent(calls, capacity)
    ensures |Replay(capacity, calls).clients| ==
              (if |Recency(calls)| <= Bound(capacity) then |Recency(calls)| else Bound(capacity))
    ensures ip in Replay(capacity, calls).clients ==>
              Replay(capacity, calls).clients[ip].counts == Tally(Since(calls, capacity, ip))
  {
    RegistryAgrees(capacity, calls);
    AgreesOnSize(Replay(capacity, calls), Recent(calls, capacity));
    if ip in Replay(capacity, calls).clients { CountsAgree(capacity, calls, ip); }
  }

  /** What stands where once `x`, known or new, has moved to the front. */
  lemma FrontAtAny(s: seq<IpAddr>, x: IpAddr, k: nat)
    requires k < |MoveToFront(s, x)|
    ensures var p := if x in s then IndexOf(s, x) else |s|;
            if k == 0 then MoveToFront(s, x)[k] == x
            else Place(p, k) < |s| && MoveToFront(s, x)[k] == s[Place(p, k)]
  {
    if x in s { FrontAt(s, x, k); }
  }

  lemma RecencyAt(calls: seq<Call>, k: nat)
    requires calls != [] && k < |Recency(calls)|
    ensures var before, ip := Recency(calls[..|calls| - 1]), calls[|calls| - 1].ip;
            var p := if ip in before then IndexOf(before, ip) else |before|;
            if k == 0 then Recency(calls)[k] == ip
            else Place(p, k) < |before| && Recency(calls)[k] == before[Place(p, k)]
  {
    FrontAtAny(Recency(calls[..|calls| - 1]), calls[|calls| - 1].ip, k);
  }

  /** `Recency` lists every client of the history once, in order of its last call. */
  lemma {:induction false} RecencyMeaning(calls: seq<Call>, i: nat, j: nat)
    requires i < j < |Recency(calls)|
    ensures LastCall(calls, Recency(calls)[i]) > LastCall(calls, Recency(calls)[j])
  {
    var before, ip := calls[..|calls| - 1], calls[|calls| - 1].ip;
    var r := Recency(before);
    var p := if ip in r then IndexOf(r, ip) else |r|;
    RecencyIsDistinct(calls);
    RecencyAt(calls, 0);
    RecencyAt(calls, i);
    RecencyAt(calls, j);
    if i > 0 {
      RecencyMeaning(before, Place(p, i), Place(p, j));
    } else {
      LastCallBound(before, Recency(calls)[j]);
    }
  }

  /** The position after the last call of `ip`, or 0. */
  function LastCall(calls: seq<Call>, ip: IpAddr): nat {
    if calls == [] then 0
    else if calls[|calls| - 1].ip == ip then |calls|
    else LastCall(calls[..|calls| - 1], ip)
  }

  lemma {:induction false} LastCallBound(calls: seq<Call>, ip: IpAddr)
    ensures LastCall(calls, ip) <= |calls|
  {
    if calls != [] && calls[|calls| - 1].ip != ip { LastCallBound(calls[..|calls| - 1], ip); }
  }

  lemma {:induction false} RecencyListsAll(calls: seq<Call>, ip: IpAddr)
    ensures ip in Recency(calls) <==> exists i :: 0 <= i < |calls| && calls[i].ip == ip
  {
    if calls != [] {
      var before := calls[..|calls| - 1];
      RecencyListsAll(before, ip);
      FrontContents(Recency(before), calls[|calls| - 1].ip, ip);
      assert calls == before + [calls[|calls| - 1]];
      if i :| 0 <= i < |before| && before[i].ip == ip { assert calls[i].ip == ip; }
      if i :| 0 <= i < |calls| && calls[i].ip == ip {
        if i < |before| { assert before[i].ip == ip; }
      }
    }
  }
}

/** The registry as the running object. */
module ClientRegistry {
  import opened Wrappers
  import opened Messages
  import opened LruSpec

  class ClientStats {
    var totalQueries: nat
    var blockedQueries: nat
    var cacheHits: nat
    var cacheMisses: nat
    var activeConnections: nat
    var lastActivity: nat

    function Model(): Tracked
      reads this
    {
      Tracked(Counts(totalQueries, blockedQueries, cacheHits, cacheMisses, activeConnections), lastActivity)
    }

    constructor ()
      ensures Model() == Tracked(NO_COUNTS, 0)
    {
      totalQueries, blockedQueries, cacheHits, cacheMisses := 0, 0, 0, 0;
      activeConnections, lastActivity := 0, 0;
    }

    method TouchActivity(tick: nat)
      modifies this
      ensures Model() == old(Model()).(lastActivity := tick)
    {
      lastActivity := tick;
    }

    method Record(event: Event)
      modifies this
      ensures Model() == old(Model()).(counts := Bump(old(Model()).counts, event))
    {
      match event
      case Queried => totalQueries := totalQueries + 1;
      case Blocked => blockedQueries := blockedQueries + 1;
      case CacheHit => cacheHits := cacheHits + 1;
      case CacheMiss => cacheMisses := cacheMisses + 1;
      case Opened => activeConnections := activeConnections + 1;
      case Closed =>
        var current := activeConnections;
        if current > 0 { activeConnections := activeConnections - 1; }
    }
  }

  class ObservabilityRegistry {
    const capacity: nat
    var clients: map<IpAddr, ClientStats>
    var activityClock: nat

    ghost predicate Valid()
      reads this
    {
      forall a, b :: a in clients && b in clients && a != b ==> clients[a] != clients[b]
    }

    function Model(): Registry
      reads this, clients.Values
    {
      Registry(map ip | ip in clients :: clients[ip].Model(), activityClock)
    }

    constructor (capacity: nat)
      ensures Valid() && this.capacity == capacity && Model() == NEW_REGISTRY
    {
      this.capacity := capacity;
      clients, activityClock := map[], 1;
    }

    method NextTick() returns (tick: nat)
      modifies this`activityClock
      ensures tick == old(activityClock) && activityClock == old(activityClock) + 1
    {
      tick := activityClock;
      activityClock := activityClock + 1;
    }

    /** The entry with the least activity tick, whatever order the map yields them in. */
    method OldestClient() returns (oldest: IpAddr)
      requires clients != map[]
      ensures IsOldest(Model().clients, oldest)
    {
      var first :| first in clients;
      oldest := first;
      var rest := clients.Keys - {first};
      while rest != {}
        invariant oldest in clients && rest <= clients.Keys
        invariant forall ip :: ip in clients && ip !in rest ==> clients[oldest].lastActivity <= clients[ip].lastActivity
        decreases rest
      {
        var ip :| ip in rest;
        if clients[ip].lastActivity < clients[oldest].lastActivity { oldest := ip; }
        rest := rest - {ip};
      }
    }

    method Touch(ip: IpAddr, event: Event)
      requires Valid() && ip in clients
      modifies this`activityClock, clients[ip]
      ensures Model() == WithClient(old(Model()), ip, event, None)
    {
      ghost var before := Model();
      var tick := NextTick();
      clients[ip].TouchActivity(tick);
      clients[ip].Record(event);
      assert Model().clients == before.clients[ip := clients[ip].Model()];
    }

    /** Drops the oldest entry when the registry is full. */
    method MakeRoom() returns (ghost victim: Option<IpAddr>)
      requires Valid()
      modifies this`clients
      ensures Valid() && clients.Keys <= old(clients.Keys) && clients.Values <= old(clients.Values)
      ensures forall ip :: ip !in old(clients) ==> VictimOk(old(Model()), capacity, ip, victim)
      ensures Model() == old(Model()).(clients := Without(old(Model()).clients, victim))
    {
      victim := None;
      assert Model().clients.Keys == clients.Keys;
      if |clients| >= capacity && clients != map[] {
        var oldest := OldestClient();
        victim := Some(oldest);
        clients := clients - {oldest};
      }
    }

    method NewStats(event: Event) returns (stats: ClientStats)
      modifies this`activityClock
      ensures fresh(stats) && stats.Model() == Tracked(Bump(NO_COUNTS, event), old(activityClock))
      ensures activityClock == old(activityClock) + 1
    {
      stats := new ClientStats();
      var tick := NextTick();
      stats.TouchActivity(tick);
      stats.Record(event);
    }

    method Admit(ip: IpAddr, event: Event)
      requires Valid() && ip !in clients
      modifies this
      ensures Valid()
      ensures Model() == WithClient(old(Model()), ip, event, None)
    {
      ghost var before := Model();
      var stats := NewStats(event);
      assert Model() == before.(clock := before.clock + 1);
      assert forall other :: other in clients ==> clients[other] != stats;
      clients := clients[ip := stats];
      assert Model().clients == before.clients[ip := stats.Model()];
    }

    /** Records an event of a client, run without interference. */
    method WithClientDo(ip: IpAddr, event: Event) returns (ghost victim: Option<IpAddr>)
      requires Valid()
      modifies this, clients.Values
      ensures Valid()
      ensures VictimOk(old(Model()), capacity, ip, victim)
      ensures Model() == WithClient(old(Model()), ip, event, victim)
    {
      if ip in clients {
        Touch(ip, event);
        return None;
      }
      ghost var before := Model();
      victim := MakeRoom();
      Admit(ip, event);
      assert Model() == WithClient(before, ip, event, victim);
    }
  }
}
