/** One resolution as the running code performs it, and how its calls make up the steps of the machine. */
module ResolverObject {
  import opened Wrappers
  import opened Messages
  import opened Resolver
  import Blocklists = BlocklistEngines
  import Caches = CacheObject
  import Cache = TtlCache
  import Pending = PendingQueries
  import PendingObject
  import Ecs

  /** The cache after the lookup of a query, and what it found. */
  function LookedUp(cfg: Config, st: Cache.Store, query: Message, ip: Option<IpAddr>, now: nat)
    : (Cache.Store, Option<Message>)
    requires Ecs.ValidConfig(cfg.ecs)
  {
    if query.questions == [] then (st, None) else Cache.Get(st, UpstreamQuery(cfg, query, ip), now)
  }

  /** What a query that was not found ends up storing: the synthesised reply, or the coalescer's answer. */
  function ToStore(cfg: Config, query: Message, outcome: Answer): Option<Message> {
    if query.questions == [] then None
    else if QueryBlocked(cfg, query) then Some(BlockedReply(cfg, query))
    else if outcome.Ok? then Some(outcome.value.(id := query.id))
    else None
  }

  function ResponseTo(cfg: Config, query: Message, found: Option<Message>, outcome: Answer): Message {
    if query.questions == [] then Reply(query, FORMERR)
    else if found.Some? then found.value.(id := query.id)
    else
      match ToStore(cfg, query, outcome)
      case Some(m) => m
      case None => Reply(query, SERVFAIL)
  }

  predicate VictimOk(cfg: Config, st: Cache.Store, query: Message, ip: Option<IpAddr>, lookAt: nat, outcome: Answer,
                     victim: Option<Cache.CacheKey>)
    requires Ecs.ValidConfig(cfg.ecs)
  {
    var (st1, found) := LookedUp(cfg, st, query, ip, lookAt);
    if found.None? && ToStore(cfg, query, outcome).Some?
    then Cache.VictimOk(cfg.cache, st1, UpstreamQuery(cfg, query, ip), ToStore(cfg, query, outcome).value, victim)
    else victim.None?
  }

  function CacheAfter(cfg: Config, st: Cache.Store, query: Message, ip: Option<IpAddr>, lookAt: nat, storeAt: nat,
                      outcome: Answer, victim: Option<Cache.CacheKey>): Cache.Store
    requires Ecs.ValidConfig(cfg.ecs) && VictimOk(cfg, st, query, ip, lookAt, outcome, victim)
  {
    var (st1, found) := LookedUp(cfg, st, query, ip, lookAt);
    if found.None? && ToStore(cfg, query, outcome).Some?
    then
      Cache.Insert(cfg.cache, st1, UpstreamQuery(cfg, query, ip), ToStore(cfg, query, outcome).value, storeAt, victim)
    else st1
  }

  class ResolveContext {
    ghost const cfg: Config
    const ecs: Ecs.EcsConfig
    const mode: ResponseMode
    const blockedTtlSecs: nat
    const cache: Caches.Cache
    const blocklist: Blocklists.BlocklistEngine

    constructor (ghost cfg: Config, ecs: Ecs.EcsConfig, mode: ResponseMode, blockedTtlSecs: nat, cache: Caches.Cache,
                 blocklist: Blocklists.BlocklistEngine)
      requires Ecs.ValidConfig(ecs) && cfg.ecs == ecs && cfg.mode == mode && cfg.blockedTtlSecs == blockedTtlSecs
      requires cfg.cache == cache.config && cfg.rules == blocklist.Model()
      ensures Valid() && this.cfg == cfg && this.cache == cache && this.blocklist == blocklist
    {
      this.cfg, this.ecs, this.mode, this.blockedTtlSecs := cfg, ecs, mode, blockedTtlSecs;
      this.cache, this.blocklist := cache, blocklist;
    }

    ghost predicate Valid()
      reads blocklist
    {
      && Ecs.ValidConfig(ecs)
      && cfg.ecs == ecs && cfg.mode == mode && cfg.blockedTtlSecs == blockedTtlSecs
      && cfg.cache == cache.config && cfg.rules == blocklist.Model()
    }

    /**
     * A resolution run alone. `outcome` is what the coalescer returns when it is asked; the
     * lookup happens at `lookAt` and the store, if any, at `storeAt`.
     */
    method Resolve(query: Message, ip: Option<IpAddr>, lookAt: nat, storeAt: nat, outcome: Answer)
      returns (response: Message, asked: bool, ghost victim: Option<Cache.CacheKey>)
      requires Valid()
      modifies cache, cache.metrics
      ensures Valid()
      ensures VictimOk(cfg, old(cache.Model()), query, ip, lookAt, outcome, victim)
      ensures var found := LookedUp(cfg, old(cache.Model()), query, ip, lookAt).1;
              && response == ResponseTo(cfg, query, found, outcome)
              && (asked <==> query.questions != [] && !QueryBlocked(cfg, query) && found.None?)
      ensures cache.Model() == CacheAfter(cfg, old(cache.Model()), query, ip, lookAt, storeAt, outcome, victim)
    {
      victim, asked := None, false;
      if query.questions == [] {
        response := Reply(query, FORMERR);
        return;
      }
      var domain := StripDots(query.questions[0].name);
      var upstream := Ecs.QueryWithEcs(query, ip, ecs);
      var decision := blocklist.Decide(domain);
      if decision.Block? {
        var cached := cache.Get(upstream, lookAt);
        if cached.Some? {
          response := cached.value.(id := query.id);
          return;
        }
        response := MakeBlocked(query);
        victim := cache.Insert(upstream, response, storeAt);
        return;
      }
      var cached := cache.Get(upstream, lookAt);
      if cached.Some? {
        response := cached.value.(id := query.id);
        return;
      }
      asked := true;
      match outcome
      case Ok(answer) =>
        response := answer.(id := query.id);
        victim := cache.Insert(upstream, response, storeAt);
      case Err(_) =>
        response := Reply(query, SERVFAIL);
    }

    method MakeBlocked(query: Message) returns (response: Message)
      requires Valid()
      ensures response == BlockedReply(cfg, query)
    {
      if query.questions == [] { return Reply(query, FORMERR); }
      var q := query.questions[0];
      var ttl: u32 := if blockedTtlSecs < 0x1_0000_0000 then blockedTtlSecs else 0xFFFF_FFFF;
      response := Reply(query, NOERROR);
      match mode
      case NullIp =>
        if q.qtype == TYPE_A {
          response := response.(answers := [Record(q.name, TYPE_A, ttl, A(0))]);
        } else if q.qtype == TYPE_AAAA {
          response := response.(answers := [Record(q.name, TYPE_AAAA, ttl, AAAA(0))]);
        } else {
          response := response.(nameServers := [BlockedSoa(q.name, ttl)]);
        }
      case NoData =>
        response := response.(nameServers := [BlockedSoa(q.name, ttl)]);
      case NxDomain =>
        response := response.(rcode := NXDOMAIN, nameServers := [BlockedSoa(q.name, ttl)]);
    }
  }

  // ---- the machine's steps are this method's ----

  lemma RunOfOne(cfg: Config, s: State, a: Step)
    requires ValidConfig(cfg) && Enabled(cfg, s, a)
    ensures IsRun(cfg, s, [a]) && Run(cfg, s, [a]) == Apply(cfg, s, a)
  {
    var s1 := Apply(cfg, s, a);
    assert [a][1..] == [];
    assert IsRun(cfg, s1, []) && Run(cfg, s1, []) == s1;
  }

  lemma RunOfTwo(cfg: Config, s: State, a: Step, b: Step)
    requires ValidConfig(cfg) && Enabled(cfg, s, a) && Enabled(cfg, Apply(cfg, s, a), b)
    ensures IsRun(cfg, s, [a, b]) && Run(cfg, s, [a, b]) == Apply(cfg, Apply(cfg, s, a), b)
  {
    RunOfOne(cfg, Apply(cfg, s, a), b);
    assert [a, b][1..] == [b];
  }

  lemma RunOfThree(cfg: Config, s: State, a: Step, b: Step, c: Step)
    requires ValidConfig(cfg) && Enabled(cfg, s, a) && Enabled(cfg, Apply(cfg, s, a), b)
    requires Enabled(cfg, Apply(cfg, Apply(cfg, s, a), b), c)
    ensures IsRun(cfg, s, [a, b, c]) && Run(cfg, s, [a, b, c]) == Apply(cfg, Apply(cfg, Apply(cfg, s, a), b), c)
  {
    RunOfTwo(cfg, Apply(cfg, s, a), b, c);
    assert [a, b, c][1..] == [b, c];
  }

  /** The client has its response, and nothing else has moved but the cache. */
  function Ended(s: State, c: Pending.CallerId, client: Client, cache: Cache.Store, clock: nat): State {
    State(cache, s.pending, s.clients[c := client], clock)
  }

  lemma Begun(cfg: Config, s: State, c: Pending.CallerId, query: Message, ip: Option<IpAddr>, now: nat)
    requires ValidConfig(cfg) && Enabled(cfg, s, Begin(c, query, ip)) && query.questions != [] && s.clock <= now
    ensures var pc := if QueryBlocked(cfg, query) then SinkLookup else Lookup;
            Apply(cfg, s, Begin(c, query, ip)) == s.(clients := s.clients[c := Client(query, ip, pc)])
    ensures Enabled(cfg, Apply(cfg, s, Begin(c, query, ip)), Consult(c, now))
  {
  }

  lemma FoundInCache(cfg: Config, s: State, c: Pending.CallerId, query: Message, ip: Option<IpAddr>, lookAt: nat)
    requires ValidConfig(cfg) && Enabled(cfg, s, Begin(c, query, ip)) && query.questions != [] && s.clock <= lookAt
    requires LookedUp(cfg, s.cache, query, ip, lookAt).1.Some?
    ensures var (cache, found) := LookedUp(cfg, s.cache, query, ip, lookAt);
            var age := AgeOfHit(s.cache, UpstreamQuery(cfg, query, ip), lookAt);
            && IsRun(cfg, s, [Begin(c, query, ip), Consult(c, lookAt)])
            && Run(cfg, s, [Begin(c, query, ip), Consult(c, lookAt)])
               == Ended(s, c, Client(query, ip, Done(found.value.(id := query.id), age)), cache, lookAt)
  {
    Begun(cfg, s, c, query, ip, lookAt);
    RunOfTwo(cfg, s, Begin(c, query, ip), Consult(c, lookAt));
  }

  lemma SinkMissed(cfg: Config, s: State, c: Pending.CallerId, now: nat)
    requires ValidConfig(cfg) && c in s.clients && s.clients[c].pc.SinkLookup? && s.clock <= now
    requires Cache.Get(s.cache, Upstream(cfg, s.clients[c]), now).1.None?
    ensures Apply(cfg, s, Consult(c, now))
            == At(s, c, SinkStore).(cache := Cache.Get(s.cache, Upstream(cfg, s.clients[c]), now).0, clock := now)
  {
  }

  lemma SinkKept(cfg: Config, s: State, c: Pending.CallerId, now: nat, victim: Option<Cache.CacheKey>)
    requires ValidConfig(cfg) && Enabled(cfg, s, Keep(c, now, victim)) && s.clients[c].pc.SinkStore?
    ensures var reply := BlockedReply(cfg, s.clients[c].query);
            Apply(cfg, s, Keep(c, now, victim))
            == At(s, c, Done(reply, None)).(
                 cache := Cache.Insert(cfg.cache, s.cache, Upstream(cfg, s.clients[c]), reply, now, victim),
                 clock := now)
  {
  }

  lemma SinkRest(cfg: Config, s: State, c: Pending.CallerId, lookAt: nat, storeAt: nat, victim: Option<Cache.CacheKey>)
    requires ValidConfig(cfg) && c in s.clients && s.clients[c].pc.SinkLookup? && s.clock <= lookAt <= storeAt
    requires Cache.Get(s.cache, Upstream(cfg, s.clients[c]), lookAt).1.None?
    requires Cache.VictimOk(cfg.cache, Cache.Get(s.cache, Upstream(cfg, s.clients[c]), lookAt).0,
                            Upstream(cfg, s.clients[c]), BlockedReply(cfg, s.clients[c].query), victim)
    ensures Enabled(cfg, s, Consult(c, lookAt))
    ensures Enabled(cfg, Apply(cfg, s, Consult(c, lookAt)), Keep(c, storeAt, victim))
    ensures var reply := BlockedReply(cfg, s.clients[c].query);
            var cache := Cache.Get(s.cache, Upstream(cfg, s.clients[c]), lookAt).0;
            Apply(cfg, Apply(cfg, s, Consult(c, lookAt)), Keep(c, storeAt, victim))
            == At(s, c, Done(reply, None)).(
                 cache := Cache.Insert(cfg.cache, cache, Upstream(cfg, s.clients[c]), reply, storeAt, victim),
                 clock := storeAt)
  {
    var s1 := At(s, c, SinkStore).(cache := Cache.Get(s.cache, Upstream(cfg, s.clients[c]), lookAt).0, clock := lookAt);
    SinkMissed(cfg, s, c, lookAt);
    SinkKept(cfg, s1, c, storeAt, victim);
    AtTwice(s, c, SinkStore, Done(BlockedReply(cfg, s.clients[c].query), None));
  }

  lemma AtTwice(s: State, c: Pending.CallerId, first: ClientPc, last: ClientPc)
    requires c in s.clients
    ensures At(At(s, c, first), c, last) == At(s, c, last)
  {
  }

  lemma EndedFrom(s: State, c: Pending.CallerId, client: Client, pc: ClientPc, cache: Cache.Store, clock: nat)
    ensures At(s.(clients := s.clients[c := client]), c, pc).(cache := cache, clock := clock)
            == Ended(s, c, client.(pc := pc), cache, clock)
  {
    assert At(s.(clients := s.clients[c := client]), c, pc).clients == s.clients[c := client.(pc := pc)];
  }

  lemma SunkOnce(cfg: Config, s: State, c: Pending.CallerId, query: Message, ip: Option<IpAddr>, lookAt: nat,
                 storeAt: nat, victim: Option<Cache.CacheKey>)
    requires ValidConfig(cfg) && Enabled(cfg, s, Begin(c, query, ip)) && QueryBlocked(cfg, query)
    requires s.clock <= lookAt <= storeAt && Cache.Get(s.cache, UpstreamQuery(cfg, query, ip), lookAt).1.None?
    requires Cache.VictimOk(cfg.cache, Cache.Get(s.cache, UpstreamQuery(cfg, query, ip), lookAt).0,
                            UpstreamQuery(cfg, query, ip), BlockedReply(cfg, query), victim)
    ensures var upstream := UpstreamQuery(cfg, query, ip);
            var reply := BlockedReply(cfg, query);
            var cache := Cache.Get(s.cache, upstream, lookAt).0;
            var steps := [Begin(c, query, ip), Consult(c, lookAt), Keep(c, storeAt, victim)];
            && IsRun(cfg, s, steps)
            && Run(cfg, s, steps)
               == Ended(s, c, Client(query, ip, Done(reply, None)),
                        Cache.Insert(cfg.cache, cache, upstream, reply, storeAt, victim), storeAt)
  {
    var client := Client(query, ip, SinkLookup);
    var upstream, reply := UpstreamQuery(cfg, query, ip), BlockedReply(cfg, query);
    Begun(cfg, s, c, query, ip, lookAt);
    SinkRest(cfg, s.(clients := s.clients[c := client]), c, lookAt, storeAt, victim);
    var cache := Cache.Get(s.cache, upstream, lookAt).0;
    EndedFrom(s, c, client, Done(reply, None),
              Cache.Insert(cfg.cache, cache, upstream, reply, storeAt, victim), storeAt);
    RunOfThree(cfg, s, Begin(c, query, ip), Consult(c, lookAt), Keep(c, storeAt, victim));
  }

  /** A resolution that does not ask the coalescer is a run of one to three steps, with the same result. */
  lemma ResolveIsRun(cfg: Config, s: State, c: Pending.CallerId, query: Message, ip: Option<IpAddr>, lookAt: nat,
                     storeAt: nat, outcome: Answer, victim: Option<Cache.CacheKey>)
    returns (steps: seq<Step>, age: Option<nat>, clock: nat)
    requires ValidConfig(cfg) && Enabled(cfg, s, Begin(c, query, ip)) && s.clock <= lookAt <= storeAt
    requires VictimOk(cfg, s.cache, query, ip, lookAt, outcome, victim)
    requires query.questions == [] || QueryBlocked(cfg, query) || LookedUp(cfg, s.cache, query, ip, lookAt).1.Some?
    ensures IsRun(cfg, s, steps) && s.clock <= clock <= storeAt
    ensures var found := LookedUp(cfg, s.cache, query, ip, lookAt).1;
            && Run(cfg, s, steps)
               == Ended(s, c, Client(query, ip, Done(ResponseTo(cfg, query, found, outcome), age)),
                        CacheAfter(cfg, s.cache, query, ip, lookAt, storeAt, outcome, victim), clock)
            && age == if found.Some? then AgeOfHit(s.cache, UpstreamQuery(cfg, query, ip), lookAt) else None
  {
    if query.questions == [] {
      steps, age, clock := [Begin(c, query, ip)], None, s.clock;
      RunOfOne(cfg, s, Begin(c, query, ip));
    } else if LookedUp(cfg, s.cache, query, ip, lookAt).1.Some? {
      steps, clock := [Begin(c, query, ip), Consult(c, lookAt)], lookAt;
      age := AgeOfHit(s.cache, UpstreamQuery(cfg, query, ip), lookAt);
      FoundInCache(cfg, s, c, query, ip, lookAt);
    } else {
      steps, age, clock := [Begin(c, query, ip), Consult(c, lookAt), Keep(c, storeAt, victim)], None, storeAt;
      SunkOnce(cfg, s, c, query, ip, lookAt, storeAt, victim);
    }
  }

  /** Any other resolution enters the coalescer with the upstream query and its key. */
  lemma AskingIsRun(cfg: Config, s: State, c: Pending.CallerId, query: Message, ip: Option<IpAddr>, lookAt: nat)
    requires ValidConfig(cfg) && Enabled(cfg, s, Begin(c, query, ip)) && s.clock <= lookAt
    requires query.questions != [] && !QueryBlocked(cfg, query) && LookedUp(cfg, s.cache, query, ip, lookAt).1.None?
    ensures var upstream := UpstreamQuery(cfg, query, ip);
            var steps := [Begin(c, query, ip), Consult(c, lookAt)];
            && IsRun(cfg, s, steps)
            && Run(cfg, s, steps)
               == State(LookedUp(cfg, s.cache, query, ip, lookAt).0,
                        Pending.Apply(s.pending, Pending.Arrive(c, upstream, PendingKey(cfg, upstream))),
                        s.clients[c := Client(query, ip, Waiting)], lookAt)
  {
    Begun(cfg, s, c, query, ip, lookAt);
    RunOfTwo(cfg, s, Begin(c, query, ip), Consult(c, lookAt));
  }

  /** What the coalescer's `query` hands back to a caller that is through with it. */
  function HandedBack(pc: Pending.CallerPc): Answer
    requires pc.Refused? || pc.Returned?
  {
    if pc.Refused? then Err(Serialization) else PendingObject.ResultOf(pc.outcome)
  }

  lemma Handed(cfg: Config, s: State, c: Pending.CallerId)
    requires ValidConfig(cfg) && Enabled(cfg, s, Receive(c))
    ensures var outcome := HandedBack(s.pending.callers[c].pc);
            var query := s.clients[c].query;
            Apply(cfg, s, Receive(c))
            == At(s, c, if outcome.Ok? then Store(outcome.value.(id := query.id))
                        else Done(Reply(query, SERVFAIL), None))
  {
  }

  lemma StoreShape(cfg: Config, s: State, c: Pending.CallerId, now: nat, victim: Option<Cache.CacheKey>)
    requires ValidConfig(cfg) && Enabled(cfg, s, Keep(c, now, victim)) && s.clients[c].pc.Store?
    ensures var response := s.clients[c].pc.response;
            Apply(cfg, s, Keep(c, now, victim))
            == Ended(s, c, s.clients[c].(pc := Done(response, None)),
                     Cache.Insert(cfg.cache, s.cache, Upstream(cfg, s.clients[c]), response, now, victim), now)
  {
  }

  lemma StoreIsRun(cfg: Config, s: State, c: Pending.CallerId, storeAt: nat, victim: Option<Cache.CacheKey>)
    requires ValidConfig(cfg) && Enabled(cfg, s, Receive(c)) && s.clock <= storeAt
    requires HandedBack(s.pending.callers[c].pc).Ok?
    requires var m := HandedBack(s.pending.callers[c].pc).value.(id := s.clients[c].query.id);
             Cache.VictimOk(cfg.cache, s.cache, Upstream(cfg, s.clients[c]), m, victim)
    ensures var m := HandedBack(s.pending.callers[c].pc).value.(id := s.clients[c].query.id);
            && IsRun(cfg, s, [Receive(c), Keep(c, storeAt, victim)])
            && Run(cfg, s, [Receive(c), Keep(c, storeAt, victim)])
               == Ended(s, c, s.clients[c].(pc := Done(m, None)),
                        Cache.Insert(cfg.cache, s.cache, Upstream(cfg, s.clients[c]), m, storeAt, victim), storeAt)
  {
    var m := HandedBack(s.pending.callers[c].pc).value.(id := s.clients[c].query.id);
    Handed(cfg, s, c);
    var s1 := At(s, c, Store(m));
    StoreShape(cfg, s1, c, storeAt, victim);
    RunOfTwo(cfg, s, Receive(c), Keep(c, storeAt, victim));
    assert s1.clients[c := s.clients[c].(pc := Done(m, None))] == s.clients[c := s.clients[c].(pc := Done(m, None))];
  }

  /** And leaves it, in whatever state the cache is by then, with the response and the store of the method. */
  lemma ReturningIsRun(cfg: Config, s: State, c: Pending.CallerId, storeAt: nat, victim: Option<Cache.CacheKey>)
    returns (steps: seq<Step>)
    requires ValidConfig(cfg) && Enabled(cfg, s, Receive(c)) && s.clock <= storeAt
    requires s.clients[c].query.questions != [] && !QueryBlocked(cfg, s.clients[c].query)
    requires var kept := ToStore(cfg, s.clients[c].query, HandedBack(s.pending.callers[c].pc));
             kept.Some? ==> Cache.VictimOk(cfg.cache, s.cache, Upstream(cfg, s.clients[c]), kept.value, victim)
    ensures IsRun(cfg, s, steps)
    ensures var client := s.clients[c];
            var outcome := HandedBack(s.pending.callers[c].pc);
            var kept := ToStore(cfg, client.query, outcome);
            var done := client.(pc := Done(ResponseTo(cfg, client.query, None, outcome), None));
            Run(cfg, s, steps) ==
              if kept.Some? then
                Ended(s, c, done,
                      Cache.Insert(cfg.cache, s.cache, Upstream(cfg, client), kept.value, storeAt, victim), storeAt)
              else Ended(s, c, done, s.cache, s.clock)
  {
    Handed(cfg, s, c);
    if ToStore(cfg, s.clients[c].query, HandedBack(s.pending.callers[c].pc)).Some? {
      steps := [Receive(c), Keep(c, storeAt, victim)];
      StoreIsRun(cfg, s, c, storeAt, victim);
    } else {
      steps := [Receive(c)];
      RunOfOne(cfg, s, Receive(c));
    }
  }
}
