/**
 * Resolution of client queries over the shared cache, blocklist and coalescer. Each client's
 * resolution is a program counter; a step is one atomic section, so a run interleaves any
 * number of clients, upstream flights, cache flushes and dropped connections.
 */
module Resolver {
  import opened Wrappers
  import opened Messages
  import Blocklist
  import Cache = TtlCache
  import Pending = PendingQueries
  import Ecs

  datatype ResponseMode = NullIp | NoData | NxDomain

  /** `encode` is the wire encoder, which the coalescing key is computed with; it can fail. */
  datatype Config = Config(
    cache: Cache.CacheConfig,
    ecs: Ecs.EcsConfig,
    mode: ResponseMode,
    blockedTtlSecs: nat,
    rules: Blocklist.Rules,
    encode: Message -> Option<Pending.Key>)

  ghost predicate ValidConfig(cfg: Config) {
    Ecs.ValidConfig(cfg.ecs) && Injective(cfg.encode)
  }

  /** No two messages share an encoding: what lets a decoder exist. */
  ghost predicate Injective(encode: Message -> Option<Pending.Key>) {
    forall a, b :: encode(a).Some? && encode(a) == encode(b) ==> a == b
  }

  const NOERROR: nat := 0
  const FORMERR: nat := 1
  const SERVFAIL: nat := 2
  const NXDOMAIN: nat := 3

  const TYPE_A: nat := 1
  const TYPE_SOA: nat := 6
  const TYPE_AAAA: nat := 28

  /** The key two queries share exactly when they may share one upstream run. */
  function PendingKey(cfg: Config, query: Message): Option<Pending.Key> {
    cfg.encode(query.(id := 0))
  }

  function StripDots(name: string): string {
    if name != "" && name[|name| - 1] == '.' then StripDots(name[..|name| - 1]) else name
  }

  predicate NameBlocked(cfg: Config, name: Name) {
    Blocklist.Decide(cfg.rules, StripDots(name)).Block?
  }

  predicate QueryBlocked(cfg: Config, query: Message) {
    query.questions != [] && NameBlocked(cfg, query.questions[0].name)
  }

  function UpstreamQuery(cfg: Config, query: Message, client: Option<IpAddr>): Message
    requires Ecs.ValidConfig(cfg.ecs)
  {
    Ecs.QueryWithEcs(query, client, cfg.ecs)
  }

  function Reply(query: Message, rcode: nat): Message {
    Message(query.id, true, query.opCode, rcode, query.recursionDesired, [], [], [], [], [], query.edns)
  }

  function BlockedTtl(cfg: Config): u32 {
    if cfg.blockedTtlSecs < 0x1_0000_0000 then cfg.blockedTtlSecs else 0xFFFF_FFFF
  }

  function BlockedSoa(name: Name, ttl: u32): Record {
    Record(name, TYPE_SOA, ttl,
           SOA(Soa("blocked.dotdns.", "hostmaster.blocked.dotdns.", 1, 1800, 900, 604800, ttl)))
  }

  function BlockedReply(cfg: Config, query: Message): Message {
    if query.questions == [] then Reply(query, FORMERR)
    else
      var q := query.questions[0];
      var ttl := BlockedTtl(cfg);
      match cfg.mode
      case NullIp =>
        if q.qtype == TYPE_A then
          Reply(query, NOERROR).(answers := [Record(q.name, TYPE_A, ttl, A(0))])
        else if q.qtype == TYPE_AAAA then
          Reply(query, NOERROR).(answers := [Record(q.name, TYPE_AAAA, ttl, AAAA(0))])
        else
          Reply(query, NOERROR).(nameServers := [BlockedSoa(q.name, ttl)])
      case NoData => Reply(query, NOERROR).(nameServers := [BlockedSoa(q.name, ttl)])
      case NxDomain => Reply(query, NXDOMAIN).(nameServers := [BlockedSoa(q.name, ttl)])
  }

  // ---- the machine ----

  datatype ClientPc =
    | SinkLookup               // blocked: about to look in the cache
    | SinkStore                // blocked: about to store the synthesised reply
    | Lookup                   // about to look in the cache
    | Waiting                  // inside the coalescer, as the caller of the same id
    | Store(response: Message) // upstream answer in hand, about to store it
    | Done(response: Message, age: Option<nat>)  // the age of a response from the cache, None for any other

  datatype Client = Client(query: Message, ip: Option<IpAddr>, pc: ClientPc)

  /** `clock` is when the cache was last used: its times do not go back. */
  datatype State = State(
    cache: Cache.Store, pending: Pending.State, clients: map<Pending.CallerId, Client>, clock: nat)

  const INITIAL := State(Cache.EMPTY, Pending.INITIAL, map[], 0)

  datatype Step =
    | Begin(c: Pending.CallerId, query: Message, ip: Option<IpAddr>)
    | Consult(c: Pending.CallerId, now: nat)
    | Keep(c: Pending.CallerId, now: nat, victim: Option<Cache.CacheKey>)
    | Coalesce(step: Pending.Step)
    | Receive(c: Pending.CallerId)
    | FlushCache

  function Upstream(cfg: Config, client: Client): Message
    requires Ecs.ValidConfig(cfg.ecs)
  {
    UpstreamQuery(cfg, client.query, client.ip)
  }

  function Kept(cfg: Config, client: Client): Message
    requires client.pc.SinkStore? || client.pc.Store?
  {
    if client.pc.SinkStore? then BlockedReply(cfg, client.query) else client.pc.response
  }

  ghost predicate Enabled(cfg: Config, s: State, step: Step)
    requires ValidConfig(cfg)
  {
    match step
    case Begin(c, _, _) => c !in s.clients && c !in s.pending.callers
    case Consult(c, now) =>
      c in s.clients && s.clock <= now &&
      (s.clients[c].pc.SinkLookup? || (s.clients[c].pc.Lookup? && c !in s.pending.callers))
    case Keep(c, now, victim) =>
      c in s.clients && s.clock <= now && (s.clients[c].pc.SinkStore? || s.clients[c].pc.Store?) &&
      Cache.VictimOk(cfg.cache, s.cache, Upstream(cfg, s.clients[c]), Kept(cfg, s.clients[c]), victim)
    case Coalesce(step) => !step.Arrive? && Pending.Enabled(s.pending, step)
    case Receive(c) =>
      c in s.clients && s.clients[c].pc.Waiting? && c in s.pending.callers &&
      (s.pending.callers[c].pc.Refused? || s.pending.callers[c].pc.Returned?)
    case FlushCache => true
  }

  function At(s: State, c: Pending.CallerId, pc: ClientPc): State
    requires c in s.clients
  {
    s.(clients := s.clients[c := s.clients[c].(pc := pc)])
  }

  function ApplyBegin(cfg: Config, s: State, c: Pending.CallerId, query: Message, ip: Option<IpAddr>): State {
    var pc := if query.questions == [] then Done(Reply(query, FORMERR), None)
              else if QueryBlocked(cfg, query) then SinkLookup
              else Lookup;
    s.(clients := s.clients[c := Client(query, ip, pc)])
  }

  function AgeOfHit(cache: Cache.Store, query: Message, now: nat): Option<nat> {
    match Cache.KeyOf(query)
    case None => None
    case Some(k) => if k in cache.entries then Some(Cache.Age(cache.entries[k], now)) else None
  }

  /** A hit is answered at once, under the client's own id; a miss goes on. */
  ghost function ApplyConsult(cfg: Config, s: State, c: Pending.CallerId, now: nat): State
    requires ValidConfig(cfg) && Enabled(cfg, s, Consult(c, now))
  {
    var client := s.clients[c];
    var upstream := Upstream(cfg, client);
    var (cache, found) := Cache.Get(s.cache, upstream, now);
    var s1 := s.(cache := cache, clock := now);
    match found
    case Some(m) => At(s1, c, Done(m.(id := client.query.id), AgeOfHit(s.cache, upstream, now)))
    case None =>
      if client.pc.SinkLookup? then At(s1, c, SinkStore)
      else
        At(s1, c, Waiting)
          .(pending := Pending.Apply(s.pending, Pending.Arrive(c, upstream, PendingKey(cfg, upstream))))
  }

  function ApplyKeep(cfg: Config, s: State, c: Pending.CallerId, now: nat, victim: Option<Cache.CacheKey>): State
    requires Ecs.ValidConfig(cfg.ecs) && c in s.clients && (s.clients[c].pc.SinkStore? || s.clients[c].pc.Store?)
    requires Cache.VictimOk(cfg.cache, s.cache, Upstream(cfg, s.clients[c]), Kept(cfg, s.clients[c]), victim)
  {
    var client := s.clients[c];
    var response := Kept(cfg, client);
    At(s, c, Done(response, None))
      .(cache := Cache.Insert(cfg.cache, s.cache, Upstream(cfg, client), response, now, victim), clock := now)
  }

  function ApplyReceive(s: State, c: Pending.CallerId): State
    requires c in s.clients && c in s.pending.callers
  {
    var query := s.clients[c].query;
    var pc := s.pending.callers[c].pc;
    if pc.Returned? && pc.outcome.Delivered? && pc.outcome.answer.Ok?
    then At(s, c, Store(pc.outcome.answer.value.(id := query.id)))
    else At(s, c, Done(Reply(query, SERVFAIL), None))
  }

  ghost function Apply(cfg: Config, s: State, step: Step): State
    requires ValidConfig(cfg) && Enabled(cfg, s, step)
  {
    match step
    case Begin(c, query, ip) => ApplyBegin(cfg, s, c, query, ip)
    case Consult(c, now) => ApplyConsult(cfg, s, c, now)
    case Keep(c, now, victim) => ApplyKeep(cfg, s, c, now, victim)
    case Coalesce(step) => s.(pending := Pending.Apply(s.pending, step))
    case Receive(c) => ApplyReceive(s, c)
    case FlushCache => s.(cache := Cache.Flush(s.cache))
  }

  ghost predicate IsRun(cfg: Config, s: State, steps: seq<Step>)
    requires ValidConfig(cfg)
    decreases |steps|
  {
    steps == [] || (Enabled(cfg, s, steps[0]) && IsRun(cfg, Apply(cfg, s, steps[0]), steps[1..]))
  }

  ghost function Run(cfg: Config, s: State, steps: seq<Step>): State
    requires ValidConfig(cfg) && IsRun(cfg, s, steps)
    decreases |steps|
  {
    if steps == [] then s else Run(cfg, Apply(cfg, s, steps[0]), steps[1..])
  }
}

/** End-to-end soundness: every answer a client gets is explained. */
module ResolverTheorems {
  import opened Wrappers
  import opened Messages
  import opened Resolver
  import Blocklist
  import Cache = TtlCache
  import Pending = PendingQueries
  import PInv = PendingInvariant
  import PThm = PendingTheorems
  import Ecs

  // ---- keys ----

  lemma {:induction false} StripDotsLower(name: string)
    ensures StripDots(Lower(name)) == Lower(StripDots(name))
  {
    if name != "" && name[|name| - 1] == '.' {
      assert Lower(name)[..|name| - 1] == Lower(name[..|name| - 1]);
      StripDotsLower(name[..|name| - 1]);
    }
  }

  predicate KeyBlocked(cfg: Config, k: Cache.CacheKey) {
    NameBlocked(cfg, k.name)
  }

  /** Whether a query is blocked is a property of its cache key. */
  lemma KeyDecides(cfg: Config, query: Message)
    requires Cache.KeyOf(query).Some?
    ensures QueryBlocked(cfg, query) <==> KeyBlocked(cfg, Cache.KeyOf(query).value)
  {
    var name := query.questions[0].name;
    StripDotsLower(name);
    assert Lower(Lower(StripDots(name))) == Lower(StripDots(name));
    Blocklist.DecideIgnoresCase(cfg.rules, StripDots(Lower(name)), StripDots(name));
  }

  /** Queries that share an upstream run share a cache key, whatever their ids. */
  lemma PendingKeyDeterminesCacheKey(cfg: Config, a: Message, b: Message)
    requires ValidConfig(cfg) && PendingKey(cfg, a).Some? && PendingKey(cfg, a) == PendingKey(cfg, b)
    ensures a.(id := 0) == b.(id := 0)
    ensures Cache.KeyOf(a) == Cache.KeyOf(b)
  {
    assert Cache.KeyOf(a) == Cache.KeyOf(a.(id := 0));
    assert Cache.KeyOf(b) == Cache.KeyOf(b.(id := 0));
  }

  /**
   * Two clients for whom the option is written, sending one query under whatever ids, share an
   * upstream run, and a cache entry, if and only if they are in one subnet.
   */
  lemma SharedKeysIff(cfg: Config, a: Message, b: Message, ipA: IpAddr, ipB: IpAddr)
    requires ValidConfig(cfg) && a.(id := 0) == b.(id := 0)
    requires Ecs.Applies(a, ipA, cfg.ecs) && Ecs.Applies(b, ipB, cfg.ecs)
    ensures var up, other := UpstreamQuery(cfg, a, Some(ipA)), UpstreamQuery(cfg, b, Some(ipB));
            && (PendingKey(cfg, up).Some? || PendingKey(cfg, other).Some? ==>
                  (PendingKey(cfg, up) == PendingKey(cfg, other) <==> Ecs.SameSubnet(ipA, ipB, cfg.ecs)))
            && (a.questions != [] ==>
                  (Cache.KeyOf(up) == Cache.KeyOf(other) <==> Ecs.SameSubnet(ipA, ipB, cfg.ecs)))
  {
    var up, other := UpstreamQuery(cfg, a, Some(ipA)), UpstreamQuery(cfg, b, Some(ipB));
    Ecs.MaskIpEqualIff(ipA, ipB, cfg.ecs);
    assert a.edns == a.(id := 0).edns == b.edns;
    assert up.edns.value.subnet.value.address == Ecs.MaskIp(ipA, Ecs.PrefixFor(ipA, cfg.ecs));
    assert other.edns.value.subnet.value.address == Ecs.MaskIp(ipB, Ecs.PrefixFor(ipB, cfg.ecs));
    assert up.(id := 0) == a.(id := 0).(edns := up.edns) && other.(id := 0) == a.(id := 0).(edns := other.edns);
    assert up.(id := 0) == other.(id := 0) <==> Ecs.SameSubnet(ipA, ipB, cfg.ecs);
  }

  /** Writing the subnet option never changes which rule applies. */
  lemma UpstreamKeepsQuestion(cfg: Config, query: Message, ip: Option<IpAddr>)
    requires ValidConfig(cfg)
    ensures UpstreamQuery(cfg, query, ip).questions == query.questions
    ensures QueryBlocked(cfg, UpstreamQuery(cfg, query, ip)) == QueryBlocked(cfg, query)
  {
  }

  // ---- what explains a message ----

  /** The reply synthesised for some client query with this cache key. */
  ghost predicate Synthesised(cfg: Config, k: Cache.CacheKey, m: Message)
    requires ValidConfig(cfg)
  {
    exists query, ip :: Cache.KeyOf(UpstreamQuery(cfg, query, ip)) == Some(k)
                        && Skeleton(m) == Skeleton(BlockedReply(cfg, query))
  }

  /** A successful upstream answer to a query with this cache key. */
  ghost predicate AnsweredBy(s: State, g: Pending.Gen, k: Cache.CacheKey, m: Message) {
    g in s.pending.flights &&
    var f := s.pending.flights[g];
    Cache.KeyOf(f.query) == Some(k) && f.result.Some? && f.result.value.Ok?
    && Skeleton(m) == Skeleton(f.result.value.value)
  }

  /** The cache bounds do not lift the life of this response above its least TTL. */
  predicate Timely(cfg: Config, m: Message) {
    Cache.AllRecords(m) != [] ==> !Cache.Raises(cfg.cache, m) || Cache.RaisesByNothing(cfg.cache, m)
  }

  /**
   * The TTLs of `m` are those of the upstream answer, when it did not come from the cache;
   * at age `age` none is above the upstream's less that age.
   */
  predicate TtlsFollow(cfg: Config, m: Message, answer: Message, age: Option<nat>) {
    match age
    case None => Cache.AllRecords(m) == Cache.AllRecords(answer)
    case Some(a) => Timely(cfg, answer) ==> Cache.WithinOwnTtls(m, answer, a)
  }

  ghost predicate CarriedBy(cfg: Config, s: State, g: Pending.Gen, k: Cache.CacheKey, m: Message, age: Option<nat>) {
    AnsweredBy(s, g, k, m) && TtlsFollow(cfg, m, s.pending.flights[g].result.value.value, age)
  }

  ghost predicate FromUpstream(cfg: Config, s: State, k: Cache.CacheKey, m: Message, age: Option<nat>) {
    exists g :: CarriedBy(cfg, s, g, k, m, age)
  }

  ghost predicate Explained(cfg: Config, s: State, k: Cache.CacheKey, m: Message, age: Option<nat>)
    requires ValidConfig(cfg)
  {
    if KeyBlocked(cfg, k) then Synthesised(cfg, k, m) else FromUpstream(cfg, s, k, m, age)
  }

  predicate EntryOk(cfg: Config, e: Cache.Entry, clock: nat) {
    Cache.AllRecords(e.message) != [] && e.ttl == Cache.Life(cfg.cache, e.message) && e.insertedAt <= clock
  }

  ghost predicate CacheOk(cfg: Config, s: State)
    requires ValidConfig(cfg)
  {
    forall k :: k in s.cache.entries ==>
      EntryOk(cfg, s.cache.entries[k], s.clock) && Explained(cfg, s, k, s.cache.entries[k].message, None)
  }

  ghost predicate ClientOk(cfg: Config, s: State, c: Pending.CallerId)
    requires ValidConfig(cfg)
  {
    c in s.clients &&
    var client := s.clients[c];
    var key := Cache.KeyOf(Upstream(cfg, client));
    match client.pc
    case SinkLookup => QueryBlocked(cfg, client.query)
    case SinkStore => QueryBlocked(cfg, client.query)
    case Lookup => client.query.questions != [] && !QueryBlocked(cfg, client.query)
    case Waiting => client.query.questions != [] && !QueryBlocked(cfg, client.query)
    case Store(m) =>
      !QueryBlocked(cfg, client.query) && m.id == client.query.id && key.Some?
      && FromUpstream(cfg, s, key.value, m, None)
    case Done(m, age) => DoneOk(cfg, s, client, m, age)
  }

  /** Every final response: form error, explained, or server failure for a name that is not blocked. */
  ghost predicate DoneOk(cfg: Config, s: State, client: Client, m: Message, age: Option<nat>)
    requires ValidConfig(cfg)
  {
    var key := Cache.KeyOf(Upstream(cfg, client));
    if key.None? then m == Reply(client.query, FORMERR)
    else
      m.id == client.query.id &&
      (|| Explained(cfg, s, key.value, m, age)
       || (m == Reply(client.query, SERVFAIL) && age.None? && !QueryBlocked(cfg, client.query)))
  }

  ghost predicate CallersOk(cfg: Config, s: State)
    requires ValidConfig(cfg)
  {
    forall c :: c in s.pending.callers ==>
      c in s.clients && CallerMatches(cfg, s.clients[c], s.pending.callers[c])
  }

  ghost predicate CallerMatches(cfg: Config, client: Client, caller: Pending.Caller)
    requires ValidConfig(cfg)
  {
    && caller.query == Upstream(cfg, client) && caller.key == PendingKey(cfg, caller.query)
    && client.query.questions != [] && !QueryBlocked(cfg, client.query)
    && (client.pc.Waiting? || client.pc.Store? || client.pc.Done?)
  }

  ghost predicate FlightsOk(cfg: Config, s: State)
    requires ValidConfig(cfg)
  {
    forall g :: g in s.pending.flights ==>
      var f := s.pending.flights[g];
      f.query.questions != [] && !QueryBlocked(cfg, f.query) && Some(f.key) == PendingKey(cfg, f.query)
  }

  ghost predicate Inv(cfg: Config, s: State)
    requires ValidConfig(cfg)
  {
    && PInv.Inv(s.pending)
    && CacheOk(cfg, s)
    && (forall c :: c in s.clients ==> ClientOk(cfg, s, c))
    && CallersOk(cfg, s)
    && FlightsOk(cfg, s)
  }

  // ---- preservation ----

  /** Flights are never rewritten, so what once explained a message always does. */
  lemma ExplainedStays(cfg: Config, s: State, s': State, k: Cache.CacheKey, m: Message, age: Option<nat>)
    requires ValidConfig(cfg) && FlightsGrow(s, s')
    ensures Explained(cfg, s, k, m, age) ==> Explained(cfg, s', k, m, age)
    ensures FromUpstream(cfg, s, k, m, age) ==> FromUpstream(cfg, s', k, m, age)
  {
    if g :| CarriedBy(cfg, s, g, k, m, age) { assert CarriedBy(cfg, s', g, k, m, age); }
  }

  ghost predicate FlightsGrow(s: State, s': State) {
    forall g :: g in s.pending.flights ==>
      g in s'.pending.flights
      && s'.pending.flights[g].query == s.pending.flights[g].query
      && (s.pending.flights[g].result.Some? ==> s'.pending.flights[g].result == s.pending.flights[g].result)
  }

  lemma ClientStays(cfg: Config, s: State, s': State, c: Pending.CallerId)
    requires ValidConfig(cfg) && FlightsGrow(s, s') && ClientOk(cfg, s, c)
    requires c in s'.clients && s'.clients[c] == s.clients[c]
    ensures ClientOk(cfg, s', c)
  {
    var client := s.clients[c];
    var key := Cache.KeyOf(Upstream(cfg, client));
    if key.Some? && client.pc.Store? {
      ExplainedStays(cfg, s, s', key.value, client.pc.response, None);
    } else if key.Some? && client.pc.Done? {
      ExplainedStays(cfg, s, s', key.value, client.pc.response, client.pc.age);
    }
  }

  /** The shape of most steps: one client moves, the coalescer stays, the cache only loses entries. */
  lemma ClientMoves(cfg: Config, s: State, s': State, c: Pending.CallerId)
    requires ValidConfig(cfg) && Inv(cfg, s) && s'.pending == s.pending
    requires c in s'.clients && s'.clients == s.clients[c := s'.clients[c]] && ClientOk(cfg, s', c)
    requires c in s.pending.callers ==>
               && c in s.clients && s'.clients[c].query == s.clients[c].query && s'.clients[c].ip == s.clients[c].ip
               && (s'.clients[c].pc.Waiting? || s'.clients[c].pc.Store? || s'.clients[c].pc.Done?)
    requires CacheOk(cfg, s')
    ensures Inv(cfg, s')
  {
    forall d | d in s'.clients ensures ClientOk(cfg, s', d) {
      if d != c { ClientStays(cfg, s, s', d); }
    }
  }

  lemma BeginKeepsInv(cfg: Config, s: State, step: Step)
    requires ValidConfig(cfg) && Inv(cfg, s) && step.Begin? && Enabled(cfg, s, step)
    ensures Inv(cfg, Apply(cfg, s, step))
  {
    var s' := Apply(cfg, s, step);
    UpstreamKeepsQuestion(cfg, step.query, step.ip);
    SameCache(cfg, s, s');
    ClientMoves(cfg, s, s', step.c);
  }

  lemma SameCache(cfg: Config, s: State, s': State)
    requires ValidConfig(cfg) && CacheOk(cfg, s) && FlightsGrow(s, s') && s.clock <= s'.clock
    requires forall k :: k in s'.cache.entries ==> k in s.cache.entries && s'.cache.entries[k] == s.cache.entries[k]
    ensures CacheOk(cfg, s')
  {
    forall k | k in s'.cache.entries
      ensures EntryOk(cfg, s'.cache.entries[k], s'.clock) && Explained(cfg, s', k, s'.cache.entries[k].message, None)
    {
      ExplainedStays(cfg, s, s', k, s'.cache.entries[k].message, None);
    }
  }

  /** What a hit serves follows the TTLs of the answer that was stored. */
  lemma HitFollows(cfg: Config, e: Cache.Entry, answer: Message, now: nat, id: nat)
    requires EntryOk(cfg, e, now) && Cache.Fresh(e, now)
    requires Cache.AllRecords(e.message) == Cache.AllRecords(answer)
    ensures TtlsFollow(cfg, Cache.Served(e, now).value.(id := id), answer, Some(Cache.Age(e, now)))
  {
    if Timely(cfg, answer) {
      assert Timely(cfg, e.message);
      Cache.ServedWithinOwnTtls(cfg.cache, e.message, e.insertedAt, now);
      assert Cache.AllRecords(Cache.Served(e, now).value.(id := id)) == Cache.AllRecords(Cache.Served(e, now).value);
    }
  }

  lemma HitIsExplained(cfg: Config, s: State, query: Message, now: nat, id: nat)
    requires ValidConfig(cfg) && CacheOk(cfg, s) && s.clock <= now && Cache.Get(s.cache, query, now).1.Some?
    ensures Cache.KeyOf(query).Some?
    ensures Explained(cfg, s, Cache.KeyOf(query).value, Cache.Get(s.cache, query, now).1.value.(id := id),
                      AgeOfHit(s.cache, query, now))
  {
    var k := Cache.KeyOf(query).value;
    var e := s.cache.entries[k];
    var m := Cache.Get(s.cache, query, now).1.value;
    var age := Some(Cache.Age(e, now));
    SkeletonIgnoresIdAndTtl(e.message, id, Cache.RemainingSecs(e, now));
    SkeletonIgnoresIdAndTtl(m, id, 0);
    if !KeyBlocked(cfg, k) {
      var g :| CarriedBy(cfg, s, g, k, e.message, None);
      HitFollows(cfg, e, s.pending.flights[g].result.value.value, now, id);
      assert CarriedBy(cfg, s, g, k, m.(id := id), age);
    }
  }

  lemma HitShape(cfg: Config, s: State, c: Pending.CallerId, now: nat)
    requires ValidConfig(cfg) && Enabled(cfg, s, Consult(c, now))
    requires Cache.Get(s.cache, Upstream(cfg, s.clients[c]), now).1.Some?
    ensures var upstream := Upstream(cfg, s.clients[c]);
            Apply(cfg, s, Consult(c, now)) ==
            At(s, c, Done(Cache.Get(s.cache, upstream, now).1.value.(id := s.clients[c].query.id),
                          AgeOfHit(s.cache, upstream, now))).(clock := now)
  {
  }

  lemma HitKeepsInv(cfg: Config, s: State, c: Pending.CallerId, now: nat)
    requires ValidConfig(cfg) && Inv(cfg, s) && Enabled(cfg, s, Consult(c, now))
    requires Cache.Get(s.cache, Upstream(cfg, s.clients[c]), now).1.Some?
    ensures Inv(cfg, Apply(cfg, s, Consult(c, now)))
  {
    var client := s.clients[c];
    var upstream := Upstream(cfg, client);
    var m := Cache.Get(s.cache, upstream, now).1.value.(id := client.query.id);
    HitShape(cfg, s, c, now);
    HitIsExplained(cfg, s, upstream, now, client.query.id);
    DoneKeepsInv(cfg, s, c, m, AgeOfHit(s.cache, upstream, now), now);
  }

  /** One client goes on, and the cache has lost entries at most. */
  lemma PcMoves(cfg: Config, s: State, c: Pending.CallerId, pc: ClientPc, cache: Cache.Store, now: nat)
    requires ValidConfig(cfg) && Inv(cfg, s) && c in s.clients && s.clock <= now
    requires forall k :: k in cache.entries ==> k in s.cache.entries && cache.entries[k] == s.cache.entries[k]
    requires pc.Waiting? || pc.Store? || pc.Done? || c !in s.pending.callers
    requires ClientOk(cfg, State(cache, s.pending, s.clients[c := s.clients[c].(pc := pc)], now), c)
    ensures Inv(cfg, State(cache, s.pending, s.clients[c := s.clients[c].(pc := pc)], now))
  {
    var s' := State(cache, s.pending, s.clients[c := s.clients[c].(pc := pc)], now);
    SameCache(cfg, s, s');
    ClientMoves(cfg, s, s', c);
  }

  /** A client may be answered with anything explained for its key. */
  lemma DoneKeepsInv(cfg: Config, s: State, c: Pending.CallerId, m: Message, age: Option<nat>, now: nat)
    requires ValidConfig(cfg) && Inv(cfg, s) && c in s.clients && s.clock <= now
    requires Cache.KeyOf(Upstream(cfg, s.clients[c])).Some? && m.id == s.clients[c].query.id
    requires Explained(cfg, s, Cache.KeyOf(Upstream(cfg, s.clients[c])).value, m, age)
    ensures Inv(cfg, At(s, c, Done(m, age)).(clock := now))
  {
    var s' := At(s, c, Done(m, age)).(clock := now);
    ExplainedStays(cfg, s, s', Cache.KeyOf(Upstream(cfg, s.clients[c])).value, m, age);
    PcMoves(cfg, s, c, Done(m, age), s.cache, now);
  }

  lemma SinkMissShape(cfg: Config, s: State, c: Pending.CallerId, now: nat)
    requires ValidConfig(cfg) && Enabled(cfg, s, Consult(c, now))
    requires Cache.Get(s.cache, Upstream(cfg, s.clients[c]), now).1.None? && s.clients[c].pc.SinkLookup?
    ensures Apply(cfg, s, Consult(c, now))
            == State(Cache.Get(s.cache, Upstream(cfg, s.clients[c]), now).0, s.pending,
                     s.clients[c := s.clients[c].(pc := SinkStore)], now)
  {
  }

  lemma SinkMissKeepsInv(cfg: Config, s: State, c: Pending.CallerId, now: nat)
    requires ValidConfig(cfg) && Inv(cfg, s) && Enabled(cfg, s, Consult(c, now))
    requires Cache.Get(s.cache, Upstream(cfg, s.clients[c]), now).1.None? && s.clients[c].pc.SinkLookup?
    ensures Inv(cfg, Apply(cfg, s, Consult(c, now)))
  {
    SinkMissShape(cfg, s, c, now);
    assert ClientOk(cfg, s, c);
    PcMoves(cfg, s, c, SinkStore, Cache.Get(s.cache, Upstream(cfg, s.clients[c]), now).0, now);
  }

  function Asked(cfg: Config, client: Client): Pending.Caller
    requires Ecs.ValidConfig(cfg.ecs)
  {
    var key := PendingKey(cfg, Upstream(cfg, client));
    Pending.Caller(Upstream(cfg, client), key, false, if key.Some? then Pending.Locking else Pending.Refused)
  }

  lemma MissShape(cfg: Config, s: State, c: Pending.CallerId, now: nat)
    requires ValidConfig(cfg) && Enabled(cfg, s, Consult(c, now))
    requires Cache.Get(s.cache, Upstream(cfg, s.clients[c]), now).1.None? && s.clients[c].pc.Lookup?
    ensures var arrival := Pending.Arrive(c, Upstream(cfg, s.clients[c]), PendingKey(cfg, Upstream(cfg, s.clients[c])));
            && Pending.Enabled(s.pending, arrival)
            && Pending.Apply(s.pending, arrival)
               == s.pending.(callers := s.pending.callers[c := Asked(cfg, s.clients[c])])
            && Apply(cfg, s, Consult(c, now))
               == State(Cache.Get(s.cache, Upstream(cfg, s.clients[c]), now).0, Pending.Apply(s.pending, arrival),
                        s.clients[c := s.clients[c].(pc := Waiting)], now)
  {
  }

  lemma MissKeepsInv(cfg: Config, s: State, c: Pending.CallerId, now: nat)
    requires ValidConfig(cfg) && Inv(cfg, s) && Enabled(cfg, s, Consult(c, now))
    requires Cache.Get(s.cache, Upstream(cfg, s.clients[c]), now).1.None? && s.clients[c].pc.Lookup?
    ensures Inv(cfg, Apply(cfg, s, Consult(c, now)))
  {
    var upstream := Upstream(cfg, s.clients[c]);
    MissShape(cfg, s, c, now);
    PInv.StepKeepsInv(s.pending, Pending.Arrive(c, upstream, PendingKey(cfg, upstream)));
    ClientAsks(cfg, s, Apply(cfg, s, Consult(c, now)), c);
  }

  /** A client that found nothing enters the coalescer. */
  lemma ClientAsks(cfg: Config, s: State, s': State, c: Pending.CallerId)
    requires ValidConfig(cfg) && Inv(cfg, s) && c in s.clients && s.clients[c].pc.Lookup? && PInv.Inv(s'.pending)
    requires s'.pending == s.pending.(callers := s.pending.callers[c := Asked(cfg, s.clients[c])])
    requires s'.clients == s.clients[c := s.clients[c].(pc := Waiting)] && s.clock <= s'.clock
    requires forall k :: k in s'.cache.entries ==> k in s.cache.entries && s'.cache.entries[k] == s.cache.entries[k]
    ensures Inv(cfg, s')
  {
    assert ClientOk(cfg, s, c);
    SameCache(cfg, s, s');
    AskedCallers(cfg, s, s', c);
    forall d | d in s'.clients ensures ClientOk(cfg, s', d) {
      if d != c { ClientStays(cfg, s, s', d); }
    }
  }

  lemma AskedCallers(cfg: Config, s: State, s': State, c: Pending.CallerId)
    requires ValidConfig(cfg) && CallersOk(cfg, s) && ClientOk(cfg, s, c) && s.clients[c].pc.Lookup?
    requires s'.pending == s.pending.(callers := s.pending.callers[c := Asked(cfg, s.clients[c])])
    requires s'.clients == s.clients[c := s.clients[c].(pc := Waiting)]
    ensures CallersOk(cfg, s')
  {
    forall d | d in s'.pending.callers
      ensures d in s'.clients && CallerMatches(cfg, s'.clients[d], s'.pending.callers[d])
    {
      if d != c { assert CallerMatches(cfg, s.clients[d], s.pending.callers[d]); }
    }
  }

  lemma KeptIsExplained(cfg: Config, s: State, c: Pending.CallerId)
    requires ValidConfig(cfg) && ClientOk(cfg, s, c) && (s.clients[c].pc.SinkStore? || s.clients[c].pc.Store?)
    ensures Cache.KeyOf(Upstream(cfg, s.clients[c])).Some?
    ensures Kept(cfg, s.clients[c]).id == s.clients[c].query.id
    ensures Explained(cfg, s, Cache.KeyOf(Upstream(cfg, s.clients[c])).value, Kept(cfg, s.clients[c]), None)
  {
    var client := s.clients[c];
    UpstreamKeepsQuestion(cfg, client.query, client.ip);
    KeyDecides(cfg, Upstream(cfg, client));
  }

  lemma InsertKeepsCache(cfg: Config, s: State, query: Message, response: Message, now: nat,
                         victim: Option<Cache.CacheKey>)
    requires ValidConfig(cfg) && CacheOk(cfg, s) && s.clock <= now
    requires Cache.VictimOk(cfg.cache, s.cache, query, response, victim)
    requires Cache.KeyOf(query).Some? && Explained(cfg, s, Cache.KeyOf(query).value, response, None)
    ensures CacheOk(cfg, s.(cache := Cache.Insert(cfg.cache, s.cache, query, response, now, victim), clock := now))
  {
    var s' := s.(cache := Cache.Insert(cfg.cache, s.cache, query, response, now, victim), clock := now);
    forall k | k in s'.cache.entries
      ensures EntryOk(cfg, s'.cache.entries[k], now) && Explained(cfg, s', k, s'.cache.entries[k].message, None)
    {
      Cache.InsertContents(cfg.cache, s.cache, query, response, now, victim, k);
      ExplainedStays(cfg, s, s', k, s'.cache.entries[k].message, None);
    }
  }

  /** Only the cache moves. */
  lemma CacheMoves(cfg: Config, s: State, cache: Cache.Store)
    requires ValidConfig(cfg) && Inv(cfg, s) && CacheOk(cfg, s.(cache := cache))
    ensures Inv(cfg, s.(cache := cache))
  {
    var s' := s.(cache := cache);
    forall c | c in s'.clients ensures ClientOk(cfg, s', c) {
      ClientStays(cfg, s, s', c);
    }
  }

  lemma KeepKeepsInv(cfg: Config, s: State, c: Pending.CallerId, now: nat, victim: Option<Cache.CacheKey>)
    requires ValidConfig(cfg) && Inv(cfg, s) && Enabled(cfg, s, Keep(c, now, victim))
    ensures Inv(cfg, Apply(cfg, s, Keep(c, now, victim)))
  {
    var client := s.clients[c];
    var response := Kept(cfg, client);
    KeptIsExplained(cfg, s, c);
    DoneKeepsInv(cfg, s, c, response, None, now);
    var s1 := At(s, c, Done(response, None)).(clock := now);
    ExplainedStays(cfg, s, s1, Cache.KeyOf(Upstream(cfg, client)).value, response, None);
    InsertKeepsCache(cfg, s1, Upstream(cfg, client), response, now, victim);
    CacheMoves(cfg, s1, Cache.Insert(cfg.cache, s.cache, Upstream(cfg, client), response, now, victim));
  }

  /** What a caller is given is the answer to a query with its own cache key. */
  lemma DeliveredIsFromUpstream(cfg: Config, s: State, c: Pending.CallerId)
    requires ValidConfig(cfg) && Inv(cfg, s) && c in s.pending.callers && c in s.clients
    requires var pc := s.pending.callers[c].pc;
             pc.Returned? && pc.outcome.Delivered? && pc.outcome.answer.Ok?
    ensures Cache.KeyOf(Upstream(cfg, s.clients[c])).Some?
    ensures AnsweredBy(s, s.pending.callers[c].pc.gen, Cache.KeyOf(Upstream(cfg, s.clients[c])).value,
                       s.pending.callers[c].pc.outcome.answer.value)
  {
    var caller := s.pending.callers[c];
    assert PInv.CallerOk(s.pending, c);
    assert PInv.GenOf(caller.pc) == Some(caller.pc.gen);
    var f := s.pending.flights[caller.pc.gen];
    PendingKeyDeterminesCacheKey(cfg, caller.query, f.query);
    UpstreamKeepsQuestion(cfg, s.clients[c].query, s.clients[c].ip);
  }

  lemma ReceiveKeepsInv(cfg: Config, s: State, c: Pending.CallerId)
    requires ValidConfig(cfg) && Inv(cfg, s) && Enabled(cfg, s, Receive(c))
    ensures Inv(cfg, Apply(cfg, s, Receive(c)))
  {
    var s' := Apply(cfg, s, Receive(c));
    var client := s.clients[c];
    var pc := s.pending.callers[c].pc;
    assert ClientOk(cfg, s, c);
    UpstreamKeepsQuestion(cfg, client.query, client.ip);
    if pc.Returned? && pc.outcome.Delivered? && pc.outcome.answer.Ok? {
      DeliveredIsFromUpstream(cfg, s, c);
      var r := pc.outcome.answer.value;
      SkeletonIgnoresIdAndTtl(r, client.query.id, 0);
      var m := r.(id := client.query.id);
      assert Cache.AllRecords(m) == Cache.AllRecords(r);
      assert CarriedBy(cfg, s', pc.gen, Cache.KeyOf(Upstream(cfg, client)).value, m, None);
    }
    SameCache(cfg, s, s');
    ClientMoves(cfg, s, s', c);
  }

  lemma CoalesceKeepsCallers(cfg: Config, s: State, step: Pending.Step)
    requires ValidConfig(cfg) && Inv(cfg, s) && Enabled(cfg, s, Coalesce(step))
    ensures CallersOk(cfg, Apply(cfg, s, Coalesce(step)))
  {
    var s' := Apply(cfg, s, Coalesce(step));
    forall c | c in s'.pending.callers
      ensures c in s'.clients && CallerMatches(cfg, s'.clients[c], s'.pending.callers[c])
    {
      CallerIsStable(s.pending, step, c);
    }
  }

  lemma CallerIsStable(p: Pending.State, step: Pending.Step, c: Pending.CallerId)
    requires Pending.Enabled(p, step) && !step.Arrive? && c in Pending.Apply(p, step).callers
    ensures c in p.callers
    ensures Pending.Apply(p, step).callers[c].query == p.callers[c].query
    ensures Pending.Apply(p, step).callers[c].key == p.callers[c].key
  {
  }

  /** The only new flight is the one a caller opens, for its own query and key. */
  lemma NewFlight(p: Pending.State, step: Pending.Step, g: Pending.Gen)
    requires PInv.Inv(p) && Pending.Enabled(p, step) && g in Pending.Apply(p, step).flights && g !in p.flights
    ensures step.Lock? && step.c in p.callers
    ensures Pending.Apply(p, step).flights[g].query == p.callers[step.c].query
    ensures Some(Pending.Apply(p, step).flights[g].key) == p.callers[step.c].key
  {
  }

  lemma CoalesceKeepsFlights(cfg: Config, s: State, step: Pending.Step)
    requires ValidConfig(cfg) && Inv(cfg, s) && Enabled(cfg, s, Coalesce(step))
    ensures FlightsOk(cfg, Apply(cfg, s, Coalesce(step)))
    ensures FlightsGrow(s, Apply(cfg, s, Coalesce(step)))
  {
    var s' := Apply(cfg, s, Coalesce(step));
    forall g | g in s.pending.flights
      ensures g in s'.pending.flights
        && s'.pending.flights[g].query == s.pending.flights[g].query
        && s'.pending.flights[g].key == s.pending.flights[g].key
        && (s.pending.flights[g].result.Some? ==> s'.pending.flights[g].result == s.pending.flights[g].result)
    {
      PThm.FlightIsStable(s.pending, step, g);
    }
    forall g | g in s'.pending.flights && g !in s.pending.flights
      ensures var f := s'.pending.flights[g];
              f.query.questions != [] && !QueryBlocked(cfg, f.query) && Some(f.key) == PendingKey(cfg, f.query)
    {
      NewFlight(s.pending, step, g);
      UpstreamKeepsQuestion(cfg, s.clients[step.c].query, s.clients[step.c].ip);
    }
  }

  lemma CoalesceKeepsInv(cfg: Config, s: State, step: Pending.Step)
    requires ValidConfig(cfg) && Inv(cfg, s) && Enabled(cfg, s, Coalesce(step))
    ensures Inv(cfg, Apply(cfg, s, Coalesce(step)))
  {
    var s' := Apply(cfg, s, Coalesce(step));
    PInv.StepKeepsInv(s.pending, step);
    CoalesceKeepsCallers(cfg, s, step);
    CoalesceKeepsFlights(cfg, s, step);
    SameCache(cfg, s, s');
    forall c | c in s'.clients ensures ClientOk(cfg, s', c) {
      ClientStays(cfg, s, s', c);
    }
  }

  lemma FlushKeepsInv(cfg: Config, s: State)
    requires ValidConfig(cfg) && Inv(cfg, s)
    ensures Inv(cfg, Apply(cfg, s, FlushCache))
  {
    var s' := Apply(cfg, s, FlushCache);
    forall c | c in s'.clients ensures ClientOk(cfg, s', c) {
      ClientStays(cfg, s, s', c);
    }
  }

  lemma StepKeepsInv(cfg: Config, s: State, step: Step)
    requires ValidConfig(cfg) && Inv(cfg, s) && Enabled(cfg, s, step)
    ensures Inv(cfg, Apply(cfg, s, step))
  {
    match step
    case Begin(_, _, _) => BeginKeepsInv(cfg, s, step);
    case Consult(c, now) =>
      if Cache.Get(s.cache, Upstream(cfg, s.clients[c]), now).1.Some? {
        HitKeepsInv(cfg, s, c, now);
      } else if s.clients[c].pc.SinkLookup? {
        SinkMissKeepsInv(cfg, s, c, now);
      } else {
        MissKeepsInv(cfg, s, c, now);
      }
    case Keep(c, now, victim) => KeepKeepsInv(cfg, s, c, now, victim);
    case Coalesce(inner) => CoalesceKeepsInv(cfg, s, inner);
    case Receive(c) => ReceiveKeepsInv(cfg, s, c);
    case FlushCache => FlushKeepsInv(cfg, s);
  }

  lemma {:induction false} RunKeepsInv(cfg: Config, s: State, steps: seq<Step>)
    requires ValidConfig(cfg) && Inv(cfg, s) && IsRun(cfg, s, steps)
    ensures Inv(cfg, Run(cfg, s, steps))
    decreases |steps|
  {
    if steps == [] {
    } else {
      StepKeepsInv(cfg, s, steps[0]);
      RunKeepsInv(cfg, Apply(cfg, s, steps[0]), steps[1..]);
    }
  }

  // ---- main results ----

  /** `m` is the reply synthesised for the blocked `query`, which goes upstream as the same query as `upstream`. */
  predicate SynthesisedFrom(cfg: Config, query: Message, ip: Option<IpAddr>, upstream: Message, m: Message)
    requires Ecs.ValidConfig(cfg.ecs)
  {
    && QueryBlocked(cfg, query)
    && Cache.SameQuery(UpstreamQuery(cfg, query, ip), upstream)
    && SameButIdAndTtl(m, BlockedReply(cfg, query))
  }

  ghost predicate SynthesisedFor(cfg: Config, upstream: Message, m: Message)
    requires ValidConfig(cfg)
  {
    exists query, ip :: SynthesisedFrom(cfg, query, ip, upstream, m)
  }

  /** `m` is the successful answer of upstream run `g`, asked the same query as `upstream`. */
  ghost predicate AnswerTo(cfg: Config, s: State, g: Pending.Gen, upstream: Message, m: Message, age: Option<nat>) {
    g in s.pending.flights &&
    var f := s.pending.flights[g];
    && f.result.Some? && f.result.value.Ok?
    && Cache.SameQuery(f.query, upstream)
    && SameButIdAndTtl(m, f.result.value.value)
    && TtlsFollow(cfg, m, f.result.value.value, age)
  }

  lemma SynthesisedIs(cfg: Config, upstream: Message, m: Message)
    requires ValidConfig(cfg) && Cache.KeyOf(upstream).Some? && QueryBlocked(cfg, upstream)
    requires Synthesised(cfg, Cache.KeyOf(upstream).value, m)
    ensures SynthesisedFor(cfg, upstream, m)
  {
    var k := Cache.KeyOf(upstream).value;
    var query, ip :| Cache.KeyOf(UpstreamQuery(cfg, query, ip)) == Some(k)
                     && Skeleton(m) == Skeleton(BlockedReply(cfg, query));
    Cache.SameKeyIff(UpstreamQuery(cfg, query, ip), upstream);
    SkeletonEqualIff(m, BlockedReply(cfg, query));
    UpstreamKeepsQuestion(cfg, query, ip);
    KeyDecides(cfg, upstream);
    KeyDecides(cfg, UpstreamQuery(cfg, query, ip));
    assert SynthesisedFrom(cfg, query, ip, upstream, m);
  }

  lemma CarriedIs(cfg: Config, s: State, g: Pending.Gen, upstream: Message, m: Message, age: Option<nat>)
    requires Cache.KeyOf(upstream).Some? && CarriedBy(cfg, s, g, Cache.KeyOf(upstream).value, m, age)
    ensures AnswerTo(cfg, s, g, upstream, m, age)
  {
    Cache.SameKeyIff(s.pending.flights[g].query, upstream);
    SkeletonEqualIff(m, s.pending.flights[g].result.value.value);
  }

  /**
   * After any run from an empty cache, whatever the interleaving: a client's final response
   * carries its own id; without a question it is a form error; for a blocked name it is, up to
   * id and TTLs, the reply synthesised for the same query; for any other name it is a server
   * failure or, up to id and TTLs, a successful upstream answer to the same query. An answer not
   * from the cache has the upstream's TTLs; one from the cache at some age has no TTL above the
   * upstream's less that age, unless the configured bounds lift the life of that answer.
   * "The same query" is told by the messages' own fields.
   */
  lemma EveryAnswerIsExplained(cfg: Config, steps: seq<Step>, c: Pending.CallerId)
    requires ValidConfig(cfg) && IsRun(cfg, INITIAL, steps)
    requires c in Run(cfg, INITIAL, steps).clients && Run(cfg, INITIAL, steps).clients[c].pc.Done?
    ensures var s := Run(cfg, INITIAL, steps);
            var client := s.clients[c];
            var m := client.pc.response;
            && m.id == client.query.id
            && (client.query.questions == [] ==> m == Reply(client.query, FORMERR))
            && (QueryBlocked(cfg, client.query) ==> SynthesisedFor(cfg, Upstream(cfg, client), m))
            && (client.query.questions != [] && !QueryBlocked(cfg, client.query) ==>
                  || (m == Reply(client.query, SERVFAIL) && client.pc.age.None?)
                  || exists g :: AnswerTo(cfg, s, g, Upstream(cfg, client), m, client.pc.age))
  {
    RunKeepsInv(cfg, INITIAL, steps);
    var s := Run(cfg, INITIAL, steps);
    assert ClientOk(cfg, s, c);
    DoneIsExplained(cfg, s, s.clients[c], s.clients[c].pc.response, s.clients[c].pc.age);
  }

  lemma DoneIsExplained(cfg: Config, s: State, client: Client, m: Message, age: Option<nat>)
    requires ValidConfig(cfg) && DoneOk(cfg, s, client, m, age)
    ensures m.id == client.query.id
    ensures client.query.questions == [] ==> m == Reply(client.query, FORMERR)
    ensures QueryBlocked(cfg, client.query) ==> SynthesisedFor(cfg, Upstream(cfg, client), m)
    ensures client.query.questions != [] && !QueryBlocked(cfg, client.query) ==>
              || (m == Reply(client.query, SERVFAIL) && age.None?)
              || exists g :: AnswerTo(cfg, s, g, Upstream(cfg, client), m, age)
  {
    var up := Upstream(cfg, client);
    UpstreamKeepsQuestion(cfg, client.query, client.ip);
    if client.query.questions != [] {
      KeyDecides(cfg, up);
      if QueryBlocked(cfg, client.query) {
        SynthesisedIs(cfg, up, m);
      } else if g :| CarriedBy(cfg, s, g, Cache.KeyOf(up).value, m, age) {
        CarriedIs(cfg, s, g, up, m, age);
      }
    }
  }

  /**
   * So, after any run without a configured minimum, what a client is served from the cache for
   * a name that is not blocked has no TTL above the upstream's less its age (section 3.2.1 of
   * RFC 1035).
   */
  lemma NoClientSeesLateTtls(cfg: Config, steps: seq<Step>, c: Pending.CallerId) returns (g: Pending.Gen)
    requires ValidConfig(cfg) && IsRun(cfg, INITIAL, steps) && cfg.cache.minTtl.None?
    requires var s := Run(cfg, INITIAL, steps);
             && c in s.clients && s.clients[c].pc.Done? && s.clients[c].pc.age.Some?
             && s.clients[c].query.questions != [] && !QueryBlocked(cfg, s.clients[c].query)
    ensures var s := Run(cfg, INITIAL, steps);
            var client := s.clients[c];
            && AnswerTo(cfg, s, g, Upstream(cfg, client), client.pc.response, client.pc.age)
            && Cache.WithinOwnTtls(client.pc.response, s.pending.flights[g].result.value.value, client.pc.age.value)
  {
    EveryAnswerIsExplained(cfg, steps, c);
    var s := Run(cfg, INITIAL, steps);
    var client := s.clients[c];
    g :| AnswerTo(cfg, s, g, Upstream(cfg, client), client.pc.response, client.pc.age);
    var answer := s.pending.flights[g].result.value.value;
    if Cache.AllRecords(answer) == [] { NoRecords(client.pc.response, answer); }
  }

  // ---- the cache of a run is a cache with a history ----

  ghost predicate HistoryOf(cfg: Config, s: State, ops: seq<Cache.Op>) {
    Cache.IsHistory(cfg.cache, ops) && Cache.Clock(ops) <= s.clock && Cache.Run(cfg.cache, ops) == s.cache
  }

  lemma HistoryGrows(cfg: Config, s: State, s': State, ops: seq<Cache.Op>, op: Cache.Op)
    requires HistoryOf(cfg, s, ops) && s.clock <= op.at == s'.clock
    requires op.DoInsert? ==> Cache.VictimOk(cfg.cache, s.cache, op.query, op.response, op.victim)
    requires s'.cache == Cache.Step(cfg.cache, s.cache, op)
    ensures HistoryOf(cfg, s', ops + [op])
  {
    var longer := ops + [op];
    assert longer[..|longer| - 1] == ops && longer[|longer| - 1] == op;
  }

  /** What a step does to the cache is one of the cache's own calls, or nothing. */
  lemma StepIsCacheCall(cfg: Config, s: State, step: Step, ops: seq<Cache.Op>) returns (ops': seq<Cache.Op>)
    requires ValidConfig(cfg) && Enabled(cfg, s, step) && HistoryOf(cfg, s, ops)
    ensures HistoryOf(cfg, Apply(cfg, s, step), ops')
  {
    var s' := Apply(cfg, s, step);
    match step
    case Consult(c, now) =>
      var op := Cache.DoGet(Upstream(cfg, s.clients[c]), now);
      HistoryGrows(cfg, s, s', ops, op);
      ops' := ops + [op];
    case Keep(c, now, victim) =>
      var op := Cache.DoInsert(Upstream(cfg, s.clients[c]), Kept(cfg, s.clients[c]), now, victim);
      HistoryGrows(cfg, s, s', ops, op);
      ops' := ops + [op];
    case FlushCache =>
      HistoryGrows(cfg, s, s', ops, Cache.DoFlush(s.clock));
      ops' := ops + [Cache.DoFlush(s.clock)];
    case _ => ops' := ops;
  }

  lemma {:induction false} RunHasHistory(cfg: Config, s: State, steps: seq<Step>, ops: seq<Cache.Op>)
    returns (ops': seq<Cache.Op>)
    requires ValidConfig(cfg) && IsRun(cfg, s, steps) && HistoryOf(cfg, s, ops)
    ensures HistoryOf(cfg, Run(cfg, s, steps), ops')
    decreases |steps|
  {
    if steps == [] {
      ops' := ops;
    } else {
      var next := StepIsCacheCall(cfg, s, steps[0], ops);
      ops' := RunHasHistory(cfg, Apply(cfg, s, steps[0]), steps[1..], next);
    }
  }

  /**
   * Every result about the cache holds in every interleaving: the cache of a run is that of a
   * history of calls, so it is bounded and its gauge reads its size.
   */
  lemma RunsUseTheCacheAsSpecified(cfg: Config, steps: seq<Step>) returns (ops: seq<Cache.Op>)
    requires ValidConfig(cfg) && IsRun(cfg, INITIAL, steps)
    ensures HistoryOf(cfg, Run(cfg, INITIAL, steps), ops)
    ensures Cache.Balanced(cfg.cache, Run(cfg, INITIAL, steps).cache, Cache.Account(cfg.cache, ops))
  {
    var none: seq<Cache.Op> := [];
    assert HistoryOf(cfg, INITIAL, none);
    ops := RunHasHistory(cfg, INITIAL, steps, none);
    Cache.Conservation(cfg.cache, ops);
  }

  /** After any run, no query sent upstream asks for a blocked name. */
  lemma BlockedNamesStayHome(cfg: Config, steps: seq<Step>)
    requires ValidConfig(cfg) && IsRun(cfg, INITIAL, steps)
    ensures forall g :: g in Run(cfg, INITIAL, steps).pending.flights ==>
              !QueryBlocked(cfg, Run(cfg, INITIAL, steps).pending.flights[g].query)
  {
    RunKeepsInv(cfg, INITIAL, steps);
  }

  /** After any run, every cached message is explained for the key it is stored under. */
  lemma CacheIsExplained(cfg: Config, steps: seq<Step>)
    requires ValidConfig(cfg) && IsRun(cfg, INITIAL, steps)
    ensures CacheOk(cfg, Run(cfg, INITIAL, steps))
  {
    RunKeepsInv(cfg, INITIAL, steps);
  }

  /** The one record of a blocked reply, in the fields of the record itself. */
  predicate BlockedRecord(cfg: Config, r: Record, q: Question) {
    if cfg.mode.NullIp? && q.qtype == 1 then r.rtype == 1 && r.data == A(0)
    else if cfg.mode.NullIp? && q.qtype == 28 then r.rtype == 28 && r.data == AAAA(0)
    else
      && r.rtype == 6
      && r.data.SOA?
      && r.data.soa.mname == "blocked.dotdns." && r.data.soa.rname == "hostmaster.blocked.dotdns."
      && r.data.soa.serial == 1 && r.data.soa.refresh == 1800 && r.data.soa.retry == 900
      && r.data.soa.expire == 604800
      && IsBlockedTtl(cfg, r.data.soa.minimum)
  }

  /** The configured seconds, or the largest TTL there is when that does not hold them. */
  predicate IsBlockedTtl(cfg: Config, ttl: u32) {
    ttl <= cfg.blockedTtlSecs && (ttl < cfg.blockedTtlSecs ==> ttl == 4294967295)
  }

  /** An address goes into the answers, an SOA into the authority section; nothing else is there. */
  predicate OneRecord(cfg: Config, m: Message, q: Question, r: Record) {
    m.additionals == [] &&
    if cfg.mode.NullIp? && (q.qtype == 1 || q.qtype == 28) then m.answers == [r] && m.nameServers == []
    else m.answers == [] && m.nameServers == [r]
  }

  /** The reply made for a blocked query, field by field. */
  lemma BlockedReplyMeaning(cfg: Config, query: Message)
    requires query.questions != []
    ensures var m := BlockedReply(cfg, query);
            var q := query.questions[0];
            var r := if m.answers != [] then m.answers[0] else m.nameServers[0];
            && OneRecord(cfg, m, q, r) && BlockedRecord(cfg, r, q)
            && r.name == q.name && IsBlockedTtl(cfg, r.ttl)
            && IsReplyTo(m, query) && m.rcode == (if cfg.mode.NxDomain? then 3 else 0)
  {
  }

  /** What every reply made here copies from its query. */
  predicate IsReplyTo(m: Message, query: Message) {
    && m.id == query.id && m.isResponse && m.opCode == query.opCode
    && m.recursionDesired == query.recursionDesired && m.edns == query.edns && m.questions == []
  }

  /** The error replies: the code asked for, and not a record. */
  lemma ErrorReplyMeaning(query: Message, rcode: nat)
    ensures IsReplyTo(Reply(query, rcode), query) && Reply(query, rcode).rcode == rcode
    ensures Cache.AllRecords(Reply(query, rcode)) == []
    ensures FORMERR == 1 && SERVFAIL == 2
  {
  }

  /** What a synthesised reply says, in each mode, for whichever of the same queries it was made. */
  lemma SynthesisedMeaning(cfg: Config, upstream: Message, m: Message) returns (r: Record)
    requires ValidConfig(cfg) && SynthesisedFor(cfg, upstream, m)
    ensures upstream.questions != []
    ensures OneRecord(cfg, m, upstream.questions[0], r) && BlockedRecord(cfg, r, upstream.questions[0])
    ensures Lower(r.name) == Lower(upstream.questions[0].name)
    ensures m.isResponse && m.questions == [] && m.rcode == if cfg.mode.NxDomain? then 3 else 0
  {
    var query, ip :| SynthesisedFrom(cfg, query, ip, upstream, m);
    UpstreamKeepsQuestion(cfg, query, ip);
    BlockedReplyMeaning(cfg, query);
    var made := BlockedReply(cfg, query);
    SameRecord(m.answers, made.answers);
    SameRecord(m.nameServers, made.nameServers);
    r := if m.answers != [] then m.answers[0] else m.nameServers[0];
  }

  lemma SameRecord(a: seq<Record>, b: seq<Record>)
    requires SameButTtl(a, b)
    ensures |a| == |b|
    ensures |b| == 1 ==> a == [b[0].(ttl := a[0].ttl)]
  {
    if |b| == 1 { assert a[0].(ttl := b[0].ttl) == b[0]; }
  }

  lemma NoRecords(m: Message, r: Message)
    requires SameButIdAndTtl(m, r) && Cache.AllRecords(r) == []
    ensures Cache.AllRecords(m) == []
  {
    assert |r.answers| + |r.nameServers| + |r.additionals| == |Cache.AllRecords(r)|;
  }

  /** A client at its lookup can always take it: its id is not yet in use in the coalescer. */
  lemma LookupIsEnabled(cfg: Config, steps: seq<Step>, c: Pending.CallerId, now: nat)
    requires ValidConfig(cfg) && IsRun(cfg, INITIAL, steps)
    requires var s := Run(cfg, INITIAL, steps);
             c in s.clients && s.clock <= now && (s.clients[c].pc.SinkLookup? || s.clients[c].pc.Lookup?)
    ensures Enabled(cfg, Run(cfg, INITIAL, steps), Consult(c, now))
  {
    RunKeepsInv(cfg, INITIAL, steps);
  }
}
