/** The TTL cache: its operations as functions on a store, with durations in nanoseconds. */
module TtlCache {
  import opened Wrappers
  import opened Messages

  const SECOND: nat := 1_000_000_000

  datatype CacheConfig = CacheConfig(capacity: nat, minTtl: Option<nat>, maxTtl: Option<nat>)

  /** Names are kept in lower case: two spellings of a name are one key. */
  datatype CacheKey = CacheKey(
    name: Name, qtype: nat, qclass: nat, recursionDesired: bool, dnssecOk: bool, subnet: Option<Subnet>)

  datatype Entry = Entry(message: Message, insertedAt: nat, ttl: nat)

  datatype Store = Store(entries: map<CacheKey, Entry>, gauge: int, evictions: int)

  const EMPTY := Store(map[], 0, 0)

  function KeyOf(msg: Message): Option<CacheKey> {
    if msg.questions == [] then None
    else
      var q := msg.questions[0];
      Some(CacheKey(Lower(q.name), q.qtype, q.qclass, msg.recursionDesired,
                    msg.edns.Some? && msg.edns.value.dnssecOk,
                    if msg.edns.Some? then msg.edns.value.subnet else None))
  }

  // ---- which queries share a key, in the messages' own fields ----

  predicate WantsDnssec(m: Message) {
    m.edns.Some? && m.edns.value.dnssecOk
  }

  predicate SameSubnetOption(a: Message, b: Message) {
    var none := Edns(false, None, []);
    var x := if a.edns.Some? then a.edns.value else none;
    var y := if b.edns.Some? then b.edns.value else none;
    x.subnet == y.subnet
  }

  /**
   * The queries the cache may answer alike: same first question, its name up to ASCII case, same
   * recursion-desired bit, same wish for DNSSEC records, same subnet option or none on either.
   */
  predicate SameQuery(a: Message, b: Message) {
    && a.questions != [] && b.questions != []
    && Lower(a.questions[0].name) == Lower(b.questions[0].name)
    && a.questions[0].qtype == b.questions[0].qtype
    && a.questions[0].qclass == b.questions[0].qclass
    && a.recursionDesired == b.recursionDesired
    && (WantsDnssec(a) <==> WantsDnssec(b))
    && SameSubnetOption(a, b)
  }

  /**
   * Two queries have one cache key if and only if they are the same query in this sense.
   * One without a question has none.
   */
  lemma SameKeyIff(a: Message, b: Message)
    ensures KeyOf(a).Some? <==> a.questions != []
    ensures KeyOf(a).Some? && KeyOf(a) == KeyOf(b) <==> SameQuery(a, b)
  {
  }

  function Age(e: Entry, now: nat): nat {
    if now < e.insertedAt then 0 else now - e.insertedAt
  }

  predicate Fresh(e: Entry, now: nat) {
    Age(e, now) < e.ttl
  }

  /** Whole seconds left, cut to 32 bits as the cast in the source does. */
  function RemainingSecs(e: Entry, now: nat): u32
    requires Fresh(e, now)
  {
    SecondsIn(e.ttl - Age(e, now))
  }

  function SecondsIn(left: nat): u32 {
    left / 1_000_000_000 % 0x1_0000_0000
  }

  function Served(e: Entry, now: nat): Option<Message> {
    if Fresh(e, now) then Some(WithTtl(e.message, RemainingSecs(e, now))) else None
  }

  function Sync(entries: map<CacheKey, Entry>, evictions: int): Store {
    Store(entries, |entries|, evictions)
  }

  function Get(st: Store, query: Message, now: nat): (r: (Store, Option<Message>)) {
    match KeyOf(query)
    case None => (st, None)
    case Some(k) =>
      if k !in st.entries then (st, None)
      else if Fresh(st.entries[k], now) then (st, Served(st.entries[k], now))
      else (Sync(st.entries - {k}, st.evictions), None)
  }

  /** A response younger than its life is found, and the lookup changes nothing. */
  lemma GetFresh(st: Store, query: Message, now: nat, k: CacheKey)
    requires KeyOf(query) == Some(k) && k in st.entries && st.entries[k].insertedAt <= now
    requires now - st.entries[k].insertedAt < st.entries[k].ttl
    ensures Fresh(st.entries[k], now)
    ensures Get(st, query, now) == (st, Some(WithTtl(st.entries[k].message, RemainingSecs(st.entries[k], now))))
  {
  }

  /** Anything else is not found, and an entry past its life goes. */
  lemma GetStale(st: Store, query: Message, now: nat, k: CacheKey)
    requires KeyOf(query) == Some(k)
    requires k in st.entries ==> st.entries[k].insertedAt <= now && now - st.entries[k].insertedAt >= st.entries[k].ttl
    ensures Get(st, query, now).1.None?
    ensures Get(st, query, now).0.entries == st.entries - {k}
  {
  }

  function AllRecords(m: Message): seq<Record> {
    m.answers + m.nameServers + m.additionals
  }

  function LeastTtl(rs: seq<Record>): (least: nat)
    requires rs != []
    ensures forall i :: 0 <= i < |rs| ==> least <= rs[i].ttl
    ensures exists i :: 0 <= i < |rs| && rs[i].ttl == least
  {
    if |rs| == 1 then rs[0].ttl
    else
      var rest := LeastTtl(rs[1..]);
      assert forall i :: 1 <= i < |rs| ==> rs[i] == rs[1..][i - 1];
      assert forall i :: 0 <= i < |rs| - 1 ==> rs[1..][i] == rs[i + 1];
      if rs[0].ttl <= rest then rs[0].ttl else rest
  }

  function Clamp(cfg: CacheConfig, ttl: nat): nat {
    var raised := if cfg.minTtl.Some? && ttl < cfg.minTtl.value then cfg.minTtl.value else ttl;
    if cfg.maxTtl.Some? && raised > cfg.maxTtl.value then cfg.maxTtl.value else raised
  }

  /** The life of a stored message: its least record TTL, clamped to the configured bounds. */
  function Life(cfg: CacheConfig, m: Message): nat
    requires AllRecords(m) != []
  {
    Clamp(cfg, LeastTtl(AllRecords(m)) * SECOND)
  }

  predicate Stores(query: Message, response: Message) {
    KeyOf(query).Some? && AllRecords(response) != []
  }

  predicate MustEvict(cfg: CacheConfig, st: Store) {
    |st.entries| >= cfg.capacity && st.entries != map[]
  }

  /** `victim` is the key the hash map happens to yield first, when one has to go. */
  predicate VictimOk(cfg: CacheConfig, st: Store, query: Message, response: Message, victim: Option<CacheKey>) {
    if Stores(query, response) && MustEvict(cfg, st)
    then victim.Some? && victim.value in st.entries
    else victim.None?
  }

  function Evicted(st: Store, victim: Option<CacheKey>): Store {
    match victim
    case None => st
    case Some(k) => Store(st.entries - {k}, st.gauge, st.evictions + 1)
  }

  function Insert(cfg: CacheConfig, st: Store, query: Message, response: Message, now: nat,
                  victim: Option<CacheKey>): Store
    requires VictimOk(cfg, st, query, response, victim)
  {
    if !Stores(query, response) then st
    else
      var st1 := Evicted(st, victim);
      Sync(st1.entries[KeyOf(query).value := Entry(response, now, Life(cfg, response))], st1.evictions)
  }

  /** After an insert every entry is the one just stored, or was there before. */
  lemma InsertContents(cfg: CacheConfig, st: Store, query: Message, response: Message, now: nat,
                       victim: Option<CacheKey>, k: CacheKey)
    requires VictimOk(cfg, st, query, response, victim)
    requires k in Insert(cfg, st, query, response, now, victim).entries
    ensures var e := Insert(cfg, st, query, response, now, victim).entries[k];
            || (KeyOf(query) == Some(k) && AllRecords(response) != [] && e == Entry(response, now, Life(cfg, response)))
            || (k in st.entries && e == st.entries[k])
  {
  }

  function Flush(st: Store): Store {
    Sync(map[], st.evictions)
  }

  // ---- histories ----

  /** A response once stored, and when. */
  datatype Deposit = Deposit(message: Message, at: nat)

  datatype Op =
    | DoGet(query: Message, at: nat)
    | DoInsert(query: Message, response: Message, at: nat, victim: Option<CacheKey>)
    | DoFlush(at: nat)

  function Clock(ops: seq<Op>): nat {
    if ops == [] then 0 else ops[|ops| - 1].at
  }

  function Step(cfg: CacheConfig, st: Store, op: Op): Store
    requires op.DoInsert? ==> VictimOk(cfg, st, op.query, op.response, op.victim)
  {
    match op
    case DoGet(q, now) => Get(st, q, now).0
    case DoInsert(q, r, now, victim) => Insert(cfg, st, q, r, now, victim)
    case DoFlush(_) => Flush(st)
  }

  /** Calls made one after the other (each under the lock) at nondecreasing times. */
  predicate IsHistory(cfg: CacheConfig, ops: seq<Op>)
    decreases |ops|, 0
  {
    ops == [] ||
    var op := ops[|ops| - 1];
    var before := ops[..|ops| - 1];
    && IsHistory(cfg, before)
    && Clock(before) <= op.at
    && (op.DoInsert? ==> VictimOk(cfg, Run(cfg, before), op.query, op.response, op.victim))
  }

  function Run(cfg: CacheConfig, ops: seq<Op>): Store
    requires IsHistory(cfg, ops)
    decreases |ops|, 1
  {
    if ops == [] then EMPTY else Step(cfg, Run(cfg, ops[..|ops| - 1]), ops[|ops| - 1])
  }

  /**
   * The reference definition of the cache's contents: for key `k`, the last response
   * with records stored under it and when, unless it was evicted or flushed since.
   * Lookups, and the expiry they trigger, leave no trace in it.
   */
  function Live(ops: seq<Op>, k: CacheKey): Option<Deposit> {
    if ops == [] then None else LiveAfter(Live(ops[..|ops| - 1], k), ops[|ops| - 1], k)
  }

  function LiveAfter(before: Option<Deposit>, op: Op, k: CacheKey): Option<Deposit> {
    match op
    case DoGet(_, _) => before
    case DoFlush(_) => None
    case DoInsert(q, r, at, victim) =>
      if Stores(q, r) && KeyOf(q) == Some(k) then Some(Deposit(r, at))
      else if victim == Some(k) then None
      else before
  }

  /** The map holds what is live for `k`; what is live but missing has outlived its life. */
  ghost predicate Tracks(cfg: CacheConfig, st: Store, live: Option<Deposit>, clock: nat, k: CacheKey) {
    if k in st.entries then
      var e := st.entries[k];
      && live == Some(Deposit(e.message, e.insertedAt))
      && AllRecords(e.message) != [] && e.ttl == Life(cfg, e.message)
      && e.insertedAt <= clock
    else
      live.Some? ==> AllRecords(live.value.message) != [] && live.value.at + Life(cfg, live.value.message) <= clock
  }

  lemma LookupTracked(cfg: CacheConfig, st: Store, live: Option<Deposit>, clock: nat, op: Op, k: CacheKey)
    requires !op.DoInsert? && Tracks(cfg, st, live, clock, k) && clock <= op.at
    ensures Tracks(cfg, Step(cfg, st, op), LiveAfter(live, op, k), op.at, k)
  {
  }

  lemma InsertTracked(cfg: CacheConfig, st: Store, live: Option<Deposit>, clock: nat, op: Op, k: CacheKey)
    requires op.DoInsert? && VictimOk(cfg, st, op.query, op.response, op.victim)
    requires Tracks(cfg, st, live, clock, k) && clock <= op.at
    ensures Tracks(cfg, Step(cfg, st, op), LiveAfter(live, op, k), op.at, k)
  {
  }

  lemma {:induction false} HistoryTracked(cfg: CacheConfig, ops: seq<Op>, k: CacheKey)
    requires IsHistory(cfg, ops)
    ensures Tracks(cfg, Run(cfg, ops), Live(ops, k), Clock(ops), k)
  {
    if ops != [] {
      var before, op := ops[..|ops| - 1], ops[|ops| - 1];
      HistoryTracked(cfg, before, k);
      if op.DoInsert? {
        InsertTracked(cfg, Run(cfg, before), Live(before, k), Clock(before), op, k);
      } else {
        LookupTracked(cfg, Run(cfg, before), Live(before, k), Clock(before), op, k);
      }
    }
  }

  /** The calls of a history that stored under the key of `query`, told by the queries themselves. */
  predicate StoresFor(op: Op, query: Message) {
    op.DoInsert? && SameQuery(op.query, query) && AllRecords(op.response) != []
  }

  lemma StoresForIff(op: Op, query: Message)
    requires KeyOf(query).Some? && op.DoInsert?
    ensures Stores(op.query, op.response) && KeyOf(op.query) == KeyOf(query) <==> StoresFor(op, query)
  {
    SameKeyIff(op.query, query);
  }

  /** What is live for a query is the response of the last call that stored for the same query. */
  lemma {:induction false} LiveIsLastStored(ops: seq<Op>, query: Message) returns (i: nat)
    requires KeyOf(query).Some? && Live(ops, KeyOf(query).value).Some?
    ensures i < |ops| && StoresFor(ops[i], query)
    ensures Live(ops, KeyOf(query).value) == Some(Deposit(ops[i].response, ops[i].at))
    ensures forall j :: i < j < |ops| ==> !StoresFor(ops[j], query) && !ops[j].DoFlush?
    ensures forall j :: i < j < |ops| && ops[j].DoInsert? ==> ops[j].victim != KeyOf(query)
  {
    var op, before := ops[|ops| - 1], ops[..|ops| - 1];
    if op.DoInsert? { StoresForIff(op, query); }
    if StoresFor(op, query) {
      i := |ops| - 1;
    } else {
      i := LiveIsLastStored(before, query);
      assert ops == before + [op];
    }
  }

  /** And nothing is live for it if and only if no such call is left: each was followed by a flush or its eviction. */
  lemma {:induction false} NothingLiveIff(ops: seq<Op>, query: Message)
    requires KeyOf(query).Some?
    ensures Live(ops, KeyOf(query).value).None? <==>
              forall i :: 0 <= i < |ops| && StoresFor(ops[i], query) ==>
                exists j :: i < j < |ops| && TakesAway(ops[j], query)
  {
    if Live(ops, KeyOf(query).value).Some? {
      var i := LiveIsLastStored(ops, query);
      assert StoresFor(ops[i], query);
      assert forall j :: i < j < |ops| ==> !TakesAway(ops[j], query);
    } else {
      forall i | 0 <= i < |ops| && StoresFor(ops[i], query)
        ensures exists j :: i < j < |ops| && TakesAway(ops[j], query)
      {
        var j := TakenAway(ops, query, i);
      }
    }
  }

  predicate TakesAway(op: Op, query: Message) {
    op.DoFlush? || (op.DoInsert? && op.victim.Some? && op.victim == KeyOf(query))
  }

  lemma {:induction false} TakenAway(ops: seq<Op>, query: Message, i: nat) returns (j: nat)
    requires KeyOf(query).Some? && Live(ops, KeyOf(query).value).None? && i < |ops| && StoresFor(ops[i], query)
    ensures i < j < |ops| && TakesAway(ops[j], query)
  {
    var op, before := ops[|ops| - 1], ops[..|ops| - 1];
    assert ops == before + [op];
    if op.DoInsert? { StoresForIff(op, query); }
    if TakesAway(op, query) && i < |ops| - 1 {
      j := |ops| - 1;
    } else {
      j := TakenAway(before, query, i);
      assert ops[j] == before[j];
    }
  }

  /** What a response stored at some time is served as: itself, with the whole seconds it has left, or nothing. */
  function ServedFrom(cfg: CacheConfig, d: Deposit, now: nat): Option<Message>
    requires AllRecords(d.message) != [] && d.at <= now
  {
    if now - d.at < Life(cfg, d.message)
    then Some(WithTtl(d.message, SecondsIn(Life(cfg, d.message) - (now - d.at))))
    else None
  }

  /**
   * A lookup at `now` answers exactly from the history: with the last stored response for its
   * key, if that is neither evicted nor flushed and is younger than its life, and with every
   * TTL set to the whole seconds that remain (cut to 32 bits).
   */
  lemma GetRefinesHistory(cfg: CacheConfig, ops: seq<Op>, query: Message, now: nat)
    requires IsHistory(cfg, ops) && Clock(ops) <= now && KeyOf(query).Some?
    ensures var live := Live(ops, KeyOf(query).value);
            live.Some? ==> live.value.at <= now && AllRecords(live.value.message) != []
    ensures Get(Run(cfg, ops), query, now).1 ==
      match Live(ops, KeyOf(query).value)
      case None => None
      case Some(d) => ServedFrom(cfg, d, now)
  {
    var k := KeyOf(query).value;
    HistoryTracked(cfg, ops, k);
    match Live(ops, k)
    case None => GetStale(Run(cfg, ops), query, now, k);
    case Some(d) => GetTracked(cfg, Run(cfg, ops), d, Clock(ops), k, query, now);
  }

  lemma GetTracked(cfg: CacheConfig, st: Store, d: Deposit, clock: nat, k: CacheKey, query: Message, now: nat)
    requires Tracks(cfg, st, Some(d), clock, k) && clock <= now && KeyOf(query) == Some(k)
    ensures d.at <= now && AllRecords(d.message) != []
    ensures Get(st, query, now).1 == ServedFrom(cfg, d, now)
  {
    if k in st.entries && now - d.at < Life(cfg, d.message) {
      GetFresh(st, query, now, k);
    } else {
      GetStale(st, query, now, k);
    }
  }

  /**
   * Call `i` is the last one that stored for the same query, and neither a flush nor an eviction
   * of its key came after it.
   */
  predicate IsCurrent(ops: seq<Op>, query: Message, i: nat) {
    i < |ops| && StoresFor(ops[i], query) &&
    forall j :: i < j < |ops| ==> !StoresFor(ops[j], query) && !TakesAway(ops[j], query)
  }

  /**
   * The same for whole queries, told by their own fields: over any history, a lookup finds the
   * response last stored for the same query, neither flushed nor evicted since, while it is
   * younger than its life.
   */
  lemma CurrentIsFound(cfg: CacheConfig, ops: seq<Op>, query: Message, now: nat, i: nat)
    requires IsHistory(cfg, ops) && Clock(ops) <= now && query.questions != [] && IsCurrent(ops, query, i)
    ensures ops[i].at <= now
    ensures Get(Run(cfg, ops), query, now).1 == ServedFrom(cfg, Deposit(ops[i].response, ops[i].at), now)
  {
    StillLive(ops, query, i);
    GetOfLive(cfg, ops, query, now, Deposit(ops[i].response, ops[i].at));
  }

  lemma GetOfLive(cfg: CacheConfig, ops: seq<Op>, query: Message, now: nat, d: Deposit)
    requires IsHistory(cfg, ops) && Clock(ops) <= now && KeyOf(query).Some?
    requires Live(ops, KeyOf(query).value) == Some(d)
    ensures d.at <= now && AllRecords(d.message) != []
    ensures Get(Run(cfg, ops), query, now).1 == ServedFrom(cfg, d, now)
  {
    GetRefinesHistory(cfg, ops, query, now);
  }

  /** And it finds nothing else. */
  lemma FoundIsCurrent(cfg: CacheConfig, ops: seq<Op>, query: Message, now: nat) returns (i: nat)
    requires IsHistory(cfg, ops) && Clock(ops) <= now && Get(Run(cfg, ops), query, now).1.Some?
    ensures query.questions != [] && IsCurrent(ops, query, i)
  {
    GetIsServed(cfg, ops, query, now);
    i := LiveIsLastStored(ops, query);
  }

  // ---- time to live ----

  /** The life of a response: its least TTL where the bounds allow it, else the bound; the maximum has the last word. */
  lemma LifeAtBounds(cfg: CacheConfig, m: Message)
    requires AllRecords(m) != []
    ensures var own := LeastTtl(AllRecords(m)) * 1_000_000_000;
            var aboveMin := cfg.minTtl.None? || cfg.minTtl.value <= own;
            var belowMax := cfg.maxTtl.None? || own <= cfg.maxTtl.value;
            var crossed := cfg.minTtl.Some? && cfg.maxTtl.Some? && cfg.maxTtl.value < cfg.minTtl.value;
            && (aboveMin && belowMax ==> Life(cfg, m) == own)
            && (!aboveMin && !crossed ==> Life(cfg, m) == cfg.minTtl.value)
            && (!belowMax ==> Life(cfg, m) == cfg.maxTtl.value)
            && (crossed && !aboveMin ==> Life(cfg, m) == cfg.maxTtl.value)
  {
  }

  /** While the life fits in 32 bits of seconds, the cast loses nothing. */
  lemma CastIsExact(e: Entry, now: nat)
    requires Fresh(e, now) && e.ttl < 0x1_0000_0000 * SECOND
    ensures RemainingSecs(e, now) == (e.ttl - Age(e, now)) / SECOND
    ensures RemainingSecs(e, now) * SECOND + Age(e, now) <= e.ttl
  {
    var left := e.ttl - Age(e, now);
    assert left / SECOND * SECOND <= left;
    assert left / SECOND < 0x1_0000_0000;
  }

  predicate WithinOwnTtls(served: Message, m: Message, age: nat) {
    && |AllRecords(served)| == |AllRecords(m)|
    && forall i :: 0 <= i < |AllRecords(m)| ==>
         AllRecords(served)[i].ttl * SECOND + age <= AllRecords(m)[i].ttl * SECOND
  }

  /** The least TTL of a response, as a duration. */
  function OwnLife(m: Message): nat
    requires AllRecords(m) != []
  {
    LeastTtl(AllRecords(m)) * SECOND
  }

  /** The configured bounds lift the life of the response above its least TTL. */
  predicate Raises(cfg: CacheConfig, m: Message)
    requires AllRecords(m) != []
  {
    && cfg.minTtl.Some? && cfg.minTtl.value > OwnLife(m)
    && (cfg.maxTtl.Some? ==> cfg.maxTtl.value > OwnLife(m))
  }

  /** By so little that no whole second is ever served: a least TTL of 0 raised to a nanosecond. */
  predicate RaisesByNothing(cfg: CacheConfig, m: Message)
    requires AllRecords(m) != []
  {
    OwnLife(m) == 0 && Life(cfg, m) == 1
  }

  lemma LeastFits(m: Message)
    requires AllRecords(m) != []
    ensures LeastTtl(AllRecords(m)) < 0x1_0000_0000
  {
    assert AllRecords(m)[0].ttl < 0x1_0000_0000;
  }

  lemma ServedWithinOwnTtls(cfg: CacheConfig, m: Message, t0: nat, now: nat)
    requires AllRecords(m) != [] && t0 <= now && Fresh(Entry(m, t0, Life(cfg, m)), now)
    requires !Raises(cfg, m) || RaisesByNothing(cfg, m)
    ensures WithinOwnTtls(Served(Entry(m, t0, Life(cfg, m)), now).value, m, now - t0)
  {
    var e := Entry(m, t0, Life(cfg, m));
    LeastFits(m);
    CastIsExact(e, now);
    SectionsKeepOrder(m, RemainingSecs(e, now));
    assert RemainingSecs(e, now) * SECOND + (now - t0) <= OwnLife(m);
  }

  /** The age at which a raised life shows. */
  function LateAge(cfg: CacheConfig, m: Message): nat
    requires AllRecords(m) != [] && Raises(cfg, m)
  {
    if Life(cfg, m) > OwnLife(m) + 1 then OwnLife(m) + 1
    else if OwnLife(m) > 0 then OwnLife(m) + 1 - SECOND
    else 0
  }

  lemma LateIsPast(cfg: CacheConfig, m: Message, t0: nat)
    requires AllRecords(m) != [] && Raises(cfg, m) && !RaisesByNothing(cfg, m)
    ensures var e := Entry(m, t0, Life(cfg, m));
            var now := t0 + LateAge(cfg, m);
            Fresh(e, now) && RemainingSecs(e, now) * SECOND + LateAge(cfg, m) > OwnLife(m)
  {
    var e := Entry(m, t0, Life(cfg, m));
    var now := t0 + LateAge(cfg, m);
    if Life(cfg, m) == OwnLife(m) + 1 {
      assert e.ttl - Age(e, now) == SECOND;
    }
  }

  lemma LateIsNotWithin(cfg: CacheConfig, m: Message, t0: nat)
    requires AllRecords(m) != [] && Raises(cfg, m) && !RaisesByNothing(cfg, m)
    ensures Fresh(Entry(m, t0, Life(cfg, m)), t0 + LateAge(cfg, m))
    ensures !WithinOwnTtls(Served(Entry(m, t0, Life(cfg, m)), t0 + LateAge(cfg, m)).value, m, LateAge(cfg, m))
  {
    LateIsPast(cfg, m, t0);
    SectionsKeepOrder(m, RemainingSecs(Entry(m, t0, Life(cfg, m)), t0 + LateAge(cfg, m)));
    var i :| 0 <= i < |AllRecords(m)| && AllRecords(m)[i].ttl == LeastTtl(AllRecords(m));
    assert AllRecords(m)[i].ttl * SECOND == OwnLife(m);
  }

  lemma GetIsServed(cfg: CacheConfig, ops: seq<Op>, query: Message, now: nat)
    requires IsHistory(cfg, ops) && Clock(ops) <= now && KeyOf(query).Some?
    requires Get(Run(cfg, ops), query, now).1.Some?
    ensures Live(ops, KeyOf(query).value).Some?
    ensures var d := Live(ops, KeyOf(query).value).value;
            && AllRecords(d.message) != [] && d.at <= now
            && Fresh(Entry(d.message, d.at, Life(cfg, d.message)), now)
            && Get(Run(cfg, ops), query, now).1 == Served(Entry(d.message, d.at, Life(cfg, d.message)), now)
  {
    HistoryTracked(cfg, ops, KeyOf(query).value);
  }

  /** In this history, a lookup that finds `m` serves no record above its own TTL less its age. */
  ghost predicate ServesInTime(cfg: CacheConfig, ops: seq<Op>, query: Message, m: Message, now: nat)
    requires KeyOf(query).Some?
  {
    IsHistory(cfg, ops) && Clock(ops) <= now && Get(Run(cfg, ops), query, now).1.Some? ==>
      Live(ops, KeyOf(query).value).Some? &&
      var d := Live(ops, KeyOf(query).value).value;
      d.message == m ==>
        d.at <= now && WithinOwnTtls(Get(Run(cfg, ops), query, now).1.value, m, now - d.at)
  }

  lemma ServedInTime(cfg: CacheConfig, ops: seq<Op>, query: Message, m: Message, now: nat)
    requires KeyOf(query).Some? && AllRecords(m) != [] && (!Raises(cfg, m) || RaisesByNothing(cfg, m))
    ensures ServesInTime(cfg, ops, query, m, now)
  {
    if IsHistory(cfg, ops) && Clock(ops) <= now && Get(Run(cfg, ops), query, now).1.Some? {
      GetIsServed(cfg, ops, query, now);
      var d := Live(ops, KeyOf(query).value).value;
      if d.message == m { ServedWithinOwnTtls(cfg, m, d.at, now); }
    }
  }

  lemma OneInsert(cfg: CacheConfig, query: Message, m: Message)
    requires KeyOf(query).Some? && AllRecords(m) != []
    ensures var ops := [DoInsert(query, m, 0, None)];
            && IsHistory(cfg, ops) && Clock(ops) == 0
            && Live(ops, KeyOf(query).value) == Some(Deposit(m, 0))
            && Run(cfg, ops).entries == map[KeyOf(query).value := Entry(m, 0, Life(cfg, m))]
  {
    var op := DoInsert(query, m, 0, None);
    var none: seq<Op> := [];
    assert [op][..|[op]| - 1] == none && [op][|[op]| - 1] == op;
    assert IsHistory(cfg, none) && Run(cfg, none) == EMPTY && Clock(none) == 0;
    assert VictimOk(cfg, EMPTY, query, m, None);
    assert IsHistory(cfg, [op]);
    assert Run(cfg, [op]) == Step(cfg, EMPTY, op);
  }

  lemma ServedLate(cfg: CacheConfig, query: Message, m: Message)
    requires KeyOf(query).Some? && AllRecords(m) != [] && Raises(cfg, m) && !RaisesByNothing(cfg, m)
    ensures !ServesInTime(cfg, [DoInsert(query, m, 0, None)], query, m, LateAge(cfg, m))
  {
    OneInsert(cfg, query, m);
    LateIsNotWithin(cfg, m, 0);
  }

  /**
   * Exactly when nothing is served above its own TTL less its age (section 3.2.1 of RFC 1035):
   * a response is safe in every history, at every lookup, if and only if the configured bounds
   * do not lift its life above its least TTL, or lift it from zero to one nanosecond.
   */
  lemma ServedInTimeIff(cfg: CacheConfig, query: Message, m: Message)
    requires KeyOf(query).Some? && AllRecords(m) != []
    ensures (forall ops, now :: ServesInTime(cfg, ops, query, m, now)) <==>
            (!Raises(cfg, m) || RaisesByNothing(cfg, m))
  {
    if !Raises(cfg, m) || RaisesByNothing(cfg, m) {
      forall ops, now ensures ServesInTime(cfg, ops, query, m, now) { ServedInTime(cfg, ops, query, m, now); }
    } else {
      ServedLate(cfg, query, m);
    }
  }

  /** So without a configured minimum no record of any section ever is. */
  lemma NeverAboveOwnTtl(cfg: CacheConfig, ops: seq<Op>, query: Message, now: nat)
    requires IsHistory(cfg, ops) && Clock(ops) <= now && KeyOf(query).Some? && cfg.minTtl.None?
    requires Get(Run(cfg, ops), query, now).1.Some?
    ensures var live := Live(ops, KeyOf(query).value);
            && live.Some? && live.value.at <= now
            && WithinOwnTtls(Get(Run(cfg, ops), query, now).1.value, live.value.message, now - live.value.at)
  {
    GetIsServed(cfg, ops, query, now);
    var d := Live(ops, KeyOf(query).value).value;
    ServedWithinOwnTtls(cfg, d.message, d.at, now);
  }

  lemma SectionsKeepOrder(m: Message, ttl: u32)
    ensures AllRecords(WithTtl(m, ttl)) == SetTtls(AllRecords(m), ttl)
  {
  }

  /**
   * A stored response is served at an age some record of it does not reach if and only if a
   * minimum is set above the least TTL of its records, and no maximum is set at or below it.
   */
  lemma ServedPastOwnTtlIff(cfg: CacheConfig, m: Message, t0: nat)
    requires AllRecords(m) != []
    ensures (exists now :: t0 <= now && Fresh(Entry(m, t0, Life(cfg, m)), now) &&
                           now - t0 >= LeastTtl(AllRecords(m)) * SECOND) <==>
            (&& cfg.minTtl.Some? && cfg.minTtl.value > LeastTtl(AllRecords(m)) * SECOND
             && (cfg.maxTtl.Some? ==> cfg.maxTtl.value > LeastTtl(AllRecords(m)) * SECOND))
  {
    var own := LeastTtl(AllRecords(m)) * SECOND;
    if own < Life(cfg, m) {
      assert Fresh(Entry(m, t0, Life(cfg, m)), t0 + own);
    }
  }

  // ---- conservation ----

  /** What became of stored entries: keys newly stored, removed as expired, and flushed. */
  datatype Ledger = Ledger(stored: nat, expired: nat, flushed: nat)

  function Account(cfg: CacheConfig, ops: seq<Op>): Ledger
    requires IsHistory(cfg, ops)
    decreases |ops|
  {
    if ops == [] then Ledger(0, 0, 0)
    else
      var st := Run(cfg, ops[..|ops| - 1]);
      var l := Account(cfg, ops[..|ops| - 1]);
      match ops[|ops| - 1]
      case DoGet(q, now) =>
        if KeyOf(q).Some? && KeyOf(q).value in st.entries && !Fresh(st.entries[KeyOf(q).value], now)
        then l.(expired := l.expired + 1) else l
      case DoInsert(q, r, _, victim) =>
        if Stores(q, r) && KeyOf(q).value !in Evicted(st, victim).entries
        then l.(stored := l.stored + 1) else l
      case DoFlush(_) => l.(flushed := l.flushed + |st.entries|)
  }

  function Max(a: nat, b: nat): nat { if a < b then b else a }

  ghost predicate Balanced(cfg: CacheConfig, st: Store, l: Ledger) {
    && |st.entries| <= Max(1, cfg.capacity)
    && st.gauge == |st.entries|
    && l.stored == |st.entries| + st.evictions + l.expired + l.flushed
  }

  lemma InsertBalanced(cfg: CacheConfig, st: Store, l: Ledger, query: Message, response: Message, now: nat,
                       victim: Option<CacheKey>)
    requires Balanced(cfg, st, l) && VictimOk(cfg, st, query, response, victim) && Stores(query, response)
    ensures var isNew := KeyOf(query).value !in Evicted(st, victim).entries;
            Balanced(cfg, Insert(cfg, st, query, response, now, victim),
                     if isNew then l.(stored := l.stored + 1) else l)
  {
    var st1 := Evicted(st, victim);
    assert |st1.entries| == |st.entries| - (if victim.Some? then 1 else 0) by {
      if victim.Some? { assert st1.entries.Keys == st.entries.Keys - {victim.value}; }
    }
    var k := KeyOf(query).value;
    var e := Entry(response, now, Life(cfg, response));
    assert st1.entries[k := e].Keys == st1.entries.Keys + {k};
  }

  lemma GetBalanced(cfg: CacheConfig, st: Store, l: Ledger, k: CacheKey)
    requires Balanced(cfg, st, l) && k in st.entries
    ensures Balanced(cfg, Sync(st.entries - {k}, st.evictions), l.(expired := l.expired + 1))
  {
    assert (st.entries - {k}).Keys == st.entries.Keys - {k};
  }

  /**
   * After every call of every history the map holds at most max(1, capacity) entries, the
   * gauge reads its size, and every newly stored key is still there, was evicted, expired on
   * a lookup, or was flushed.
   */
  lemma {:induction false} Conservation(cfg: CacheConfig, ops: seq<Op>)
    requires IsHistory(cfg, ops)
    ensures Balanced(cfg, Run(cfg, ops), Account(cfg, ops))
  {
    if ops == [] {
    } else {
      var st, l := Run(cfg, ops[..|ops| - 1]), Account(cfg, ops[..|ops| - 1]);
      Conservation(cfg, ops[..|ops| - 1]);
      match ops[|ops| - 1]
      case DoGet(q, now) =>
        if KeyOf(q).Some? && KeyOf(q).value in st.entries { GetBalanced(cfg, st, l, KeyOf(q).value); }
      case DoInsert(q, r, now, victim) =>
        if Stores(q, r) { InsertBalanced(cfg, st, l, q, r, now, victim); }
      case DoFlush(_) =>
    }
  }

  /** Storing again under a key already present evicts first when the cache is full, so it can shrink it. */
  lemma OverwriteMayShrink(cfg: CacheConfig, st: Store, query: Message, response: Message, now: nat, victim: CacheKey)
    requires Stores(query, response) && |st.entries| >= cfg.capacity
    requires KeyOf(query).value in st.entries && victim in st.entries
    ensures |Insert(cfg, st, query, response, now, Some(victim)).entries| ==
            |st.entries| - (if victim == KeyOf(query).value then 0 else 1)
  {
    var k := KeyOf(query).value;
    var rest := st.entries - {victim};
    assert rest.Keys == st.entries.Keys - {victim};
    assert rest[k := Entry(response, now, Life(cfg, response))].Keys == rest.Keys + {k};
  }

  // ---- when something is evicted ----

  /** Below capacity, or into an empty cache, a store evicts nothing and leaves every other entry as it was. */
  lemma RoomKeepsAll(cfg: CacheConfig, st: Store, query: Message, response: Message, now: nat, victim: Option<CacheKey>)
    requires KeyOf(query).Some? && AllRecords(response) != []
    requires VictimOk(cfg, st, query, response, victim)
    requires |st.entries| < cfg.capacity || st.entries == map[]
    ensures var st' := Insert(cfg, st, query, response, now, victim);
            && victim.None? && st'.evictions == st.evictions
            && st'.entries == st.entries[KeyOf(query).value := Entry(response, now, Life(cfg, response))]
  {
  }

  /** At or above capacity it evicts exactly one, an entry of its own choice, and leaves every other as it was. */
  lemma FullEvictsOne(cfg: CacheConfig, st: Store, query: Message, response: Message, now: nat,
                      victim: Option<CacheKey>)
    requires KeyOf(query).Some? && AllRecords(response) != []
    requires VictimOk(cfg, st, query, response, victim)
    requires |st.entries| >= cfg.capacity && st.entries != map[]
    ensures var st' := Insert(cfg, st, query, response, now, victim);
            && victim.Some? && victim.value in st.entries && st'.evictions == st.evictions + 1
            && st'.entries ==
               (st.entries - {victim.value})[KeyOf(query).value := Entry(response, now, Life(cfg, response))]
  {
  }

  /** A response that cannot be stored changes nothing. */
  lemma UnstorableKeepsAll(cfg: CacheConfig, st: Store, query: Message, response: Message, now: nat,
                           victim: Option<CacheKey>)
    requires KeyOf(query).None? || AllRecords(response) == []
    requires VictimOk(cfg, st, query, response, victim)
    ensures victim.None? && Insert(cfg, st, query, response, now, victim) == st
  {
  }

  predicate IsStore(op: Op) {
    op.DoInsert? && op.query.questions != [] && AllRecords(op.response) != []
  }

  /** The distinct keys ever stored in a history. */
  function KeysStored(ops: seq<Op>): set<CacheKey> {
    if ops == [] then {}
    else
      var before, op := KeysStored(ops[..|ops| - 1]), ops[|ops| - 1];
      if IsStore(op) then before + {KeyOf(op.query).value} else before
  }

  /** Every store came while fewer distinct keys than the capacity had ever been stored, or none had. */
  predicate Roomy(cfg: CacheConfig, ops: seq<Op>) {
    forall i :: 0 <= i < |ops| && IsStore(ops[i]) ==>
      |KeysStored(ops[..i])| < cfg.capacity || KeysStored(ops[..i]) == {}
  }

  lemma RoomyBefore(cfg: CacheConfig, ops: seq<Op>)
    requires ops != [] && Roomy(cfg, ops)
    ensures Roomy(cfg, ops[..|ops| - 1])
  {
    var before := ops[..|ops| - 1];
    forall i | 0 <= i < |before| && IsStore(before[i])
      ensures |KeysStored(before[..i])| < cfg.capacity || KeysStored(before[..i]) == {}
    {
      assert before[..i] == ops[..i] && before[i] == ops[i];
    }
  }

  lemma StepKeys(cfg: CacheConfig, st: Store, op: Op)
    requires op.DoInsert? ==> VictimOk(cfg, st, op.query, op.response, op.victim)
    ensures Step(cfg, st, op).entries.Keys <= st.entries.Keys + if IsStore(op) then {KeyOf(op.query).value} else {}
  {
  }

  lemma {:induction false} EntriesWereStored(cfg: CacheConfig, ops: seq<Op>)
    requires IsHistory(cfg, ops)
    ensures Run(cfg, ops).entries.Keys <= KeysStored(ops)
  {
    if ops != [] {
      EntriesWereStored(cfg, ops[..|ops| - 1]);
      StepKeys(cfg, Run(cfg, ops[..|ops| - 1]), ops[|ops| - 1]);
    }
  }

  lemma SmallerSet<T>(a: set<T>, b: set<T>)
    requires a <= b
    ensures |a| <= |b|
  {
    assert b == a + (b - a);
  }

  lemma RoomyStep(cfg: CacheConfig, st: Store, keys: set<CacheKey>, op: Op)
    requires op.DoInsert? ==> VictimOk(cfg, st, op.query, op.response, op.victim)
    requires st.entries.Keys <= keys && (IsStore(op) ==> |keys| < cfg.capacity || keys == {})
    ensures Step(cfg, st, op).evictions == st.evictions && (op.DoInsert? ==> op.victim.None?)
  {
    SmallerSet(st.entries.Keys, keys);
    assert |st.entries| == |st.entries.Keys|;
  }

  /** Then nothing was ever evicted. */
  lemma {:induction false} RoomyEvictsNothing(cfg: CacheConfig, ops: seq<Op>)
    requires IsHistory(cfg, ops) && Roomy(cfg, ops)
    ensures Run(cfg, ops).evictions == 0
    ensures forall i :: 0 <= i < |ops| && ops[i].DoInsert? ==> ops[i].victim.None?
  {
    if ops != [] {
      var before := ops[..|ops| - 1];
      RoomyBefore(cfg, ops);
      RoomyEvictsNothing(cfg, before);
      EntriesWereStored(cfg, before);
      RoomyStep(cfg, Run(cfg, before), KeysStored(before), ops[|ops| - 1]);
      assert forall i :: 0 <= i < |before| ==> ops[i] == before[i];
    }
  }

  /**
   * So in such a history a response is served until its life is over: unless the same query was
   * stored again or the cache flushed, every lookup finds it.
   */
  lemma RoomyServes(cfg: CacheConfig, ops: seq<Op>, query: Message, i: nat, now: nat)
    requires IsHistory(cfg, ops) && Roomy(cfg, ops) && Clock(ops) <= now && query.questions != []
    requires i < |ops| && StoresFor(ops[i], query)
    requires forall j :: i < j < |ops| ==> !StoresFor(ops[j], query) && !ops[j].DoFlush?
    requires ops[i].at <= now && now - ops[i].at < Life(cfg, ops[i].response)
    ensures Get(Run(cfg, ops), query, now).1 == ServedFrom(cfg, Deposit(ops[i].response, ops[i].at), now)
    ensures Get(Run(cfg, ops), query, now).1.Some?
  {
    RoomyEvictsNothing(cfg, ops);
    CurrentIsFound(cfg, ops, query, now, i);
  }

  lemma {:induction false} StillLive(ops: seq<Op>, query: Message, i: nat)
    requires KeyOf(query).Some? && i < |ops| && StoresFor(ops[i], query)
    requires forall j :: i < j < |ops| ==> !StoresFor(ops[j], query) && !TakesAway(ops[j], query)
    ensures Live(ops, KeyOf(query).value) == Some(Deposit(ops[i].response, ops[i].at))
  {
    var op, before := ops[|ops| - 1], ops[..|ops| - 1];
    assert ops == before + [op];
    if op.DoInsert? { StoresForIff(op, query); }
    if i < |ops| - 1 { StillLive(before, query, i); }
  }

  // ---- the condition is exact ----

  predicate OnlyStores(ops: seq<Op>) {
    forall i :: 0 <= i < |ops| ==> ops[i].DoInsert?
  }

  lemma {:induction false} UnevictedKeys(cfg: CacheConfig, ops: seq<Op>)
    requires IsHistory(cfg, ops) && OnlyStores(ops) && Run(cfg, ops).evictions == 0
    ensures Run(cfg, ops).entries.Keys == KeysStored(ops)
    ensures forall i :: 0 <= i < |ops| ==> ops[i].victim.None?
  {
    if ops != [] {
      var before, op := ops[..|ops| - 1], ops[|ops| - 1];
      EvictionsGrow(cfg, before);
      UnevictedKeys(cfg, before);
      assert op.victim.None?;
      assert forall i :: 0 <= i < |before| ==> ops[i] == before[i];
    }
  }

  lemma {:induction false} EvictionsGrow(cfg: CacheConfig, ops: seq<Op>)
    requires IsHistory(cfg, ops)
    ensures Run(cfg, ops).evictions >= 0
  {
    if ops != [] { EvictionsGrow(cfg, ops[..|ops| - 1]); }
  }

  lemma UnevictedIsRoomy(cfg: CacheConfig, ops: seq<Op>, i: nat)
    requires IsHistory(cfg, ops) && OnlyStores(ops) && i < |ops| && IsStore(ops[i])
    requires forall j :: 0 <= j < |ops| ==> ops[j].victim.None?
    ensures |KeysStored(ops[..i])| < cfg.capacity || KeysStored(ops[..i]) == {}
  {
    HistoryPrefix(cfg, ops, i + 1);
    var upTo := ops[..i + 1];
    assert upTo[..|upTo| - 1] == ops[..i] && upTo[|upTo| - 1] == ops[i];
    NoVictimsNoEvictions(cfg, ops[..i]);
    UnevictedKeys(cfg, ops[..i]);
    assert |Run(cfg, ops[..i]).entries| == |Run(cfg, ops[..i]).entries.Keys|;
  }

  lemma {:induction false} HistoryPrefix(cfg: CacheConfig, ops: seq<Op>, n: nat)
    requires IsHistory(cfg, ops) && n <= |ops|
    ensures IsHistory(cfg, ops[..n])
  {
    if n < |ops| {
      HistoryPrefix(cfg, ops[..|ops| - 1], n);
      assert ops[..|ops| - 1][..n] == ops[..n];
    } else {
      assert ops[..n] == ops;
    }
  }

  lemma {:induction false} NoVictimsNoEvictions(cfg: CacheConfig, ops: seq<Op>)
    requires IsHistory(cfg, ops) && forall j :: 0 <= j < |ops| && ops[j].DoInsert? ==> ops[j].victim.None?
    ensures Run(cfg, ops).evictions == 0
  {
    if ops != [] { NoVictimsNoEvictions(cfg, ops[..|ops| - 1]); }
  }

  /** A history of stores alone evicts nothing if and only if each store found room among the keys stored before it. */
  lemma EvictsNothingIff(cfg: CacheConfig, ops: seq<Op>)
    requires IsHistory(cfg, ops) && OnlyStores(ops)
    ensures Run(cfg, ops).evictions == 0 <==> Roomy(cfg, ops)
  {
    if Run(cfg, ops).evictions == 0 {
      UnevictedKeys(cfg, ops);
      forall i | 0 <= i < |ops| && IsStore(ops[i])
        ensures |KeysStored(ops[..i])| < cfg.capacity || KeysStored(ops[..i]) == {}
      {
        UnevictedIsRoomy(cfg, ops, i);
      }
    } else if Roomy(cfg, ops) {
      RoomyEvictsNothing(cfg, ops);
    }
  }

  /** Fewer keys than the capacity, over the whole history, are always room enough. */
  lemma {:induction false} FewKeysAreRoomy(cfg: CacheConfig, ops: seq<Op>)
    requires |KeysStored(ops)| < cfg.capacity
    ensures Roomy(cfg, ops)
  {
    forall i | 0 <= i < |ops| && IsStore(ops[i]) ensures |KeysStored(ops[..i])| < cfg.capacity {
      KeysGrow(ops, i);
      SmallerSet(KeysStored(ops[..i]), KeysStored(ops));
    }
  }

  lemma {:induction false} KeysGrow(ops: seq<Op>, n: nat)
    requires n <= |ops|
    ensures KeysStored(ops[..n]) <= KeysStored(ops)
  {
    if n < |ops| {
      KeysGrow(ops[..|ops| - 1], n);
      assert ops[..|ops| - 1][..n] == ops[..n];
    } else {
      assert ops[..n] == ops;
    }
  }

  lemma HistoryPush(cfg: CacheConfig, before: seq<Op>, op: Op)
    requires IsHistory(cfg, before) && Clock(before) <= op.at
    requires op.DoInsert? ==> VictimOk(cfg, Run(cfg, before), op.query, op.response, op.victim)
    ensures IsHistory(cfg, before + [op]) && Clock(before + [op]) == op.at
    ensures Run(cfg, before + [op]) == Step(cfg, Run(cfg, before), op)
    ensures KeysStored(before + [op]) == KeysStored(before) + if IsStore(op) then {KeyOf(op.query).value} else {}
  {
    var ops := before + [op];
    assert ops[..|ops| - 1] == before && ops[|ops| - 1] == op;
  }

  lemma TwoStored(cfg: CacheConfig, a: Message, b: Message, r: Message) returns (ops: seq<Op>)
    requires cfg.capacity == 2 && a.questions != [] && b.questions != [] && KeyOf(a) != KeyOf(b) && AllRecords(r) != []
    ensures ops == [DoInsert(a, r, 0, None), DoInsert(b, r, 0, None)] && IsHistory(cfg, ops) && Clock(ops) == 0
    ensures Run(cfg, ops).entries.Keys == KeysStored(ops) == {KeyOf(a).value, KeyOf(b).value}
  {
    var none: seq<Op> := [];
    var op1, op2 := DoInsert(a, r, 0, None), DoInsert(b, r, 0, None);
    HistoryPush(cfg, none, op1);
    OneEntry(cfg, none + [op1], KeyOf(a).value);
    HistoryPush(cfg, none + [op1], op2);
    ops := none + [op1] + [op2];
  }

  /**
   * As many keys as the capacity are not: storing again under one of them evicts another. Here
   * two keys are ever stored in a cache for two, and one of them is gone at once.
   */
  lemma AtCapacityExample(cfg: CacheConfig, a: Message, b: Message, r: Message) returns (ops: seq<Op>)
    requires cfg.capacity == 2 && a.questions != [] && b.questions != [] && KeyOf(a) != KeyOf(b) && AllRecords(r) != []
    ensures IsHistory(cfg, ops) && Clock(ops) == 0 && |KeysStored(ops)| == 2
    ensures ops == [DoInsert(a, r, 0, None), DoInsert(b, r, 0, None), DoInsert(b, r, 0, KeyOf(a))]
    ensures Get(Run(cfg, ops), a, 0).1 == None
  {
    var two := TwoStored(cfg, a, b, r);
    var op3 := DoInsert(b, r, 0, KeyOf(a));
    assert |Run(cfg, two).entries| == |Run(cfg, two).entries.Keys|;
    HistoryPush(cfg, two, op3);
    ops := two + [op3];
    assert Run(cfg, ops).entries.Keys == {KeyOf(b).value};
  }

  lemma OneEntry(cfg: CacheConfig, ops: seq<Op>, k: CacheKey)
    requires IsHistory(cfg, ops) && Run(cfg, ops).entries.Keys == {k}
    ensures |Run(cfg, ops).entries| == 1
  {
    assert |Run(cfg, ops).entries| == |Run(cfg, ops).entries.Keys|;
  }
}
