/** The cache as the running object: a map changed in place under a lock, and the shared metrics. */
module CacheObject {
  import opened Wrappers
  import opened Messages
  import opened Metrics
  import opened TtlCache

  const U64_MAX: nat := 0xFFFF_FFFF_FFFF_FFFF

  /** Overwrites the TTL of every record, one after the other. */
  method OverwriteTtls(records: seq<Record>, ttl: u32) returns (out: seq<Record>)
    ensures out == SetTtls(records, ttl)
  {
    out := records;
    for i := 0 to |records|
      invariant |out| == |records|
      invariant forall j :: 0 <= j < i ==> out[j] == records[j].(ttl := ttl)
      invariant forall j :: i <= j < |records| ==> out[j] == records[j]
    {
      out := out[i := out[i].(ttl := ttl)];
    }
  }

  /** The least TTL among `records`, or `least` if that is lower; and whether any record was seen. */
  method LowerTo(records: seq<Record>, least: nat, seen: bool) returns (least': nat, seen': bool)
    ensures seen' == (seen || records != [])
    ensures least' <= least && forall i :: 0 <= i < |records| ==> least' <= records[i].ttl
    ensures least' == least || exists i :: 0 <= i < |records| && records[i].ttl == least'
  {
    least', seen' := least, seen;
    for i := 0 to |records|
      invariant seen' == (seen || i > 0)
      invariant least' <= least && forall j :: 0 <= j < i ==> least' <= records[j].ttl
      invariant least' == least || exists j :: 0 <= j < i && records[j].ttl == least'
    {
      seen' := true;
      if records[i].ttl < least' { least' := records[i].ttl; }
    }
  }

  lemma LeastTtlIs(rs: seq<Record>, n: nat)
    requires rs != [] && forall i :: 0 <= i < |rs| ==> n <= rs[i].ttl
    requires exists i :: 0 <= i < |rs| && rs[i].ttl == n
    ensures LeastTtl(rs) == n
  {
  }

  method LeastRecordTtl(m: Message) returns (least: nat, seen: bool)
    ensures seen <==> AllRecords(m) != []
    ensures seen ==> least == LeastTtl(AllRecords(m))
  {
    var n1, s1 := LowerTo(m.answers, U64_MAX, false);
    var n2, s2 := LowerTo(m.nameServers, n1, s1);
    least, seen := LowerTo(m.additionals, n2, s2);
    ghost var rs := AllRecords(m);
    if seen {
      assert rs[0].ttl < U64_MAX;
      assert forall i :: 0 <= i < |rs| ==> least <= rs[i].ttl;
      ghost var a, b := |m.answers|, |m.answers| + |m.nameServers|;
      assert exists i :: 0 <= i < |rs| && rs[i].ttl == least by {
        if i :| 0 <= i < |m.additionals| && m.additionals[i].ttl == least {
          assert rs[b + i].ttl == least;
        } else if i :| 0 <= i < |m.nameServers| && m.nameServers[i].ttl == least {
          assert rs[a + i].ttl == least;
        } else if i :| 0 <= i < |m.answers| && m.answers[i].ttl == least {
          assert rs[i].ttl == least;
        }
      }
      LeastTtlIs(rs, least);
    }
  }

  class Cache {
    const config: CacheConfig
    const metrics: MetricsRecorder
    var entries: map<CacheKey, Entry>

    function Model(): Store
      reads this, metrics
    {
      Store(entries, metrics.cacheEntries, metrics.cacheEvictions)
    }

    constructor (config: CacheConfig, metrics: MetricsRecorder)
      modifies metrics
      ensures this.config == config && this.metrics == metrics
      ensures Model() == EMPTY.(evictions := old(metrics.cacheEvictions))
      ensures metrics.Snapshot() == old(metrics.Snapshot()).(cacheEntries := 0)
    {
      this.config := config;
      this.metrics := metrics;
      entries := map[];
      new;
      metrics.SetCacheEntries(0);
    }

    method UpdateMetric()
      modifies metrics
      ensures metrics.Snapshot() == old(metrics.Snapshot()).(cacheEntries := |entries|)
    {
      metrics.SetCacheEntries(|entries|);
    }

    method Get(query: Message, now: nat) returns (response: Option<Message>)
      modifies this, metrics
      ensures (Model(), response) == TtlCache.Get(old(Model()), query, now)
      ensures metrics.Snapshot() == old(metrics.Snapshot()).(cacheEntries := metrics.cacheEntries)
    {
      var key := KeyOf(query);
      if key.None? || key.value !in entries { return None; }
      var entry := entries[key.value];
      var elapsed := Age(entry, now);
      if elapsed >= entry.ttl {
        entries := entries - {key.value};
        UpdateMetric();
        return None;
      }
      var remaining := (entry.ttl - elapsed) / SECOND % 0x1_0000_0000;
      var answers := OverwriteTtls(entry.message.answers, remaining);
      var nameServers := OverwriteTtls(entry.message.nameServers, remaining);
      var additionals := OverwriteTtls(entry.message.additionals, remaining);
      response := Some(entry.message.(answers := answers, nameServers := nameServers, additionals := additionals));
    }

    /** `victim` reports which entry, if any, was dropped to make room. */
    method Insert(query: Message, response: Message, now: nat) returns (ghost victim: Option<CacheKey>)
      modifies this, metrics
      ensures VictimOk(config, old(Model()), query, response, victim)
      ensures Model() == TtlCache.Insert(config, old(Model()), query, response, now, victim)
      ensures metrics.Snapshot() == old(metrics.Snapshot()).(cacheEntries := metrics.cacheEntries,
                                                             cacheEvictions := metrics.cacheEvictions)
    {
      victim := None;
      var key := KeyOf(query);
      if key.None? { return; }
      var leastSecs, hasRecords := LeastRecordTtl(response);
      if !hasRecords { return; }

      var ttl := leastSecs * SECOND;
      if config.minTtl.Some? && ttl < config.minTtl.value { ttl := config.minTtl.value; }
      if config.maxTtl.Some? && ttl > config.maxTtl.value { ttl := config.maxTtl.value; }

      if |entries| >= config.capacity && entries != map[] {
        var k :| k in entries;
        victim := Some(k);
        entries := entries - {k};
        metrics.RecordCacheEviction();
      }
      entries := entries[key.value := Entry(response, now, ttl)];
      UpdateMetric();
    }

    method Flush()
      modifies this, metrics
      ensures Model() == TtlCache.Flush(old(Model()))
      ensures metrics.Snapshot() == old(metrics.Snapshot()).(cacheEntries := 0)
    {
      entries := map[];
      UpdateMetric();
    }
  }
}
