/** Failover over a pool of upstreams, with its health, metrics and per-upstream statistics. */
module PoolSpec {
  import opened Wrappers
  import opened Messages
  import opened UpstreamHealth

  datatype UpstreamStats = UpstreamStats(
    successes: nat, failures: nat, timeouts: nat, totalLatency: nat, lastLatency: Option<nat>)

  const NO_STATS := UpstreamStats(0, 0, 0, 0, None)

  type StatsMap = map<string, UpstreamStats>

  /** What one upstream does with a query: its answer, when it came and how long it took. */
  datatype Attempt = Attempt(answer: Answer, at: nat, latency: nat)

  datatype Pool = Pool(health: seq<HealthState>, failures: int, successes: int, timeouts: int, stats: StatsMap)

  function SuccessStat(stats: StatsMap, name: string, latency: nat): StatsMap {
    if name !in stats then stats
    else
      var u := stats[name];
      stats[name := u.(successes := u.successes + 1, totalLatency := u.totalLatency + latency,
                       lastLatency := Some(latency))]
  }

  function FailureStat(stats: StatsMap, name: string): StatsMap {
    if name !in stats then stats else stats[name := stats[name].(failures := stats[name].failures + 1)]
  }

  function TimeoutStat(stats: StatsMap, name: string): StatsMap {
    if name !in stats then stats else stats[name := stats[name].(timeouts := stats[name].timeouts + 1)]
  }

  function HealthAfter(h: HealthState, a: Attempt): HealthState {
    if a.answer.Ok? then HEALTHY else Fail(h, a.at)
  }

  predicate IsTimeout(a: Attempt) {
    a.answer.Err? && a.answer.error.Timeout?
  }

  function AfterAttempt(names: seq<string>, p: Pool, idx: nat, a: Attempt): Pool
    requires idx < |names| == |p.health|
  {
    Pool(p.health[idx := HealthAfter(p.health[idx], a)],
         p.failures + if a.answer.Err? then 1 else 0,
         p.successes + if a.answer.Ok? then 1 else 0,
         p.timeouts + if IsTimeout(a) then 1 else 0,
         if a.answer.Ok? then SuccessStat(p.stats, names[idx], a.latency)
         else if IsTimeout(a) then TimeoutStat(p.stats, names[idx])
         else FailureStat(p.stats, names[idx]))
  }

  predicate OrderOk(names: seq<string>, order: seq<nat>) {
    forall i :: 0 <= i < |order| ==> order[i] < |names|
  }

  /** Tries the upstreams of `order` until one succeeds; `last` is the error so far. */
  function Failover(names: seq<string>, p: Pool, order: seq<nat>, script: seq<Attempt>, last: Option<UpstreamError>)
    : (Pool, Answer)
    requires |names| == |p.health| && OrderOk(names, order) && |order| <= |script|
    decreases |order|
  {
    if order == [] then (p, Err(if last.Some? then last.value else AllFailed))
    else
      var p' := AfterAttempt(names, p, order[0], script[0]);
      match script[0].answer
      case Ok(_) => (p', script[0].answer)
      case Err(e) => Failover(names, p', order[1..], script[1..], Some(e))
  }

  /** How many of `n` upstreams get tried: up to and including the first success. */
  function Tries(script: seq<Attempt>, n: nat): (k: nat)
    requires n <= |script|
    ensures k <= n
    ensures n > 0 ==> k > 0
    ensures forall i :: 0 <= i < k - 1 ==> script[i].answer.Err?
    ensures k < n ==> script[k - 1].answer.Ok?
  {
    if n == 0 then 0 else if script[0].answer.Ok? then 1 else 1 + Tries(script[1..], n - 1)
  }

  predicate Distinct(order: seq<nat>) {
    forall i, j :: 0 <= i < j < |order| ==> order[i] != order[j]
  }

  lemma FailoverTail(names: seq<string>, p: Pool, order: seq<nat>, script: seq<Attempt>, last: Option<UpstreamError>)
    requires |names| == |p.health| && OrderOk(names, order) && |order| <= |script|
    requires order != [] && script[0].answer.Err?
    ensures Failover(names, p, order, script, last)
            == Failover(names, AfterAttempt(names, p, order[0], script[0]), order[1..], script[1..],
                        Some(script[0].answer.error))
  {
  }

  lemma FailoverStops(names: seq<string>, p: Pool, order: seq<nat>, script: seq<Attempt>, last: Option<UpstreamError>)
    requires |names| == |p.health| && OrderOk(names, order) && |order| <= |script|
    requires order != [] && script[0].answer.Ok?
    ensures Failover(names, p, order, script, last)
            == (AfterAttempt(names, p, order[0], script[0]), script[0].answer)
  {
  }

  /** The answer is the first success, and an error only after every upstream was tried: then it is the last one. */
  lemma {:induction false} FailoverAnswer(names: seq<string>, p: Pool, order: seq<nat>, script: seq<Attempt>,
                                          last: Option<UpstreamError>)
    requires |names| == |p.health| && OrderOk(names, order) && |order| <= |script|
    ensures var k := Tries(script, |order|);
            var answer := Failover(names, p, order, script, last).1;
            && answer == (if k > 0 then script[k - 1].answer else Err(if last.Some? then last.value else AllFailed))
            && (answer.Err? ==> k == |order|)
    decreases |order|
  {
    if order != [] && script[0].answer.Err? {
      var p1 := AfterAttempt(names, p, order[0], script[0]);
      FailoverAnswer(names, p1, order[1..], script[1..], Some(script[0].answer.error));
      FailoverTail(names, p, order, script, last);
    }
  }

  /** What the first `k` attempts leave an upstream's health at. */
  ghost predicate HealthUpdated(p: Pool, p': Pool, order: seq<nat>, script: seq<Attempt>, k: nat)
    requires k <= |order| && k <= |script|
  {
    && |p'.health| == |p.health|
    && (forall i :: 0 <= i < k ==>
          order[i] < |p.health| && p'.health[order[i]] == HealthAfter(p.health[order[i]], script[i]))
    && (forall idx: nat :: idx < |p.health| && idx !in order[..k] ==> p'.health[idx] == p.health[idx])
  }

  lemma HealthOneMore(names: seq<string>, p: Pool, p': Pool, order: seq<nat>, script: seq<Attempt>, k: nat)
    requires |names| == |p.health| && OrderOk(names, order) && Distinct(order) && 0 < k <= |order| && k <= |script|
    requires HealthUpdated(AfterAttempt(names, p, order[0], script[0]), p', order[1..], script[1..], k - 1)
    ensures HealthUpdated(p, p', order, script, k)
  {
    var rest := order[1..];
    assert order[..k] == [order[0]] + rest[..k - 1];
    assert order[0] !in rest[..k - 1];
    forall i | 0 <= i < k
      ensures order[i] < |p.health| && p'.health[order[i]] == HealthAfter(p.health[order[i]], script[i])
    {
      if i > 0 { assert rest[i - 1] == order[i] && script[1..][i - 1] == script[i]; }
    }
  }

  /** Exactly the upstreams tried have their health updated, each once, by its own attempt. */
  lemma {:induction false} FailoverHealth(names: seq<string>, p: Pool, order: seq<nat>, script: seq<Attempt>,
                                          last: Option<UpstreamError>)
    requires |names| == |p.health| && OrderOk(names, order) && |order| <= |script| && Distinct(order)
    ensures HealthUpdated(p, Failover(names, p, order, script, last).0, order, script, Tries(script, |order|))
    decreases |order|
  {
    if order == [] {
    } else if script[0].answer.Ok? {
      assert order[..1] == [order[0]];
    } else {
      var p1 := AfterAttempt(names, p, order[0], script[0]);
      FailoverHealth(names, p1, order[1..], script[1..], Some(script[0].answer.error));
      FailoverTail(names, p, order, script, last);
      HealthOneMore(names, p, Failover(names, p, order, script, last).0, order, script, Tries(script, |order|));
    }
  }

  // ---- accounting over any run ----

  /** One recorded attempt of some query; a run interleaves the attempts of any number of queries. */
  datatype Entry = Entry(idx: nat, attempt: Attempt)

  predicate LogOk(names: seq<string>, log: seq<Entry>) {
    forall i :: 0 <= i < |log| ==> log[i].idx < |names|
  }

  function Account(names: seq<string>, p: Pool, log: seq<Entry>): (p': Pool)
    requires |names| == |p.health| && LogOk(names, log)
    ensures |p'.health| == |p.health|
    decreases |log|
  {
    if log == [] then p else Account(names, AfterAttempt(names, p, log[0].idx, log[0].attempt), log[1..])
  }

  function TriedLog(order: seq<nat>, script: seq<Attempt>, k: nat): (log: seq<Entry>)
    requires k <= |order| && k <= |script|
    ensures |log| == k
  {
    seq(k, i requires 0 <= i < k => Entry(order[i], script[i]))
  }

  /** A query's whole effect on the pool is that of the attempts it made. */
  lemma {:induction false} FailoverIsAccounted(names: seq<string>, p: Pool, order: seq<nat>, script: seq<Attempt>,
                                               last: Option<UpstreamError>)
    requires |names| == |p.health| && OrderOk(names, order) && |order| <= |script|
    ensures var log := TriedLog(order, script, Tries(script, |order|));
            LogOk(names, log) && Failover(names, p, order, script, last).0 == Account(names, p, log)
    decreases |order|
  {
    var k := Tries(script, |order|);
    var log := TriedLog(order, script, k);
    if order == [] {
    } else if script[0].answer.Ok? {
      assert log[1..] == [];
    } else {
      FailoverIsAccounted(names, AfterAttempt(names, p, order[0], script[0]), order[1..], script[1..],
                          Some(script[0].answer.error));
      assert log[1..] == TriedLog(order[1..], script[1..], k - 1);
      FailoverTail(names, p, order, script, last);
    }
  }

  datatype Kind = Succeeded | Failed | TimedOut

  function Count(stats: StatsMap, name: string, kind: Kind): nat {
    if name !in stats then 0
    else
      match kind
      case Succeeded => stats[name].successes
      case Failed => stats[name].failures
      case TimedOut => stats[name].timeouts
  }

  ghost function Sum(stats: StatsMap, names: set<string>, kind: Kind): nat {
    if names == {} then 0
    else
      var name :| name in names;
      Count(stats, name, kind) + Sum(stats, names - {name}, kind)
  }

  ghost function Total(stats: StatsMap, kind: Kind): nat {
    Sum(stats, stats.Keys, kind)
  }

  lemma {:induction false} SumPick(stats: StatsMap, names: set<string>, name: string, kind: Kind)
    requires name in names
    ensures Sum(stats, names, kind) == Count(stats, name, kind) + Sum(stats, names - {name}, kind)
    decreases names
  {
    var first :| first in names
      && Sum(stats, names, kind) == Count(stats, first, kind) + Sum(stats, names - {first}, kind);
    if first != name {
      SumPick(stats, names - {first}, name, kind);
      SumPick(stats, names - {name}, first, kind);
      assert names - {first} - {name} == names - {name} - {first};
    }
  }

  lemma {:induction false} SumAgrees(a: StatsMap, b: StatsMap, names: set<string>, kind: Kind)
    requires forall n :: n in names ==> Count(a, n, kind) == Count(b, n, kind)
    ensures Sum(a, names, kind) == Sum(b, names, kind)
    decreases names
  {
    if names != {} {
      var n :| n in names;
      SumAgrees(a, b, names - {n}, kind);
      SumPick(a, names, n, kind);
      SumPick(b, names, n, kind);
    }
  }

  lemma TotalAfterUpdate(stats: StatsMap, name: string, u: UpstreamStats, kind: Kind)
    requires name in stats
    ensures Total(stats[name := u], kind)
            == Total(stats, kind) - Count(stats, name, kind) + Count(stats[name := u], name, kind)
  {
    var stats' := stats[name := u];
    assert stats'.Keys == stats.Keys;
    SumPick(stats, stats.Keys, name, kind);
    SumPick(stats', stats.Keys, name, kind);
    SumAgrees(stats, stats', stats.Keys - {name}, kind);
  }

  function KindOf(a: Attempt): Kind {
    if a.answer.Ok? then Succeeded else if IsTimeout(a) then TimedOut else Failed
  }

  lemma TotalAfterAttempt(names: seq<string>, p: Pool, idx: nat, a: Attempt, kind: Kind)
    requires idx < |names| == |p.health|
    ensures AfterAttempt(names, p, idx, a).stats.Keys == p.stats.Keys
    ensures Total(AfterAttempt(names, p, idx, a).stats, kind)
            == Total(p.stats, kind) + if names[idx] in p.stats && kind == KindOf(a) then 1 else 0
  {
    var name := names[idx];
    if name in p.stats {
      var u := AfterAttempt(names, p, idx, a).stats[name];
      assert AfterAttempt(names, p, idx, a).stats == p.stats[name := u];
      TotalAfterUpdate(p.stats, name, u, kind);
    }
  }

  /** Attempts of one kind on upstreams that have no statistics record. */
  function Unrecorded(names: seq<string>, stats: StatsMap, log: seq<Entry>, kind: Kind): nat
    requires LogOk(names, log)
    decreases |log|
  {
    if log == [] then 0
    else
      (if names[log[0].idx] !in stats && KindOf(log[0].attempt) == kind then 1 else 0)
      + Unrecorded(names, stats, log[1..], kind)
  }

  lemma {:induction false} UnrecordedSame(names: seq<string>, a: StatsMap, b: StatsMap, log: seq<Entry>, kind: Kind)
    requires LogOk(names, log) && a.Keys == b.Keys
    ensures Unrecorded(names, a, log, kind) == Unrecorded(names, b, log, kind)
    decreases |log|
  {
    if log != [] {
      assert names[log[0].idx] in a <==> names[log[0].idx] in b.Keys;
      UnrecordedSame(names, a, b, log[1..], kind);
    }
  }

  /** The counter of the metrics a kind of attempt is also counted in. */
  function Metric(p: Pool, kind: Kind): int {
    match kind
    case Succeeded => p.successes
    case Failed => p.failures - p.timeouts
    case TimedOut => p.timeouts
  }

  /** Metrics and per-upstream statistics grow together, but for attempts on unregistered names. */
  lemma {:induction false} Growth(names: seq<string>, p: Pool, log: seq<Entry>, kind: Kind)
    requires |names| == |p.health| && LogOk(names, log)
    ensures var p' := Account(names, p, log);
            Metric(p', kind) - Metric(p, kind)
            == Total(p'.stats, kind) - Total(p.stats, kind) + Unrecorded(names, p.stats, log, kind)
    decreases |log|
  {
    if log == [] {
    } else {
      var p1 := AfterAttempt(names, p, log[0].idx, log[0].attempt);
      TotalAfterAttempt(names, p, log[0].idx, log[0].attempt, kind);
      Growth(names, p1, log[1..], kind);
      UnrecordedSame(names, p.stats, p1.stats, log[1..], kind);
    }
  }

  lemma {:induction false} NothingUnrecorded(names: seq<string>, stats: StatsMap, log: seq<Entry>, kind: Kind)
    requires LogOk(names, log) && forall i :: 0 <= i < |names| ==> names[i] in stats
    ensures Unrecorded(names, stats, log, kind) == 0
    decreases |log|
  {
    if log != [] { NothingUnrecorded(names, stats, log[1..], kind); }
  }

  /**
   * Over any run of queries on a pool whose names are all registered, even with repeated names:
   * failures plus timeouts summed over the names grow as `upstream_failures`, timeouts as
   * `upstream_timeouts`, and successes as `upstream_successes`.
   */
  lemma CountersAgree(names: seq<string>, p: Pool, log: seq<Entry>)
    requires |names| == |p.health| && LogOk(names, log)
    requires forall i :: 0 <= i < |names| ==> names[i] in p.stats
    ensures var p' := Account(names, p, log);
            && p'.failures - p.failures == Total(p'.stats, Failed) + Total(p'.stats, TimedOut)
                                         - Total(p.stats, Failed) - Total(p.stats, TimedOut)
            && p'.timeouts - p.timeouts == Total(p'.stats, TimedOut) - Total(p.stats, TimedOut)
            && p'.successes - p.successes == Total(p'.stats, Succeeded) - Total(p.stats, Succeeded)
  {
    Growth(names, p, log, Failed);
    Growth(names, p, log, TimedOut);
    Growth(names, p, log, Succeeded);
    NothingUnrecorded(names, p.stats, log, Failed);
    NothingUnrecorded(names, p.stats, log, TimedOut);
    NothingUnrecorded(names, p.stats, log, Succeeded);
  }

  /** In general the failure counters agree if and only if no attempt failed on an unregistered name. */
  lemma FailuresAgreeIff(names: seq<string>, p: Pool, log: seq<Entry>)
    requires |names| == |p.health| && LogOk(names, log)
    ensures var p' := Account(names, p, log);
            p'.failures - p.failures == Total(p'.stats, Failed) + Total(p'.stats, TimedOut)
                                      - Total(p.stats, Failed) - Total(p.stats, TimedOut)
            <==> forall i :: 0 <= i < |log| ==> log[i].attempt.answer.Err? ==> names[log[i].idx] in p.stats
  {
    Growth(names, p, log, Failed);
    Growth(names, p, log, TimedOut);
    UnrecordedIff(names, p.stats, log, Failed);
    UnrecordedIff(names, p.stats, log, TimedOut);
  }

  lemma {:induction false} UnrecordedIff(names: seq<string>, stats: StatsMap, log: seq<Entry>, kind: Kind)
    requires LogOk(names, log)
    ensures Unrecorded(names, stats, log, kind) == 0 <==>
              forall i :: 0 <= i < |log| ==> KindOf(log[i].attempt) == kind ==> names[log[i].idx] in stats
    decreases |log|
  {
    if log != [] {
      UnrecordedIff(names, stats, log[1..], kind);
      assert forall i :: 1 <= i < |log| ==> log[i] == log[1..][i - 1];
      assert forall i :: 0 <= i < |log| - 1 ==> log[1..][i] == log[i + 1];
    }
  }
}

/** The pool as the running object. */
module PoolObject {
  import opened Wrappers
  import opened Messages
  import opened Metrics
  import opened UpstreamHealth
  import opened PoolSpec
  import PoolHistory
  import Attempts = AttemptOrder

  /** A query's arrival, and what each upstream it tries will do. */
  datatype Arrival = Arrival(now: nat, script: seq<Attempt>)

  /** Statistics by upstream name; names are fixed when the registry is built. */
  class UpstreamBoard {
    var stats: StatsMap

    constructor (names: seq<string>)
      ensures forall n :: n in stats <==> n in names
      ensures forall n :: n in stats ==> stats[n] == NO_STATS
    {
      stats := map n | n in names :: NO_STATS;
    }

    method RecordSuccess(name: string, latency: nat)
      modifies this
      ensures stats == SuccessStat(old(stats), name, latency)
    {
      if name in stats {
        var u := stats[name];
        stats := stats[name := u.(successes := u.successes + 1, totalLatency := u.totalLatency + latency,
                                  lastLatency := Some(latency))];
      }
    }

    method RecordFailure(name: string)
      modifies this
      ensures stats == FailureStat(old(stats), name)
    {
      if name in stats { stats := stats[name := stats[name].(failures := stats[name].failures + 1)]; }
    }

    method RecordTimeout(name: string)
      modifies this
      ensures stats == TimeoutStat(old(stats), name)
    {
      if name in stats { stats := stats[name := stats[name].(timeouts := stats[name].timeouts + 1)]; }
    }
  }

  class UpstreamPool {
    const names: seq<string>
    const health: seq<Health>
    const metrics: MetricsRecorder
    const board: UpstreamBoard
    const policy: Attempts.Policy
    var roundRobinNext: nat

    ghost predicate Valid() {
      |health| == |names| && forall i, j :: 0 <= i < j < |health| ==> health[i] != health[j]
    }

    constructor (names: seq<string>, metrics: MetricsRecorder, board: UpstreamBoard, policy: Attempts.Policy)
      ensures Valid() && this.names == names && this.metrics == metrics && this.board == board && this.policy == policy
      ensures forall i :: 0 <= i < |health| ==> fresh(health[i]) && health[i].Model() == HEALTHY
      ensures roundRobinNext == 0
    {
      var hs: seq<Health> := [];
      for i := 0 to |names|
        invariant |hs| == i
        invariant forall j :: 0 <= j < i ==> fresh(hs[j]) && hs[j].Model() == HEALTHY
        invariant forall j, k :: 0 <= j < k < i ==> hs[j] != hs[k]
      {
        var h := new Health();
        hs := hs + [h];
      }
      this.names, this.metrics, this.board, this.policy := names, metrics, board, policy;
      health := hs;
      roundRobinNext := 0;
    }

    function HealthModel(): (h: seq<HealthState>)
      reads health
      ensures |h| == |health| && forall i :: 0 <= i < |health| ==> h[i] == health[i].Model()
    {
      seq(|health|, i requires 0 <= i < |health| reads health => health[i].Model())
    }

    function Model(): Pool
      reads health, metrics, board
    {
      Pool(HealthModel(), metrics.upstreamFailures, metrics.upstreamSuccesses, metrics.upstreamTimeouts, board.stats)
    }

    function Degraded(now: nat): (d: seq<bool>)
      reads health
      ensures |d| == |health| && forall i :: 0 <= i < |health| ==> d[i] == IsDegraded(health[i].Model(), now)
    {
      seq(|health|, i requires 0 <= i < |health| reads health => IsDegraded(health[i].Model(), now))
    }

    method AttemptOrder(start: nat, now: nat) returns (order: seq<nat>)
      ensures order == Attempts.Order(Degraded(now), start)
    {
      var len := |health|;
      var healthy, degraded := [], [];
      for offset := 0 to len
        invariant len > 0 ==> healthy == Attempts.Pick(Degraded(now), start, offset, false)
        invariant len > 0 ==> degraded == Attempts.Pick(Degraded(now), start, offset, true)
        invariant len == 0 ==> healthy == degraded == []
      {
        var idx := (start + offset) % len;
        if health[idx].degradedUntil > now {
          degraded := degraded + [idx];
        } else {
          healthy := healthy + [idx];
        }
      }
      order := healthy + degraded;
    }

    /** The index this query starts from; a round-robin pool moves its counter on. */
    method Start() returns (start: nat)
      requires |names| > 0
      modifies this
      ensures (start, roundRobinNext) == Attempts.NextStart(policy, old(roundRobinNext), |names|)
    {
      match policy
      case Sequential => start := 0;
      case RoundRobin =>
        start := roundRobinNext % |names|;
        roundRobinNext := roundRobinNext + 1;
    }

    method RecordAnswered(idx: nat, latency: nat)
      requires Valid() && idx < |names|
      modifies health[idx], metrics, board
      ensures HealthModel() == old(HealthModel())[idx := HEALTHY]
      ensures metrics.Snapshot() == old(metrics.Snapshot()).(upstreamSuccesses := old(metrics.upstreamSuccesses) + 1)
      ensures board.stats == SuccessStat(old(board.stats), names[idx], latency)
    {
      health[idx].RecordSuccess();
      metrics.RecordUpstreamSuccess();
      board.RecordSuccess(names[idx], latency);
    }

    method RecordFailed(idx: nat, timedOut: bool, at: nat)
      requires Valid() && idx < |names|
      modifies health[idx], metrics, board
      ensures HealthModel() == old(HealthModel())[idx := Fail(old(HealthModel())[idx], at)]
      ensures metrics.Snapshot() == old(metrics.Snapshot()).(
                upstreamFailures := old(metrics.upstreamFailures) + 1,
                upstreamTimeouts := old(metrics.upstreamTimeouts) + if timedOut then 1 else 0)
      ensures board.stats == if timedOut then TimeoutStat(old(board.stats), names[idx])
                             else FailureStat(old(board.stats), names[idx])
    {
      var tripped := health[idx].RecordFailure(at);
      if timedOut { metrics.RecordUpstreamTimeout(); }
      metrics.RecordUpstreamFailure();
      if timedOut { board.RecordTimeout(names[idx]); } else { board.RecordFailure(names[idx]); }
    }

    method Record(idx: nat, a: Attempt)
      requires Valid() && idx < |names|
      modifies health[idx], metrics, board
      ensures Model() == AfterAttempt(names, old(Model()), idx, a)
    {
      match a.answer
      case Ok(_) => RecordAnswered(idx, a.latency);
      case Err(e) => RecordFailed(idx, e.Timeout?, a.at);
    }

    method TryInOrder(order: seq<nat>, script: seq<Attempt>) returns (answer: Answer)
      requires Valid() && OrderOk(names, order) && |order| <= |script|
      modifies health, metrics, board
      ensures (Model(), answer) == Failover(names, old(Model()), order, script, None)
    {
      var last: Option<UpstreamError> := None;
      for i := 0 to |order|
        invariant Failover(names, old(Model()), order, script, None)
               == Failover(names, Model(), order[i..], script[i..], last)
      {
        ghost var before := Model();
        ghost var rest, acts := order[i..], script[i..];
        assert rest[0] == order[i] && acts[0] == script[i];
        Record(order[i], script[i]);
        match script[i].answer
        case Ok(_) =>
          FailoverStops(names, before, rest, acts, last);
          return script[i].answer;
        case Err(e) =>
          FailoverTail(names, before, rest, acts, last);
          assert rest[1..] == order[i + 1..] && acts[1..] == script[i + 1..];
          last := Some(e);
      }
      answer := Err(if last.Some? then last.value else AllFailed);
    }

    /**
     * One query, alone: `now` is when it chooses its order, and `script[i]` is what the i-th
     * upstream it tries does.
     */
    method Query(now: nat, script: seq<Attempt>) returns (answer: Answer, ghost start: nat, ghost order: seq<nat>)
      requires Valid() && |names| <= |script|
      modifies this, health, metrics, board
      ensures |order| == |names| && OrderOk(names, order)
      ensures (Model(), answer) == Failover(names, old(Model()), order, script, None)
      ensures var log := TriedLog(order, script, Tries(script, |order|));
              LogOk(names, log) && Model() == Account(names, old(Model()), log)
      ensures if |names| == 0 then answer == Err(AllFailed) && roundRobinNext == old(roundRobinNext)
              else
                && (start, roundRobinNext) == Attempts.NextStart(policy, old(roundRobinNext), |names|)
                && order == Attempts.Order(old(Degraded(now)), start)
    {
      if |names| == 0 {
        return Err(AllFailed), 0, [];
      }
      ghost var degraded, before := Degraded(now), Model();
      var first := Start();
      start := first;
      assert Degraded(now) == degraded && Model() == before;
      var attempts := AttemptOrder(first, now);
      order := attempts;
      Attempts.OrderIsAttemptOrder(degraded, start);
      Attempts.OrderLength(degraded, start, order);
      assert OrderOk(names, order);
      answer := TryInOrder(attempts, script);
      FailoverIsAccounted(names, before, order, script, None);
    }

    /** The same query, told by where it started and the attempts it made. */
    method Serve(arrival: Arrival) returns (answer: Answer, ghost start: nat, ghost log: seq<Entry>)
      requires Valid() && 0 < |names| <= |arrival.script|
      modifies this, health, metrics, board
      ensures (start, roundRobinNext) == Attempts.NextStart(policy, old(roundRobinNext), |names|)
      ensures LogOk(names, log) && Model() == Account(names, old(Model()), log)
    {
      ghost var order;
      answer, start, order := Query(arrival.now, arrival.script);
      log := TriedLog(order, arrival.script, Tries(arrival.script, |order|));
    }

    /**
     * Queries coming one after the other take the starts that the fairness result counts, and
     * leave the pool as their attempts make it: see `Sidelined` for what that means for health.
     */
    method QueryEach(arrivals: seq<Arrival>)
      returns (answers: seq<Answer>, ghost starts: seq<nat>, ghost log: seq<Entry>)
      requires Valid() && |names| > 0
      requires forall i :: 0 <= i < |arrivals| ==> |names| <= |arrivals[i].script|
      modifies this, health, metrics, board
      ensures |answers| == |arrivals|
      ensures starts == Attempts.Issued(policy, old(roundRobinNext), |arrivals|, |names|)
      ensures policy.RoundRobin? ==> Attempts.IsFair(starts, |names|)
      ensures LogOk(names, log) && Model() == Account(names, old(Model()), log)
    {
      answers, starts, log := [], [], [];
      for i := 0 to |arrivals|
        invariant |answers| == i
        invariant LogOk(names, log) && Model() == Account(names, old(Model()), log)
        invariant starts + Attempts.Issued(policy, roundRobinNext, |arrivals| - i, |names|)
               == Attempts.Issued(policy, old(roundRobinNext), |arrivals|, |names|)
      {
        Attempts.IssuedNext(policy, roundRobinNext, |arrivals| - i, |names|, starts);
        var answer;
        ghost var start, made;
        answer, start, made := Serve(arrivals[i]);
        PoolHistory.AccountConcat(names, old(Model()), log, made);
        log := log + made;
        answers := answers + [answer];
        starts := starts + [start];
      }
      if policy.RoundRobin? { Attempts.RoundRobinIsFair(old(roundRobinNext), |arrivals|, |names|); }
    }
  }

  /** After any such queries on a new pool, an upstream is sidelined exactly by its last attempts in them. */
  lemma Sidelined(pool: UpstreamPool, before: Pool, log: seq<Entry>, idx: nat, now: nat)
    requires pool.Valid() && LogOk(pool.names, log) && |before.health| == |pool.names|
    requires forall i :: 0 <= i < |before.health| ==> before.health[i] == HEALTHY
    requires pool.Model() == Account(pool.names, before, log) && idx < |pool.names|
    ensures pool.Degraded(now)[idx] <==> PoolHistory.LastThreeFailed(PoolHistory.EventsOf(log, idx), now)
  {
    PoolHistory.DegradedAfterLog(pool.names, before, log, idx, now);
    assert pool.Model().health[idx] == pool.health[idx].Model();
  }
}
