/** A pool's state after any run of attempts, told by the attempts: health by its trace, counters by counting. */
module PoolHistory {
  import opened Wrappers
  import opened UpstreamHealth
  import opened PoolSpec

  lemma {:induction false} AccountLast(names: seq<string>, p: Pool, log: seq<Entry>)
    requires |names| == |p.health| && LogOk(names, log) && log != []
    ensures var before, last := log[..|log| - 1], log[|log| - 1];
            LogOk(names, before) &&
            Account(names, p, log) == AfterAttempt(names, Account(names, p, before), last.idx, last.attempt)
    decreases |log|
  {
    var before := log[..|log| - 1];
    assert LogOk(names, before);
    if |log| > 1 {
      assert log[1..][..|log[1..]| - 1] == before[1..] && log[1..][|log[1..]| - 1] == log[|log| - 1];
      AccountLast(names, AfterAttempt(names, p, log[0].idx, log[0].attempt), log[1..]);
    } else {
      assert log[1..] == [] && before == [];
    }
  }

  lemma {:induction false} AccountConcat(names: seq<string>, p: Pool, first: seq<Entry>, rest: seq<Entry>)
    requires |names| == |p.health| && LogOk(names, first) && LogOk(names, rest)
    ensures LogOk(names, first + rest)
    ensures Account(names, p, first + rest) == Account(names, Account(names, p, first), rest)
    decreases |first|
  {
    if first == [] {
      assert first + rest == rest;
    } else {
      assert (first + rest)[1..] == first[1..] + rest;
      AccountConcat(names, AfterAttempt(names, p, first[0].idx, first[0].attempt), first[1..], rest);
    }
  }

  // ---- health ----

  /** What one upstream went through: every answer is a success and every error, whichever it is, a failure. */
  function EventsOf(log: seq<Entry>, idx: nat): seq<Event> {
    if log == [] then []
    else
      var before := EventsOf(log[..|log| - 1], idx);
      var last := log[|log| - 1];
      if last.idx != idx then before
      else
        match last.attempt.answer
        case Ok(_) => before + [Success]
        case Err(_) => before + [Failure(last.attempt.at)]
  }

  /** An upstream's health is what its own attempts make of it, and no other attempt touches it. */
  lemma {:induction false} HealthIsReplay(names: seq<string>, p: Pool, log: seq<Entry>, idx: nat)
    requires |names| == |p.health| && LogOk(names, log) && idx < |names| && p.health[idx] == HealthState(0, 0)
    ensures Account(names, p, log).health[idx] == Replay(EventsOf(log, idx))
    decreases |log|
  {
    if log != [] {
      var before, last := log[..|log| - 1], log[|log| - 1];
      AccountLast(names, p, log);
      HealthIsReplay(names, p, before, idx);
      assert EventsOf(log, idx)[..|EventsOf(log, idx)|] == EventsOf(log, idx);
      if last.idx == idx {
        assert EventsOf(log, idx)[..|EventsOf(log, idx)| - 1] == EventsOf(before, idx);
      }
    }
  }

  /** The last three attempts, or more, all failed, and the last of them less than 30 s ago. */
  predicate LastThreeFailed(events: seq<Event>, now: nat) {
    && |events| >= 3
    && events[|events| - 3].Failure? && events[|events| - 2].Failure? && events[|events| - 1].Failure?
    && now < events[|events| - 1].at + 30_000
  }

  lemma RunOfThree(events: seq<Event>)
    ensures FailureRun(events) >= 3 <==>
              && |events| >= 3
              && events[|events| - 3].Failure? && events[|events| - 2].Failure? && events[|events| - 1].Failure?
  {
    var n := FailureRun(events);
    if n < 3 && n < |events| { assert events[|events| - n - 1].Success?; }
  }

  lemma DegradedTrace(events: seq<Event>, now: nat)
    ensures Replay(events).degradedUntil > now <==> LastThreeFailed(events, now)
  {
    DegradedIff(events, now);
    RunOfThree(events);
  }

  /**
   * After any run of attempts from a fresh pool, an upstream is sidelined exactly if its last three
   * attempts all failed, on whatever error, and the last of them is less than 30 s old.
   */
  lemma DegradedAfterLog(names: seq<string>, p: Pool, log: seq<Entry>, idx: nat, now: nat)
    requires |names| == |p.health| && LogOk(names, log) && idx < |names| && p.health[idx] == HealthState(0, 0)
    ensures Account(names, p, log).health[idx].degradedUntil > now <==> LastThreeFailed(EventsOf(log, idx), now)
  {
    HealthIsReplay(names, p, log, idx);
    DegradedTrace(EventsOf(log, idx), now);
  }

  // ---- counters ----

  function CountOf(log: seq<Entry>, p: Entry -> bool): nat {
    if log == [] then 0 else CountOf(log[..|log| - 1], p) + if p(log[|log| - 1]) then 1 else 0
  }

  function LatencyOf(log: seq<Entry>, p: Entry -> bool): nat {
    if log == [] then 0
    else LatencyOf(log[..|log| - 1], p) + if p(log[|log| - 1]) then log[|log| - 1].attempt.latency else 0
  }

  predicate Answered(e: Entry) { e.attempt.answer.Ok? }

  predicate Erred(e: Entry) { e.attempt.answer.Err? }

  predicate TimedOutErr(e: Entry) { e.attempt.answer.Err? && e.attempt.answer.error.Timeout? }

  /** The metrics count the attempts: answered, failed, and of the failed those that timed out. */
  lemma {:induction false} MetricsCount(names: seq<string>, p: Pool, log: seq<Entry>)
    requires |names| == |p.health| && LogOk(names, log)
    ensures Account(names, p, log).successes == p.successes + CountOf(log, Answered)
    ensures Account(names, p, log).failures == p.failures + CountOf(log, Erred)
    ensures Account(names, p, log).timeouts == p.timeouts + CountOf(log, TimedOutErr)
    decreases |log|
  {
    if log != [] {
      AccountLast(names, p, log);
      MetricsCount(names, p, log[..|log| - 1]);
    }
  }

  predicate On(names: seq<string>, name: string, e: Entry) {
    e.idx < |names| && names[e.idx] == name
  }

  /** The statistics of a registered name, from those before and the attempts on upstreams of that name. */
  predicate StatsCount(names: seq<string>, name: string, u: UpstreamStats, u': UpstreamStats, log: seq<Entry>) {
    && u'.successes == u.successes + CountOf(log, e => On(names, name, e) && Answered(e))
    && u'.timeouts == u.timeouts + CountOf(log, e => On(names, name, e) && TimedOutErr(e))
    && u'.failures == u.failures + CountOf(log, e => On(names, name, e) && Erred(e) && !TimedOutErr(e))
    && u'.totalLatency == u.totalLatency + LatencyOf(log, e => On(names, name, e) && Answered(e))
  }

  /**
   * The statistics count the attempts by name: an attempt is a success, with its latency, or a
   * timeout or a failure, never two of them; names that are not registered stay so.
   */
  lemma {:induction false} StatisticsCount(names: seq<string>, p: Pool, log: seq<Entry>, name: string)
    requires |names| == |p.health| && LogOk(names, log)
    ensures name in Account(names, p, log).stats <==> name in p.stats
    ensures name in p.stats ==> StatsCount(names, name, p.stats[name], Account(names, p, log).stats[name], log)
    decreases |log|
  {
    if log != [] {
      AccountLast(names, p, log);
      StatisticsCount(names, p, log[..|log| - 1], name);
    }
  }

  /** The last latency shown is that of the last answered attempt under the name. */
  lemma {:induction false} LastLatencyIsLast(names: seq<string>, p: Pool, log: seq<Entry>, name: string, i: nat)
    requires |names| == |p.health| && LogOk(names, log) && name in p.stats
    requires i < |log| && On(names, name, log[i]) && Answered(log[i])
    requires forall j :: i < j < |log| ==> !(On(names, name, log[j]) && Answered(log[j]))
    ensures name in Account(names, p, log).stats
    ensures Account(names, p, log).stats[name].lastLatency == Some(log[i].attempt.latency)
    decreases |log|
  {
    var before := log[..|log| - 1];
    AccountLast(names, p, log);
    StatisticsCount(names, p, before, name);
    if i < |log| - 1 { LastLatencyIsLast(names, p, before, name, i); }
  }
}
