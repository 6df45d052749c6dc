/**
 * What the pipeline must do, not only what it may: which answer each client gets, and when the
 * cache or the upstream is asked.
 */
module ResolverExact {
  import opened Wrappers
  import opened Messages
  import opened Resolver
  import opened ResolverTheorems
  import Cache = TtlCache
  import Pending = PendingQueries

  // ---- answers that do not come from the cache ----

  predicate IsThrough(pc: Pending.CallerPc) {
    pc.Refused? || pc.Returned?
  }

  /** The coalescer has handed the caller this successful answer. */
  predicate HandedAnswer(p: Pending.State, c: Pending.CallerId, answer: Message) {
    c in p.callers && p.callers[c].pc.Returned? && p.callers[c].pc.outcome == Pending.Delivered(Ok(answer))
  }

  /** The coalescer has handed the caller an error: none to send, timed out, or failed upstream. */
  predicate HandedError(p: Pending.State, c: Pending.CallerId) {
    c in p.callers && IsThrough(p.callers[c].pc) &&
    (p.callers[c].pc.Returned? ==> !(p.callers[c].pc.outcome.Delivered? && p.callers[c].pc.outcome.answer.Ok?))
  }

  ghost predicate GotAnswer(p: Pending.State, c: Pending.CallerId, query: Message, m: Message) {
    exists answer :: HandedAnswer(p, c, answer) && m == answer.(id := query.id)
  }

  /** The response of a client that was not served from the cache is determined. */
  ghost predicate IsExact(cfg: Config, s: State, c: Pending.CallerId)
    requires c in s.clients
  {
    var client := s.clients[c];
    match client.pc
    case Store(m) => GotAnswer(s.pending, c, client.query, m)
    case Done(m, None) =>
      if client.query.questions == [] then m == Reply(client.query, FORMERR)
      else if QueryBlocked(cfg, client.query) then m == BlockedReply(cfg, client.query)
      else
        || GotAnswer(s.pending, c, client.query, m)
        || (HandedError(s.pending, c) && m == Reply(client.query, SERVFAIL))
    case _ => true
  }

  ghost predicate AllExact(cfg: Config, s: State) {
    forall c :: c in s.clients ==> IsExact(cfg, s, c)
  }

  lemma ThroughStays(p: Pending.State, step: Pending.Step, c: Pending.CallerId)
    requires Pending.Enabled(p, step) && c in p.callers && IsThrough(p.callers[c].pc)
    ensures c in Pending.Apply(p, step).callers && Pending.Apply(p, step).callers[c] == p.callers[c]
  {
  }

  lemma CoalesceKeepsExact(cfg: Config, s: State, step: Pending.Step)
    requires ValidConfig(cfg) && AllExact(cfg, s) && Enabled(cfg, s, Coalesce(step))
    ensures AllExact(cfg, Apply(cfg, s, Coalesce(step)))
  {
    var s' := Apply(cfg, s, Coalesce(step));
    forall c | c in s'.clients ensures IsExact(cfg, s', c) {
      assert IsExact(cfg, s, c);
      if c in s.pending.callers && IsThrough(s.pending.callers[c].pc) { ThroughStays(s.pending, step, c); }
    }
  }

  /** One client goes on; callers that are through stay as they were. */
  lemma OneMovesExact(cfg: Config, s: State, s': State, c: Pending.CallerId)
    requires AllExact(cfg, s) && c in s'.clients && s'.clients == s.clients[c := s'.clients[c]] && IsExact(cfg, s', c)
    requires forall d :: d in s.pending.callers ==>
               d in s'.pending.callers && s'.pending.callers[d] == s.pending.callers[d]
    ensures AllExact(cfg, s')
  {
    forall d | d in s'.clients ensures IsExact(cfg, s', d) {
      if d != c {
        assert IsExact(cfg, s, d);
        var query := s.clients[d].query;
        if s.clients[d].pc.Store? || s.clients[d].pc.Done? {
          GotStays(s.pending, s'.pending, d, query, s.clients[d].pc.response);
        }
      }
    }
  }

  lemma GotStays(p: Pending.State, p': Pending.State, c: Pending.CallerId, query: Message, m: Message)
    requires c in p.callers ==> c in p'.callers && p'.callers[c] == p.callers[c]
    ensures GotAnswer(p, c, query, m) ==> GotAnswer(p', c, query, m)
    ensures HandedError(p, c) ==> HandedError(p', c)
  {
    if answer :| HandedAnswer(p, c, answer) && m == answer.(id := query.id) { assert HandedAnswer(p', c, answer); }
  }

  lemma BeginKeepsExact(cfg: Config, s: State, step: Step)
    requires ValidConfig(cfg) && AllExact(cfg, s) && step.Begin? && Enabled(cfg, s, step)
    ensures AllExact(cfg, Apply(cfg, s, step))
  {
    OneMovesExact(cfg, s, Apply(cfg, s, step), step.c);
  }

  lemma ConsultKeepsExact(cfg: Config, s: State, c: Pending.CallerId, now: nat)
    requires ValidConfig(cfg) && Inv(cfg, s) && AllExact(cfg, s) && Enabled(cfg, s, Consult(c, now))
    ensures AllExact(cfg, Apply(cfg, s, Consult(c, now)))
  {
    var found := Cache.Get(s.cache, Upstream(cfg, s.clients[c]), now).1;
    if found.Some? {
      HitShape(cfg, s, c, now);
    } else if s.clients[c].pc.SinkLookup? {
      SinkMissShape(cfg, s, c, now);
    } else {
      MissShape(cfg, s, c, now);
    }
    OneMovesExact(cfg, s, Apply(cfg, s, Consult(c, now)), c);
  }

  lemma KeepKeepsExact(cfg: Config, s: State, c: Pending.CallerId, now: nat, victim: Option<Cache.CacheKey>)
    requires ValidConfig(cfg) && Inv(cfg, s) && AllExact(cfg, s) && Enabled(cfg, s, Keep(c, now, victim))
    ensures AllExact(cfg, Apply(cfg, s, Keep(c, now, victim)))
  {
    assert ClientOk(cfg, s, c) && IsExact(cfg, s, c);
    OneMovesExact(cfg, s, Apply(cfg, s, Keep(c, now, victim)), c);
  }

  lemma ReceiveKeepsExact(cfg: Config, s: State, c: Pending.CallerId)
    requires ValidConfig(cfg) && Inv(cfg, s) && AllExact(cfg, s) && Enabled(cfg, s, Receive(c))
    ensures AllExact(cfg, Apply(cfg, s, Receive(c)))
  {
    var pc := s.pending.callers[c].pc;
    assert ClientOk(cfg, s, c);
    if pc.Returned? && pc.outcome.Delivered? && pc.outcome.answer.Ok? {
      assert HandedAnswer(s.pending, c, pc.outcome.answer.value);
    }
    OneMovesExact(cfg, s, Apply(cfg, s, Receive(c)), c);
  }

  lemma StepKeepsExact(cfg: Config, s: State, step: Step)
    requires ValidConfig(cfg) && Inv(cfg, s) && AllExact(cfg, s) && Enabled(cfg, s, step)
    ensures AllExact(cfg, Apply(cfg, s, step))
  {
    match step
    case Begin(_, _, _) => BeginKeepsExact(cfg, s, step);
    case Consult(c, now) => ConsultKeepsExact(cfg, s, c, now);
    case Keep(c, now, victim) => KeepKeepsExact(cfg, s, c, now, victim);
    case Coalesce(inner) => CoalesceKeepsExact(cfg, s, inner);
    case Receive(c) => ReceiveKeepsExact(cfg, s, c);
    case FlushCache =>
      forall c | c in s.clients ensures IsExact(cfg, Apply(cfg, s, step), c) { assert IsExact(cfg, s, c); }
  }

  lemma {:induction false} RunKeepsExact(cfg: Config, s: State, steps: seq<Step>)
    requires ValidConfig(cfg) && Inv(cfg, s) && AllExact(cfg, s) && IsRun(cfg, s, steps)
    ensures AllExact(cfg, Run(cfg, s, steps))
    decreases |steps|
  {
    if steps != [] {
      StepKeepsInv(cfg, s, steps[0]);
      StepKeepsExact(cfg, s, steps[0]);
      RunKeepsExact(cfg, Apply(cfg, s, steps[0]), steps[1..]);
    }
  }

  /**
   * After any run, a client that was not served from the cache has: a form error without a
   * question; the reply made for its own query if the name is blocked; the answer the coalescer
   * handed it, under its own id, if it was handed one; and a server failure exactly if it was
   * handed an error.
   */
  lemma UncachedAnswersAreExact(cfg: Config, steps: seq<Step>, c: Pending.CallerId)
    requires ValidConfig(cfg) && IsRun(cfg, INITIAL, steps)
    requires var s := Run(cfg, INITIAL, steps);
             c in s.clients && s.clients[c].pc.Done? && s.clients[c].pc.age.None?
    ensures var s := Run(cfg, INITIAL, steps);
            var query := s.clients[c].query;
            var m := s.clients[c].pc.response;
            && (query.questions == [] ==> m == Reply(query, FORMERR))
            && (QueryBlocked(cfg, query) ==> m == BlockedReply(cfg, query))
            && (query.questions != [] && !QueryBlocked(cfg, query) ==>
                  && (HandedError(s.pending, c) ==> m == Reply(query, SERVFAIL))
                  && (!HandedError(s.pending, c) ==> GotAnswer(s.pending, c, query, m)))
  {
    RunKeepsExact(cfg, INITIAL, steps);
    assert IsExact(cfg, Run(cfg, INITIAL, steps), c);
  }

  // ---- when the cache answers and when the upstream is asked ----

  /** The cache holds something under the key, and it is younger than its life. */
  predicate HoldsFresh(s: State, k: Cache.CacheKey, now: nat) {
    k in s.cache.entries && now - s.cache.entries[k].insertedAt < s.cache.entries[k].ttl
  }

  lemma EntryIsOk(cfg: Config, s: State, k: Cache.CacheKey)
    requires ValidConfig(cfg) && CacheOk(cfg, s) && k in s.cache.entries
    ensures s.cache.entries[k].insertedAt <= s.clock
  {
    assert EntryOk(cfg, s.cache.entries[k], s.clock);
  }

  lemma HitAt(cfg: Config, s: State, c: Pending.CallerId, now: nat, k: Cache.CacheKey)
    requires ValidConfig(cfg) && Enabled(cfg, s, Consult(c, now))
    requires Cache.KeyOf(Upstream(cfg, s.clients[c])) == Some(k) && k in s.cache.entries
    requires s.cache.entries[k].insertedAt <= now && now - s.cache.entries[k].insertedAt < s.cache.entries[k].ttl
    ensures var e := s.cache.entries[k];
            && Cache.Fresh(e, now)
            && Apply(cfg, s, Consult(c, now))
               == At(s, c, Done(WithTtl(e.message, Cache.RemainingSecs(e, now)).(id := s.clients[c].query.id),
                                Some(now - e.insertedAt))).(clock := now)
  {
    Cache.GetFresh(s.cache, Upstream(cfg, s.clients[c]), now, k);
    HitShape(cfg, s, c, now);
  }

  /**
   * A fresh response in the cache is served, for blocked and other names alike, under the client's
   * id and with the whole seconds it has left as its TTLs; and nothing else is asked.
   */
  lemma FreshIsServed(cfg: Config, s: State, c: Pending.CallerId, now: nat, k: Cache.CacheKey)
    requires ValidConfig(cfg) && CacheOk(cfg, s) && Enabled(cfg, s, Consult(c, now))
    requires Cache.KeyOf(Upstream(cfg, s.clients[c])) == Some(k) && HoldsFresh(s, k, now)
    ensures var e := s.cache.entries[k];
            && e.insertedAt <= now && Cache.Fresh(e, now)
            && Apply(cfg, s, Consult(c, now))
               == At(s, c, Done(WithTtl(e.message, Cache.RemainingSecs(e, now)).(id := s.clients[c].query.id),
                                Some(now - e.insertedAt))).(clock := now)
  {
    EntryIsOk(cfg, s, k);
    HitAt(cfg, s, c, now, k);
  }

  lemma NothingFound(cfg: Config, s: State, query: Message, now: nat, k: Cache.CacheKey)
    requires ValidConfig(cfg) && CacheOk(cfg, s) && s.clock <= now
    requires Cache.KeyOf(query) == Some(k) && !HoldsFresh(s, k, now)
    ensures Cache.Get(s.cache, query, now).1.None?
  {
    if k in s.cache.entries { EntryIsOk(cfg, s, k); }
    Cache.GetStale(s.cache, query, now, k);
  }

  /** Without one a blocked query is answered here. */
  lemma OtherwiseIsSunk(cfg: Config, s: State, c: Pending.CallerId, now: nat, k: Cache.CacheKey)
    requires ValidConfig(cfg) && Inv(cfg, s) && Enabled(cfg, s, Consult(c, now))
    requires QueryBlocked(cfg, s.clients[c].query)
    requires Cache.KeyOf(Upstream(cfg, s.clients[c])) == Some(k) && !HoldsFresh(s, k, now)
    ensures var s' := Apply(cfg, s, Consult(c, now));
            c in s'.clients && s'.clients[c].pc.SinkStore? && s'.pending == s.pending
  {
    assert ClientOk(cfg, s, c);
    NothingFound(cfg, s, Upstream(cfg, s.clients[c]), now, k);
    SinkMissShape(cfg, s, c, now);
  }

  /** And any other goes to the coalescer, as the upstream query, under the key of that query with its id blanked. */
  lemma OtherwiseIsAsked(cfg: Config, s: State, c: Pending.CallerId, now: nat, k: Cache.CacheKey)
    requires ValidConfig(cfg) && Inv(cfg, s) && Enabled(cfg, s, Consult(c, now))
    requires !QueryBlocked(cfg, s.clients[c].query)
    requires Cache.KeyOf(Upstream(cfg, s.clients[c])) == Some(k) && !HoldsFresh(s, k, now)
    ensures var s' := Apply(cfg, s, Consult(c, now));
            var upstream := Upstream(cfg, s.clients[c]);
            && c in s'.clients && s'.clients[c].pc.Waiting? && c in s'.pending.callers
            && s'.pending.callers[c].query == upstream
            && s'.pending.callers[c].key == cfg.encode(upstream.(id := 0))
            && s'.pending.flights == s.pending.flights
  {
    assert ClientOk(cfg, s, c);
    NothingFound(cfg, s, Upstream(cfg, s.clients[c]), now, k);
    MissShape(cfg, s, c, now);
  }

  /** What is then answered is also stored, when it has records: the same query finds it until its life is over. */
  lemma AnsweredIsStored(cfg: Config, s: State, c: Pending.CallerId, now: nat, victim: Option<Cache.CacheKey>)
    requires ValidConfig(cfg) && Inv(cfg, s) && Enabled(cfg, s, Keep(c, now, victim))
    ensures var s' := Apply(cfg, s, Keep(c, now, victim));
            var upstream := Upstream(cfg, s.clients[c]);
            && c in s'.clients && s'.clients[c].pc.Done? && s'.clients[c].pc.age.None?
            && Cache.KeyOf(upstream).Some?
            && var m := s'.clients[c].pc.response;
               if Cache.AllRecords(m) == [] then s'.cache == s.cache
               else
                 && Cache.KeyOf(upstream).value in s'.cache.entries
                 && s'.cache.entries[Cache.KeyOf(upstream).value] == Cache.Entry(m, now, Cache.Life(cfg.cache, m))
  {
    KeptIsExplained(cfg, s, c);
  }
}
