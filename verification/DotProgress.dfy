/** What a query over DNS-over-TLS must achieve: a stale connection costs it nothing, and only certain things end it. */
module DotProgress {
  import opened Wrappers
  import opened Messages
  import opened DotPool

  // ---- runs ----

  lemma RunCons(s: State, a: Step, rest: seq<Step>)
    requires Enabled(s, a) && IsRun(Apply(s, a), rest)
    ensures IsRun(s, [a] + rest) && Run(s, [a] + rest) == Run(Apply(s, a), rest)
  {
    assert ([a] + rest)[1..] == rest;
  }

  lemma RunOfOne(s: State, a: Step)
    requires Enabled(s, a)
    ensures IsRun(s, [a]) && Run(s, [a]) == Apply(s, a)
  {
    var none: seq<Step> := [];
    assert IsRun(Apply(s, a), none) && Run(Apply(s, a), none) == Apply(s, a);
    RunCons(s, a, none);
    assert [a] + none == [a];
  }

  // ---- a stale pooled connection ----

  /** When the exchange on a pooled stream fails, the query lets go of it and connects afresh. */
  lemma StaleFallsThrough(s: State, f: FutureId, x: StreamId)
    requires f in s.futures && s.futures[f].pc == Exchanging(x, true)
    ensures Enabled(s, Break(f))
    ensures var s' := Apply(s, Break(f));
            && s' == At(s, f, Connecting)
            && Holds(s'.futures[f].pc) == None
            && Enabled(s', Connect(f))
  {
  }

  /** The new connection carries nothing yet, and belongs to this query alone. */
  lemma ConnectsAfresh(s: State, f: FutureId)
    requires Inv(s) && f in s.futures && s.futures[f].pc.Connecting?
    ensures Enabled(s, Connect(f))
    ensures var s' := Apply(s, Connect(f));
            && s.nextStream !in s.streams && s'.streams[s.nextStream] == Stream(s.futures[f].endpoint, Clean, [], [], 0)
            && s' == State(s.idle, s'.streams, s.futures[f := s.futures[f].(pc := Exchanging(s.nextStream, false))],
                           s.nextStream + 1, s.clock)
  {
  }

  // ---- an exchange ----

  lemma WritesOn(s: State, f: FutureId, x: StreamId, pooled: bool) returns (s': State)
    requires f in s.futures && s.futures[f].pc == Exchanging(x, pooled) && x in s.streams && s.streams[x].phase.Clean?
    ensures IsRun(s, [WriteSome(f), WriteRest(f)]) && Run(s, [WriteSome(f), WriteRest(f)]) == s'
    ensures s' == Traffic(s, x, s.streams[x].(phase := Written,
                                              requests := s.streams[x].requests + [s.futures[f].request]))
  {
    var s1 := Apply(s, WriteSome(f));
    s' := Apply(s1, WriteRest(f));
    RunOfOne(s1, WriteRest(f));
    RunCons(s, WriteSome(f), [WriteRest(f)]);
    assert [WriteSome(f)] + [WriteRest(f)] == [WriteSome(f), WriteRest(f)];
    assert s'.streams == s.streams[x := s'.streams[x]];
  }

  lemma ReadsOn(s: State, f: FutureId, x: StreamId, pooled: bool, answer: Message) returns (s': State)
    requires f in s.futures && s.futures[f].pc == Exchanging(x, pooled) && x in s.streams && s.streams[x].phase.Written?
    requires s.streams[x].replies == |s.streams[x].answers|
    ensures IsRun(s, [Serve(x, answer), ReadSome(f), ReadRest(f)])
    ensures Run(s, [Serve(x, answer), ReadSome(f), ReadRest(f)]) == s'
    ensures s' == At(Traffic(s, x, s.streams[x].(phase := Clean, answers := s.streams[x].answers + [answer],
                                                 replies := s.streams[x].replies + 1)),
                     f, Parking(x, s.streams[x].replies, answer))
  {
    var s1 := Apply(s, Serve(x, answer));
    var s2 := Apply(s1, ReadSome(f));
    s' := Apply(s2, ReadRest(f));
    RunOfOne(s2, ReadRest(f));
    RunCons(s1, ReadSome(f), [ReadRest(f)]);
    RunCons(s, Serve(x, answer), [ReadSome(f)] + [ReadRest(f)]);
    assert [Serve(x, answer)] + ([ReadSome(f)] + [ReadRest(f)]) == [Serve(x, answer), ReadSome(f), ReadRest(f)];
    assert s'.streams == s.streams[x := s'.streams[x]];
  }

  lemma {:induction false} RunConcat(s: State, first: seq<Step>, rest: seq<Step>)
    requires IsRun(s, first) && IsRun(Run(s, first), rest)
    ensures IsRun(s, first + rest) && Run(s, first + rest) == Run(Run(s, first), rest)
    decreases |first|
  {
    if first == [] {
      assert first + rest == rest;
    } else {
      RunConcat(Apply(s, first[0]), first[1..], rest);
      assert (first + rest)[1..] == first[1..] + rest;
    }
  }

  /**
   * A query exchanging on a clean stream with nothing left unread, fresh or pooled, ends with the
   * answer the server sends next, by its own steps and that one of the server's.
   */
  lemma ExchangeAnswers(s: State, f: FutureId, x: StreamId, pooled: bool, answer: Message, now: nat)
    returns (steps: seq<Step>)
    requires f in s.futures && s.futures[f].pc == Exchanging(x, pooled) && x in s.streams && s.streams[x].phase.Clean?
    requires s.streams[x].replies == |s.streams[x].answers| && s.clock <= now
    ensures steps == [WriteSome(f), WriteRest(f), Serve(x, answer), ReadSome(f), ReadRest(f), PutIdle(f, now)]
    ensures IsRun(s, steps) && f in Run(s, steps).futures
    ensures Run(s, steps).futures[f] == s.futures[f].(pc := Answered(x, s.streams[x].replies, answer))
    ensures Run(s, steps).idle == CheckinTo(s.idle, s.futures[f].endpoint, x, now)
  {
    var s1 := WritesOn(s, f, x, pooled);
    var s2 := ReadsOn(s1, f, x, pooled, answer);
    RunConcat(s, [WriteSome(f), WriteRest(f)], [Serve(x, answer), ReadSome(f), ReadRest(f)]);
    var first := [WriteSome(f), WriteRest(f)] + [Serve(x, answer), ReadSome(f), ReadRest(f)];
    RunOfOne(s2, PutIdle(f, now));
    RunConcat(s, first, [PutIdle(f, now)]);
    steps := first + [PutIdle(f, now)];
  }

  /**
   * In every reachable state a query whose pooled connection turns out stale is answered all the
   * same: its exchange breaks, it connects, and on the new stream it gets what the server serves.
   */
  lemma StaleIsAnswered(s: State, f: FutureId, x: StreamId, answer: Message, now: nat) returns (steps: seq<Step>)
    requires Inv(s) && f in s.futures && s.futures[f].pc == Exchanging(x, true) && s.clock <= now
    ensures steps == [Break(f), Connect(f)]
                   + [WriteSome(f), WriteRest(f), Serve(s.nextStream, answer)]
                   + [ReadSome(f), ReadRest(f), PutIdle(f, now)]
    ensures IsRun(s, steps) && f in Run(s, steps).futures
    ensures Run(s, steps).futures[f] == s.futures[f].(pc := Answered(s.nextStream, 0, answer))
  {
    StaleFallsThrough(s, f, x);
    var s1 := Apply(s, Break(f));
    EndStepKeepsInv(s, Break(f));
    ConnectsAfresh(s1, f);
    var s2 := Apply(s1, Connect(f));
    var rest := ExchangeAnswers(s2, f, s.nextStream, false, answer, now);
    RunCons(s1, Connect(f), rest);
    RunCons(s, Break(f), [Connect(f)] + rest);
    steps := [Break(f), Connect(f)] + rest;
    assert steps == [Break(f)] + ([Connect(f)] + rest);
    var answered := Answered(s.nextStream, 0, answer);
    assert s2.futures[f].(pc := answered) == s.futures[f].(pc := answered);
  }

  // ---- what makes a query fail ----

  predicate HasFailed(s: State, f: FutureId) {
    f in s.futures && s.futures[f].pc.Failed?
  }

  /** Giving up, or an error while connecting or on a connection of its own making. */
  predicate MayFail(s: State, step: Step, f: FutureId) {
    || step == GiveUp(f)
    || (step == Break(f) && f in s.futures &&
        (s.futures[f].pc.Connecting? || (s.futures[f].pc.Exchanging? && !s.futures[f].pc.pooled)))
  }

  lemma FailsBy(s: State, step: Step, f: FutureId)
    requires Enabled(s, step) && !HasFailed(s, f) && HasFailed(Apply(s, step), f)
    ensures MayFail(s, step, f)
  {
  }

  lemma {:induction false} PrefixIsRun(s: State, steps: seq<Step>, i: nat)
    requires IsRun(s, steps) && i < |steps|
    ensures IsRun(s, steps[..i]) && Enabled(Run(s, steps[..i]), steps[i])
    decreases |steps|
  {
    if i > 0 {
      PrefixIsRun(Apply(s, steps[0]), steps[1..], i - 1);
      assert steps[..i][1..] == steps[1..][..i - 1];
    } else {
      assert steps[..0] == [];
    }
  }

  /** Over any run a query fails only by giving up, while connecting, or on a fresh connection; never on a stale one. */
  lemma {:induction false} FailedOnlyBy(s: State, steps: seq<Step>, f: FutureId) returns (i: nat)
    requires IsRun(s, steps) && !HasFailed(s, f) && HasFailed(Run(s, steps), f)
    ensures i < |steps| && IsRun(s, steps[..i]) && MayFail(Run(s, steps[..i]), steps[i], f)
    decreases |steps|
  {
    var s' := Apply(s, steps[0]);
    if HasFailed(s', f) {
      i := 0;
      FailsBy(s, steps[0], f);
      assert steps[..0] == [];
    } else {
      var j := FailedOnlyBy(s', steps[1..], f);
      i := j + 1;
      PrefixIsRun(s, steps, i);
      assert steps[..i][1..] == steps[1..][..j];
    }
  }

  // ---- what is kept for reuse ----

  /** A stream returned while fewer than eight lie idle is on top of its own endpoint's stack; no other stack moves. */
  lemma ReturnedIsOnTop(idle: IdlePool, e: Endpoint, x: StreamId, now: nat)
    ensures forall d :: d != e ==> Stack(CheckinTo(idle, e, x, now), d) == Stack(idle, d)
    ensures |Stack(idle, e)| < 8 ==> Stack(CheckinTo(idle, e, x, now), e) == Stack(idle, e) + [Idle(x, now)]
    ensures |Stack(idle, e)| >= 8 ==> Stack(CheckinTo(idle, e, x, now), e) == Stack(idle, e)
  {
  }

  /** A query takes only from its own endpoint's stack. */
  lemma TakesFromItsOwn(idle: IdlePool, e: Endpoint, now: nat)
    ensures forall d :: d != e ==> Stack(CheckoutFrom(idle, e, now).0, d) == Stack(idle, d)
  {
  }

  /** Returned and asked for again within 30 s, with nothing in between, a stream is reused. */
  lemma ReturnedIsReused(idle: IdlePool, e: Endpoint, x: StreamId, t0: nat, now: nat)
    requires |Stack(idle, e)| < 8 && t0 <= now < t0 + 30_000
    ensures CheckoutFrom(CheckinTo(idle, e, x, t0), e, now).1 == Some(x)
  {
    ReturnedIsOnTop(idle, e, x, t0);
  }

  /** And from 30 s on it is not. */
  lemma OldIsNotReused(idle: IdlePool, e: Endpoint, now: nat)
    requires forall i :: 0 <= i < |Stack(idle, e)| ==> Stack(idle, e)[i].since + 30_000 <= now
    ensures CheckoutFrom(idle, e, now).1 == None
  {
    if e in idle {
      assert Stack(idle, e) == idle[e];
      AllOld(idle[e], now);
    }
  }

  lemma {:induction false} AllOld(stack: seq<Idle>, now: nat)
    requires forall i :: 0 <= i < |stack| ==> stack[i].since + 30_000 <= now
    ensures Pop(stack, now) == ([], None)
  {
    if stack != [] { AllOld(stack[..|stack| - 1], now); }
  }
}
