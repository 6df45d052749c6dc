/** The coalescing map as the running object: one method for each stretch of code between awaits. */
module PendingObject {
  import opened Wrappers
  import opened Messages
  import opened Metrics
  import opened PendingQueries
  import opened PendingInvariant

  function Completed(sh: Shared, key: Key, answer: Answer, hasReceiver: bool): Shared {
    var (taken, tx) := TakeEntry(sh.(leaders := sh.leaders - 1), key);
    match tx
    case None => taken
    case Some(g) => CloseSender(Publish(taken, g, answer, hasReceiver), g)
  }

  function Settled(sh: Shared, outcome: Outcome): Shared {
    if outcome.Delivered? then sh.(followers := sh.followers - 1, successes := sh.successes + 1)
    else sh.(followers := sh.followers - 1, timeouts := sh.timeouts + 1)
  }

  function ResultOf(outcome: Outcome): Answer {
    match outcome
    case Delivered(answer) => answer
    case SenderGone => Err(Network("pending upstream request was cancelled"))
    case TimedOut => Err(UpstreamError.Timeout)
  }

  lemma RemoveShape(s: State, g: Gen)
    requires Inv(s) && Enabled(s, Remove(g))
    ensures Apply(s, Remove(g))
            == State(TakeEntry(s.sh, s.flights[g].key).0,
                     s.flights[g := s.flights[g].(pc := Removed(Some(g)))], s.callers)
    ensures TakeEntry(s.sh, s.flights[g].key).1 == Some(g)
  {
    RemoveTakesOwn(s, g);
  }

  lemma SendAndClose(s: State, g: Gen)
    requires g in s.flights && s.flights[g].pc == Removed(Some(g)) && s.flights[g].result.Some?
    ensures Enabled(s, Send(g)) && Enabled(Apply(s, Send(g)), Close(g))
    ensures Apply(Apply(s, Send(g)), Close(g)).sh
            == CloseSender(Publish(s.sh, g, s.flights[g].result.value, HasReceiver(s, g)), g)
  {
  }

  lemma RunOfTwo(s: State, a: Step, b: Step)
    requires Enabled(s, a) && Enabled(Apply(s, a), b)
    ensures IsRun(s, [a, b]) && Run(s, [a, b]) == Apply(Apply(s, a), b)
  {
    var none: seq<Step> := [];
    var s2 := Apply(Apply(s, a), b);
    assert IsRun(s2, none) && Run(s2, none) == s2;
    RunCons(Apply(s, a), b, none);
    RunCons(s, a, [b]);
    assert [b] + none == [b] && [a] + [b] == [a, b];
  }

  /** The last three steps of a flight: out of the map, to the receivers, and gone. */
  lemma LastThreeSteps(s: State, g: Gen)
    requires Inv(s) && g in s.flights && s.flights[g].pc.Uncounted?
    ensures var f := s.flights[g];
            var steps := [Remove(g), Send(g), Close(g)];
            && f.result.Some? && IsRun(s, steps)
            && Run(s, steps).sh
               == CloseSender(Publish(TakeEntry(s.sh, f.key).0, g, f.result.value, HasReceiver(s, g)), g)
            && TakeEntry(s.sh, f.key).1 == Some(g)
  {
    assert FlightOk(s, g);
    RemoveShape(s, g);
    var s' := Apply(s, Remove(g));
    SendAndClose(s', g);
    SameReceivers(s, s', g);
    RunOfTwo(s', Send(g), Close(g));
    RunCons(s, Remove(g), [Send(g), Close(g)]);
    assert [Remove(g)] + [Send(g), Close(g)] == [Remove(g), Send(g), Close(g)];
  }

  lemma SameReceivers(s: State, s': State, g: Gen)
    requires s'.callers == s.callers
    ensures HasReceiver(s', g) <==> HasReceiver(s, g)
  {
  }

  lemma Uncounting(s: State, g: Gen) returns (s1: State)
    requires Inv(s) && g in s.flights && s.flights[g].pc.Answered?
    ensures Enabled(s, Uncount(g)) && s1 == Apply(s, Uncount(g)) && Inv(s1)
    ensures s1.sh == s.sh.(leaders := s.sh.leaders - 1)
    ensures g in s1.flights && s1.flights[g] == s.flights[g].(pc := Uncounted)
    ensures HasReceiver(s1, g) <==> HasReceiver(s, g)
  {
    s1 := Apply(s, Uncount(g));
    UncountShape(s, g);
    UncountKeepsInv(s, g);
    SameReceivers(s, s1, g);
  }

  /** `Complete` is what the last four steps of a flight do to the shared state when nothing comes between. */
  lemma CompleteIsFourSteps(s: State, g: Gen)
    requires Inv(s) && g in s.flights && s.flights[g].pc.Answered?
    ensures var f := s.flights[g];
            var steps := [Uncount(g), Remove(g), Send(g), Close(g)];
            && f.result.Some? && IsRun(s, steps)
            && Run(s, steps).sh == Completed(s.sh, f.key, f.result.value, HasReceiver(s, g))
  {
    var s1 := Uncounting(s, g);
    LastThreeSteps(s1, g);
    RunCons(s, Uncount(g), [Remove(g), Send(g), Close(g)]);
    assert [Uncount(g)] + [Remove(g), Send(g), Close(g)] == [Uncount(g), Remove(g), Send(g), Close(g)];
    CompletedIs(s.sh, s.flights[g].key, s.flights[g].result.value, HasReceiver(s, g), g);
  }

  lemma CompletedIs(sh: Shared, key: Key, answer: Answer, hasReceiver: bool, g: Gen)
    requires TakeEntry(sh.(leaders := sh.leaders - 1), key).1 == Some(g)
    ensures Completed(sh, key, answer, hasReceiver)
            == CloseSender(Publish(TakeEntry(sh.(leaders := sh.leaders - 1), key).0, g, answer, hasReceiver), g)
  {
  }

  /** `Finish` does to the gauges what a follower's two settling steps do. */
  lemma FinishIsTwoSteps(s: State, c: CallerId)
    requires Enabled(s, CountOut(c))
    ensures Enabled(Apply(s, CountOut(c)), CountKind(c))
    ensures Apply(Apply(s, CountOut(c)), CountKind(c)).sh == Settled(s.sh, s.callers[c].pc.outcome)
  {
  }

  class PendingMap {
    const metrics: MetricsRecorder
    var inner: map<Key, Gen>
    var channels: map<Gen, Channel>
    var nextGen: Gen

    function Model(): Shared
      reads this, metrics
    {
      Shared(inner, channels, nextGen, metrics.pendingLeaders, metrics.pendingFollowers,
             metrics.pendingFollowerSuccesses, metrics.pendingFollowerTimeouts)
    }

    constructor (metrics: MetricsRecorder)
      ensures this.metrics == metrics && inner == map[] && channels == map[] && nextGen == 0
    {
      this.metrics := metrics;
      inner, channels, nextGen := map[], map[], 0;
    }

    /** The locked section of `query`: join the flight for `key`, or open a new channel for it. */
    method JoinOrLead(key: Key) returns (leader: bool, gen: Gen)
      modifies this
      ensures (Model(), leader, gen) == Register(old(Model()), key)
    {
      if key in inner {
        leader, gen := false, inner[key];
      } else {
        leader, gen := true, nextGen;
        nextGen := nextGen + 1;
        channels := channels[gen := Channel(None, true)];
        inner := inner[key := gen];
      }
    }

    /** What a caller does after the lock and before its first await, short of spawning the task. */
    method CountIn(leader: bool)
      modifies metrics
      ensures Model() == if leader then old(Model()).(leaders := old(Model()).leaders + 1)
                         else old(Model()).(followers := old(Model()).followers + 1)
    {
      if leader {
        metrics.RecordPendingLeaderStarted();
      } else {
        metrics.RecordPendingFollowerJoined();
      }
    }

    /** The detached task once its upstream query has answered, run without interference. */
    method Complete(key: Key, answer: Answer, hasReceiver: bool)
      modifies this, metrics
      ensures Model() == Completed(old(Model()), key, answer, hasReceiver)
    {
      metrics.RecordPendingLeaderCompleted();
      if key in inner {
        var g := inner[key];
        inner := inner - {key};
        if g in channels {
          if hasReceiver { channels := channels[g := channels[g].(value := Some(answer))]; }
          channels := channels[g := channels[g].(open := false)];
        }
      }
    }

    /** The tail of `query`: settle the gauges of a follower and turn the outcome into a result. */
    method Finish(leader: bool, outcome: Outcome) returns (result: Answer)
      modifies metrics
      ensures Model() == if leader then old(Model()) else Settled(old(Model()), outcome)
      ensures result == ResultOf(outcome)
      ensures outcome.Delivered? ==> result == outcome.answer
      ensures outcome.TimedOut? ==> result == Err(UpstreamError.Timeout)
      ensures outcome.SenderGone? ==> result == Err(Network("pending upstream request was cancelled"))
      ensures !leader ==> Model().followers == old(Model()).followers - 1
      ensures !leader ==> Model().successes == old(Model()).successes + if outcome.Delivered? then 1 else 0
      ensures !leader ==> Model().timeouts == old(Model()).timeouts + if outcome.Delivered? then 0 else 1
    {
      match outcome
      case Delivered(answer) =>
        if !leader { metrics.RecordPendingFollowerResolved(); }
        result := answer;
      case SenderGone =>
        if !leader { metrics.RecordPendingFollowerTimeout(); }
        result := Err(Network("pending upstream request was cancelled"));
      case TimedOut =>
        if !leader { metrics.RecordPendingFollowerTimeout(); }
        result := Err(UpstreamError.Timeout);
    }
  }
}
