/**
 * Delivery in the other direction: a caller that waits can always be given its flight's answer,
 * and apart from that only its own timer ends its wait.
 */
module PendingDelivery {
  import opened Wrappers
  import opened Messages
  import opened PendingQueries
  import opened PendingInvariant
  import opened PendingTheorems

  // ---- a value that is there is taken ----

  /** Looking at a channel that has its value ends the wait with that value, for leader and follower alike. */
  lemma LookDelivers(s: State, c: CallerId, g: Gen, answer: Answer)
    requires c in s.callers && s.callers[c].pc == Polling(g)
    requires g in s.sh.channels && s.sh.channels[g].value == Some(answer)
    ensures Enabled(s, Look(c))
    ensures Apply(s, Look(c))
            == At(s, c, if s.callers[c].leader then Returned(g, Delivered(answer)) else Settling(g, Delivered(answer)))
  {
  }

  lemma WakeLooksAgain(s: State, c: CallerId, g: Gen)
    requires c in s.callers && s.callers[c].pc == Parked(g) && g in s.sh.channels && s.sh.channels[g].value.Some?
    ensures Enabled(s, Wake(c)) && Apply(s, Wake(c)) == At(s, c, Polling(g))
  {
  }

  lemma CountOutShape(s: State, c: CallerId, g: Gen, answer: Answer)
    requires c in s.callers && s.callers[c].pc == Settling(g, Delivered(answer))
    ensures Enabled(s, CountOut(c))
    ensures Apply(s, CountOut(c))
            == At(s, c, Counting(g, Delivered(answer))).(sh := s.sh.(followers := s.sh.followers - 1))
  {
  }

  lemma CountKindShape(s: State, c: CallerId, g: Gen, answer: Answer)
    requires c in s.callers && s.callers[c].pc == Counting(g, Delivered(answer))
    ensures Enabled(s, CountKind(c))
    ensures Apply(s, CountKind(c))
            == At(s, c, Returned(g, Delivered(answer))).(sh := s.sh.(successes := s.sh.successes + 1))
  {
  }

  predicate IsCallerStep(step: Step, c: CallerId) {
    step == Wake(c) || step == Look(c) || step == CountOut(c) || step == CountKind(c) || step == CountFollower(c)
  }

  predicate OwnSteps(steps: seq<Step>, c: CallerId) {
    forall i :: 0 <= i < |steps| ==> IsCallerStep(steps[i], c)
  }

  /** The caller has returned the answer; a follower has been counted out, once, as served. */
  function ServedBy(s: State, c: CallerId, g: Gen, answer: Answer): State
    requires c in s.callers
  {
    var sh := if s.callers[c].leader then s.sh
              else s.sh.(followers := s.sh.followers - 1, successes := s.sh.successes + 1);
    State(sh, s.flights, s.callers[c := s.callers[c].(pc := Returned(g, Delivered(answer)))])
  }

  lemma SettlesToEnd(s: State, c: CallerId, g: Gen, answer: Answer)
    requires c in s.callers && !s.callers[c].leader && s.callers[c].pc == Settling(g, Delivered(answer))
    ensures IsRun(s, [CountOut(c), CountKind(c)])
    ensures Run(s, [CountOut(c), CountKind(c)]) == ServedBy(s, c, g, answer)
  {
    CountOutShape(s, c, g, answer);
    var s1 := Apply(s, CountOut(c));
    CountKindShape(s1, c, g, answer);
    RunOfOne(s1, CountKind(c));
    RunCons(s, CountOut(c), [CountKind(c)]);
    assert [CountOut(c)] + [CountKind(c)] == [CountOut(c), CountKind(c)];
    assert Apply(s1, CountKind(c)).callers == s.callers[c := s.callers[c].(pc := Returned(g, Delivered(answer)))];
  }

  lemma PollsToEnd(s: State, c: CallerId, g: Gen, answer: Answer) returns (steps: seq<Step>)
    requires c in s.callers && s.callers[c].pc == Polling(g)
    requires g in s.sh.channels && s.sh.channels[g].value == Some(answer)
    ensures IsRun(s, steps) && OwnSteps(steps, c) && Run(s, steps) == ServedBy(s, c, g, answer)
  {
    LookDelivers(s, c, g, answer);
    if s.callers[c].leader {
      steps := [Look(c)];
      RunOfOne(s, Look(c));
    } else {
      var s1 := At(s, c, Settling(g, Delivered(answer)));
      SettlesToEnd(s1, c, g, answer);
      RunCons(s, Look(c), [CountOut(c), CountKind(c)]);
      steps := [Look(c)] + [CountOut(c), CountKind(c)];
      SameService(s, c, g, answer, Settling(g, Delivered(answer)));
    }
  }

  lemma SameService(s: State, c: CallerId, g: Gen, answer: Answer, pc: CallerPc)
    requires c in s.callers
    ensures ServedBy(At(s, c, pc), c, g, answer) == ServedBy(s, c, g, answer)
  {
    assert At(s, c, pc).callers[c := s.callers[c].(pc := Returned(g, Delivered(answer)))]
        == s.callers[c := s.callers[c].(pc := Returned(g, Delivered(answer)))];
  }

  /**
   * From every state, a caller that waits on a channel whose value is there reaches its end by
   * its own steps alone: it returns that value, and a follower is counted out once, as served.
   */
  lemma ReadsToEnd(s: State, c: CallerId, g: Gen, answer: Answer) returns (steps: seq<Step>)
    requires c in s.callers && (s.callers[c].pc == Polling(g) || s.callers[c].pc == Parked(g))
    requires g in s.sh.channels && s.sh.channels[g].value == Some(answer)
    ensures IsRun(s, steps) && OwnSteps(steps, c) && Run(s, steps) == ServedBy(s, c, g, answer)
  {
    if s.callers[c].pc == Polling(g) {
      steps := PollsToEnd(s, c, g, answer);
    } else {
      WakeLooksAgain(s, c, g);
      var rest := PollsToEnd(At(s, c, Polling(g)), c, g, answer);
      RunCons(s, Wake(c), rest);
      steps := [Wake(c)] + rest;
      SameService(s, c, g, answer, Polling(g));
    }
  }

  // ---- and it gets there ----

  /** What a flight will have recorded once it is answered with `answer`, if it has not been yet. */
  function ResultWith(f: Flight, answer: Answer): Answer {
    if f.result.Some? then f.result.value else answer
  }

  /** Callers as a flight's own steps leave them: its leader may have gone on to wait. */
  ghost predicate CallersWait(s: State, s': State, g: Gen) {
    forall c :: c in s.callers ==>
      c in s'.callers &&
      (s'.callers[c] == s.callers[c] ||
       (s.callers[c].pc == Leading(g) && s'.callers[c] == s.callers[c].(pc := Polling(g))))
  }

  lemma LeaderStepEffect(s: State, g: Gen, answer: Answer)
    requires Inv(s) && g in s.flights && (s.flights[g].pc.Inserted? || s.flights[g].pc.Started?)
    ensures Enabled(s, NextStep(s.flights[g], g, answer))
    ensures var s' := Apply(s, NextStep(s.flights[g], g, answer));
            && CallersWait(s, s', g) && g in s'.flights
            && ResultWith(s'.flights[g], answer) == ResultWith(s.flights[g], answer)
  {
    assert FlightOk(s, g);
    if s.flights[g].pc.Inserted? {
      CountLeaderShape(s, s.flights[g].leader, g);
    } else {
      SpawnShape(s, s.flights[g].leader, g);
    }
  }

  lemma TaskStepEffect(s: State, g: Gen, answer: Answer)
    requires Inv(s) && g in s.flights
    requires !s.flights[g].pc.Inserted? && !s.flights[g].pc.Started? && !s.flights[g].pc.Finished?
    ensures Enabled(s, NextStep(s.flights[g], g, answer))
    ensures var s' := Apply(s, NextStep(s.flights[g], g, answer));
            s'.callers == s.callers && g in s'.flights
            && ResultWith(s'.flights[g], answer) == ResultWith(s.flights[g], answer)
  {
    assert FlightOk(s, g);
  }

  lemma OwnStepEffect(s: State, g: Gen, answer: Answer)
    requires Inv(s) && g in s.flights && !s.flights[g].pc.Finished?
    ensures Enabled(s, NextStep(s.flights[g], g, answer))
    ensures var s' := Apply(s, NextStep(s.flights[g], g, answer));
            && CallersWait(s, s', g) && g in s'.flights
            && ResultWith(s'.flights[g], answer) == ResultWith(s.flights[g], answer)
  {
    if s.flights[g].pc.Inserted? || s.flights[g].pc.Started? {
      LeaderStepEffect(s, g, answer);
    } else {
      TaskStepEffect(s, g, answer);
    }
  }

  /** A flight's own steps take it to its end, with the answer it was given, and leave its waiters waiting. */
  lemma {:induction false} FlightEnds(s: State, g: Gen, answer: Answer) returns (steps: seq<Step>)
    requires Inv(s) && g in s.flights
    ensures IsRun(s, steps)
    ensures var s' := Run(s, steps);
            && Inv(s') && g in s'.flights && s'.flights[g].pc.Finished?
            && s'.flights[g].result == Some(ResultWith(s.flights[g], answer)) && CallersWait(s, s', g)
    decreases Rank(s.flights[g].pc)
  {
    assert FlightOk(s, g);
    if s.flights[g].pc.Finished? {
      steps := [];
    } else {
      var step := NextStep(s.flights[g], g, answer);
      OwnStep(s, g, answer);
      OwnStepEffect(s, g, answer);
      StepKeepsInv(s, step);
      var rest := FlightEnds(Apply(s, step), g, answer);
      RunCons(s, step, rest);
      steps := [step] + rest;
    }
  }

  predicate Waits(caller: Caller, g: Gen) {
    caller.pc == Leading(g) || caller.pc == Joining(g) || caller.pc == Polling(g) || caller.pc == Parked(g)
  }

  /** At the end of its flight a waiter finds the result in its channel. */
  lemma EndedFlightIsThere(s: State, c: CallerId, g: Gen)
    requires Inv(s) && c in s.callers && (s.callers[c].pc == Polling(g) || s.callers[c].pc == Parked(g))
    requires g in s.flights && s.flights[g].pc.Finished?
    ensures g in s.sh.channels && s.sh.channels[g].value == s.flights[g].result && s.flights[g].result.Some?
  {
    assert FlightOk(s, g);
    assert Holds(s.callers[c].pc) == Some(g);
  }

  lemma LeadingMoves(s: State, s': State, c: CallerId, g: Gen)
    requires CallersWait(s, s', g) && Inv(s') && g in s'.flights && s'.flights[g].pc.Finished?
    requires c in s.callers && Waits(s.callers[c], g) && !s.callers[c].pc.Joining?
    ensures c in s'.callers && (s'.callers[c].pc == Polling(g) || s'.callers[c].pc == Parked(g))
  {
    assert CallerOk(s', c);
  }

  lemma WaiterIsServedFrom(s: State, c: CallerId, g: Gen, answer: Answer) returns (steps: seq<Step>)
    requires Inv(s) && c in s.callers && Waits(s.callers[c], g) && !s.callers[c].pc.Joining? && g in s.flights
    ensures IsRun(s, steps)
    ensures c in Run(s, steps).callers
    ensures Run(s, steps).callers[c].pc == Returned(g, Delivered(ResultWith(s.flights[g], answer)))
  {
    var first := FlightEnds(s, g, answer);
    var s1 := Run(s, first);
    LeadingMoves(s, s1, c, g);
    EndedFlightIsThere(s1, c, g);
    var rest := ReadsToEnd(s1, c, g, s1.flights[g].result.value);
    RunConcat(s, first, rest);
    steps := first + rest;
  }

  lemma JoiningWaits(s: State, c: CallerId, g: Gen)
    requires Inv(s) && c in s.callers && s.callers[c].pc == Joining(g)
    ensures Enabled(s, CountFollower(c)) && Inv(Apply(s, CountFollower(c)))
    ensures var s' := Apply(s, CountFollower(c));
            s'.flights == s.flights && c in s'.callers && s'.callers[c].pc == Polling(g)
  {
    CountFollowerShape(s, c, g);
    CountFollowerKeepsInv(s, c);
  }

  /**
   * No waiter is stranded. From every state of every run, a leader or follower anywhere between
   * the map and its result can still be served: the steps of its flight, then its own, end with
   * it returning the flight's answer, the one already recorded or the one still to come.
   */
  lemma EveryWaiterIsServed(s: State, c: CallerId, g: Gen, answer: Answer) returns (steps: seq<Step>)
    requires Reachable(s) && c in s.callers && Waits(s.callers[c], g)
    ensures g in s.flights && IsRun(s, steps) && c in Run(s, steps).callers
    ensures Run(s, steps).callers[c].pc == Returned(g, Delivered(ResultWith(s.flights[g], answer)))
  {
    ReachableInv(s);
    assert CallerOk(s, c);
    if s.callers[c].pc.Joining? {
      JoiningWaits(s, c, g);
      var rest := WaiterIsServedFrom(Apply(s, CountFollower(c)), c, g, answer);
      RunCons(s, CountFollower(c), rest);
      steps := [CountFollower(c)] + rest;
    } else {
      steps := WaiterIsServedFrom(s, c, g, answer);
    }
  }

  // ---- what ends a wait otherwise ----

  predicate HasTimedOut(s: State, c: CallerId) {
    c in s.callers &&
    var pc := s.callers[c].pc;
    (pc.Settling? || pc.Counting? || pc.Returned?) && pc.outcome.TimedOut?
  }

  lemma TimesOutByExpiring(s: State, step: Step, c: CallerId)
    requires Inv(s) && Enabled(s, step) && !HasTimedOut(s, c) && HasTimedOut(Apply(s, step), c)
    ensures step == Expire(c)
  {
    if step.Wake? { WakeFindsValue(s, step.c); }
  }

  /** Over any run: a caller times out only by its own timer, while it was parked. */
  lemma {:induction false} TimeoutIsTheTimers(s: State, steps: seq<Step>, c: CallerId)
    requires Inv(s) && IsRun(s, steps) && !HasTimedOut(s, c) && HasTimedOut(Run(s, steps), c)
    ensures Expire(c) in steps
    decreases |steps|
  {
    if steps != [] {
      var s' := Apply(s, steps[0]);
      if HasTimedOut(s', c) {
        TimesOutByExpiring(s, steps[0], c);
      } else {
        StepKeepsInv(s, steps[0]);
        TimeoutIsTheTimers(s', steps[1..], c);
      }
    }
  }

  /** The answer a flight was given in a run, if it was given one. */
  function GivenReply(steps: seq<Step>, g: Gen): Option<Answer> {
    if steps == [] then None
    else if steps[0].Reply? && steps[0].g == g then Some(steps[0].answer)
    else GivenReply(steps[1..], g)
  }

  lemma ReplyIsRecorded(s: State, g: Gen, answer: Answer)
    requires Enabled(s, Reply(g, answer))
    ensures g in Apply(s, Reply(g, answer)).flights && Apply(s, Reply(g, answer)).flights[g].result == Some(answer)
  {
  }

  lemma {:induction false} ResultStays(s: State, steps: seq<Step>, g: Gen)
    requires Inv(s) && IsRun(s, steps) && g in s.flights && s.flights[g].result.Some?
    ensures g in Run(s, steps).flights && Run(s, steps).flights[g].result == s.flights[g].result
    decreases |steps|
  {
    if steps != [] {
      FlightIsStable(s, steps[0], g);
      StepKeepsInv(s, steps[0]);
      ResultStays(Apply(s, steps[0]), steps[1..], g);
    }
  }

  /** Over any run, the result of a generation is the very answer its upstream query was given. */
  lemma {:induction false} ResultIsTheReply(s: State, steps: seq<Step>, g: Gen)
    requires Inv(s) && IsRun(s, steps) && GivenReply(steps, g).Some?
    ensures g in Run(s, steps).flights && Run(s, steps).flights[g].result == GivenReply(steps, g)
    decreases |steps|
  {
    StepKeepsInv(s, steps[0]);
    if steps[0].Reply? && steps[0].g == g {
      ReplyIsRecorded(s, g, steps[0].answer);
      ResultStays(Apply(s, steps[0]), steps[1..], g);
    } else {
      ResultIsTheReply(Apply(s, steps[0]), steps[1..], g);
    }
  }
}
