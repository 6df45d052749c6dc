/** What every interleaving of the coalescing protocol guarantees. */
module PendingTheorems {
  import opened Wrappers
  import opened Messages
  import opened PendingQueries
  import opened PendingInvariant

  // ---- single flight ----

  /**
   * The map holds a key exactly while one flight for it stands between insertion
   * and removal, and two upstream runs for one key never overlap.
   */
  lemma SingleFlight(s: State)
    requires Reachable(s)
    ensures forall k :: k in s.sh.inner <==>
              exists g :: g in s.flights && s.flights[g].key == k && Listed(s.flights[g].pc)
    ensures forall g, h | g in s.flights && h in s.flights && s.flights[g].key == s.flights[h].key ::
              Listed(s.flights[g].pc) && Listed(s.flights[h].pc) ==> g == h
    ensures forall g, h | g in s.flights && h in s.flights && s.flights[g].key == s.flights[h].key ::
              s.flights[g].pc.Querying? && s.flights[h].pc.Querying? ==> g == h
  {
    ReachableInv(s);
  }

  /** A finishing task removes the entry of its own generation, never a successor's. */
  lemma RemovesOwnEntry(s: State, g: Gen)
    requires Reachable(s) && Enabled(s, Remove(g))
    ensures s.flights[g].key in s.sh.inner && s.sh.inner[s.flights[g].key] == g
    ensures Apply(s, Remove(g)).flights[g].pc == Removed(Some(g))
  {
    ReachableInv(s);
    RemoveTakesOwn(s, g);
  }

  // ---- delivery ----

  /**
   * A caller that returns an upstream result returns the result of the run started
   * for the channel it holds, under its own key; and no caller ever returns because
   * the sender went away.
   */
  lemma Delivery(s: State, c: CallerId)
    requires Reachable(s) && c in s.callers && s.callers[c].pc.Returned?
    ensures s.callers[c].pc.gen in s.flights
    ensures s.callers[c].key == Some(s.flights[s.callers[c].pc.gen].key)
    ensures !s.callers[c].pc.outcome.SenderGone?
    ensures s.callers[c].pc.outcome.Delivered? ==>
              s.flights[s.callers[c].pc.gen].result == Some(s.callers[c].pc.outcome.answer)
  {
    ReachableInv(s);
    assert CallerOk(s, c);
  }

  ghost function CountReplies(steps: seq<Step>, g: Gen): nat {
    if steps == [] then 0
    else CountReplies(steps[1..], g) + if steps[0].Reply? && steps[0].g == g then 1 else 0
  }

  predicate Replied(s: State, g: Gen) {
    g in s.flights && s.flights[g].result.Some?
  }

  /** What a flight has recorded is never rewritten. */
  lemma FlightIsStable(s: State, step: Step, g: Gen)
    requires Inv(s) && Enabled(s, step) && g in s.flights
    ensures g in Apply(s, step).flights
    ensures Apply(s, step).flights[g].key == s.flights[g].key
    ensures Apply(s, step).flights[g].query == s.flights[g].query
    ensures s.flights[g].result.Some? ==> Apply(s, step).flights[g].result == s.flights[g].result
  {
    if MovesFlight(step) {
      assert FlightOk(s, g);
      MoverKeepsRecord(s, step, g);
    } else {
      OthersKeepFlights(s, step, g);
    }
  }

  lemma MoverKeepsRecord(s: State, step: Step, g: Gen)
    requires FlightOk(s, g) && Enabled(s, step) && MovesFlight(step)
    ensures g in Apply(s, step).flights
    ensures Apply(s, step).flights[g].key == s.flights[g].key
    ensures Apply(s, step).flights[g].query == s.flights[g].query
    ensures s.flights[g].result.Some? ==> Apply(s, step).flights[g].result == s.flights[g].result
  {
  }

  lemma RepliedStep(s: State, step: Step, g: Gen)
    requires Inv(s) && Enabled(s, step)
    ensures Replied(Apply(s, step), g) <==> Replied(s, g) || (step.Reply? && step.g == g)
    ensures step.Reply? && step.g == g ==> !Replied(s, g)
  {
    if g in s.flights { assert FlightOk(s, g); FlightIsStable(s, step, g); }
  }

  /** Over any run, a generation's upstream query is answered at most once, and its result is that answer. */
  lemma {:induction false} OneAnswerPerGeneration(s: State, steps: seq<Step>, g: Gen)
    requires Inv(s) && IsRun(s, steps)
    ensures CountReplies(steps, g) + (if Replied(s, g) then 1 else 0) == (if Replied(Run(s, steps), g) then 1 else 0)
    decreases |steps|
  {
    if steps == [] {
    } else {
      RepliedStep(s, steps[0], g);
      StepKeepsInv(s, steps[0]);
      OneAnswerPerGeneration(Apply(s, steps[0]), steps[1..], g);
    }
  }

  // ---- progress: dropping callers cannot strand a map entry ----

  function Rank(pc: FlightPc): nat {
    match pc
    case Inserted => 7
    case Started => 6
    case Querying => 5
    case Answered => 4
    case Uncounted => 3
    case Removed(_) => 2
    case Sent(_) => 1
    case Finished => 0
  }

  /** The next step of a flight, taken by its leader before the task exists and by the task afterwards. */
  function NextStep(f: Flight, g: Gen, answer: Answer): Step
    requires !f.pc.Finished?
  {
    match f.pc
    case Inserted => CountLeader(f.leader)
    case Started => Spawn(f.leader)
    case Querying => Reply(g, answer)
    case Answered => Uncount(g)
    case Uncounted => Remove(g)
    case Removed(_) => Send(g)
    case Sent(_) => Close(g)
  }

  predicate MovesFlight(step: Step) {
    step.CountLeader? || step.Spawn? || step.Reply? || step.Uncount? || step.Remove? || step.Send? || step.Close?
  }

  lemma OthersKeepFlights(s: State, step: Step, g: Gen)
    requires Inv(s) && Enabled(s, step) && !MovesFlight(step) && g in s.flights
    ensures g in Apply(s, step).flights && Apply(s, step).flights[g] == s.flights[g]
  {
  }

  lemma RankNeverRises(s: State, step: Step, g: Gen)
    requires Inv(s) && Enabled(s, step) && g in s.flights
    ensures g in Apply(s, step).flights && Rank(Apply(s, step).flights[g].pc) <= Rank(s.flights[g].pc)
  {
    if MovesFlight(step) {
      MoverLowersRank(s, step, g);
    } else {
      OthersKeepFlights(s, step, g);
    }
  }

  lemma MoverLowersRank(s: State, step: Step, g: Gen)
    requires Enabled(s, step) && MovesFlight(step) && g in s.flights
    ensures g in Apply(s, step).flights && Rank(Apply(s, step).flights[g].pc) <= Rank(s.flights[g].pc)
  {
  }

  /**
   * In every reachable state, whatever callers were dropped or timed out, an unfinished
   * flight can still move, every step keeps or lowers its rank, and its own step lowers
   * it: seven steps of its own clear its map entry and close its channel.
   */
  lemma FlightProgress(s: State, g: Gen, answer: Answer)
    requires Reachable(s) && g in s.flights && !s.flights[g].pc.Finished?
    ensures Enabled(s, NextStep(s.flights[g], g, answer))
    ensures Rank(Apply(s, NextStep(s.flights[g], g, answer)).flights[g].pc) == Rank(s.flights[g].pc) - 1
    ensures forall step :: Enabled(s, step) ==>
              g in Apply(s, step).flights && Rank(Apply(s, step).flights[g].pc) <= Rank(s.flights[g].pc)
  {
    ReachableInv(s);
    OwnStep(s, g, answer);
    forall step | Enabled(s, step)
      ensures g in Apply(s, step).flights && Rank(Apply(s, step).flights[g].pc) <= Rank(s.flights[g].pc)
    {
      RankNeverRises(s, step, g);
    }
  }

  lemma OwnStep(s: State, g: Gen, answer: Answer)
    requires Inv(s) && g in s.flights && !s.flights[g].pc.Finished?
    ensures Enabled(s, NextStep(s.flights[g], g, answer))
    ensures g in Apply(s, NextStep(s.flights[g], g, answer)).flights
    ensures Rank(Apply(s, NextStep(s.flights[g], g, answer)).flights[g].pc) == Rank(s.flights[g].pc) - 1
  {
    assert FlightOk(s, g);
    if s.flights[g].pc.Inserted? {
      CountLeaderShape(s, s.flights[g].leader, g);
    } else if s.flights[g].pc.Started? {
      SpawnShape(s, s.flights[g].leader, g);
    } else {
      OwnTaskStep(s, g, answer);
    }
  }

  lemma OwnTaskStep(s: State, g: Gen, answer: Answer)
    requires FlightOk(s, g)
    requires !s.flights[g].pc.Inserted? && !s.flights[g].pc.Started? && !s.flights[g].pc.Finished?
    ensures Enabled(s, NextStep(s.flights[g], g, answer))
    ensures g in Apply(s, NextStep(s.flights[g], g, answer)).flights
    ensures Rank(Apply(s, NextStep(s.flights[g], g, answer)).flights[g].pc) == Rank(s.flights[g].pc) - 1
  {
  }

  /** From any reachable state a flight's own steps alone take it to its end, which clears its map entry. */
  lemma {:induction false} EntryClears(s: State, g: Gen, answer: Answer) returns (steps: seq<Step>)
    requires Inv(s) && g in s.flights
    ensures IsRun(s, steps) && |steps| == Rank(s.flights[g].pc)
    ensures g in Run(s, steps).flights && Run(s, steps).flights[g].pc.Finished?
    ensures forall k :: k in Run(s, steps).sh.inner ==> Run(s, steps).sh.inner[k] != g
    ensures g in Run(s, steps).sh.channels && !Run(s, steps).sh.channels[g].open
    decreases Rank(s.flights[g].pc)
  {
    if s.flights[g].pc.Finished? {
      steps := [];
      assert FlightOk(s, g);
    } else {
      var step := NextStep(s.flights[g], g, answer);
      OwnStep(s, g, answer);
      var s' := Apply(s, step);
      StepKeepsInv(s, step);
      var rest := EntryClears(s', g, answer);
      steps := [step] + rest;
      assert steps[1..] == rest;
    }
  }

  // ---- gauges ----

  predicate InFlightGauge(f: Flight) {
    f.pc.Started? || f.pc.Querying? || f.pc.Answered?
  }

  /** A follower that raised the gauge and has not lowered it: it waits, or its future was dropped. */
  predicate InWaitGauge(caller: Caller) {
    !caller.leader && (caller.pc.Polling? || caller.pc.Parked? || caller.pc.Settling? || caller.pc.DroppedWaiting?)
  }

  predicate IsServed(caller: Caller) {
    !caller.leader && caller.pc.Returned? && caller.pc.outcome.Delivered?
  }

  predicate IsUnserved(caller: Caller) {
    !caller.leader && caller.pc.Returned? && !caller.pc.outcome.Delivered?
  }

  function Flying(s: State): set<Gen> {
    set g | g in s.flights && InFlightGauge(s.flights[g])
  }

  function Those(s: State, p: Caller -> bool): set<CallerId> {
    set c | c in s.callers && p(s.callers[c])
  }

  ghost predicate Gauges(s: State) {
    && s.sh.leaders == |Flying(s)|
    && s.sh.followers == |Those(s, InWaitGauge)|
    && s.sh.successes == |Those(s, IsServed)|
    && s.sh.timeouts == |Those(s, IsUnserved)|
  }

  function Bit(b: bool): int { if b then 1 else 0 }

  lemma SizeChange<T>(a: set<T>, b: set<T>, x: T)
    requires forall y :: y != x ==> (y in a <==> y in b)
    ensures |b| == |a| + Bit(x in b) - Bit(x in a)
  {
    if x in b {
      assert b == a + {x};
    } else {
      assert b == a - {x};
    }
  }

  lemma ThoseChange(s: State, s': State, c: CallerId, p: Caller -> bool)
    requires c in s'.callers && s'.callers == s.callers[c := s'.callers[c]]
    ensures |Those(s', p)| == |Those(s, p)| + Bit(p(s'.callers[c])) - Bit(c in s.callers && p(s.callers[c]))
  {
    SizeChange(Those(s, p), Those(s', p), c);
  }

  lemma FlyingChange(s: State, s': State, g: Gen)
    requires g in s'.flights && s'.flights == s.flights[g := s'.flights[g]]
    ensures |Flying(s')|
            == |Flying(s)| + Bit(InFlightGauge(s'.flights[g])) - Bit(g in s.flights && InFlightGauge(s.flights[g]))
  {
    SizeChange(Flying(s), Flying(s'), g);
  }

  /** A caller moves, and the counters with it. */
  lemma CallerMovesGauges(s: State, s': State, c: CallerId)
    requires Gauges(s) && s'.flights == s.flights && s'.sh.leaders == s.sh.leaders
    requires c in s'.callers && s'.callers == s.callers[c := s'.callers[c]]
    requires s'.sh.followers - s.sh.followers == Delta(s, s', c, InWaitGauge)
    requires s'.sh.successes - s.sh.successes == Delta(s, s', c, IsServed)
    requires s'.sh.timeouts - s.sh.timeouts == Delta(s, s', c, IsUnserved)
    ensures Gauges(s')
  {
    ThoseChange(s, s', c, InWaitGauge);
    ThoseChange(s, s', c, IsServed);
    ThoseChange(s, s', c, IsUnserved);
    assert Flying(s') == Flying(s);
  }

  function Delta(s: State, s': State, c: CallerId, p: Caller -> bool): int
    requires c in s'.callers
  {
    Bit(p(s'.callers[c])) - Bit(c in s.callers && p(s.callers[c]))
  }

  lemma ArriveKeepsGauges(s: State, c: CallerId, query: Message, key: Option<Key>)
    requires Gauges(s) && Enabled(s, Arrive(c, query, key))
    ensures Gauges(Apply(s, Arrive(c, query, key)))
  {
    CallerMovesGauges(s, Apply(s, Arrive(c, query, key)), c);
  }

  lemma CountFollowerKeepsGauges(s: State, c: CallerId)
    requires Inv(s) && Gauges(s) && Enabled(s, CountFollower(c))
    ensures Gauges(Apply(s, CountFollower(c)))
  {
    assert CallerOk(s, c);
    CallerMovesGauges(s, Apply(s, CountFollower(c)), c);
  }

  lemma LookKeepsGauges(s: State, c: CallerId)
    requires Gauges(s) && Enabled(s, Look(c))
    ensures Gauges(Apply(s, Look(c)))
  {
    CallerMovesGauges(s, Apply(s, Look(c)), c);
  }

  lemma WakeKeepsGauges(s: State, c: CallerId)
    requires Inv(s) && Gauges(s) && Enabled(s, Wake(c))
    ensures Gauges(Apply(s, Wake(c)))
  {
    WakeFindsValue(s, c);
    CallerMovesGauges(s, At(s, c, Polling(s.callers[c].pc.gen)), c);
  }

  lemma ExpireKeepsGauges(s: State, c: CallerId)
    requires Gauges(s) && Enabled(s, Expire(c))
    ensures Gauges(Apply(s, Expire(c)))
  {
    CallerMovesGauges(s, Apply(s, Expire(c)), c);
  }

  lemma AbandonKeepsGauges(s: State, c: CallerId)
    requires Gauges(s) && Enabled(s, Abandon(c))
    ensures Gauges(Apply(s, Abandon(c)))
  {
    CallerMovesGauges(s, Apply(s, Abandon(c)), c);
  }

  lemma CountOutKeepsGauges(s: State, c: CallerId)
    requires Inv(s) && Gauges(s) && Enabled(s, CountOut(c))
    ensures Gauges(Apply(s, CountOut(c)))
  {
    assert CallerOk(s, c);
    CallerMovesGauges(s, Apply(s, CountOut(c)), c);
  }

  lemma CountKindKeepsGauges(s: State, c: CallerId)
    requires Inv(s) && Gauges(s) && Enabled(s, CountKind(c))
    ensures Gauges(Apply(s, CountKind(c)))
  {
    assert CallerOk(s, c);
    CallerMovesGauges(s, Apply(s, CountKind(c)), c);
  }

  lemma FlightStepKeepsGauges(s: State, step: Step)
    requires Inv(s) && Gauges(s) && Enabled(s, step)
    requires step.Reply? || step.Uncount? || step.Remove? || step.Send? || step.Close?
    ensures Gauges(Apply(s, step))
  {
    var s' := Apply(s, step);
    FlyingChange(s, s', step.g);
    assert s'.callers == s.callers;
  }

  lemma JoinKeepsGauges(s: State, c: CallerId, caller: Caller)
    requires Gauges(s) && c in s.callers && s.callers[c] == caller && caller.pc.Locking? && caller.key.Some?
    requires caller.key.value in s.sh.inner
    ensures Enabled(s, Lock(c)) && Gauges(Apply(s, Lock(c)))
  {
    CallerMovesGauges(s, Joined(s, c, caller), c);
    JoinShape(s, c, caller);
  }

  lemma InsertKeepsGauges(s: State, c: CallerId, caller: Caller)
    requires Inv(s) && Gauges(s)
    requires c in s.callers && s.callers[c] == caller && caller.pc.Locking? && caller.key.Some?
    requires caller.key.value !in s.sh.inner
    ensures Enabled(s, Lock(c)) && Gauges(Apply(s, Lock(c)))
  {
    var g := s.sh.nextGen;
    LeadKeepsGauges(s, Led(s, c, caller), c, g);
    LeadShape(s, c, caller);
  }

  lemma LockKeepsGauges(s: State, c: CallerId)
    requires Inv(s) && Gauges(s) && Enabled(s, Lock(c))
    ensures Gauges(Apply(s, Lock(c)))
  {
    if s.callers[c].key.value in s.sh.inner {
      JoinKeepsGauges(s, c, s.callers[c]);
    } else {
      InsertKeepsGauges(s, c, s.callers[c]);
    }
  }

  lemma LeadKeepsGauges(s: State, s': State, c: CallerId, g: Gen)
    requires Gauges(s) && g !in s.flights && c in s.callers && s.callers[c].pc.Locking?
    requires g in s'.flights && s'.flights == s.flights[g := s'.flights[g]] && s'.flights[g].pc.Inserted?
    requires c in s'.callers && s'.callers == s.callers[c := s'.callers[c]] && s'.callers[c].leader
    requires s'.sh.leaders == s.sh.leaders && s'.sh.followers == s.sh.followers
    requires s'.sh.successes == s.sh.successes && s'.sh.timeouts == s.sh.timeouts
    ensures Gauges(s')
  {
    FlyingChange(s, s', g);
    ThoseChange(s, s', c, InWaitGauge);
    ThoseChange(s, s', c, IsServed);
    ThoseChange(s, s', c, IsUnserved);
  }

  lemma LeadStepKeepsGauges(s: State, step: Step)
    requires Inv(s) && Gauges(s) && Enabled(s, step) && (step.CountLeader? || step.Spawn?)
    ensures Gauges(Apply(s, step))
  {
    var c := step.c;
    var s' := Apply(s, step);
    assert CallerOk(s, c);
    FlyingChange(s, s', s.callers[c].pc.gen);
    assert s'.callers == s.callers[c := s'.callers[c]];
    ThoseChange(s, s', c, InWaitGauge);
    ThoseChange(s, s', c, IsServed);
    ThoseChange(s, s', c, IsUnserved);
  }

  lemma StepKeepsGauges(s: State, step: Step)
    requires Inv(s) && Gauges(s) && Enabled(s, step)
    ensures Gauges(Apply(s, step))
  {
    match step
    case Arrive(c, query, key) => ArriveKeepsGauges(s, c, query, key);
    case Lock(c) => LockKeepsGauges(s, c);
    case CountLeader(_) => LeadStepKeepsGauges(s, step);
    case Spawn(_) => LeadStepKeepsGauges(s, step);
    case CountFollower(c) => CountFollowerKeepsGauges(s, c);
    case Look(c) => LookKeepsGauges(s, c);
    case Wake(c) => WakeKeepsGauges(s, c);
    case Expire(c) => ExpireKeepsGauges(s, c);
    case Abandon(c) => AbandonKeepsGauges(s, c);
    case CountOut(c) => CountOutKeepsGauges(s, c);
    case CountKind(c) => CountKindKeepsGauges(s, c);
    case _ => FlightStepKeepsGauges(s, step);
  }

  lemma {:induction false} RunKeepsGauges(s: State, steps: seq<Step>)
    requires Inv(s) && Gauges(s) && IsRun(s, steps)
    ensures Gauges(Run(s, steps))
    decreases |steps|
  {
    if steps == [] {
    } else {
      StepKeepsInv(s, steps[0]);
      StepKeepsGauges(s, steps[0]);
      RunKeepsGauges(Apply(s, steps[0]), steps[1..]);
    }
  }

  /** A follower past its join, a follower between its two settling increments. */
  predicate HasJoined(caller: Caller) {
    !caller.leader && !caller.pc.Joining? && GenOf(caller.pc).Some?
  }

  predicate BetweenCounters(caller: Caller) {
    !caller.leader && caller.pc.Counting?
  }

  predicate IsReturned(caller: Caller) {
    !caller.leader && caller.pc.Returned?
  }

  predicate IsPastWait(caller: Caller) {
    IsReturned(caller) || BetweenCounters(caller)
  }

  lemma ThoseSplit(s: State, p: Caller -> bool, q: Caller -> bool, r: Caller -> bool)
    requires forall c :: c in s.callers ==> (p(s.callers[c]) <==> q(s.callers[c]) || r(s.callers[c]))
    requires forall c :: c in s.callers ==> !(q(s.callers[c]) && r(s.callers[c]))
    ensures |Those(s, p)| == |Those(s, q)| + |Those(s, r)|
  {
    assert Those(s, p) == Those(s, q) + Those(s, r);
    assert Those(s, q) !! Those(s, r);
  }

  lemma Partition(s: State)
    requires forall c :: c in s.callers && s.callers[c].pc.Leading? ==> s.callers[c].leader
    ensures |Those(s, HasJoined)| ==
              |Those(s, InWaitGauge)| + |Those(s, IsServed)| + |Those(s, IsUnserved)| + |Those(s, BetweenCounters)|
  {
    ThoseSplit(s, HasJoined, InWaitGauge, IsPastWait);
    ThoseSplit(s, IsPastWait, IsReturned, BetweenCounters);
    ThoseSplit(s, IsReturned, IsServed, IsUnserved);
  }

  /**
   * The gauges, in every state of every run: `pending_leaders` counts the flights between
   * start and completion; `pending_followers` counts the followers still waiting and those
   * dropped while waiting, and equals joins minus resolved minus timed out (up to the
   * followers between their two increments). Each returned follower is counted out once.
   */
  lemma GaugeConservation(s: State)
    requires Reachable(s)
    ensures Gauges(s)
    ensures s.sh.followers ==
              |Those(s, HasJoined)| - s.sh.successes - s.sh.timeouts - |Those(s, BetweenCounters)|
    ensures s.sh.leaders >= 0 && s.sh.followers >= 0
  {
    ReachableInv(s);
    var steps :| IsRun(INITIAL, steps) && Run(INITIAL, steps) == s;
    InvInitially();
    RunKeepsGauges(INITIAL, steps);
    forall c | c in s.callers && s.callers[c].pc.Leading? ensures s.callers[c].leader { assert CallerOk(s, c); }
    Partition(s);
  }

  ghost predicate Quiescent(s: State) {
    && (forall g :: g in s.flights ==> s.flights[g].pc.Finished?)
    && (forall c :: c in s.callers ==>
          var pc := s.callers[c].pc;
          pc.Refused? || pc.Returned? || pc.DroppedLocking? || pc.DroppedWaiting?)
  }

  predicate LostFollower(caller: Caller) {
    !caller.leader && caller.pc.DroppedWaiting?
  }

  /**
   * When all work is done the map is empty and no leader is counted, but the follower gauge
   * is back at zero if and only if no follower's future was dropped while it waited.
   */
  lemma GaugeReturnsToZeroIff(s: State)
    requires Reachable(s) && Quiescent(s)
    ensures s.sh.inner == map[] && s.sh.leaders == 0
    ensures s.sh.followers == |Those(s, LostFollower)|
    ensures s.sh.followers == 0 <==> forall c :: c in s.callers ==> !LostFollower(s.callers[c])
  {
    GaugeConservation(s);
    SingleFlight(s);
    assert Flying(s) == {};
    assert Those(s, InWaitGauge) == Those(s, LostFollower);
    if s.sh.followers == 0 {
      forall c | c in s.callers ensures !LostFollower(s.callers[c]) {
        assert c !in Those(s, LostFollower);
      }
    } else {
      var c :| c in Those(s, LostFollower);
    }
  }

  lemma LostFollowerStays(s: State, step: Step)
    requires Inv(s) && Enabled(s, step)
    ensures Those(s, LostFollower) <= Those(Apply(s, step), LostFollower)
  {
    forall c | c in Those(s, LostFollower) ensures c in Those(Apply(s, step), LostFollower) {
      assert CallerOk(s, c);
    }
  }

  /** Such a loss is permanent: no continuation ever brings the gauge below it. */
  lemma {:induction false} LostFollowersStay(s: State, steps: seq<Step>)
    requires Inv(s) && Gauges(s) && IsRun(s, steps)
    ensures Those(s, LostFollower) <= Those(Run(s, steps), LostFollower)
    ensures Run(s, steps).sh.followers >= |Those(s, LostFollower)|
    decreases |steps|
  {
    if steps == [] {
      assert Those(s, LostFollower) <= Those(s, InWaitGauge);
      SubsetSize(Those(s, LostFollower), Those(s, InWaitGauge));
    } else {
      var s' := Apply(s, steps[0]);
      StepKeepsInv(s, steps[0]);
      StepKeepsGauges(s, steps[0]);
      LostFollowerStays(s, steps[0]);
      SubsetSize(Those(s, LostFollower), Those(s', LostFollower));
      LostFollowersStay(s', steps[1..]);
    }
  }

  lemma {:induction false} SubsetSize<T>(a: set<T>, b: set<T>)
    requires a <= b
    ensures |a| <= |b|
  {
    assert b == a + (b - a);
  }

  // ---- the invariant is not vacuous: two generations of one key do coexist ----

  lemma {:induction false} RunAppend(s: State, steps: seq<Step>, step: Step)
    requires IsRun(s, steps) && Enabled(Run(s, steps), step)
    ensures IsRun(s, steps + [step]) && Run(s, steps + [step]) == Apply(Run(s, steps), step)
    decreases |steps|
  {
    if steps == [] {
      assert IsRun(Apply(s, step), []);
    } else {
      assert (steps + [step])[1..] == steps[1..] + [step];
      RunAppend(Apply(s, steps[0]), steps[1..], step);
    }
  }

  lemma ReachableStep(s: State, step: Step)
    requires Reachable(s) && Enabled(s, step)
    ensures Reachable(Apply(s, step))
  {
    var steps :| IsRun(INITIAL, steps) && Run(INITIAL, steps) == s;
    RunAppend(INITIAL, steps, step);
  }

  // ---- short runs ----

  lemma Arrives(s: State, c: CallerId, query: Message, key: Key) returns (s': State)
    requires Reachable(s) && c !in s.callers
    ensures Reachable(s') && s' == s.(callers := s.callers[c := Caller(query, Some(key), false, Locking)])
  {
    ArriveShape(s, c, query, key);
    ReachableStep(s, Arrive(c, query, Some(key)));
    s' := Apply(s, Arrive(c, query, Some(key)));
  }

  lemma LeaderInserts(s: State, c: CallerId, query: Message, key: Key) returns (s': State)
    requires Reachable(s) && c !in s.callers && key !in s.sh.inner
    ensures Reachable(s') && s'.sh == Register(s.sh, key).0
    ensures s'.flights == s.flights[s.sh.nextGen := Flight(key, query, c, Inserted, None)]
    ensures s'.callers == s.callers[c := Caller(query, Some(key), true, Leading(s.sh.nextGen))]
  {
    var s1 := Arrives(s, c, query, key);
    LeadShape(s1, c, Caller(query, Some(key), false, Locking));
    ReachableStep(s1, Lock(c));
    s' := Apply(s1, Lock(c));
  }

  lemma LeaderCounts(s: State, c: CallerId, g: Gen) returns (s': State)
    requires Reachable(s) && c in s.callers && s.callers[c].pc == Leading(g)
    requires g in s.flights && s.flights[g].pc.Inserted?
    ensures Reachable(s') && s'.sh == s.sh.(leaders := s.sh.leaders + 1)
    ensures s'.flights == s.flights[g := s.flights[g].(pc := Started)] && s'.callers == s.callers
  {
    CountLeaderShape(s, c, g);
    ReachableStep(s, CountLeader(c));
    s' := Apply(s, CountLeader(c));
  }

  lemma LeaderSpawns(s: State, c: CallerId, g: Gen) returns (s': State)
    requires Reachable(s) && c in s.callers && s.callers[c].pc == Leading(g)
    requires g in s.flights && s.flights[g].pc.Started?
    ensures Reachable(s') && s'.sh == s.sh
    ensures s'.flights == s.flights[g := s.flights[g].(pc := Querying)]
    ensures s'.callers == s.callers[c := s.callers[c].(pc := Polling(g))]
  {
    SpawnShape(s, c, g);
    ReachableStep(s, Spawn(c));
    s' := Apply(s, Spawn(c));
  }

  lemma LeaderLaunches(s: State, c: CallerId, query: Message, key: Key) returns (s': State)
    requires Reachable(s) && c !in s.callers && key !in s.sh.inner
    ensures Reachable(s') && s'.sh == Register(s.sh, key).0.(leaders := s.sh.leaders + 1)
    ensures s'.flights == s.flights[s.sh.nextGen := Flight(key, query, c, Querying, None)]
    ensures s'.callers == s.callers[c := Caller(query, Some(key), true, Polling(s.sh.nextGen))]
  {
    var s2 := LeaderInserts(s, c, query, key);
    var s3 := LeaderCounts(s2, c, s.sh.nextGen);
    s' := LeaderSpawns(s3, c, s.sh.nextGen);
  }

  lemma FlightReplies(s: State, g: Gen, answer: Answer) returns (s': State)
    requires Reachable(s) && g in s.flights && s.flights[g].pc.Querying?
    ensures Reachable(s') && s'.callers == s.callers
    ensures s'.sh == s.sh.(leaders := s.sh.leaders - 1)
    ensures s'.flights == s.flights[g := s.flights[g].(pc := Uncounted, result := Some(answer))]
  {
    var s2 := Apply(s, Reply(g, answer));
    ReachableStep(s, Reply(g, answer));
    s' := Apply(s2, Uncount(g));
    ReachableStep(s2, Uncount(g));
  }

  lemma FlightLeavesMap(s: State, g: Gen, answer: Answer) returns (s': State)
    requires Reachable(s) && g in s.flights && s.flights[g].pc.Querying?
    ensures Reachable(s') && s'.callers == s.callers
    ensures s'.sh == s.sh.(inner := s.sh.inner - {s.flights[g].key}, leaders := s.sh.leaders - 1)
    ensures s'.flights == s.flights[g := s.flights[g].(pc := Removed(Some(g)), result := Some(answer))]
  {
    var s2 := FlightReplies(s, g, answer);
    RemovesOwnEntry(s2, g);
    s' := Apply(s2, Remove(g));
    ReachableStep(s2, Remove(g));
  }

  lemma FlightLands(s: State, g: Gen, answer: Answer) returns (s': State)
    requires Reachable(s) && g in s.flights && g in s.sh.channels && HasReceiver(s, g)
    requires s.flights[g].pc == Removed(Some(g)) && s.flights[g].result == Some(answer)
    ensures Reachable(s') && s'.callers == s.callers
    ensures g in s'.sh.channels && s'.sh.channels[g].value == Some(answer)
    ensures s'.flights == s.flights[g := s.flights[g].(pc := Finished)]
  {
    var s2 := Apply(s, Send(g));
    ReachableStep(s, Send(g));
    s' := Apply(s2, Close(g));
    ReachableStep(s2, Close(g));
  }

  lemma InitialReachable()
    ensures Reachable(INITIAL)
  {
    assert IsRun(INITIAL, []);
    assert Run(INITIAL, []) == INITIAL;
  }

  /** A second run for a key starts while the first one still has its answer to deliver. */
  lemma GenerationsCoexist(query: Message, key: Key, answer: Answer) returns (s: State)
    ensures Reachable(s) && s.flights.Keys == {0, 1}
    ensures s.flights[0].key == s.flights[1].key == key
    ensures s.flights[0].pc == Removed(Some(0)) && s.flights[0].result == Some(answer)
    ensures s.flights[1].pc == Querying && s.sh.inner == map[key := 1]
    ensures HasReceiver(s, 0) && HasReceiver(s, 1)
  {
    InitialReachable();
    var s1 := LeaderLaunches(INITIAL, 0, query, key);
    var s2 := FlightLeavesMap(s1, 0, answer);
    s := LeaderLaunches(s2, 1, query, key);
    assert Holds(s.callers[0].pc) == Some(0) && Holds(s.callers[1].pc) == Some(1);
  }

  lemma FollowerJoins(s: State, c: CallerId, query: Message, key: Key) returns (s': State)
    requires Reachable(s) && c !in s.callers && key in s.sh.inner
    ensures Reachable(s') && s'.flights == s.flights && s'.sh == s.sh.(followers := s.sh.followers + 1)
    ensures s'.callers == s.callers[c := Caller(query, Some(key), false, Polling(s.sh.inner[key]))]
  {
    var s1 := Arrives(s, c, query, key);
    var s2 := FollowerSubscribes(s1, c, Caller(query, Some(key), false, Locking));
    CountFollowerShape(s2, c, s.sh.inner[key]);
    ReachableStep(s2, CountFollower(c));
    s' := Apply(s2, CountFollower(c));
  }

  lemma FollowerSubscribes(s: State, c: CallerId, caller: Caller) returns (s': State)
    requires Reachable(s) && c in s.callers && s.callers[c] == caller && caller.pc.Locking? && caller.key.Some?
    requires caller.key.value in s.sh.inner
    ensures Reachable(s') && s'.flights == s.flights && s'.sh == s.sh
    ensures s'.callers == s.callers[c := caller.(leader := false, pc := Joining(s.sh.inner[caller.key.value]))]
  {
    JoinShape(s, c, caller);
    ReachableStep(s, Lock(c));
    s' := Apply(s, Lock(c));
  }

  lemma FollowerDrops(s: State, c: CallerId) returns (s': State)
    requires Reachable(s) && c in s.callers && s.callers[c].pc.Polling?
    requires s.callers[c].pc.gen in s.sh.channels && s.sh.channels[s.callers[c].pc.gen].value.None?
    ensures Reachable(s') && s'.flights == s.flights && s'.sh == s.sh
    ensures s'.callers == s.callers[c := s.callers[c].(pc := DroppedWaiting(s.callers[c].pc.gen))]
  {
    var s2 := Apply(s, Look(c));
    ReachableStep(s, Look(c));
    s' := Apply(s2, Abandon(c));
    ReachableStep(s2, Abandon(c));
  }

  lemma FollowerLost(query: Message, key: Key) returns (s: State)
    ensures Reachable(s) && s.sh.inner == map[key := 0] && s.sh.followers == 1
    ensures s.flights == map[0 := Flight(key, query, 0, Querying, None)]
    ensures s.callers == map[0 := Caller(query, Some(key), true, Polling(0)),
                             1 := Caller(query, Some(key), false, DroppedWaiting(0))]
  {
    InitialReachable();
    var s1 := LeaderLaunches(INITIAL, 0, query, key);
    var s2 := FollowerJoins(s1, 1, query, key);
    s := FollowerDrops(s2, 1);
  }

  lemma FollowerLostLanded(query: Message, key: Key, answer: Answer) returns (s: State)
    ensures Reachable(s)
    ensures s.flights == map[0 := Flight(key, query, 0, Finished, Some(answer))]
    ensures 0 in s.sh.channels && s.sh.channels[0].value == Some(answer)
    ensures s.callers == map[0 := Caller(query, Some(key), true, Polling(0)),
                             1 := Caller(query, Some(key), false, DroppedWaiting(0))]
  {
    var s3 := FollowerLost(query, key);
    var s4 := FlightLeavesMap(s3, 0, answer);
    assert Holds(s4.callers[0].pc) == Some(0);
    ReachableInv(s4);
    s := FlightLands(s4, 0, answer);
  }

  lemma LeaderReads(s: State, c: CallerId) returns (s': State)
    requires Reachable(s) && c in s.callers && s.callers[c].leader && s.callers[c].pc.Polling?
    requires s.callers[c].pc.gen in s.sh.channels && s.sh.channels[s.callers[c].pc.gen].value.Some?
    ensures Reachable(s') && s'.flights == s.flights
    ensures s'.callers ==
      s.callers[c := s.callers[c].(pc := Returned(s.callers[c].pc.gen,
                                                  Delivered(s.sh.channels[s.callers[c].pc.gen].value.value)))]
  {
    s' := Apply(s, Look(c));
    ReachableStep(s, Look(c));
  }

  /** A reachable quiet state whose follower gauge reads one: the property fails without its condition. */
  lemma LostFollowerExample(query: Message, key: Key, answer: Answer) returns (s: State)
    ensures Reachable(s) && Quiescent(s) && s.sh.inner == map[]
    ensures s.sh.followers == 1
  {
    var s5 := FollowerLostLanded(query, key, answer);
    s := LeaderReads(s5, 0);
    GaugeReturnsToZeroIff(s);
    assert Those(s, LostFollower) == {1};
  }
}
