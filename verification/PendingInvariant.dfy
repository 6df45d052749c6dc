/** The inductive invariant of the coalescing protocol, kept by every step. */
module PendingInvariant {
  import opened Wrappers
  import opened Messages
  import opened PendingQueries

  /** Stages of a flight during which the map must name it. */
  predicate Listed(pc: FlightPc) {
    pc.Inserted? || pc.Started? || pc.Querying? || pc.Answered? || pc.Uncounted?
  }

  /** Stages whose channel may already carry the answer. */
  predicate Published(pc: FlightPc) {
    pc.Sent? || pc.Finished?
  }

  /** The map names exactly the listed flights, each under its own key. */
  ghost predicate MapInv(s: State) {
    && (forall k :: k in s.sh.inner ==>
          s.sh.inner[k] in s.flights && s.flights[s.sh.inner[k]].key == k && Listed(s.flights[s.sh.inner[k]].pc))
    && (forall g :: g in s.flights && Listed(s.flights[g].pc) ==>
          s.flights[g].key in s.sh.inner && s.sh.inner[s.flights[g].key] == g)
    && (forall g :: g in s.flights <==> g in s.sh.channels)
    && (forall g :: g in s.flights ==> g < s.sh.nextGen)
  }

  ghost predicate FlightOk(s: State, g: Gen) {
    g in s.flights && g in s.sh.channels &&
    var f := s.flights[g];
    var ch := s.sh.channels[g];
    && (f.pc.Removed? || f.pc.Sent? ==> f.pc.tx == Some(g))
    && (f.result.Some? <==> !f.pc.Inserted? && !f.pc.Started? && !f.pc.Querying?)
    && (ch.value.Some? ==> ch.value == f.result && Published(f.pc))
    && (ch.open <==> !f.pc.Finished?)
    && (Published(f.pc) && ch.value.None? ==> !HasReceiver(s, g))
    && (f.pc.Inserted? || f.pc.Started? ==> f.leader in s.callers && s.callers[f.leader].pc == Leading(g))
  }

  /** The generation a caller ever took part in. */
  function GenOf(pc: CallerPc): Option<Gen> {
    match pc
    case Returned(g, _) => Some(g)
    case DroppedWaiting(g) => Some(g)
    case _ => Holds(pc)
  }

  ghost predicate CallerOk(s: State, c: CallerId) {
    c in s.callers &&
    var caller := s.callers[c];
    && (GenOf(caller.pc).Some? ==>
          GenOf(caller.pc).value in s.flights && caller.key == Some(s.flights[GenOf(caller.pc).value].key))
    && (caller.pc.Settling? || caller.pc.Counting? || caller.pc.Returned? ==>
          !caller.pc.outcome.SenderGone? &&
          (caller.pc.outcome.Delivered? ==> s.flights[caller.pc.gen].result == Some(caller.pc.outcome.answer)))
    && (caller.pc.Leading? ==>
          caller.leader && s.flights[caller.pc.gen].leader == c &&
          (s.flights[caller.pc.gen].pc.Inserted? || s.flights[caller.pc.gen].pc.Started?))
    && (caller.pc.Locking? || caller.pc.Refused? || caller.pc.Joining? || caller.pc.Settling? || caller.pc.Counting? ==>
          !caller.leader)
    && (caller.pc.Refused? <==> caller.key.None?)
  }

  ghost predicate Inv(s: State) {
    && MapInv(s)
    && (forall g :: g in s.flights ==> FlightOk(s, g))
    && (forall c :: c in s.callers ==> CallerOk(s, c))
  }

  lemma InvInitially()
    ensures Inv(INITIAL)
  {
  }

  /** A caller moves while flights, map and channels stay: the shape of most steps. */
  lemma CallerMoves(s: State, s': State, c: CallerId)
    requires Inv(s)
    requires s'.flights == s.flights && s'.sh.inner == s.sh.inner
    requires s'.sh.channels == s.sh.channels && s'.sh.nextGen == s.sh.nextGen
    requires c in s'.callers && s'.callers == s.callers[c := s'.callers[c]]
    requires CallerOk(s', c)
    requires c in s.callers ==> !s.callers[c].pc.Leading?
    requires Holds(s'.callers[c].pc).Some? ==> c in s.callers && Holds(s'.callers[c].pc) == Holds(s.callers[c].pc)
    ensures Inv(s')
  {
    forall g | g in s'.flights ensures FlightOk(s', g) {
      assert FlightOk(s, g);
      assert HasReceiver(s', g) ==> HasReceiver(s, g);
    }
    forall d | d in s'.callers ensures CallerOk(s', d) {
      if d != c { assert CallerOk(s, d); }
    }
  }

  lemma JoinKeepsFlights(s: State, c: CallerId, caller: Caller, g: Gen)
    requires Inv(s) && c in s.callers && s.callers[c] == caller && caller.pc.Locking? && caller.key.Some?
    requires caller.key.value in s.sh.inner && g in s.flights
    ensures FlightOk(Joined(s, c, caller), g)
  {
    var s' := Joined(s, c, caller);
    var g0 := s.sh.inner[caller.key.value];
    assert Listed(s.flights[g0].pc);
    assert FlightOk(s, g);
    if g != g0 { assert HasReceiver(s', g) ==> HasReceiver(s, g); }
  }

  lemma JoinKeepsCallers(s: State, c: CallerId, caller: Caller, d: CallerId)
    requires Inv(s) && c in s.callers && s.callers[c] == caller && caller.pc.Locking? && caller.key.Some?
    requires caller.key.value in s.sh.inner && d in s.callers
    ensures CallerOk(Joined(s, c, caller), d)
  {
    assert CallerOk(s, d);
  }

  lemma JoinKeepsInv(s: State, c: CallerId)
    requires Inv(s) && Enabled(s, Lock(c)) && s.callers[c].key.value in s.sh.inner
    ensures Inv(Apply(s, Lock(c)))
  {
    var caller := s.callers[c];
    var s' := Joined(s, c, caller);
    JoinShape(s, c, caller);
    forall g | g in s'.flights ensures FlightOk(s', g) { JoinKeepsFlights(s, c, caller, g); }
    forall d | d in s'.callers ensures CallerOk(s', d) { JoinKeepsCallers(s, c, caller, d); }
  }

  lemma LeadKeepsMap(s: State, c: CallerId, caller: Caller)
    requires MapInv(s) && caller.key.Some? && caller.key.value !in s.sh.inner
    ensures s.sh.nextGen !in s.flights && MapInv(Led(s, c, caller))
  {
  }

  lemma LeadKeepsFlights(s: State, c: CallerId, caller: Caller, g: Gen)
    requires Inv(s) && c in s.callers && s.callers[c] == caller && caller.pc.Locking? && caller.key.Some?
    requires g in Led(s, c, caller).flights && s.sh.nextGen !in s.flights && caller.key.value !in s.sh.inner
    ensures FlightOk(Led(s, c, caller), g)
  {
    var s' := Led(s, c, caller);
    if g in s.flights {
      assert FlightOk(s, g);
      assert HasReceiver(s', g) ==> HasReceiver(s, g);
    }
  }

  lemma LeadKeepsCallers(s: State, c: CallerId, caller: Caller, d: CallerId)
    requires Inv(s) && c in s.callers && s.callers[c] == caller && caller.pc.Locking? && caller.key.Some?
    requires d in s.callers && s.sh.nextGen !in s.flights
    ensures CallerOk(Led(s, c, caller), d)
  {
    assert CallerOk(s, d);
  }

  lemma LeadKeepsInv(s: State, c: CallerId)
    requires Inv(s) && Enabled(s, Lock(c)) && s.callers[c].key.value !in s.sh.inner
    ensures Inv(Apply(s, Lock(c)))
  {
    var caller := s.callers[c];
    var s' := Led(s, c, caller);
    LeadShape(s, c, caller);
    LeadKeepsMap(s, c, caller);
    forall g | g in s'.flights ensures FlightOk(s', g) { LeadKeepsFlights(s, c, caller, g); }
    forall d | d in s'.callers ensures CallerOk(s', d) { LeadKeepsCallers(s, c, caller, d); }
  }

  /** A flight moves while the callers and the map stay. */
  lemma FlightMoves(s: State, s': State, g: Gen)
    requires Inv(s) && g in s.flights
    requires g in s'.flights && s'.flights == s.flights[g := s'.flights[g]]
    requires s'.flights[g].key == s.flights[g].key && s'.flights[g].leader == s.flights[g].leader
    requires s'.callers == s.callers
    requires g in s'.sh.channels && s'.sh.channels == s.sh.channels[g := s'.sh.channels[g]]
    requires s'.sh.nextGen == s.sh.nextGen
    requires MapInv(s') && FlightOk(s', g)
    requires s.flights[g].result.Some? ==> s'.flights[g].result == s.flights[g].result
    requires s.flights[g].pc.Inserted? ==> s'.flights[g].pc.Started?
    requires !s.flights[g].pc.Started?
    ensures Inv(s')
  {
    forall h | h in s'.flights ensures FlightOk(s', h) {
      if h != g {
        assert FlightOk(s, h);
        assert HasReceiver(s', h) ==> HasReceiver(s, h);
      }
    }
    forall d | d in s'.callers ensures CallerOk(s', d) {
      assert CallerOk(s, d);
    }
  }

  lemma SpawnKeepsFlights(s: State, c: CallerId, g0: Gen, g: Gen)
    requires Inv(s) && c in s.callers && s.callers[c].pc == Leading(g0) && g0 in s.flights
    requires s.flights[g0].pc.Started? && g in s.flights
    ensures FlightOk(Spawned(s, c, g0), g)
  {
    assert CallerOk(s, c);
    assert FlightOk(s, g);
    assert HasReceiver(Spawned(s, c, g0), g) ==> HasReceiver(s, g);
  }

  lemma SpawnKeepsCallers(s: State, c: CallerId, g0: Gen, d: CallerId)
    requires Inv(s) && c in s.callers && s.callers[c].pc == Leading(g0) && g0 in s.flights
    requires s.flights[g0].pc.Started? && d in s.callers
    ensures CallerOk(Spawned(s, c, g0), d)
  {
    assert CallerOk(s, c);
    assert CallerOk(s, d);
  }

  lemma SpawnKeepsInv(s: State, c: CallerId)
    requires Inv(s) && Enabled(s, Spawn(c))
    ensures Inv(Apply(s, Spawn(c)))
  {
    var g0 := s.callers[c].pc.gen;
    var s' := Spawned(s, c, g0);
    SpawnShape(s, c, g0);
    assert MapInv(s');
    forall g | g in s'.flights ensures FlightOk(s', g) { SpawnKeepsFlights(s, c, g0, g); }
    forall d | d in s'.callers ensures CallerOk(s', d) { SpawnKeepsCallers(s, c, g0, d); }
  }

  /** The sender can only be seen gone by a receiver that finds the value stored: the stuck branch is dead. */
  lemma WakeFindsValue(s: State, c: CallerId)
    requires Inv(s) && Enabled(s, Wake(c))
    ensures s.sh.channels[s.callers[c].pc.gen].value.Some?
    ensures Apply(s, Wake(c)) == At(s, c, Polling(s.callers[c].pc.gen))
  {
    assert CallerOk(s, c);
    var g := s.callers[c].pc.gen;
    assert FlightOk(s, g);
    assert Holds(s.callers[c].pc) == Some(g);
  }

  lemma ArriveKeepsInv(s: State, step: Step)
    requires Inv(s) && Enabled(s, step) && step.Arrive?
    ensures Inv(Apply(s, step))
  {
    CallerMoves(s, Apply(s, step), step.c);
  }

  lemma FindingKeepsInv(s: State, c: CallerId, g: Gen, answer: Answer)
    requires Inv(s) && c in s.callers && s.callers[c].pc == Polling(g)
    requires g in s.sh.channels && s.sh.channels[g].value == Some(answer)
    ensures Inv(At(s, c, Settle(s.callers[c], g, Delivered(answer))))
  {
    assert CallerOk(s, c);
    assert FlightOk(s, g);
    CallerMoves(s, At(s, c, Settle(s.callers[c], g, Delivered(answer))), c);
  }

  lemma ParkingKeepsInv(s: State, c: CallerId, g: Gen)
    requires Inv(s) && c in s.callers && s.callers[c].pc == Polling(g)
    ensures Inv(At(s, c, Parked(g)))
  {
    assert CallerOk(s, c);
    CallerMoves(s, At(s, c, Parked(g)), c);
  }

  lemma LookKeepsInv(s: State, c: CallerId)
    requires Inv(s) && Enabled(s, Look(c))
    ensures Inv(Apply(s, Look(c)))
  {
    var g := s.callers[c].pc.gen;
    match s.sh.channels[g].value
    case Some(answer) => FindingKeepsInv(s, c, g, answer);
    case None => ParkingKeepsInv(s, c, g);
  }

  lemma WakeKeepsInv(s: State, c: CallerId)
    requires Inv(s) && Enabled(s, Wake(c))
    ensures Inv(Apply(s, Wake(c)))
  {
    WakeFindsValue(s, c);
    assert CallerOk(s, c);
    CallerMoves(s, Apply(s, Wake(c)), c);
  }

  lemma CountFollowerKeepsInv(s: State, c: CallerId)
    requires Inv(s) && Enabled(s, CountFollower(c))
    ensures Inv(Apply(s, CountFollower(c)))
  {
    assert CallerOk(s, c);
    CallerMoves(s, Apply(s, CountFollower(c)), c);
  }

  lemma ExpireKeepsInv(s: State, c: CallerId)
    requires Inv(s) && Enabled(s, Expire(c))
    ensures Inv(Apply(s, Expire(c)))
  {
    assert CallerOk(s, c);
    CallerMoves(s, Apply(s, Expire(c)), c);
  }

  lemma AbandonKeepsInv(s: State, c: CallerId)
    requires Inv(s) && Enabled(s, Abandon(c))
    ensures Inv(Apply(s, Abandon(c)))
  {
    assert CallerOk(s, c);
    CallerMoves(s, Apply(s, Abandon(c)), c);
  }

  lemma CountOutKeepsInv(s: State, c: CallerId)
    requires Inv(s) && Enabled(s, CountOut(c))
    ensures Inv(Apply(s, CountOut(c)))
  {
    assert CallerOk(s, c);
    CallerMoves(s, Apply(s, CountOut(c)), c);
  }

  lemma CountKindKeepsInv(s: State, c: CallerId)
    requires Inv(s) && Enabled(s, CountKind(c))
    ensures Inv(Apply(s, CountKind(c)))
  {
    assert CallerOk(s, c);
    CallerMoves(s, Apply(s, CountKind(c)), c);
  }

  /** A task takes its own entry out: the sender it gets is the one of its own generation. */
  lemma RemoveTakesOwn(s: State, g: Gen)
    requires Inv(s) && Enabled(s, Remove(g))
    ensures TakeEntry(s.sh, s.flights[g].key).1 == Some(g)
  {
    assert Listed(s.flights[g].pc);
  }

  lemma RemoveKeepsInv(s: State, g: Gen)
    requires Inv(s) && Enabled(s, Remove(g))
    ensures Inv(Apply(s, Remove(g)))
  {
    RemoveTakesOwn(s, g);
    var s' := Apply(s, Remove(g));
    assert FlightOk(s, g);
    assert s'.sh.channels == s.sh.channels[g := s.sh.channels[g]];
    FlightMoves(s, s', g);
  }

  lemma ReplyKeepsInv(s: State, g: Gen, answer: Answer)
    requires Inv(s) && Enabled(s, Reply(g, answer))
    ensures Inv(Apply(s, Reply(g, answer)))
  {
    var s' := Apply(s, Reply(g, answer));
    assert FlightOk(s, g);
    assert HasReceiver(s', g) <==> HasReceiver(s, g);
    assert s'.sh.channels == s.sh.channels[g := s.sh.channels[g]];
    FlightMoves(s, s', g);
  }

  lemma UncountKeepsInv(s: State, g: Gen)
    requires Inv(s) && Enabled(s, Uncount(g))
    ensures Inv(Apply(s, Uncount(g)))
  {
    var s' := Apply(s, Uncount(g));
    assert FlightOk(s, g);
    assert HasReceiver(s', g) <==> HasReceiver(s, g);
    assert s'.sh.channels == s.sh.channels[g := s.sh.channels[g]];
    FlightMoves(s, s', g);
  }

  lemma SendKeepsInv(s: State, g: Gen)
    requires Inv(s) && Enabled(s, Send(g))
    ensures Inv(Apply(s, Send(g)))
  {
    var s' := Apply(s, Send(g));
    assert FlightOk(s, g);
    assert HasReceiver(s', g) <==> HasReceiver(s, g);
    assert s'.sh.channels == s.sh.channels[g := s'.sh.channels[g]];
    FlightMoves(s, s', g);
  }

  lemma CloseKeepsInv(s: State, g: Gen)
    requires Inv(s) && Enabled(s, Close(g))
    ensures Inv(Apply(s, Close(g)))
  {
    var s' := Apply(s, Close(g));
    assert FlightOk(s, g);
    assert HasReceiver(s', g) <==> HasReceiver(s, g);
    assert s'.sh.channels == s.sh.channels[g := s'.sh.channels[g]];
    FlightMoves(s, s', g);
  }

  lemma CountLeaderKeepsInv(s: State, c: CallerId)
    requires Inv(s) && Enabled(s, CountLeader(c))
    ensures Inv(Apply(s, CountLeader(c)))
  {
    var g := s.callers[c].pc.gen;
    var s' := Apply(s, CountLeader(c));
    assert FlightOk(s, g);
    assert HasReceiver(s', g) <==> HasReceiver(s, g);
    assert s'.sh.channels == s.sh.channels[g := s.sh.channels[g]];
    FlightMoves(s, s', g);
  }

  lemma StepKeepsInv(s: State, step: Step)
    requires Inv(s) && Enabled(s, step)
    ensures Inv(Apply(s, step))
  {
    match step
    case Arrive(_, _, _) => ArriveKeepsInv(s, step);
    case Lock(c) => if s.callers[c].key.value in s.sh.inner { JoinKeepsInv(s, c); } else { LeadKeepsInv(s, c); }
    case CountLeader(c) => CountLeaderKeepsInv(s, c);
    case Spawn(c) => SpawnKeepsInv(s, c);
    case Look(c) => LookKeepsInv(s, c);
    case Wake(c) => WakeKeepsInv(s, c);
    case CountFollower(c) => CountFollowerKeepsInv(s, c);
    case Expire(c) => ExpireKeepsInv(s, c);
    case Abandon(c) => AbandonKeepsInv(s, c);
    case CountOut(c) => CountOutKeepsInv(s, c);
    case CountKind(c) => CountKindKeepsInv(s, c);
    case Reply(g, answer) => ReplyKeepsInv(s, g, answer);
    case Uncount(g) => UncountKeepsInv(s, g);
    case Remove(g) => RemoveKeepsInv(s, g);
    case Send(g) => SendKeepsInv(s, g);
    case Close(g) => CloseKeepsInv(s, g);
  }

  lemma {:induction false} RunKeepsInv(s: State, steps: seq<Step>)
    requires Inv(s) && IsRun(s, steps)
    ensures Inv(Run(s, steps))
    decreases |steps|
  {
    if steps == [] {
    } else {
      StepKeepsInv(s, steps[0]);
      RunKeepsInv(Apply(s, steps[0]), steps[1..]);
    }
  }

  lemma ReachableInv(s: State)
    requires Reachable(s)
    ensures Inv(s)
  {
    var steps :| IsRun(INITIAL, steps) && Run(INITIAL, steps) == s;
    InvInitially();
    RunKeepsInv(INITIAL, steps);
  }
}
