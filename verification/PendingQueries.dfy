/**
 * Single-flight coalescing of identical upstream queries.
 *
 * `Shared` is what the tasks share: the locked map, the watch channels and the
 * gauges. `State` adds every request future (a caller) and every upstream run (a
 * flight), each with a program counter; a `Step` is one atomic section of one of
 * them, so a sequence of steps is an arbitrary interleaving.
 */
module PendingQueries {
  import opened Wrappers
  import opened Messages

  type Key = seq<byte>
  type Gen = nat
  type CallerId = nat

  /** A watch channel: the value last sent, and whether its sender is still alive. */
  datatype Channel = Channel(value: Option<Answer>, open: bool)

  datatype Shared = Shared(
    inner: map<Key, Gen>,
    channels: map<Gen, Channel>,
    nextGen: Gen,
    leaders: int,
    followers: int,
    successes: int,
    timeouts: int)

  const NEW_SHARED := Shared(map[], map[], 0, 0, 0, 0, 0)

  // ---- the atomic sections, as functions on the shared state ----

  /** Under the lock: clone the receiver of the entry for `key`, or insert a new channel. */
  function Register(sh: Shared, key: Key): (r: (Shared, bool, Gen))
    ensures key in r.0.inner && r.0.inner[key] == r.2
    ensures r.1 <==> key !in sh.inner
  {
    if key in sh.inner then (sh, false, sh.inner[key])
    else
      (sh.(inner := sh.inner[key := sh.nextGen],
           channels := sh.channels[sh.nextGen := Channel(None, true)],
           nextGen := sh.nextGen + 1), true, sh.nextGen)
  }

  /** Under the lock: take the entry for `key` out of the map, keeping its sender. */
  function TakeEntry(sh: Shared, key: Key): (Shared, Option<Gen>) {
    if key in sh.inner then (sh.(inner := sh.inner - {key}), Some(sh.inner[key])) else (sh, None)
  }

  /** `watch::Sender::send`: it stores the value only while some receiver exists. */
  function Publish(sh: Shared, g: Gen, answer: Answer, hasReceiver: bool): Shared {
    if hasReceiver && g in sh.channels
    then sh.(channels := sh.channels[g := sh.channels[g].(value := Some(answer))])
    else sh
  }

  function CloseSender(sh: Shared, g: Gen): Shared {
    if g in sh.channels then sh.(channels := sh.channels[g := sh.channels[g].(open := false)]) else sh
  }

  // ---- the whole protocol ----

  /** How a caller's wait ended: with a value, with the sender gone, or with the timer. */
  datatype Outcome = Delivered(answer: Answer) | SenderGone | TimedOut

  datatype CallerPc =
    | Refused                              // the query did not serialise: an error was returned
    | Locking                              // waiting for the map lock
    | Leading(gen: Gen)                    // inserted the entry; no await until the task is spawned
    | Joining(gen: Gen)                    // cloned the receiver; gauge not yet raised
    | Polling(gen: Gen)                    // about to look at the channel's value
    | Parked(gen: Gen)                     // in `changed().await`, under the timer
    | Settling(gen: Gen, outcome: Outcome) // wait over; gauge not yet lowered
    | Counting(gen: Gen, outcome: Outcome) // gauge lowered; outcome counter not yet raised
    | Returned(gen: Gen, outcome: Outcome)
    | DroppedLocking                       // the future was dropped before it held the lock
    | DroppedWaiting(gen: Gen)             // the future was dropped while parked

  datatype Caller = Caller(query: Message, key: Option<Key>, leader: bool, pc: CallerPc)

  /** Where an upstream run stands; the first two stages are executed by its leader. */
  datatype FlightPc =
    | Inserted
    | Started
    | Querying
    | Answered
    | Uncounted
    | Removed(tx: Option<Gen>)
    | Sent(tx: Option<Gen>)
    | Finished

  datatype Flight = Flight(key: Key, query: Message, leader: CallerId, pc: FlightPc, result: Option<Answer>)

  datatype State = State(sh: Shared, flights: map<Gen, Flight>, callers: map<CallerId, Caller>)

  const INITIAL := State(NEW_SHARED, map[], map[])

  datatype Step =
    | Arrive(c: CallerId, query: Message, key: Option<Key>)
    | Lock(c: CallerId)
    | CountLeader(c: CallerId)
    | Spawn(c: CallerId)
    | CountFollower(c: CallerId)
    | Look(c: CallerId)
    | Wake(c: CallerId)
    | Expire(c: CallerId)
    | Abandon(c: CallerId)
    | CountOut(c: CallerId)
    | CountKind(c: CallerId)
    | Reply(g: Gen, answer: Answer)
    | Uncount(g: Gen)
    | Remove(g: Gen)
    | Send(g: Gen)
    | Close(g: Gen)

  function Holds(pc: CallerPc): Option<Gen> {
    match pc
    case Leading(g) => Some(g)
    case Joining(g) => Some(g)
    case Polling(g) => Some(g)
    case Parked(g) => Some(g)
    case Settling(g, _) => Some(g)
    case Counting(g, _) => Some(g)
    case _ => None
  }

  ghost predicate HasReceiver(s: State, g: Gen) {
    exists c :: c in s.callers && Holds(s.callers[c].pc) == Some(g)
  }

  ghost predicate CallerEnabled(s: State, step: Step)
    requires !step.Arrive? && !step.Reply? && !step.Uncount? && !step.Remove? && !step.Send? && !step.Close?
  {
    step.c in s.callers &&
    var caller := s.callers[step.c];
    match step
    case Lock(_) => caller.pc.Locking? && caller.key.Some?
    case CountLeader(_) => caller.pc.Leading? && caller.pc.gen in s.flights && s.flights[caller.pc.gen].pc.Inserted?
    case Spawn(_) => caller.pc.Leading? && caller.pc.gen in s.flights && s.flights[caller.pc.gen].pc.Started?
    case CountFollower(_) => caller.pc.Joining?
    case Look(_) => caller.pc.Polling? && caller.pc.gen in s.sh.channels
    case Wake(_) =>
      caller.pc.Parked? && caller.pc.gen in s.sh.channels &&
      (s.sh.channels[caller.pc.gen].value.Some? || !s.sh.channels[caller.pc.gen].open)
    case Expire(_) => caller.pc.Parked?
    case Abandon(_) => caller.pc.Locking? || caller.pc.Parked?
    case CountOut(_) => caller.pc.Settling?
    case CountKind(_) => caller.pc.Counting?
  }

  ghost predicate Enabled(s: State, step: Step) {
    match step
    case Arrive(c, _, _) => c !in s.callers
    case Reply(g, _) => g in s.flights && s.flights[g].pc.Querying?
    case Uncount(g) => g in s.flights && s.flights[g].pc.Answered?
    case Remove(g) => g in s.flights && s.flights[g].pc.Uncounted?
    case Send(g) => g in s.flights && s.flights[g].pc.Removed? && s.flights[g].result.Some?
    case Close(g) => g in s.flights && s.flights[g].pc.Sent?
    case _ => CallerEnabled(s, step)
  }

  function At(s: State, c: CallerId, pc: CallerPc): State
    requires c in s.callers
  {
    s.(callers := s.callers[c := s.callers[c].(pc := pc)])
  }

  function FlightAt(s: State, g: Gen, pc: FlightPc): State
    requires g in s.flights
  {
    s.(flights := s.flights[g := s.flights[g].(pc := pc)])
  }

  /** The wait is over: only a follower has gauges left to settle. */
  function Settle(caller: Caller, g: Gen, outcome: Outcome): CallerPc {
    if caller.leader then Returned(g, outcome) else Settling(g, outcome)
  }

  function ApplyLock(s: State, c: CallerId): State
    requires c in s.callers && s.callers[c].key.Some?
  {
    var caller := s.callers[c];
    var (sh, leader, g) := Register(s.sh, caller.key.value);
    if leader then
      State(sh, s.flights[g := Flight(caller.key.value, caller.query, c, Inserted, None)],
            s.callers[c := caller.(leader := true, pc := Leading(g))])
    else
      State(sh, s.flights, s.callers[c := caller.(leader := false, pc := Joining(g))])
  }

  function ApplyWake(s: State, c: CallerId): State
    requires c in s.callers && s.callers[c].pc.Parked? && s.callers[c].pc.gen in s.sh.channels
  {
    var caller := s.callers[c];
    var g := caller.pc.gen;
    if s.sh.channels[g].value.Some? then At(s, c, Polling(g)) else At(s, c, Settle(caller, g, SenderGone))
  }

  function ApplyLook(s: State, c: CallerId): State
    requires c in s.callers && s.callers[c].pc.Polling? && s.callers[c].pc.gen in s.sh.channels
  {
    var caller := s.callers[c];
    var g := caller.pc.gen;
    match s.sh.channels[g].value
    case Some(answer) => At(s, c, Settle(caller, g, Delivered(answer)))
    case None => At(s, c, Parked(g))
  }

  function ApplyCountKind(s: State, c: CallerId): State
    requires c in s.callers && s.callers[c].pc.Counting?
  {
    var Counting(g, outcome) := s.callers[c].pc;
    var sh := if outcome.Delivered? then s.sh.(successes := s.sh.successes + 1)
              else s.sh.(timeouts := s.sh.timeouts + 1);
    At(s, c, Returned(g, outcome)).(sh := sh)
  }

  ghost function Apply(s: State, step: Step): State
    requires Enabled(s, step)
  {
    match step
    case Arrive(c, query, key) =>
      s.(callers := s.callers[c := Caller(query, key, false, if key.Some? then Locking else Refused)])
    case Lock(c) => ApplyLock(s, c)
    case CountLeader(c) =>
      FlightAt(s, s.callers[c].pc.gen, Started).(sh := s.sh.(leaders := s.sh.leaders + 1))
    case Spawn(c) =>
      var g := s.callers[c].pc.gen;
      At(FlightAt(s, g, Querying), c, Polling(g))
    case CountFollower(c) =>
      At(s, c, Polling(s.callers[c].pc.gen)).(sh := s.sh.(followers := s.sh.followers + 1))
    case Look(c) => ApplyLook(s, c)
    case Wake(c) => ApplyWake(s, c)
    case Expire(c) => At(s, c, Settle(s.callers[c], s.callers[c].pc.gen, TimedOut))
    case Abandon(c) =>
      At(s, c, if s.callers[c].pc.Parked? then DroppedWaiting(s.callers[c].pc.gen) else DroppedLocking)
    case CountOut(c) =>
      At(s, c, Counting(s.callers[c].pc.gen, s.callers[c].pc.outcome))
        .(sh := s.sh.(followers := s.sh.followers - 1))
    case CountKind(c) => ApplyCountKind(s, c)
    case Reply(g, answer) =>
      s.(flights := s.flights[g := s.flights[g].(pc := Answered, result := Some(answer))])
    case Uncount(g) => FlightAt(s, g, Uncounted).(sh := s.sh.(leaders := s.sh.leaders - 1))
    case Remove(g) =>
      var (sh, tx) := TakeEntry(s.sh, s.flights[g].key);
      FlightAt(s, g, Removed(tx)).(sh := sh)
    case Send(g) =>
      var tx := s.flights[g].pc.tx;
      var sh := if tx.Some? then Publish(s.sh, tx.value, s.flights[g].result.value, HasReceiver(s, tx.value)) else s.sh;
      FlightAt(s, g, Sent(tx)).(sh := sh)
    case Close(g) =>
      var tx := s.flights[g].pc.tx;
      var sh := if tx.Some? then CloseSender(s.sh, tx.value) else s.sh;
      FlightAt(s, g, Finished).(sh := sh)
  }

  ghost predicate IsRun(s: State, steps: seq<Step>)
    decreases |steps|
  {
    steps == [] || (Enabled(s, steps[0]) && IsRun(Apply(s, steps[0]), steps[1..]))
  }

  ghost function Run(s: State, steps: seq<Step>): State
    requires IsRun(s, steps)
    decreases |steps|
  {
    if steps == [] then s else Run(Apply(s, steps[0]), steps[1..])
  }

  ghost predicate Reachable(s: State) {
    exists steps :: IsRun(INITIAL, steps) && Run(INITIAL, steps) == s
  }

  // ---- what single steps make of a state, as values ----

  lemma ArriveShape(s: State, c: CallerId, query: Message, key: Key)
    requires c !in s.callers
    ensures Enabled(s, Arrive(c, query, Some(key)))
    ensures Apply(s, Arrive(c, query, Some(key)))
            == s.(callers := s.callers[c := Caller(query, Some(key), false, Locking)])
  {
  }

  function Led(s: State, c: CallerId, caller: Caller): State
    requires caller.key.Some?
  {
    State(Register(s.sh, caller.key.value).0,
          s.flights[s.sh.nextGen := Flight(caller.key.value, caller.query, c, Inserted, None)],
          s.callers[c := caller.(leader := true, pc := Leading(s.sh.nextGen))])
  }

  function Spawned(s: State, c: CallerId, g: Gen): State
    requires c in s.callers && g in s.flights
  {
    State(s.sh, s.flights[g := s.flights[g].(pc := Querying)], s.callers[c := s.callers[c].(pc := Polling(g))])
  }

  lemma LeadShape(s: State, c: CallerId, caller: Caller)
    requires c in s.callers && s.callers[c] == caller && caller.pc.Locking? && caller.key.Some?
    requires caller.key.value !in s.sh.inner
    ensures Enabled(s, Lock(c))
    ensures Apply(s, Lock(c)) == Led(s, c, caller)
  {
  }

  function Joined(s: State, c: CallerId, caller: Caller): State
    requires caller.key.Some? && caller.key.value in s.sh.inner
  {
    s.(callers := s.callers[c := caller.(leader := false, pc := Joining(s.sh.inner[caller.key.value]))])
  }

  lemma JoinShape(s: State, c: CallerId, caller: Caller)
    requires c in s.callers && s.callers[c] == caller && caller.pc.Locking? && caller.key.Some?
    requires caller.key.value in s.sh.inner
    ensures Enabled(s, Lock(c))
    ensures Apply(s, Lock(c)) == Joined(s, c, caller)
  {
  }

  lemma CountLeaderShape(s: State, c: CallerId, g: Gen)
    requires c in s.callers && s.callers[c].pc == Leading(g) && g in s.flights && s.flights[g].pc.Inserted?
    ensures Enabled(s, CountLeader(c))
    ensures Apply(s, CountLeader(c))
            == State(s.sh.(leaders := s.sh.leaders + 1), s.flights[g := s.flights[g].(pc := Started)], s.callers)
  {
  }

  lemma SpawnShape(s: State, c: CallerId, g: Gen)
    requires c in s.callers && s.callers[c].pc == Leading(g) && g in s.flights && s.flights[g].pc.Started?
    ensures Enabled(s, Spawn(c))
    ensures Apply(s, Spawn(c)) == Spawned(s, c, g)
  {
  }

  lemma CountFollowerShape(s: State, c: CallerId, g: Gen)
    requires c in s.callers && s.callers[c].pc == Joining(g)
    ensures Enabled(s, CountFollower(c))
    ensures Apply(s, CountFollower(c))
            == State(s.sh.(followers := s.sh.followers + 1), s.flights, s.callers[c := s.callers[c].(pc := Polling(g))])
  {
  }

  lemma UncountShape(s: State, g: Gen)
    requires Enabled(s, Uncount(g))
    ensures Apply(s, Uncount(g))
            == State(s.sh.(leaders := s.sh.leaders - 1), s.flights[g := s.flights[g].(pc := Uncounted)], s.callers)
  {
  }

  // ---- putting runs together ----

  lemma RunCons(s: State, a: Step, rest: seq<Step>)
    requires Enabled(s, a) && IsRun(Apply(s, a), rest)
    ensures IsRun(s, [a] + rest) && Run(s, [a] + rest) == Run(Apply(s, a), rest)
  {
    assert ([a] + rest)[1..] == rest;
  }

  lemma RunOfOne(s: State, a: Step)
    requires Enabled(s, a)
    ensures IsRun(s, [a]) && Run(s, [a]) == Apply(s, a)
  {
    var none: seq<Step> := [];
    assert IsRun(Apply(s, a), none) && Run(Apply(s, a), none) == Apply(s, a);
    RunCons(s, a, none);
    assert [a] + none == [a];
  }

  lemma {:induction false} RunConcat(s: State, first: seq<Step>, rest: seq<Step>)
    requires IsRun(s, first) && IsRun(Run(s, first), rest)
    ensures IsRun(s, first + rest) && Run(s, first + rest) == Run(Run(s, first), rest)
    decreases |first|
  {
    if first == [] {
      assert first + rest == rest;
    } else {
      RunConcat(Apply(s, first[0]), first[1..], rest);
      assert (first + rest)[1..] == first[1..] + rest;
    }
  }
}
