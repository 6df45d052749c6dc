/** Passive health of one upstream; times are milliseconds since the pool was built. */
module UpstreamHealth {
  const FAILURE_THRESHOLD: nat := 3
  const COOLDOWN: nat := 30_000

  datatype HealthState = HealthState(failures: nat, degradedUntil: nat)

  const HEALTHY := HealthState(0, 0)

  predicate IsDegraded(h: HealthState, now: nat) {
    h.degradedUntil > now
  }

  function Fail(h: HealthState, now: nat): HealthState {
    HealthState(h.failures + 1, if h.failures + 1 >= FAILURE_THRESHOLD then now + COOLDOWN else h.degradedUntil)
  }

  /** Whether the failure is the one that sidelines the upstream. */
  predicate Trips(h: HealthState, now: nat) {
    h.failures + 1 >= FAILURE_THRESHOLD && h.degradedUntil <= now
  }

  class Health {
    var consecutiveFailures: nat
    var degradedUntil: nat

    function Model(): HealthState
      reads this
    {
      HealthState(consecutiveFailures, degradedUntil)
    }

    constructor ()
      ensures Model() == HEALTHY
    {
      consecutiveFailures, degradedUntil := 0, 0;
    }

    method RecordSuccess()
      modifies this
      ensures Model() == HEALTHY
    {
      consecutiveFailures := 0;
      degradedUntil := 0;
    }

    method RecordFailure(now: nat) returns (tripped: bool)
      modifies this
      ensures Model() == Fail(old(Model()), now)
      ensures tripped == Trips(old(Model()), now)
    {
      consecutiveFailures := consecutiveFailures + 1;
      if consecutiveFailures >= FAILURE_THRESHOLD {
        var wasHealthy := degradedUntil <= now;
        degradedUntil := now + COOLDOWN;
        return wasHealthy;
      }
      return false;
    }
  }

  // ---- calls made one after the other: the state as a function of the trace ----

  datatype Event = Success | Failure(at: nat)

  function Replay(trace: seq<Event>): HealthState {
    if trace == [] then HEALTHY
    else
      match trace[|trace| - 1]
      case Success => HEALTHY
      case Failure(at) => Fail(Replay(trace[..|trace| - 1]), at)
  }

  /** How many failures end the trace, with no success among them. */
  function FailureRun(trace: seq<Event>): (n: nat)
    ensures n <= |trace|
    ensures forall i :: |trace| - n <= i < |trace| ==> trace[i].Failure?
    ensures n < |trace| ==> trace[|trace| - n - 1].Success?
  {
    if trace == [] || trace[|trace| - 1].Success? then 0 else 1 + FailureRun(trace[..|trace| - 1])
  }

  lemma {:induction false} ReplayTracksRun(trace: seq<Event>)
    ensures Replay(trace).failures == FailureRun(trace)
    ensures Replay(trace).degradedUntil ==
              if FailureRun(trace) >= FAILURE_THRESHOLD then trace[|trace| - 1].at + COOLDOWN else 0
  {
    if trace != [] && trace[|trace| - 1].Failure? { ReplayTracksRun(trace[..|trace| - 1]); }
  }

  /** Sidelined exactly when at least three failures ended the trace and the last is under 30 s old. */
  lemma DegradedIff(trace: seq<Event>, now: nat)
    ensures IsDegraded(Replay(trace), now) <==>
              FailureRun(trace) >= 3 && now < trace[|trace| - 1].at + 30_000
  {
    ReplayTracksRun(trace);
  }

  /**
   * The transition is reported exactly by a failure that ends a run of at least three and is
   * either the third of the run or comes 30 s or more after the one before it.
   */
  lemma TripsIff(trace: seq<Event>, now: nat)
    ensures Trips(Replay(trace), now) <==>
              var run := FailureRun(trace + [Failure(now)]);
              run >= 3 && (run == 3 || trace[|trace| - 1].at + 30_000 <= now)
  {
    ReplayTracksRun(trace);
    assert (trace + [Failure(now)])[..|trace|] == trace;
  }

  // ---- calls interleaved at their atomic steps ----

  /** A failure between its increment and its swap; a success between its two stores. */
  datatype Call = Swapping(at: nat, seen: nat) | Clearing

  datatype Shared = Shared(h: HealthState, calls: map<nat, Call>, failuresSeen: set<(nat, nat)>)

  const UNTOUCHED := Shared(HEALTHY, map[], {})

  datatype Step =
    | FailIncrement(id: nat, at: nat)
    | FailSwap(id: nat)
    | SucceedZero(id: nat)
    | SucceedClear(id: nat)

  predicate Enabled(s: Shared, step: Step) {
    match step
    case FailIncrement(id, _) => id !in s.calls
    case SucceedZero(id) => id !in s.calls
    case FailSwap(id) => id in s.calls && s.calls[id].Swapping?
    case SucceedClear(id) => id in s.calls && s.calls[id].Clearing?
  }

  function Apply(s: Shared, step: Step): Shared
    requires Enabled(s, step)
  {
    match step
    case FailIncrement(id, at) =>
      var seen := s.h.failures + 1;
      Shared(s.h.(failures := seen),
             if seen >= FAILURE_THRESHOLD then s.calls[id := Swapping(at, seen)] else s.calls,
             s.failuresSeen + {(at, seen)})
    case FailSwap(id) =>
      s.(h := s.h.(degradedUntil := s.calls[id].at + COOLDOWN), calls := s.calls - {id})
    case SucceedZero(id) =>
      s.(h := s.h.(failures := 0), calls := s.calls[id := Clearing])
    case SucceedClear(id) =>
      s.(h := s.h.(degradedUntil := 0), calls := s.calls - {id})
  }

  predicate IsRun(s: Shared, steps: seq<Step>)
    decreases |steps|
  {
    steps == [] || (Enabled(s, steps[0]) && IsRun(Apply(s, steps[0]), steps[1..]))
  }

  function Run(s: Shared, steps: seq<Step>): Shared
    requires IsRun(s, steps)
    decreases |steps|
  {
    if steps == [] then s else Run(Apply(s, steps[0]), steps[1..])
  }

  /** The steps of one call, when no other comes between, do what the call does alone. */
  lemma StepsMakeCalls(s: Shared, id: nat, at: nat)
    requires id !in s.calls
    ensures var counted := Apply(s, FailIncrement(id, at));
            if s.h.failures + 1 >= 3
            then Enabled(counted, FailSwap(id)) && Apply(counted, FailSwap(id)).h == Fail(s.h, at)
            else !Enabled(counted, FailSwap(id)) && counted.h == Fail(s.h, at)
    ensures var zeroed := Apply(s, SucceedZero(id));
            Enabled(zeroed, SucceedClear(id)) && Apply(zeroed, SucceedClear(id)).h == HealthState(0, 0)
  {
  }

  predicate WasSeen(s: Shared, at: nat, seen: nat) {
    (at, seen) in s.failuresSeen && seen >= FAILURE_THRESHOLD
  }

  ghost predicate Grounded(s: Shared) {
    && (s.h.degradedUntil == 0 ||
        exists at: nat, seen: nat :: WasSeen(s, at, seen) && s.h.degradedUntil == at + COOLDOWN)
    && (forall id :: id in s.calls && s.calls[id].Swapping? ==> WasSeen(s, s.calls[id].at, s.calls[id].seen))
  }

  lemma StepKeepsGrounded(s: Shared, step: Step)
    requires Grounded(s) && Enabled(s, step)
    ensures Grounded(Apply(s, step))
  {
    var s' := Apply(s, step);
    forall at: nat, seen: nat | WasSeen(s, at, seen) ensures WasSeen(s', at, seen) {
    }
    if step.FailSwap? {
      assert WasSeen(s', s.calls[step.id].at, s.calls[step.id].seen);
    }
    forall id | id in s'.calls && s'.calls[id].Swapping?
      ensures WasSeen(s', s'.calls[id].at, s'.calls[id].seen)
    {
      if id in s.calls && s.calls[id].Swapping? { assert WasSeen(s, s.calls[id].at, s.calls[id].seen); }
    }
  }

  lemma {:induction false} RunKeepsGrounded(s: Shared, steps: seq<Step>)
    requires Grounded(s) && IsRun(s, steps)
    ensures Grounded(Run(s, steps))
    decreases |steps|
  {
    if steps == [] {
    } else {
      StepKeepsGrounded(s, steps[0]);
      RunKeepsGrounded(Apply(s, steps[0]), steps[1..]);
    }
  }

  /**
   * Under every interleaving an upstream is sidelined only until 30 s after some failure call
   * that counted at least three, so never 30 s or more past every failure.
   */
  lemma SidelinedOnlyByFailures(steps: seq<Step>, now: nat)
    requires IsRun(UNTOUCHED, steps) && IsDegraded(Run(UNTOUCHED, steps).h, now)
    ensures exists at: nat, seen: nat ::
              (at, seen) in Run(UNTOUCHED, steps).failuresSeen && seen >= 3
              && Run(UNTOUCHED, steps).h.degradedUntil == at + 30_000 && now < at + 30_000
  {
    RunKeepsGrounded(UNTOUCHED, steps);
  }

  predicate NoNewFailure(steps: seq<Step>) {
    forall i :: 0 <= i < |steps| ==> !steps[i].FailIncrement?
  }

  predicate SwapPending(s: Shared) {
    exists id :: id in s.calls && s.calls[id].Swapping?
  }

  lemma {:induction false} StaysClear(s: Shared, steps: seq<Step>)
    requires s.h.degradedUntil == 0 && !SwapPending(s) && IsRun(s, steps) && NoNewFailure(steps)
    ensures Run(s, steps).h.degradedUntil == 0
    decreases |steps|
  {
    if steps == [] {
    } else {
      assert !steps[0].FailSwap?;
      assert !SwapPending(Apply(s, steps[0]));
      StaysClear(Apply(s, steps[0]), steps[1..]);
    }
  }

  /**
   * "A success immediately restores it" is not true under every schedule. After a success has
   * cleared the state, the upstream stays clear until the next failure call, whatever else
   * happens, if and only if no earlier failure call was still between its increment and its swap.
   */
  lemma RestoredForGoodIff(s: Shared, id: nat)
    requires Enabled(s, SucceedClear(id))
    ensures var cleared := Apply(s, SucceedClear(id));
            (forall steps | IsRun(cleared, steps) && NoNewFailure(steps) :: Run(cleared, steps).h.degradedUntil == 0)
            <==> !SwapPending(cleared)
  {
    var cleared := Apply(s, SucceedClear(id));
    if SwapPending(cleared) {
      var other :| other in cleared.calls && cleared.calls[other].Swapping?;
      var steps := [FailSwap(other)];
      var after := Apply(cleared, FailSwap(other));
      assert steps[1..] == [] && IsRun(after, []) && Run(after, []) == after;
      assert NoNewFailure(steps) && IsRun(cleared, steps) && Run(cleared, steps) == after;
    } else {
      forall steps | IsRun(cleared, steps) && NoNewFailure(steps) ensures Run(cleared, steps).h.degradedUntil == 0 {
        StaysClear(cleared, steps);
      }
    }
  }

  /** The failing schedule exists: three failures, the third overtaken by a success. */
  lemma OvertakenSuccess()
    ensures var steps := [FailIncrement(0, 10), FailIncrement(1, 20), FailIncrement(2, 30),
                          SucceedZero(3), SucceedClear(3), FailSwap(2)];
            IsRun(UNTOUCHED, steps) && Run(UNTOUCHED, steps).h == HealthState(0, 30_030)
            && Run(UNTOUCHED, steps).calls == map[]
  {
    var s1 := Apply(UNTOUCHED, FailIncrement(0, 10));
    var s2 := Apply(s1, FailIncrement(1, 20));
    var s3 := Apply(s2, FailIncrement(2, 30));
    var s4 := Apply(s3, SucceedZero(3));
    var s5 := Apply(s4, SucceedClear(3));
    var s6 := Apply(s5, FailSwap(2));
    assert s6.calls == map[];
    assert IsRun(s6, []) && Run(s6, []) == s6;
    assert IsRun(s5, [FailSwap(2)]) && Run(s5, [FailSwap(2)]) == s6;
    RunCons(s4, SucceedClear(3), [FailSwap(2)]);
    RunCons(s3, SucceedZero(3), [SucceedClear(3), FailSwap(2)]);
    RunCons(s2, FailIncrement(2, 30), [SucceedZero(3), SucceedClear(3), FailSwap(2)]);
    RunCons(s1, FailIncrement(1, 20), [FailIncrement(2, 30), SucceedZero(3), SucceedClear(3), FailSwap(2)]);
    RunCons(UNTOUCHED, FailIncrement(0, 10),
            [FailIncrement(1, 20), FailIncrement(2, 30), SucceedZero(3), SucceedClear(3), FailSwap(2)]);
  }

  lemma RunCons(s: Shared, step: Step, rest: seq<Step>)
    requires Enabled(s, step) && IsRun(Apply(s, step), rest)
    ensures IsRun(s, [step] + rest) && Run(s, [step] + rest) == Run(Apply(s, step), rest)
  {
    assert ([step] + rest)[1..] == rest;
  }
}
