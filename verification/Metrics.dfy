/** The process-wide counters; each method is a group of atomic read-modify-write steps. */
module Metrics {
  datatype Counters = Counters(
    cacheEntries: int,
    cacheEvictions: int,
    upstreamFailures: int,
    upstreamSuccesses: int,
    upstreamTimeouts: int,
    pendingLeaders: int,
    pendingFollowers: int,
    pendingFollowerTimeouts: int,
    pendingFollowerSuccesses: int)

  class MetricsRecorder {
    var cacheEntries: int
    var cacheEvictions: int
    var upstreamFailures: int
    var upstreamSuccesses: int
    var upstreamTimeouts: int
    var pendingLeaders: int
    var pendingFollowers: int
    var pendingFollowerTimeouts: int
    var pendingFollowerSuccesses: int

    function Snapshot(): Counters
      reads this
    {
      Counters(cacheEntries, cacheEvictions, upstreamFailures, upstreamSuccesses, upstreamTimeouts,
               pendingLeaders, pendingFollowers, pendingFollowerTimeouts, pendingFollowerSuccesses)
    }

    constructor ()
      ensures Snapshot() == Counters(0, 0, 0, 0, 0, 0, 0, 0, 0)
    {
      cacheEntries, cacheEvictions := 0, 0;
      upstreamFailures, upstreamSuccesses, upstreamTimeouts := 0, 0, 0;
      pendingLeaders, pendingFollowers, pendingFollowerTimeouts, pendingFollowerSuccesses := 0, 0, 0, 0;
    }

    method SetCacheEntries(n: nat)
      modifies this
      ensures Snapshot() == old(Snapshot()).(cacheEntries := n)
    {
      cacheEntries := n;
    }

    method RecordCacheEviction()
      modifies this
      ensures Snapshot() == old(Snapshot()).(cacheEvictions := old(cacheEvictions) + 1)
    {
      cacheEvictions := cacheEvictions + 1;
    }

    method RecordUpstreamFailure()
      modifies this
      ensures Snapshot() == old(Snapshot()).(upstreamFailures := old(upstreamFailures) + 1)
    {
      upstreamFailures := upstreamFailures + 1;
    }

    method RecordUpstreamSuccess()
      modifies this
      ensures Snapshot() == old(Snapshot()).(upstreamSuccesses := old(upstreamSuccesses) + 1)
    {
      upstreamSuccesses := upstreamSuccesses + 1;
    }

    method RecordUpstreamTimeout()
      modifies this
      ensures Snapshot() == old(Snapshot()).(upstreamTimeouts := old(upstreamTimeouts) + 1)
    {
      upstreamTimeouts := upstreamTimeouts + 1;
    }

    method RecordPendingLeaderStarted()
      modifies this
      ensures Snapshot() == old(Snapshot()).(pendingLeaders := old(pendingLeaders) + 1)
    {
      pendingLeaders := pendingLeaders + 1;
    }

    method RecordPendingLeaderCompleted()
      modifies this
      ensures Snapshot() == old(Snapshot()).(pendingLeaders := old(pendingLeaders) - 1)
    {
      pendingLeaders := pendingLeaders - 1;
    }

    method RecordPendingFollowerJoined()
      modifies this
      ensures Snapshot() == old(Snapshot()).(pendingFollowers := old(pendingFollowers) + 1)
    {
      pendingFollowers := pendingFollowers + 1;
    }

    method RecordPendingFollowerResolved()
      modifies this
      ensures Snapshot() == old(Snapshot()).(pendingFollowers := old(pendingFollowers) - 1,
                                             pendingFollowerSuccesses := old(pendingFollowerSuccesses) + 1)
    {
      pendingFollowers := pendingFollowers - 1;
      pendingFollowerSuccesses := pendingFollowerSuccesses + 1;
    }

    method RecordPendingFollowerTimeout()
      modifies this
      ensures Snapshot() == old(Snapshot()).(pendingFollowers := old(pendingFollowers) - 1,
                                             pendingFollowerTimeouts := old(pendingFollowerTimeouts) + 1)
    {
      pendingFollowers := pendingFollowers - 1;
      pendingFollowerTimeouts := pendingFollowerTimeouts + 1;
    }
  }
}
