/** The order in which a pool tries its upstreams, and where each query starts. */
module AttemptOrder {
  import opened Arithmetic

  /** The indices at cyclic offsets 0..n from `start` whose degraded flag is `want`, in that order. */
  function Pick(degraded: seq<bool>, start: nat, n: nat, want: bool): seq<nat>
    requires degraded != []
  {
    if n == 0 then []
    else
      var idx := (start + n - 1) % |degraded|;
      Pick(degraded, start, n - 1, want) + if degraded[idx] == want then [idx] else []
  }

  function Order(degraded: seq<bool>, start: nat): seq<nat> {
    if degraded == [] then []
    else Pick(degraded, start, |degraded|, false) + Pick(degraded, start, |degraded|, true)
  }

  /** How far `idx` lies from `start`, going round. */
  function Offset(start: nat, len: nat, idx: nat): nat
    requires idx < len
  {
    (idx + len - start % len) % len
  }

  lemma OffsetOf(start: nat, len: nat, i: nat)
    requires i < len
    ensures Offset(start, len, (start + i) % len) == i
  {
    var s := start % len;
    ModOfSum(start, i, len);
    if s + i < len {
      DivModIs(s + i, len, 0, s + i);
      DivModIs(i + len, len, 1, i);
    } else {
      DivModIs(s + i, len, 1, s + i - len);
      DivModIs(i, len, 0, i);
    }
  }

  lemma IndexAtOffset(start: nat, len: nat, idx: nat)
    requires idx < len
    ensures Offset(start, len, idx) < len && (start + Offset(start, len, idx)) % len == idx
  {
    var s := start % len;
    ModOfSum(start, Offset(start, len, idx), len);
    if idx >= s {
      DivModIs(idx + len - s, len, 1, idx - s);
      DivModIs(idx, len, 0, idx);
    } else {
      DivModIs(idx + len - s, len, 0, idx + len - s);
      DivModIs(idx + len, len, 1, idx);
    }
  }

  /** Healthy before degraded, and each group by cyclic distance from the start. */
  function Rank(degraded: seq<bool>, start: nat, idx: nat): nat
    requires idx < |degraded|
  {
    (if degraded[idx] then |degraded| else 0) + Offset(start, |degraded|, idx)
  }

  /** Every index, in strictly rising rank. */
  ghost predicate IsAttemptOrder(degraded: seq<bool>, start: nat, order: seq<nat>) {
    && (forall i :: 0 <= i < |order| ==> order[i] < |degraded|)
    && (forall idx: nat :: idx < |degraded| ==> idx in order)
    && (forall i, j :: 0 <= i < j < |order| ==>
          Rank(degraded, start, order[i]) < Rank(degraded, start, order[j]))
  }

  /** All indices with the given flag at distances below `n` from the start, by rising distance. */
  ghost predicate IsPart(degraded: seq<bool>, start: nat, n: nat, part: seq<nat>, want: bool) {
    && (forall i :: 0 <= i < |part| ==>
          part[i] < |degraded| && degraded[part[i]] == want && Offset(start, |degraded|, part[i]) < n)
    && (forall i, j :: 0 <= i < j < |part| ==>
          Offset(start, |degraded|, part[i]) < Offset(start, |degraded|, part[j]))
    && (forall idx: nat ::
          idx < |degraded| && degraded[idx] == want && Offset(start, |degraded|, idx) < n ==> idx in part)
  }

  lemma PartGrows(degraded: seq<bool>, start: nat, n: nat, part: seq<nat>, want: bool, idx: nat)
    requires IsPart(degraded, start, n, part, want)
    requires idx < |degraded| && Offset(start, |degraded|, idx) == n
    requires forall i: nat :: i < |degraded| && Offset(start, |degraded|, i) == n ==> i == idx
    ensures IsPart(degraded, start, n + 1, part + if degraded[idx] == want then [idx] else [], want)
  {
  }

  lemma {:induction false} PickContents(degraded: seq<bool>, start: nat, n: nat, want: bool)
    requires degraded != [] && n <= |degraded|
    ensures IsPart(degraded, start, n, Pick(degraded, start, n, want), want)
  {
    if n > 0 {
      var len := |degraded|;
      PickContents(degraded, start, n - 1, want);
      OffsetOf(start, len, n - 1);
      forall idx: nat | idx < len && Offset(start, len, idx) == n - 1 ensures idx == (start + n - 1) % len {
        IndexAtOffset(start, len, idx);
      }
      PartGrows(degraded, start, n - 1, Pick(degraded, start, n - 1, want), want, (start + n - 1) % len);
    }
  }

  /** All indices with the given flag, by rising distance from the start. */
  ghost predicate IsGroup(degraded: seq<bool>, start: nat, group: seq<nat>, want: bool) {
    && (forall i :: 0 <= i < |group| ==> group[i] < |degraded| && degraded[group[i]] == want)
    && (forall i, j :: 0 <= i < j < |group| ==>
          Offset(start, |degraded|, group[i]) < Offset(start, |degraded|, group[j]))
    && (forall idx: nat :: idx < |degraded| && degraded[idx] == want ==> idx in group)
  }

  lemma PickIsGroup(degraded: seq<bool>, start: nat, want: bool)
    requires degraded != []
    ensures IsGroup(degraded, start, Pick(degraded, start, |degraded|, want), want)
  {
    PickContents(degraded, start, |degraded|, want);
    forall idx: nat | idx < |degraded| ensures Offset(start, |degraded|, idx) < |degraded| {
      IndexAtOffset(start, |degraded|, idx);
    }
  }

  lemma HealthyThenDegraded(degraded: seq<bool>, start: nat, h: seq<nat>, d: seq<nat>)
    requires IsGroup(degraded, start, h, false) && IsGroup(degraded, start, d, true)
    ensures IsAttemptOrder(degraded, start, h + d)
  {
    var order := h + d;
    forall idx: nat | idx < |degraded| ensures idx in order {
      assert idx in h || idx in d;
    }
    forall i, j | 0 <= i < j < |order|
      ensures Rank(degraded, start, order[i]) < Rank(degraded, start, order[j])
    {
      if i < |h| <= j {
        IndexAtOffset(start, |degraded|, order[i]);
      }
    }
  }

  /** A permutation of the upstreams: healthy ones first, each group in cyclic order from the start. */
  lemma OrderIsAttemptOrder(degraded: seq<bool>, start: nat)
    ensures IsAttemptOrder(degraded, start, Order(degraded, start))
  {
    if degraded != [] {
      PickIsGroup(degraded, start, false);
      PickIsGroup(degraded, start, true);
      HealthyThenDegraded(degraded, start,
                          Pick(degraded, start, |degraded|, false), Pick(degraded, start, |degraded|, true));
    }
  }

  /** Where two orders agree so far, the next of one is a place of the other from there on. */
  lemma RankNotBelow(degraded: seq<bool>, start: nat, a: seq<nat>, b: seq<nat>, k: nat)
    requires IsAttemptOrder(degraded, start, a) && IsAttemptOrder(degraded, start, b)
    requires k < |a| && k < |b| && forall i :: 0 <= i < k ==> a[i] == b[i]
    ensures Rank(degraded, start, a[k]) <= Rank(degraded, start, b[k])
  {
    assert b[k] in a;
    var j :| 0 <= j < |a| && a[j] == b[k];
    assert k < j ==> Rank(degraded, start, a[k]) < Rank(degraded, start, a[j]);
  }

  lemma RanksDiffer(degraded: seq<bool>, start: nat, x: nat, y: nat)
    requires x < |degraded| && y < |degraded| && Rank(degraded, start, x) == Rank(degraded, start, y)
    ensures x == y
  {
    IndexAtOffset(start, |degraded|, x);
    IndexAtOffset(start, |degraded|, y);
  }

  lemma {:induction false} SamePrefix(degraded: seq<bool>, start: nat, a: seq<nat>, b: seq<nat>, n: nat)
    requires IsAttemptOrder(degraded, start, a) && IsAttemptOrder(degraded, start, b)
    requires n <= |a| && |a| == |b|
    ensures a[..n] == b[..n]
  {
    if n > 0 {
      var k := n - 1;
      SamePrefix(degraded, start, a, b, k);
      assert forall i :: 0 <= i < k ==> a[i] == a[..k][i] && b[i] == b[..k][i];
      RankNotBelow(degraded, start, a, b, k);
      RankNotBelow(degraded, start, b, a, k);
      RanksDiffer(degraded, start, a[k], b[k]);
    }
  }

  /** There is one such order, and it is `Order`. */
  lemma OrderIsDetermined(degraded: seq<bool>, start: nat, order: seq<nat>)
    ensures IsAttemptOrder(degraded, start, order) <==> order == Order(degraded, start)
  {
    OrderIsAttemptOrder(degraded, start);
    if IsAttemptOrder(degraded, start, order) {
      var spec := Order(degraded, start);
      OrderLength(degraded, start, order);
      OrderLength(degraded, start, spec);
      SamePrefix(degraded, start, order, spec, |order|);
      assert order[..|order|] == order && spec[..|order|] == spec;
    }
  }

  /** No upstream is listed twice. */
  lemma OrderIsInjective(degraded: seq<bool>, start: nat, order: seq<nat>)
    requires IsAttemptOrder(degraded, start, order)
    ensures forall i, j :: 0 <= i < j < |order| ==> order[i] != order[j]
  {
  }

  lemma {:induction false} OrderLength(degraded: seq<bool>, start: nat, order: seq<nat>)
    requires IsAttemptOrder(degraded, start, order)
    ensures |order| == |degraded|
  {
    OrderIsInjective(degraded, start, order);
    UpTo(|degraded|);
    DistinctCount(order, Indices(|degraded|));
  }

  function Indices(n: nat): set<nat> {
    if n == 0 then {} else Indices(n - 1) + {n - 1}
  }

  lemma {:induction false} UpTo(n: nat)
    ensures |Indices(n)| == n && forall i: nat :: i in Indices(n) <==> i < n
  {
    if n > 0 { UpTo(n - 1); }
  }

  lemma {:induction false} DistinctCount(s: seq<nat>, members: set<nat>)
    requires forall i, j :: 0 <= i < j < |s| ==> s[i] != s[j]
    requires forall x :: x in s <==> x in members
    ensures |s| == |members|
  {
    if s == [] {
      assert members == {};
    } else {
      var last := s[|s| - 1];
      var init := s[..|s| - 1];
      forall x ensures x in init <==> x in members - {last} {
        if x in members && x != last {
          var i :| 0 <= i < |s| && s[i] == x;
          assert init[i] == x;
        }
        if x in init {
          var i :| 0 <= i < |init| && init[i] == x;
          assert s[i] == x;
        }
      }
      DistinctCount(init, members - {last});
    }
  }

  /**
   * The first upstream tried is the first healthy one going round from the start, and a
   * degraded one only when every upstream is degraded.
   */
  lemma FirstAttempt(degraded: seq<bool>, start: nat, idx: nat)
    requires degraded != [] && idx < |degraded|
    ensures Order(degraded, start) != []
    ensures var first := Order(degraded, start)[0];
            && first < |degraded|
            && (degraded[first] ==> degraded[idx])
            && (degraded[first] == degraded[idx] ==>
                  Offset(start, |degraded|, first) <= Offset(start, |degraded|, idx))
  {
    OrderIsAttemptOrder(degraded, start);
    var order := Order(degraded, start);
    assert idx in order;
    var i :| 0 <= i < |order| && order[i] == idx;
    IndexAtOffset(start, |degraded|, idx);
    IndexAtOffset(start, |degraded|, order[0]);
    if i > 0 { assert Rank(degraded, start, order[0]) < Rank(degraded, start, order[i]); }
  }

  // ---- round robin ----

  datatype Policy = Sequential | RoundRobin

  /** Where a query starts when it finds the counter at `counter`, and what it leaves the counter at. */
  function NextStart(policy: Policy, counter: nat, len: nat): (nat, nat)
    requires len > 0
  {
    match policy
    case Sequential => (0, counter)
    case RoundRobin => (counter % len, counter + 1)
  }

  /** The starts of `n` queries, one after the other in the order they take the counter. */
  function Issued(policy: Policy, counter: nat, n: nat, len: nat): seq<nat>
    requires len > 0
    decreases n
  {
    if n == 0 then []
    else
      var (start, next) := NextStart(policy, counter, len);
      [start] + Issued(policy, next, n - 1, len)
  }

  /** How many of the `n` queries from counter value `counter` on start at index `idx`. */
  function Starts(counter: nat, n: nat, len: nat, idx: nat): nat
    requires len > 0
  {
    if n == 0 then 0
    else Starts(counter, n - 1, len, idx) + if (counter + n - 1) % len == idx then 1 else 0
  }

  /** How many numbers below `x` leave remainder `idx`. */
  function Below(x: nat, len: nat, idx: nat): nat
    requires idx < len
  {
    (x + len - 1 - idx) / len
  }

  lemma BelowStep(x: nat, len: nat, idx: nat)
    requires idx < len
    ensures Below(x + 1, len, idx) == Below(x, len, idx) + if x % len == idx then 1 else 0
  {
    var q, r := x / len, x % len;
    assert x == q * len + r;
    if r < idx {
      DivModIs(x + len - 1 - idx, len, q, r + len - 1 - idx);
      DivModIs(x + len - idx, len, q, r + len - idx);
    } else if r == idx {
      DivModIs(x + len - 1 - idx, len, q, len - 1);
      DivModIs(x + len - idx, len, q + 1, 0);
    } else {
      DivModIs(x + len - 1 - idx, len, q + 1, r - 1 - idx);
      DivModIs(x + len - idx, len, q + 1, r - idx);
    }
  }

  lemma {:induction false} StartsClosed(counter: nat, n: nat, len: nat, idx: nat)
    requires idx < len
    ensures Starts(counter, n, len, idx) == Below(counter + n, len, idx) - Below(counter, len, idx)
  {
    if n > 0 {
      StartsClosed(counter, n - 1, len, idx);
      BelowStep(counter + n - 1, len, idx);
    }
  }

  lemma QuotientGap(a: nat, n: nat, m: nat)
    requires m > 0
    ensures n / m <= (a + n) / m - a / m <= n / m + (if n % m == 0 then 0 else 1)
  {
    var qa, ra := a / m, a % m;
    var qn, rn := n / m, n % m;
    assert a == qa * m + ra && n == qn * m + rn;
    assert (qa + qn) * m == qa * m + qn * m;
    if ra + rn < m {
      DivModIs(a + n, m, qa + qn, ra + rn);
    } else {
      assert (qa + qn + 1) * m == (qa + qn) * m + m;
      DivModIs(a + n, m, qa + qn + 1, ra + rn - m);
    }
  }

  lemma BelowGap(counter: nat, n: nat, len: nat, idx: nat)
    requires idx < len
    ensures Below(counter + n, len, idx) == (counter + (len - 1 - idx) + n) / len
    ensures Below(counter, len, idx) == (counter + (len - 1 - idx)) / len
  {
    assert counter + n + len - 1 - idx == counter + (len - 1 - idx) + n;
    assert counter + len - 1 - idx == counter + (len - 1 - idx);
  }

  lemma StartsAsQuotients(counter: nat, n: nat, len: nat, idx: nat, a: nat)
    requires idx < len && a == counter + (len - 1 - idx)
    ensures Starts(counter, n, len, idx) == (a + n) / len - a / len
  {
    StartsClosed(counter, n, len, idx);
    BelowGap(counter, n, len, idx);
  }

  lemma {:induction false} StartsFromFront(counter: nat, n: nat, len: nat, idx: nat)
    requires len > 0 && n > 0
    ensures Starts(counter, n, len, idx) == Starts(counter + 1, n - 1, len, idx) + if counter % len == idx then 1 else 0
  {
    if n > 1 { StartsFromFront(counter, n - 1, len, idx); }
  }

  lemma {:induction false} IssuedCount(counter: nat, n: nat, len: nat, idx: nat)
    requires len > 0
    ensures multiset(Issued(RoundRobin, counter, n, len))[idx] == Starts(counter, n, len, idx)
    decreases n
  {
    if n > 0 {
      IssuedCount(counter + 1, n - 1, len, idx);
      StartsFromFront(counter, n, len, idx);
    }
  }

  lemma IssuedNext(policy: Policy, counter: nat, n: nat, len: nat, before: seq<nat>)
    requires len > 0 && n > 0
    ensures var (start, next) := NextStart(policy, counter, len);
            before + [start] + Issued(policy, next, n - 1, len) == before + Issued(policy, counter, n, len)
  {
  }

  /** Each index starts its even share of the queries, rounded down or up. */
  predicate IsFair(starts: seq<nat>, len: nat)
    requires len > 0
  {
    forall idx: nat :: idx < len ==>
      |starts| / len <= multiset(starts)[idx] <= |starts| / len + (if |starts| % len == 0 then 0 else 1)
  }

  /**
   * Of n consecutive queries on a round-robin pool each index starts floor(n / len) or
   * ceiling(n / len), wherever the counter stood before them.
   */
  lemma RoundRobinIsFair(counter: nat, n: nat, len: nat)
    requires len > 0
    ensures |Issued(RoundRobin, counter, n, len)| == n && IsFair(Issued(RoundRobin, counter, n, len), len)
  {
    IssuedLength(RoundRobin, counter, n, len);
    forall idx: nat | idx < len
      ensures n / len <= Starts(counter, n, len, idx) <= n / len + (if n % len == 0 then 0 else 1)
      ensures multiset(Issued(RoundRobin, counter, n, len))[idx] == Starts(counter, n, len, idx)
    {
      var a := counter + (len - 1 - idx);
      IssuedCount(counter, n, len, idx);
      StartsAsQuotients(counter, n, len, idx, a);
      QuotientGap(a, n, len);
    }
  }

  lemma {:induction false} IssuedLength(policy: Policy, counter: nat, n: nat, len: nat)
    requires len > 0
    ensures |Issued(policy, counter, n, len)| == n
    decreases n
  {
    if n > 0 { IssuedLength(policy, NextStart(policy, counter, len).1, n - 1, len); }
  }

  lemma OffsetFromZero(len: nat, idx: nat)
    requires idx < len
    ensures Offset(0, len, idx) == idx
  {
    DivModIs(0, len, 0, 0);
    DivModIs(idx + len, len, 1, idx);
  }

  /**
   * A sequential pool starts every query at upstream 0 and leaves the counter alone: the healthy
   * upstreams are tried in the order they are configured in, then the degraded ones in that order.
   */
  lemma SequentialOrder(degraded: seq<bool>, counter: nat)
    requires degraded != []
    ensures NextStart(Sequential, counter, |degraded|) == (0, counter)
    ensures var order := Order(degraded, 0);
            && (forall i :: 0 <= i < |order| ==> order[i] < |degraded|)
            && (forall i, j :: 0 <= i < j < |order| ==>
                  (degraded[order[i]] ==> degraded[order[j]])
                  && (degraded[order[i]] == degraded[order[j]] ==> order[i] < order[j]))
  {
    OrderIsAttemptOrder(degraded, 0);
    var order := Order(degraded, 0);
    forall i, j | 0 <= i < j < |order|
      ensures degraded[order[i]] ==> degraded[order[j]]
      ensures degraded[order[i]] == degraded[order[j]] ==> order[i] < order[j]
    {
      OffsetFromZero(|degraded|, order[i]);
      OffsetFromZero(|degraded|, order[j]);
      assert Rank(degraded, 0, order[i]) < Rank(degraded, 0, order[j]);
    }
  }

  /** So when all upstreams are healthy it asks upstream 0 first. */
  lemma SequentialAsksFirst(degraded: seq<bool>, counter: nat)
    requires degraded != [] && forall i :: 0 <= i < |degraded| ==> !degraded[i]
    ensures var start := NextStart(Sequential, counter, |degraded|).0;
            Order(degraded, start) != [] && Order(degraded, start)[0] == 0
  {
    SequentialOrder(degraded, counter);
    FirstAttempt(degraded, 0, 0);
    OffsetFromZero(|degraded|, 0);
    IndexAtOffset(0, |degraded|, Order(degraded, 0)[0]);
    OffsetFromZero(|degraded|, Order(degraded, 0)[0]);
  }
}
