/**
 * Keep-alive connections to a DNS-over-TLS upstream. Streams are linear: a query future
 * holds one, or it lies in the idle stack of its endpoint, or it has been dropped.
 */
module DotPool {
  import opened Wrappers
  import opened Messages

  const MAX_IDLE: nat := 8
  const IDLE_MAX_AGE: nat := 30_000

  type Endpoint = nat
  type StreamId = nat
  type FutureId = nat

  datatype Idle = Idle(stream: StreamId, since: nat)

  type IdlePool = map<Endpoint, seq<Idle>>

  function Stack(idle: IdlePool, e: Endpoint): seq<Idle> {
    if e in idle then idle[e] else []
  }

  predicate Young(i: Idle, now: nat) {
    (if now < i.since then 0 else now - i.since) < IDLE_MAX_AGE
  }

  /** Pops until a young stream turns up; the old ones met on the way are dropped. */
  function Pop(stack: seq<Idle>, now: nat): (r: (seq<Idle>, Option<StreamId>))
    ensures r.0 <= stack
    ensures forall i :: |r.0| < i < |stack| ==> !Young(stack[i], now)
    ensures r.1.Some? ==> |r.0| < |stack| && Young(stack[|r.0|], now) && r.1.value == stack[|r.0|].stream
    ensures r.1.None? ==> r.0 == [] && (stack != [] ==> !Young(stack[0], now))
  {
    if stack == [] then ([], None)
    else
      var top := stack[|stack| - 1];
      if Young(top, now) then (stack[..|stack| - 1], Some(top.stream)) else Pop(stack[..|stack| - 1], now)
  }

  predicate SortedStack(stack: seq<Idle>) {
    forall i, j :: 0 <= i < j < |stack| ==> stack[i].since <= stack[j].since
  }

  /** On a stack filled in time order the stream reused is the one returned last, or none is young enough. */
  lemma PopTakesTop(stack: seq<Idle>, now: nat)
    requires SortedStack(stack)
    ensures Pop(stack, now) ==
      if stack != [] && Young(stack[|stack| - 1], now)
      then (stack[..|stack| - 1], Some(stack[|stack| - 1].stream)) else ([], None)
  {
  }

  function CheckoutFrom(idle: IdlePool, e: Endpoint, now: nat): (IdlePool, Option<StreamId>) {
    if e !in idle then (idle, None)
    else
      var (rest, found) := Pop(idle[e], now);
      (idle[e := rest], found)
  }

  function CheckinTo(idle: IdlePool, e: Endpoint, stream: StreamId, now: nat): IdlePool {
    var conns := Stack(idle, e);
    idle[e := if |conns| < MAX_IDLE then conns + [Idle(stream, now)] else conns]
  }

  class DotUpstream {
    var idle: IdlePool

    constructor ()
      ensures idle == map[]
    {
      idle := map[];
    }

    method Checkout(e: Endpoint, now: nat) returns (found: Option<StreamId>)
      modifies this
      ensures (idle, found) == CheckoutFrom(old(idle), e, now)
    {
      if e !in idle { return None; }
      var conns := idle[e];
      while conns != []
        invariant e in old(idle) && idle == old(idle)
        invariant Pop(conns, now) == Pop(old(idle)[e], now)
        decreases |conns|
      {
        var top := conns[|conns| - 1];
        conns := conns[..|conns| - 1];
        if Young(top, now) {
          idle := idle[e := conns];
          return Some(top.stream);
        }
      }
      idle := idle[e := conns];
      return None;
    }

    method Checkin(e: Endpoint, stream: StreamId, now: nat)
      modifies this
      ensures idle == CheckinTo(old(idle), e, stream, now)
    {
      if e !in idle { idle := idle[e := []]; }
      var conns := idle[e];
      if |conns| < MAX_IDLE { conns := conns + [Idle(stream, now)]; }
      idle := idle[e := conns];
    }
  }

  // ---- the whole protocol ----

  /** Where a stream's byte traffic stands between messages or inside one. */
  datatype Phase = Clean | PartWritten | Written | PartRead

  /**
   * `requests` were written in full, `answers` is what the server has sent so far, and the
   * first `replies` of those were read in full. Reading takes the oldest answer not yet read.
   */
  datatype Stream = Stream(
    endpoint: Endpoint, phase: Phase, requests: seq<Message>, answers: seq<Message>, replies: nat)

  datatype Pc =
    | Starting
    | Connecting
    | Exchanging(stream: StreamId, pooled: bool)
    | Parking(stream: StreamId, reply: nat, message: Message)   // has read reply number `reply` of its stream
    | Answered(stream: StreamId, reply: nat, message: Message)
    | Failed

  datatype Future = Future(endpoint: Endpoint, request: Message, pc: Pc)

  datatype State = State(
    idle: IdlePool, streams: map<StreamId, Stream>, futures: map<FutureId, Future>, nextStream: StreamId, clock: nat)

  const INITIAL := State(map[], map[], map[], 0, 0)

  datatype Step =
    | Begin(f: FutureId, endpoint: Endpoint, request: Message)
    | TakeIdle(f: FutureId, now: nat)
    | Connect(f: FutureId)
    | WriteSome(f: FutureId)
    | WriteRest(f: FutureId)
    | ReadSome(f: FutureId)
    | ReadRest(f: FutureId)
    | Break(f: FutureId)            // the exchange or the connection attempt failed
    | GiveUp(f: FutureId)           // the timeout fired, or the future was dropped
    | PutIdle(f: FutureId, now: nat)
    | Serve(x: StreamId, answer: Message)  // the server sends something, asked for or not

  function Holds(pc: Pc): Option<StreamId> {
    match pc
    case Exchanging(x, _) => Some(x)
    case Parking(x, _, _) => Some(x)
    case _ => None
  }

  predicate InPhase(s: State, f: FutureId, phase: Phase) {
    f in s.futures && s.futures[f].pc.Exchanging? && s.futures[f].pc.stream in s.streams
    && s.streams[s.futures[f].pc.stream].phase == phase
  }

  predicate HasUnread(st: Stream) {
    st.replies < |st.answers|
  }

  predicate Enabled(s: State, step: Step) {
    match step
    case Begin(f, _, _) => f !in s.futures
    case TakeIdle(f, now) => f in s.futures && s.futures[f].pc.Starting? && s.clock <= now
    case Connect(f) => f in s.futures && s.futures[f].pc.Connecting?
    case WriteSome(f) => InPhase(s, f, Clean)
    case WriteRest(f) => InPhase(s, f, PartWritten)
    case ReadSome(f) => InPhase(s, f, Written) && HasUnread(s.streams[s.futures[f].pc.stream])
    case ReadRest(f) => InPhase(s, f, PartRead) && HasUnread(s.streams[s.futures[f].pc.stream])
    case Break(f) => f in s.futures && (s.futures[f].pc.Exchanging? || s.futures[f].pc.Connecting?)
    case GiveUp(f) => f in s.futures && !s.futures[f].pc.Answered? && !s.futures[f].pc.Failed?
    case PutIdle(f, now) => f in s.futures && s.futures[f].pc.Parking? && s.clock <= now
    case Serve(x, _) => x in s.streams
  }

  function At(s: State, f: FutureId, pc: Pc): State
    requires f in s.futures
  {
    s.(futures := s.futures[f := s.futures[f].(pc := pc)])
  }

  function Traffic(s: State, x: StreamId, stream: Stream): State {
    s.(streams := s.streams[x := stream])
  }

  function Apply(s: State, step: Step): State
    requires Enabled(s, step)
  {
    match step
    case Begin(f, e, m) => s.(futures := s.futures[f := Future(e, m, Starting)])
    case TakeIdle(f, now) =>
      var (idle, found) := CheckoutFrom(s.idle, s.futures[f].endpoint, now);
      At(s.(idle := idle, clock := now), f,
         if found.Some? then Exchanging(found.value, true) else Connecting)
    case Connect(f) =>
      At(Traffic(s, s.nextStream, Stream(s.futures[f].endpoint, Clean, [], [], 0)).(nextStream := s.nextStream + 1),
         f, Exchanging(s.nextStream, false))
    case WriteSome(f) =>
      var x := s.futures[f].pc.stream;
      Traffic(s, x, s.streams[x].(phase := PartWritten))
    case WriteRest(f) =>
      var x := s.futures[f].pc.stream;
      Traffic(s, x, s.streams[x].(phase := Written, requests := s.streams[x].requests + [s.futures[f].request]))
    case ReadSome(f) =>
      var x := s.futures[f].pc.stream;
      Traffic(s, x, s.streams[x].(phase := PartRead))
    case ReadRest(f) =>
      var x := s.futures[f].pc.stream;
      At(Traffic(s, x, s.streams[x].(phase := Clean, replies := s.streams[x].replies + 1)),
         f, Parking(x, s.streams[x].replies, s.streams[x].answers[s.streams[x].replies]))
    case Break(f) =>
      At(s, f, if s.futures[f].pc.Exchanging? && s.futures[f].pc.pooled then Connecting else Failed)
    case GiveUp(f) => At(s, f, Failed)
    case PutIdle(f, now) =>
      var Parking(x, reply, message) := s.futures[f].pc;
      At(s, f, Answered(x, reply, message)).(idle := CheckinTo(s.idle, s.futures[f].endpoint, x, now), clock := now)
    case Serve(x, answer) => Traffic(s, x, s.streams[x].(answers := s.streams[x].answers + [answer]))
  }

  predicate IsRun(s: State, steps: seq<Step>)
    decreases |steps|
  {
    steps == [] || (Enabled(s, steps[0]) && IsRun(Apply(s, steps[0]), steps[1..]))
  }

  function Run(s: State, steps: seq<Step>): State
    requires IsRun(s, steps)
    decreases |steps|
  {
    if steps == [] then s else Run(Apply(s, steps[0]), steps[1..])
  }

  // ---- the invariant ----

  predicate Balanced(st: Stream) {
    |st.requests| == st.replies + if st.phase.Written? || st.phase.PartRead? then 1 else 0
  }

  ghost predicate StreamsOk(s: State) {
    forall x :: x in s.streams ==> x < s.nextStream && Balanced(s.streams[x])
  }

  ghost predicate SlotOk(s: State, e: Endpoint, i: nat)
    requires e in s.idle && i < |s.idle[e]|
  {
    var slot := s.idle[e][i];
    slot.stream in s.streams && s.streams[slot.stream].endpoint == e && s.streams[slot.stream].phase.Clean?
    && slot.since <= s.clock
  }

  ghost predicate IdleOk(s: State) {
    && (forall e :: e in s.idle ==> |s.idle[e]| <= MAX_IDLE && SortedStack(s.idle[e]))
    && (forall e, i: nat :: e in s.idle && i < |s.idle[e]| ==> SlotOk(s, e, i))
    && (forall e, i: nat, j: nat :: e in s.idle && i < j < |s.idle[e]| ==> s.idle[e][i].stream != s.idle[e][j].stream)
  }

  /** Request and answer number `reply` of the stream. */
  predicate Exchanged(st: Stream, reply: nat, request: Message, message: Message) {
    && reply < |st.requests| && st.requests[reply] == request
    && reply < |st.answers| && st.answers[reply] == message
  }

  ghost predicate FutureOk(s: State, f: FutureId)
    requires f in s.futures
  {
    var fut := s.futures[f];
    match fut.pc
    case Exchanging(x, _) =>
      x in s.streams && s.streams[x].endpoint == fut.endpoint &&
      (s.streams[x].phase.Written? || s.streams[x].phase.PartRead? ==>
         s.streams[x].requests != [] && s.streams[x].requests[|s.streams[x].requests| - 1] == fut.request)
    case Parking(x, reply, message) =>
      x in s.streams && s.streams[x].endpoint == fut.endpoint && s.streams[x].phase.Clean?
      && Exchanged(s.streams[x], reply, fut.request, message)
    case Answered(x, reply, message) =>
      x in s.streams && Exchanged(s.streams[x], reply, fut.request, message)
    case _ => true
  }

  ghost predicate InIdle(s: State, x: StreamId) {
    exists e, i: nat :: e in s.idle && i < |s.idle[e]| && s.idle[e][i].stream == x
  }

  /** No stream is held twice, nor held and idle at once. */
  ghost predicate Linear(s: State) {
    && (forall f, g :: f in s.futures && g in s.futures && f != g && Holds(s.futures[f].pc).Some? ==>
          Holds(s.futures[f].pc) != Holds(s.futures[g].pc))
    && (forall f, e, i: nat :: f in s.futures && e in s.idle && i < |s.idle[e]| ==>
          Holds(s.futures[f].pc) != Some(s.idle[e][i].stream))
  }

  ghost predicate Inv(s: State) {
    && StreamsOk(s) && IdleOk(s) && Linear(s)
    && forall f :: f in s.futures ==> FutureOk(s, f)
  }

  lemma BeginKeepsInv(s: State, step: Step)
    requires Inv(s) && Enabled(s, step) && step.Begin?
    ensures Inv(Apply(s, step))
  {
    var s' := Apply(s, step);
    forall e, i: nat | e in s'.idle && i < |s'.idle[e]| ensures SlotOk(s', e, i) { assert SlotOk(s, e, i); }
    forall f | f in s'.futures ensures FutureOk(s', f) { if f != step.f { assert FutureOk(s, f); } }
  }

  /** A future lets go of what it held, or keeps it, while idle slots and traffic stay. */
  lemma FutureMoves(s: State, s': State, f: FutureId)
    requires Inv(s) && f in s.futures
    requires s'.idle == s.idle && s'.streams == s.streams && s'.nextStream == s.nextStream && s'.clock == s.clock
    requires f in s'.futures && s'.futures == s.futures[f := s'.futures[f]]
    requires FutureOk(s', f)
    requires Holds(s'.futures[f].pc).Some? ==> Holds(s'.futures[f].pc) == Holds(s.futures[f].pc)
    ensures Inv(s')
  {
    forall e, i: nat | e in s'.idle && i < |s'.idle[e]| ensures SlotOk(s', e, i) { assert SlotOk(s, e, i); }
    forall g | g in s'.futures ensures FutureOk(s', g) { if g != f { assert FutureOk(s, g); } }
  }

  lemma EndStepKeepsInv(s: State, step: Step)
    requires Inv(s) && Enabled(s, step) && (step.Break? || step.GiveUp?)
    ensures Inv(Apply(s, step))
  {
    FutureMoves(s, Apply(s, step), step.f);
  }

  /** Only the holder touches a stream's traffic: no slot and no other future sees it. */
  lemma TrafficKeepsInv(s: State, s': State, f: FutureId)
    requires Inv(s) && f in s.futures && Holds(s.futures[f].pc).Some?
    requires s'.idle == s.idle && s'.nextStream == s.nextStream && s'.clock == s.clock
    requires f in s'.futures && s'.futures == s.futures[f := s'.futures[f]]
    requires Holds(s'.futures[f].pc) == Holds(s.futures[f].pc)
    requires var x := Holds(s.futures[f].pc).value;
             && x in s.streams && x in s'.streams && s'.streams == s.streams[x := s'.streams[x]]
             && s'.streams[x].endpoint == s.streams[x].endpoint && Balanced(s'.streams[x])
             && s.streams[x].requests <= s'.streams[x].requests
             && s.streams[x].answers <= s'.streams[x].answers
    requires FutureOk(s', f)
    ensures Inv(s')
  {
    var x := Holds(s.futures[f].pc).value;
    forall e, i: nat | e in s'.idle && i < |s'.idle[e]| ensures SlotOk(s', e, i) {
      assert SlotOk(s, e, i);
      assert s.idle[e][i].stream != x;
    }
    forall g | g in s'.futures ensures FutureOk(s', g) {
      if g != f {
        assert FutureOk(s, g);
        assert Holds(s.futures[g].pc) != Some(x);
      }
    }
  }

  lemma WriteKeepsInv(s: State, step: Step)
    requires Inv(s) && Enabled(s, step) && (step.WriteSome? || step.WriteRest?)
    ensures Inv(Apply(s, step))
  {
    assert FutureOk(s, step.f);
    TrafficKeepsInv(s, Apply(s, step), step.f);
  }

  lemma ReadKeepsInv(s: State, step: Step)
    requires Inv(s) && Enabled(s, step) && (step.ReadSome? || step.ReadRest?)
    ensures Inv(Apply(s, step))
  {
    assert FutureOk(s, step.f);
    TrafficKeepsInv(s, Apply(s, step), step.f);
  }

  lemma ConnectKeepsInv(s: State, f: FutureId)
    requires Inv(s) && Enabled(s, Connect(f))
    ensures Inv(Apply(s, Connect(f)))
  {
    var s' := Apply(s, Connect(f));
    forall e, i: nat | e in s'.idle && i < |s'.idle[e]| ensures SlotOk(s', e, i) { assert SlotOk(s, e, i); }
    forall g | g in s'.futures ensures FutureOk(s', g) { assert FutureOk(s, g); }
    forall g, e, i: nat | g in s'.futures && e in s'.idle && i < |s'.idle[e]|
      ensures Holds(s'.futures[g].pc) != Some(s'.idle[e][i].stream)
    {
      assert SlotOk(s, e, i);
      assert s.idle[e][i].stream < s.nextStream;
    }
    forall g, h | g in s'.futures && h in s'.futures && g != h && Holds(s'.futures[g].pc).Some?
      ensures Holds(s'.futures[g].pc) != Holds(s'.futures[h].pc)
    {
      assert FutureOk(s, g) && FutureOk(s, h);
    }
  }

  /** Popping leaves a prefix of the stack, and takes out a stream no other slot holds. */
  lemma PopLeaves(s: State, e: Endpoint, now: nat)
    requires IdleOk(s) && e in s.idle
    ensures var (rest, found) := Pop(s.idle[e], now);
            && rest <= s.idle[e]
            && (found.Some? ==>
                  found.value in s.streams && s.streams[found.value].endpoint == e
                  && s.streams[found.value].phase.Clean?
                  && InIdle(s, found.value)
                  && forall i :: 0 <= i < |rest| ==> rest[i].stream != found.value)
  {
    var (rest, found) := Pop(s.idle[e], now);
    if found.Some? {
      assert SlotOk(s, e, |rest|);
    }
  }

  /** Cutting a stack down to a prefix keeps the slots in order. */
  lemma CutKeepsIdle(s: State, e: Endpoint, rest: seq<Idle>, now: nat)
    requires IdleOk(s) && e in s.idle && rest <= s.idle[e] && s.clock <= now
    ensures IdleOk(s.(idle := s.idle[e := rest], clock := now))
  {
    var s' := s.(idle := s.idle[e := rest], clock := now);
    forall d, i: nat | d in s'.idle && i < |s'.idle[d]| ensures SlotOk(s', d, i) { assert SlotOk(s, d, i); }
  }

  /** The state after `f` took stream `x` from the top of its endpoint's stack, leaving `rest`. */
  function Taken(s: State, f: FutureId, rest: seq<Idle>, x: StreamId, now: nat): State
    requires f in s.futures
  {
    At(s.(idle := s.idle[s.futures[f].endpoint := rest], clock := now), f, Exchanging(x, true))
  }

  lemma TakenIsLinear(s: State, f: FutureId, rest: seq<Idle>, x: StreamId, now: nat)
    requires Inv(s) && f in s.futures && s.futures[f].endpoint in s.idle && rest <= s.idle[s.futures[f].endpoint]
    requires x in s.streams && s.streams[x].endpoint == s.futures[f].endpoint && InIdle(s, x)
    requires forall i :: 0 <= i < |rest| ==> rest[i].stream != x
    ensures Linear(Taken(s, f, rest, x, now))
  {
    var s' := Taken(s, f, rest, x, now);
    forall d, i: nat | d in s'.idle && i < |s'.idle[d]|
      ensures s'.idle[d][i].stream != x && d in s.idle && i < |s.idle[d]| && s'.idle[d][i] == s.idle[d][i]
    {
      assert SlotOk(s, d, i);
    }
  }

  lemma TakenIsInv(s: State, f: FutureId, rest: seq<Idle>, x: StreamId, now: nat)
    requires Inv(s) && f in s.futures && s.futures[f].endpoint in s.idle && rest <= s.idle[s.futures[f].endpoint]
    requires x in s.streams && s.streams[x].endpoint == s.futures[f].endpoint && s.streams[x].phase.Clean?
    requires InIdle(s, x) && s.clock <= now && forall i :: 0 <= i < |rest| ==> rest[i].stream != x
    ensures Inv(Taken(s, f, rest, x, now))
  {
    var s' := Taken(s, f, rest, x, now);
    var cut := s.(idle := s.idle[s.futures[f].endpoint := rest], clock := now);
    CutKeepsIdle(s, s.futures[f].endpoint, rest, now);
    IdleFrame(cut, s');
    forall g | g in s'.futures ensures FutureOk(s', g) { if g != f { assert FutureOk(s, g); } }
    TakenIsLinear(s, f, rest, x, now);
  }

  lemma TakeFoundKeepsInv(s: State, f: FutureId, now: nat)
    requires Inv(s) && Enabled(s, TakeIdle(f, now))
    requires s.futures[f].endpoint in s.idle && Pop(s.idle[s.futures[f].endpoint], now).1.Some?
    ensures Inv(Apply(s, TakeIdle(f, now)))
  {
    var (rest, found) := Pop(s.idle[s.futures[f].endpoint], now);
    PopLeaves(s, s.futures[f].endpoint, now);
    TakenIsInv(s, f, rest, found.value, now);
    assert Apply(s, TakeIdle(f, now)) == Taken(s, f, rest, found.value, now);
  }

  lemma IdleFrame(s: State, s': State)
    requires IdleOk(s) && s'.idle == s.idle && s'.streams == s.streams && s'.clock == s.clock
    ensures IdleOk(s')
  {
    forall e, i: nat | e in s'.idle && i < |s'.idle[e]| ensures SlotOk(s', e, i) { assert SlotOk(s, e, i); }
  }

  lemma TakeNoneKeepsInv(s: State, f: FutureId, now: nat)
    requires Inv(s) && Enabled(s, TakeIdle(f, now))
    requires s.futures[f].endpoint in s.idle ==> Pop(s.idle[s.futures[f].endpoint], now).1.None?
    ensures Inv(Apply(s, TakeIdle(f, now)))
  {
    var s' := Apply(s, TakeIdle(f, now));
    var e := s.futures[f].endpoint;
    forall d, i: nat | d in s'.idle && i < |s'.idle[d]| ensures SlotOk(s', d, i) { assert SlotOk(s, d, i); }
    forall g | g in s'.futures ensures FutureOk(s', g) { assert FutureOk(s, g); }
  }

  /** Pushing a clean stream that no slot holds keeps the slots in order. */
  lemma PushKeepsIdle(s: State, e: Endpoint, x: StreamId, now: nat)
    requires IdleOk(s) && s.clock <= now && x in s.streams && s.streams[x].endpoint == e && s.streams[x].phase.Clean?
    requires !InIdle(s, x)
    ensures IdleOk(s.(idle := CheckinTo(s.idle, e, x, now), clock := now))
  {
    var s' := s.(idle := CheckinTo(s.idle, e, x, now), clock := now);
    forall d, i: nat | d in s'.idle && i < |s'.idle[d]| ensures SlotOk(s', d, i) {
      if d in s.idle && i < |s.idle[d]| { assert SlotOk(s, d, i); }
    }
    forall d | d in s'.idle ensures |s'.idle[d]| <= MAX_IDLE && SortedStack(s'.idle[d]) {
      if d in s.idle {
        forall i: nat | i < |s.idle[d]| ensures s.idle[d][i].since <= now { assert SlotOk(s, d, i); }
      }
    }
    forall d, i: nat, j: nat | d in s'.idle && i < j < |s'.idle[d]|
      ensures s'.idle[d][i].stream != s'.idle[d][j].stream
    {
      assert d in s.idle && s'.idle[d][i] == s.idle[d][i];
      if j < |s.idle[d]| { assert s'.idle[d][j] == s.idle[d][j]; }
    }
  }

  /** The state after `f` returned its stream, which may or may not have found room. */
  function Put(s: State, f: FutureId, x: StreamId, reply: nat, message: Message, now: nat): State
    requires f in s.futures
  {
    At(s, f, Answered(x, reply, message)).(idle := CheckinTo(s.idle, s.futures[f].endpoint, x, now), clock := now)
  }

  lemma PutIsLinear(s: State, f: FutureId, x: StreamId, reply: nat, message: Message, now: nat)
    requires Inv(s) && f in s.futures && Holds(s.futures[f].pc) == Some(x)
    ensures Linear(Put(s, f, x, reply, message, now))
  {
    var s' := Put(s, f, x, reply, message, now);
    forall d, i: nat | d in s'.idle && i < |s'.idle[d]|
      ensures s'.idle[d][i].stream == x || (d in s.idle && i < |s.idle[d]| && s'.idle[d][i] == s.idle[d][i])
    {
    }
  }

  lemma PutKeepsInv(s: State, f: FutureId, now: nat)
    requires Inv(s) && Enabled(s, PutIdle(f, now))
    ensures Inv(Apply(s, PutIdle(f, now)))
  {
    var Parking(x, reply, message) := s.futures[f].pc;
    var s' := Put(s, f, x, reply, message, now);
    var e := s.futures[f].endpoint;
    assert FutureOk(s, f);
    PushKeepsIdle(s, e, x, now);
    IdleFrame(s.(idle := CheckinTo(s.idle, e, x, now), clock := now), s');
    forall g | g in s'.futures ensures FutureOk(s', g) { assert FutureOk(s, g); }
    PutIsLinear(s, f, x, reply, message, now);
  }

  lemma ServeKeepsInv(s: State, x: StreamId, answer: Message)
    requires Inv(s) && Enabled(s, Serve(x, answer))
    ensures Inv(Apply(s, Serve(x, answer)))
  {
    var s' := Apply(s, Serve(x, answer));
    forall e, i: nat | e in s'.idle && i < |s'.idle[e]| ensures SlotOk(s', e, i) { assert SlotOk(s, e, i); }
    forall g | g in s'.futures ensures FutureOk(s', g) { assert FutureOk(s, g); }
  }

  lemma StepKeepsInv(s: State, step: Step)
    requires Inv(s) && Enabled(s, step)
    ensures Inv(Apply(s, step))
  {
    match step
    case Begin(_, _, _) => BeginKeepsInv(s, step);
    case TakeIdle(f, now) =>
      if s.futures[f].endpoint in s.idle && Pop(s.idle[s.futures[f].endpoint], now).1.Some? {
        TakeFoundKeepsInv(s, f, now);
      } else {
        TakeNoneKeepsInv(s, f, now);
      }
    case Connect(f) => ConnectKeepsInv(s, f);
    case WriteSome(_) => WriteKeepsInv(s, step);
    case WriteRest(_) => WriteKeepsInv(s, step);
    case ReadSome(_) => ReadKeepsInv(s, step);
    case ReadRest(_) => ReadKeepsInv(s, step);
    case Break(_) => EndStepKeepsInv(s, step);
    case GiveUp(_) => EndStepKeepsInv(s, step);
    case PutIdle(f, now) => PutKeepsInv(s, f, now);
    case Serve(x, answer) => ServeKeepsInv(s, x, answer);
  }

  lemma {:induction false} RunKeepsInv(s: State, steps: seq<Step>)
    requires Inv(s) && IsRun(s, steps)
    ensures Inv(Run(s, steps))
    decreases |steps|
  {
    if steps == [] {
    } else {
      StepKeepsInv(s, steps[0]);
      RunKeepsInv(Apply(s, steps[0]), steps[1..]);
    }
  }

  // ---- main results ----

  /**
   * In every interleaving a stream is in at most one place: one query future, or one idle slot,
   * which is then in the stack of its own endpoint; and no idle stack exceeds eight.
   */
  lemma StreamOwnership(steps: seq<Step>, x: StreamId)
    requires IsRun(INITIAL, steps)
    ensures var s := Run(INITIAL, steps);
            && (forall f, g | f in s.futures && g in s.futures ::
                  Holds(s.futures[f].pc) == Some(x) && Holds(s.futures[g].pc) == Some(x) ==> f == g)
            && (forall e, i: nat, d, j: nat | e in s.idle && i < |s.idle[e]| && d in s.idle && j < |s.idle[d]| ::
                  s.idle[e][i].stream == x && s.idle[d][j].stream == x ==> e == d && i == j)
            && (forall f :: f in s.futures && Holds(s.futures[f].pc) == Some(x) ==> !InIdle(s, x))
            && (forall e, i: nat :: e in s.idle && i < |s.idle[e]| && s.idle[e][i].stream == x ==>
                  x in s.streams && s.streams[x].endpoint == e)
            && (forall e :: e in s.idle ==> |s.idle[e]| <= 8)
  {
    RunKeepsInv(INITIAL, steps);
    var s := Run(INITIAL, steps);
    forall e, i: nat | e in s.idle && i < |s.idle[e]| && s.idle[e][i].stream == x
      ensures x in s.streams && s.streams[x].endpoint == e
    {
      assert SlotOk(s, e, i);
    }
  }

  /** An idle stream has had every reply read that was asked for, and nothing is half sent on it. */
  lemma IdleIsClean(steps: seq<Step>, e: Endpoint, i: nat)
    requires IsRun(INITIAL, steps)
    requires e in Run(INITIAL, steps).idle && i < |Run(INITIAL, steps).idle[e]|
    ensures var s := Run(INITIAL, steps);
            var x := s.idle[e][i].stream;
            x in s.streams && s.streams[x].phase.Clean? && s.streams[x].replies == |s.streams[x].requests|
  {
    RunKeepsInv(INITIAL, steps);
    assert SlotOk(Run(INITIAL, steps), e, i);
  }

  /** The server's side: what it sends on the stream answers the requests in their order, each once. */
  predicate AnswersInOrder(st: Stream, answersTo: (Message, Message) -> bool) {
    |st.answers| <= |st.requests| && forall i :: 0 <= i < |st.answers| ==> answersTo(st.requests[i], st.answers[i])
  }

  /**
   * On every run, on fresh and reused streams alike, the message a query returns is the one
   * the server sent in the place of its own request. So if the server answers the requests of
   * the stream in order, each once, the message answers the query, whatever `answersTo` means.
   */
  lemma RepliesMatchRequests(steps: seq<Step>, f: FutureId, answersTo: (Message, Message) -> bool)
    requires IsRun(INITIAL, steps)
    requires f in Run(INITIAL, steps).futures && Run(INITIAL, steps).futures[f].pc.Answered?
    ensures var s := Run(INITIAL, steps);
            var fut := s.futures[f];
            && fut.pc.stream in s.streams
            && Exchanged(s.streams[fut.pc.stream], fut.pc.reply, fut.request, fut.pc.message)
            && (AnswersInOrder(s.streams[fut.pc.stream], answersTo) ==> answersTo(fut.request, fut.pc.message))
  {
    RunKeepsInv(INITIAL, steps);
    assert FutureOk(Run(INITIAL, steps), f);
  }

  /** Reuse is last in, first out: a query takes the stream returned last to its endpoint, if young enough. */
  lemma ReuseTakesYoungest(steps: seq<Step>, f: FutureId, now: nat)
    requires IsRun(INITIAL, steps) && Enabled(Run(INITIAL, steps), TakeIdle(f, now))
    ensures var s := Run(INITIAL, steps);
            var stack := Stack(s.idle, s.futures[f].endpoint);
            var s' := Apply(s, TakeIdle(f, now));
            if stack != [] && Young(stack[|stack| - 1], now)
            then s'.futures[f].pc == Exchanging(stack[|stack| - 1].stream, true)
                 && Stack(s'.idle, s.futures[f].endpoint) == stack[..|stack| - 1]
            else s'.futures[f].pc == Connecting && Stack(s'.idle, s.futures[f].endpoint) == []
  {
    RunKeepsInv(INITIAL, steps);
    var s := Run(INITIAL, steps);
    PopTakesTop(Stack(s.idle, s.futures[f].endpoint), now);
  }

  ghost predicate InUse(s: State, x: StreamId) {
    InIdle(s, x) || exists f :: f in s.futures && Holds(s.futures[f].pc) == Some(x)
  }

  /** A slot was there before, or has just been filled. */
  lemma SlotComesFrom(s: State, step: Step, e: Endpoint, i: nat)
    requires Enabled(s, step) && e in Apply(s, step).idle && i < |Apply(s, step).idle[e]|
    ensures || (e in s.idle && i < |s.idle[e]| && s.idle[e][i] == Apply(s, step).idle[e][i])
            || (step.PutIdle? && s.futures[step.f].pc.stream == Apply(s, step).idle[e][i].stream)
  {
  }

  lemma IdleComesFrom(s: State, step: Step, x: StreamId)
    requires Enabled(s, step) && InIdle(Apply(s, step), x)
    ensures InUse(s, x)
  {
    var s' := Apply(s, step);
    var e, i: nat :| e in s'.idle && i < |s'.idle[e]| && s'.idle[e][i].stream == x;
    SlotComesFrom(s, step, e, i);
    if step.PutIdle? && s.futures[step.f].pc.stream == x {
      assert Holds(s.futures[step.f].pc) == Some(x);
    }
  }

  lemma HeldComesFrom(s: State, step: Step, x: StreamId, f: FutureId)
    requires Inv(s) && Enabled(s, step) && x in s.streams
    requires f in Apply(s, step).futures && Holds(Apply(s, step).futures[f].pc) == Some(x)
    ensures InUse(s, x)
  {
    if f in s.futures && Holds(s.futures[f].pc) == Some(x) {
    } else {
      assert step.TakeIdle? && f == step.f;
      var e := s.futures[f].endpoint;
      PopLeaves(s, e, step.now);
    }
  }

  /** The server may still be sending; nothing else happens on the stream. */
  predicate SameButAnswers(a: Stream, b: Stream) {
    a.(answers := b.answers) == b
  }

  /** A stream once dropped never comes back: on no run is a closed connection used again. */
  lemma {:induction false} DroppedStaysDropped(s: State, steps: seq<Step>, x: StreamId)
    requires Inv(s) && IsRun(s, steps) && x in s.streams && !InUse(s, x)
    ensures x in Run(s, steps).streams && !InUse(Run(s, steps), x)
    ensures SameButAnswers(s.streams[x], Run(s, steps).streams[x])
    decreases |steps|
  {
    if steps == [] {
    } else {
      var s' := Apply(s, steps[0]);
      if InIdle(s', x) { IdleComesFrom(s, steps[0], x); }
      if f :| f in s'.futures && Holds(s'.futures[f].pc) == Some(x) { HeldComesFrom(s, steps[0], x, f); }
      StepKeepsInv(s, steps[0]);
      OnlyHeldTraffic(s, steps[0], x);
      DroppedStaysDropped(s', steps[1..], x);
    }
  }

  lemma OnlyHeldTraffic(s: State, step: Step, x: StreamId)
    requires Inv(s) && Enabled(s, step) && x in s.streams && !InUse(s, x)
    ensures x in Apply(s, step).streams && SameButAnswers(s.streams[x], Apply(s, step).streams[x])
  {
    if !step.Serve? && step.f in s.futures { assert Holds(s.futures[step.f].pc) != Some(x); }
  }
}
