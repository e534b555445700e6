/** The circuit breaker of internal/api/storage_client.go.  A call is two atomic steps, admission and
    completion, each taken under the breaker's lock; any number of calls may be between the two. */
module Breaker {

  datatype Circuit = Closed | Open | HalfOpen

  /** Times are nanoseconds, as in Go; the clock never runs backwards. */
  const COOL_DOWN: int := 30_000_000_000
  const THRESHOLD: nat := 3

  datatype BreakerState = BreakerState(circuit: Circuit, failures: nat, lastFailure: int)

  const FRESH := BreakerState(Closed, 0, 0)

  predicate Admits(b: BreakerState, now: int) {
    b.circuit != Open || now - b.lastFailure > COOL_DOWN
  }

  function AfterAdmission(b: BreakerState, now: int): BreakerState {
    if b.circuit == Open && now - b.lastFailure > COOL_DOWN then b.(circuit := HalfOpen) else b
  }

  function AfterCompletion(b: BreakerState, ok: bool, now: int): BreakerState {
    if ok then BreakerState(Closed, 0, b.lastFailure)
    else BreakerState(if b.failures + 1 >= THRESHOLD then Open else b.circuit, b.failures + 1, now)
  }

  class CircuitBreaker {
    var state: Circuit
    var failures: nat
    var lastFailure: int

    function View(): BreakerState
      reads this
    {
      BreakerState(state, failures, lastFailure)
    }

    constructor ()
      ensures View() == FRESH
    {
      state, failures, lastFailure := Closed, 0, 0;
    }

    /** The part of a call before the operation. */
    method Admit(now: int) returns (admitted: bool)
      modifies this
      ensures admitted <==> Admits(old(View()), now)
      ensures View() == AfterAdmission(old(View()), now)
    {
      if state == Open {
        if now - lastFailure > COOL_DOWN {
          state := HalfOpen;
        } else {
          return false;
        }
      }
      return true;
    }

    /** The part of a call after the operation. */
    method Complete(ok: bool, now: int)
      modifies this
      ensures View() == AfterCompletion(old(View()), ok, now)
    {
      if !ok {
        failures := failures + 1;
        lastFailure := now;
        if failures >= THRESHOLD {
          state := Open;
        }
        return;
      }
      failures := 0;
      state := Closed;
    }
  }

  // ---- all interleavings ----

  datatype Event = Admission(call: nat, at: int) | Completion(call: nat, ok: bool, at: int)

  datatype Outcome = Outcome(ok: bool, at: int)

  /** The breaker with what happened around it: the calls in flight, the finished operations in order of
      completion, the call whose admission last half-opened the circuit, and the time of the last event. */
  datatype System = System(breaker: BreakerState, inFlight: set<nat>, finished: seq<Outcome>, prober: nat,
                           clock: int)

  const START := System(FRESH, {}, [], 0, 0)

  /** A call is admitted once, and completes only while it is in flight. */
  predicate Legal(s: System, e: Event) {
    && s.clock <= e.at
    && match e
       case Admission(call, _) => call !in s.inFlight
       case Completion(call, _, _) => call in s.inFlight
  }

  function Step(s: System, e: Event): System {
    match e
    case Admission(call, at) =>
      var b := AfterAdmission(s.breaker, at);
      System(b, if Admits(s.breaker, at) then s.inFlight + {call} else s.inFlight, s.finished,
             if b.circuit == HalfOpen && s.breaker.circuit != HalfOpen then call else s.prober, at)
    case Completion(call, ok, at) =>
      System(AfterCompletion(s.breaker, ok, at), s.inFlight - {call}, s.finished + [Outcome(ok, at)],
             s.prober, at)
  }

  function After(events: seq<Event>): System {
    if events == [] then START else Step(After(events[..|events| - 1]), events[|events| - 1])
  }

  /** Every event is legal where it happens. */
  predicate LegalRun(events: seq<Event>) {
    events == [] ||
    (LegalRun(events[..|events| - 1]) && Legal(After(events[..|events| - 1]), events[|events| - 1]))
  }

  /** How many of the last operations failed in a row. */
  function FailureRun(finished: seq<Outcome>): nat {
    if finished == [] || finished[|finished| - 1].ok then 0
    else FailureRun(finished[..|finished| - 1]) + 1
  }

  /** What holds after every run of the breaker. */
  ghost predicate Consistent(s: System) {
    && s.breaker.failures == FailureRun(s.finished)
    && (s.breaker.circuit == Closed <==> s.breaker.failures < 3)
    && (s.breaker.failures > 0 ==> s.finished != [] && s.breaker.lastFailure == s.finished[|s.finished| - 1].at)
    && (s.breaker.circuit == HalfOpen ==>
          s.prober in s.inFlight && s.clock - s.breaker.lastFailure > 30_000_000_000)
  }

  lemma StepConsistent(s: System, e: Event)
    requires Consistent(s) && Legal(s, e)
    ensures Consistent(Step(s, e))
  {
  }

  lemma {:induction false} AlwaysConsistent(events: seq<Event>)
    requires LegalRun(events)
    ensures Consistent(After(events))
  {
    if events != [] {
      var init := events[..|events| - 1];
      AlwaysConsistent(init);
      StepConsistent(After(init), events[|events| - 1]);
    }
  }

  /** Whether the last three finished operations all failed. */
  predicate LastThreeFailed(finished: seq<Outcome>) {
    |finished| >= 3 && forall i :: |finished| - 3 <= i < |finished| ==> !finished[i].ok
  }

  lemma FailureRunOfThree(finished: seq<Outcome>)
    ensures FailureRun(finished) >= 3 <==> LastThreeFailed(finished)
  {
    var n := |finished|;
    if n >= 3 {
      var one, two := finished[..n - 1], finished[..n - 2];
      assert one[..n - 2] == two;
      assert FailureRun(finished) == if finished[n - 1].ok then 0 else FailureRun(one) + 1;
      assert FailureRun(one) == if finished[n - 2].ok then 0 else FailureRun(two) + 1;
      assert FailureRun(two) == if finished[n - 3].ok then 0 else FailureRun(two[..n - 3]) + 1;
    } else if n == 2 {
      assert FailureRun(finished[..1]) <= 1;
    }
  }

  /** Refusal depends on the finished operations alone: whatever is in flight and whatever was admitted,
      a call is refused exactly when the last three operations to finish failed and the last of them
      finished no more than the cool-down ago. */
  lemma RefusedIff(events: seq<Event>, now: int)
    requires LegalRun(events) && After(events).clock <= now
    ensures var finished := After(events).finished;
      !Admits(After(events).breaker, now) <==>
        LastThreeFailed(finished) && now - finished[|finished| - 1].at <= 30_000_000_000
  {
    AlwaysConsistent(events);
    FailureRunOfThree(After(events).finished);
  }

  /** A half-open breaker has exactly one prober on record, yet lets every further call through. */
  lemma HalfOpenAdmitsAll(events: seq<Event>, call: nat, now: int)
    requires LegalRun(events) && After(events).breaker.circuit == HalfOpen
    requires call !in After(events).inFlight && After(events).clock <= now
    ensures var s, s' := After(events), After(events + [Admission(call, now)]);
      && LegalRun(events + [Admission(call, now)])
      && s'.breaker == s.breaker && s'.inFlight == s.inFlight + {call}
      && s'.prober == s.prober && {s.prober, call} <= s'.inFlight && s.prober != call
  {
    AlwaysConsistent(events);
    assert (events + [Admission(call, now)])[..|events|] == events;
  }

  /** Three failures, and after the cool-down two calls probe the half-open breaker at once. */
  lemma TwoProbesAtOnce() returns (events: seq<Event>)
    ensures LegalRun(events) && After(events).breaker.circuit == HalfOpen && After(events).inFlight == {3, 4}
  {
    events := FailedCall([], 0);
    events := FailedCall(events, 1);
    events := FailedCall(events, 2);
    events := Extend(events, Admission(3, 30_000_000_001));
    HalfOpenAdmitsAll(events, 4, 30_000_000_001);
    events := events + [Admission(4, 30_000_000_001)];
  }

  lemma Extend(events: seq<Event>, e: Event) returns (more: seq<Event>)
    requires LegalRun(events) && Legal(After(events), e)
    ensures LegalRun(more) && After(more) == Step(After(events), e)
  {
    more := events + [e];
    assert more[..|events|] == events;
  }

  lemma FailedCall(events: seq<Event>, call: nat) returns (more: seq<Event>)
    requires LegalRun(events) && After(events).clock == 0 && call !in After(events).inFlight
    requires After(events).breaker.circuit == Closed
    ensures LegalRun(more) && After(more).clock == 0 && After(more).inFlight == After(events).inFlight
    ensures After(more).breaker == AfterCompletion(After(events).breaker, false, 0)
  {
    more := Extend(events, Admission(call, 0));
    more := Extend(more, Completion(call, false, 0));
  }

  // ---- one call after another to a node that always fails ----

  /** A serial call: when it asks for admission and, if its operation runs, when that fails. */
  datatype Call = Call(start: int, end: int)

  predicate Serial(calls: seq<Call>) {
    && (forall i :: 0 <= i < |calls| ==> calls[i].start <= calls[i].end)
    && (forall i, j :: 0 <= i < j < |calls| ==> calls[i].end <= calls[j].start)
  }

  /** The breaker after the calls, and those calls whose operation was attempted. */
  function Attempts(calls: seq<Call>): (BreakerState, seq<Call>) {
    if calls == [] then (FRESH, [])
    else
      var (b, made) := Attempts(calls[..|calls| - 1]);
      var c := calls[|calls| - 1];
      if Admits(b, c.start)
      then (AfterCompletion(AfterAdmission(b, c.start), false, c.end), made + [c])
      else (AfterAdmission(b, c.start), made)
  }

  lemma {:induction false} AttemptsSpaced(calls: seq<Call>)
    requires Serial(calls)
    ensures var (b, made) := Attempts(calls);
      && b.failures == |made|
      && (b.circuit == Open <==> |made| >= 3) && b.circuit != HalfOpen
      && (forall c :: c in made ==> c in calls)
      && (made != [] ==> b.lastFailure == made[|made| - 1].end)
      && (|made| > 3 ==> made[|made| - 1].start - made[2].end > (|made| - 3) * 30_000_000_000)
  {
    if calls != [] {
      var init, c := calls[..|calls| - 1], calls[|calls| - 1];
      assert calls == init + [c];
      AttemptsSpaced(init);
      var (b, made) := Attempts(init);
      if Admits(b, c.start) && |made| > 3 {
        assert made[|made| - 1] in calls;
      }
    }
  }

  /** The probe rate bound: serial calls to a node that always fails attempt at most three operations and
      then at most one per cool-down. */
  lemma ProbeRateBound(calls: seq<Call>, T: int)
    requires Serial(calls) && forall c :: c in calls ==> c.start <= T
    ensures var made := Attempts(calls).1;
      |made| <= 3 || |made| <= 3 + (T - made[2].end) / 30_000_000_000
  {
    AttemptsSpaced(calls);
    var made := Attempts(calls).1;
    if |made| > 3 {
      assert made[|made| - 1] in calls;
      assert (|made| - 3) * 30_000_000_000 <= T - made[2].end;
      DivideBound(|made| - 3, T - made[2].end);
    }
  }

  lemma DivideBound(n: nat, span: int)
    requires n * 30_000_000_000 <= span
    ensures n <= span / 30_000_000_000
  {
  }
}
