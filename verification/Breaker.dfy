/** The shared trip condition (internal/resilience/breaker.go) inside the breaker that
    consults it. The breaker itself is the library's documented contract, taken as an assumption:
    a window counts requests and their results; ReadyToTrip is asked after every failure while
    closed; a result that comes back after its window has ended is ignored; the closed interval and
    the open cooldown end by `Expire`, at any moment; half-open lets MAX_REQUESTS probes through. */
module Breaker {
  import opened Common

  const MAX_REQUESTS: nat := 1
  const MIN_VOLUME: nat := 10

  datatype Counts = Counts(requests: nat, successes: nat, failures: nat, consecutiveFailures: nat)

  const NO_COUNTS := Counts(0, 0, 0, 0)

  predicate ReadyToTrip(c: Counts) {
    if c.consecutiveFailures >= 5 then true
    else if c.requests < MIN_VOLUME then false
    else c.failures as real / c.requests as real > 0.5
  }

  datatype Phase = Closed | HalfOpen | Open

  datatype State = State(phase: Phase, window: nat, counts: Counts)

  const START := State(Closed, 0, NO_COUNTS)

  /** Begin asks for admission; Finish reports the result of a request admitted in `window`. */
  datatype Event = Begin | Finish(window: nat, ok: bool) | Expire

  function NewWindow(s: State, phase: Phase): State { State(phase, s.window + 1, NO_COUNTS) }

  predicate Admits(s: State) {
    s.phase == Closed || (s.phase == HalfOpen && s.counts.requests < MAX_REQUESTS)
  }

  function Admitted(s: State): State
    requires Admits(s)
  {
    s.(counts := s.counts.(requests := s.counts.requests + 1))
  }

  /** The result belongs to the current window; each admitted request reports once. */
  predicate Current(s: State, window: nat) {
    window == s.window && s.counts.successes + s.counts.failures < s.counts.requests
  }

  function Succeeded(c: Counts): Counts { c.(successes := c.successes + 1, consecutiveFailures := 0) }

  function Failed(c: Counts): Counts { c.(failures := c.failures + 1,
                  consecutiveFailures := c.consecutiveFailures + 1) }

  function Finished(s: State, window: nat, ok: bool): State {
    if !Current(s, window) || s.phase == Open then s
    else if s.phase == HalfOpen then NewWindow(s, if ok then Closed else Open)
    else if ok then s.(counts := Succeeded(s.counts))
    else if ReadyToTrip(Failed(s.counts)) then NewWindow(s, Open)
    else s.(counts := Failed(s.counts))
  }

  function Step(s: State, e: Event): State {
    match e
    case Begin => if Admits(s) then Admitted(s) else s
    case Finish(window, ok) => Finished(s, window, ok)
    case Expire =>
      match s.phase {
        case Closed => NewWindow(s, Closed)
        case Open => NewWindow(s, HalfOpen)
        case HalfOpen => s
      }
  }

  function Play(s: State, events: seq<Event>): State
    decreases |events|
  {
    if events == [] then s else Play(Step(s, events[0]), events[1..])
  }

  // ----- every reachable window -----

  ghost predicate Inv(s: State) {
    var c := s.counts;
    && c.successes + c.failures <= c.requests
    && c.consecutiveFailures <= c.failures
    && (c.successes == 0 ==> c.consecutiveFailures == c.failures)
    && (s.phase == Closed ==> c.consecutiveFailures <= 4 && (c.failures <= 8 || 2 * c.failures <= c.requests))
    && (s.phase == HalfOpen ==> c.requests <= MAX_REQUESTS && c.successes == c.failures == 0)
    && (s.phase == Open ==> c == NO_COUNTS)
  }

  /** The error-rate test is exact integer arithmetic: more than half of the requests failed. */
  lemma TripsExactly(c: Counts)
    requires c.failures <= c.requests
    ensures ReadyToTrip(c) <==> c.consecutiveFailures >= 5 || (c.requests >= MIN_VOLUME && 2 * c.failures > c.requests)
  {
    if c.requests > 0 {
      MajorityIsAQuotient(c.failures as real, c.requests as real);
    }
  }

  lemma MajorityIsAQuotient(f: real, r: real)
    requires r > 0.0
    ensures f / r > 0.5 <==> 2.0 * f > r
  {
    var q := f / r;
    assert q * r == f;
    if q > 0.5 { assert (q - 0.5) * r > 0.0; } else { assert (0.5 - q) * r >= 0.0; }
  }

  lemma StepKeepsInv(s: State, e: Event)
    requires Inv(s)
    ensures Inv(Step(s, e))
  {
    if e.Finish? && !e.ok && Current(s, e.window) && s.phase == Closed {
      TripsExactly(Failed(s.counts));
    }
  }

  lemma {:induction false} PlayKeepsInv(s: State, events: seq<Event>)
    requires Inv(s)
    ensures Inv(Play(s, events))
    decreases |events|
  {
    if events != [] {
      StepKeepsInv(s, events[0]);
      PlayKeepsInv(Step(s, events[0]), events[1..]);
    }
  }

  lemma {:induction false} PlayAppend(s: State, first: seq<Event>, next: seq<Event>)
    ensures Play(s, first + next) == Play(Play(s, first), next)
    decreases |first|
  {
    if first == [] {
      assert first + next == next;
    } else {
      assert (first + next)[0] == first[0] && (first + next)[1..] == first[1..] + next;
      PlayAppend(Step(s, first[0]), first[1..], next);
    }
  }

  lemma PlaySnoc(s: State, events: seq<Event>, e: Event)
    ensures Play(s, events + [e]) == Step(Play(s, events), e)
  {
    PlayAppend(s, events, [e]);
    assert Play(Play(s, events), [e]) == Step(Play(s, events), e);
  }

  /** Under any interleaving of requests, results and expiries, a window that is still closed has at
      most 4 trailing failures and at most max(8, R/2) failures among its R requests; a half-open window
      lets one probe through. */
  lemma WindowBound(events: seq<Event>)
    ensures var s := Play(START, events);
            && (s.phase == Closed ==>
                  s.counts.consecutiveFailures <= 4 && (s.counts.failures <= 8 || 2 * s.counts.failures <= s.counts.requests))
            && (s.phase == HalfOpen ==> s.counts.requests <= MAX_REQUESTS)
  {
    PlayKeepsInv(START, events);
  }

  /** A counted failure opens a closed breaker exactly on five in a row or on a failing majority of at
      least ten requests; so a failure that leaves it closed leaves R < 10 or 2F <= R. */
  lemma FailureOpensExactly(events: seq<Event>, window: nat)
    requires var s := Play(START, events); s.phase == Closed && Current(s, window)
    ensures var s := Play(START, events);
            var s' := Play(START, events + [Finish(window, false)]);
            var c := Failed(s.counts);
            && (s'.phase == Open <==> c.consecutiveFailures >= 5 || (c.requests >= MIN_VOLUME && 2 * c.failures > c.requests))
            && (s'.phase != Open ==>
                  (s'.phase == Closed && s'.counts == c && (c.requests < MIN_VOLUME || 2 * c.failures <= c.requests)))
  {
    var s := Play(START, events);
    PlayKeepsInv(START, events);
    PlaySnoc(START, events, Finish(window, false));
    TripsExactly(Failed(s.counts));
  }

  /** Four failures, a success, four failures: the bound of 8 is reached. A success may then leave the
      breaker closed with most of ten requests failed, because only failures consult ReadyToTrip. */
  lemma BoundIsReachedAndSuccessDoesNotTrip()
    ensures var fail, ok := [Begin, Finish(0, false)], [Begin, Finish(0, true)];
            var eight := fail + fail + fail + fail + ok + fail + fail + fail + fail;
            && Play(START, eight) == State(Closed, 0, Counts(9, 1, 8, 4))
            && Play(START, eight + ok) == State(Closed, 0, Counts(10, 2, 8, 0))
  {
    var fail, ok := [Begin, Finish(0, false)], [Begin, Finish(0, true)];
    Round(0, 0, 0, 0, false); Round(1, 0, 1, 1, false); Round(2, 0, 2, 2, false); Round(3, 0, 3, 3, false);
    Round(4, 0, 4, 4, true);
    Round(5, 1, 4, 0, false); Round(6, 1, 5, 1, false); Round(7, 1, 6, 2, false); Round(8, 1, 7, 3, false);
    Round(9, 1, 8, 4, true);
    PlayAppend(START, fail, fail);
    PlayAppend(START, fail + fail, fail);
    PlayAppend(START, fail + fail + fail, fail);
    PlayAppend(START, fail + fail + fail + fail, ok);
    PlayAppend(START, fail + fail + fail + fail + ok, fail);
    PlayAppend(START, fail + fail + fail + fail + ok + fail, fail);
    PlayAppend(START, fail + fail + fail + fail + ok + fail + fail, fail);
    PlayAppend(START, fail + fail + fail + fail + ok + fail + fail + fail, fail);
    PlayAppend(START, fail + fail + fail + fail + ok + fail + fail + fail + fail, ok);
  }

  /** One request admitted and answered in a closed first window that it does not trip. */
  lemma Round(r: nat, s: nat, f: nat, cf: nat, ok: bool)
    requires r == s + f && f <= 8 && cf <= 4 && r <= 9
    requires !ok ==> cf <= 3 && r < 9
    ensures var before := State(Closed, 0, Counts(r, s, f, cf));
            Play(before, [Begin, Finish(0, ok)])
            == State(Closed, 0, if ok then Counts(r + 1, s + 1, f, 0) else Counts(r + 1, s, f + 1, cf + 1))
  {
    var before := State(Closed, 0, Counts(r, s, f, cf));
    var mid := Step(before, Begin);
    assert Play(before, [Begin, Finish(0, ok)]) == Play(mid, [Finish(0, ok)]) == Step(mid, Finish(0, ok));
  }

  /** A half-open breaker lets one probe through, and that probe's result alone decides: it closes the
      breaker on a clean window or opens it again. */
  lemma ProbeDecides(events: seq<Event>, ok: bool)
    requires Play(START, events).phase == HalfOpen
    ensures var s := Play(START, events);
            && (Admits(s) <==> s.counts.requests == 0)
            && (s.counts.requests == 1 ==>
                  Play(START, events + [Finish(s.window, ok)]) == State(if ok then Closed else Open, s.window + 1, NO_COUNTS))
            && forall window: nat :: window != s.window ==> Step(s, Finish(window, ok)) == s
  {
    PlayKeepsInv(START, events);
    PlaySnoc(START, events, Finish(Play(START, events).window, ok));
  }

  /** A closed breaker admits everything, counts a success and forgets the failures in a row, and starts
      over when its interval ends; an open one becomes half-open, and a half-open one does not expire. */
  lemma WindowsTurnOver(events: seq<Event>, window: nat)
    ensures var s := Play(START, events);
            var c := s.counts;
            && (s.phase == Closed ==> Admits(s) && Step(s, Begin) == State(Closed, s.window,
                  Counts(c.requests + 1, c.successes, c.failures, c.consecutiveFailures)))
            && (s.phase == Closed && Current(s, window) ==>
                  Step(s, Finish(window, true)) == State(Closed, s.window, Counts(c.requests, c.successes + 1, c.failures, 0)))
            && Step(s, Expire) == (match s.phase
                                   case Closed => State(Closed, s.window + 1, NO_COUNTS)
                                   case Open => State(HalfOpen, s.window + 1, NO_COUNTS)
                                   case HalfOpen => s)
  {
  }

  /** An open breaker admits nothing, whatever is reported to it, until its cooldown ends. */
  lemma {:induction false} OpenUntilExpiry(s: State, events: seq<Event>)
    requires s.phase == Open && Expire !in events
    ensures Play(s, events) == s && !Admits(s)
    decreases |events|
  {
    if events != [] {
      assert forall e :: e in events[1..] ==> e in events;
      OpenUntilExpiry(s, events[1..]);
    }
  }

  /** The breaker one reasoner holds; other runs and the clock act on it through `Pass`. */
  class CircuitBreaker {
    var state: State

    constructor ()
      ensures state == START
    {
      state := START;
    }

    method Pass(events: seq<Event>)
      modifies this
      ensures state == Play(old(state), events)
    {
      var i := 0;
      while i < |events|
        invariant 0 <= i <= |events|
        invariant Play(state, events[i..]) == Play(old(state), events)
      {
        assert events[i..][1..] == events[i + 1..];
        state := Step(state, events[i]);
        i := i + 1;
      }
    }

    /** None is a rejection; otherwise the window in which the request was admitted. */
    method Acquire() returns (token: Option<nat>)
      modifies this
      ensures state == Step(old(state), Begin)
      ensures token == if Admits(old(state)) then Some(old(state).window) else None
    {
      if Admits(state) {
        token := Some(state.window);
        state := Admitted(state);
      } else {
        token := None;
      }
    }

    method Report(window: nat, ok: bool)
      modifies this
      ensures state == Step(old(state), Finish(window, ok))
    {
      state := Finished(state, window, ok);
    }
  }
}
