/** What whole runs do to the shared breaker, alone, among other users and one after the other. */
module BreakerTraffic {
  import opened Common
  import opened ModelCall
  import opened Reasoner
  import opened RunProperties
  import Breaker

  // ----- one run among everybody else's events -----

  /** All that happened to the breaker during a run's calls, in order, its own and others' events. */
  function RunEvents(w: World, calls: seq<CallRecord>, b: Breaker.State): seq<Breaker.Event> {
    if calls == [] then [] else
    var n := |calls| - 1;
    var earlier := RunEvents(w, calls[..n], b);
    earlier + CallEvents(w, n, Breaker.Play(b, earlier), calls[n])
  }

  /** One turn plays exactly its own call's events. */
  lemma TurnPlaysItsEvents(s: Setting, r: Run, b: Breaker.State)
    requires r.breaker == Breaker.Play(b, RunEvents(s.world, r.calls, b))
    ensures var r' := TurnStep(s, r).0;
            r'.breaker == Breaker.Play(b, RunEvents(s.world, r'.calls, b))
  {
    var n, r' := |r.calls|, TurnStep(s, r).0;
    var rec := CallModel(s.world, n, s.deadline, r.breaker).0;
    CallPlaysItsEvents(s.world, n, s.deadline, r.breaker);
    assert r'.calls == r.calls + [rec] && r'.calls[..n] == r.calls;
    Breaker.PlayAppend(b, RunEvents(s.world, r.calls, b), CallEvents(s.world, n, r.breaker, rec));
  }

  lemma {:induction false} RunFromPlaysItsEvents(s: Setting, r: Run, turn: nat, b: Breaker.State)
    requires r.breaker == Breaker.Play(b, RunEvents(s.world, r.calls, b))
    ensures var r' := RunFrom(s, r, turn).0;
            r'.breaker == Breaker.Play(b, RunEvents(s.world, r'.calls, b))
    decreases if turn < s.maxTurns then s.maxTurns - turn else 0
  {
    if turn < s.maxTurns {
      TurnPlaysItsEvents(s, r, b);
      var (r', v) := TurnStep(s, r);
      if v.None? { RunFromPlaysItsEvents(s, r', turn + 1, b); }
    }
  }

  /** For every run the breaker ends where it would after the world's own events with, at each model call,
      one Begin and, if that was admitted, one Finish: nothing per attempt and nothing per tool call. */
  lemma RunPlaysItsEvents(s: Setting, prompt: string, model: string, b: Breaker.State)
    ensures var r := TheRun(s, prompt, model, b).0;
            r.breaker == Breaker.Play(b, RunEvents(s.world, r.calls, b))
  {
    RunFromPlaysItsEvents(s, Started(prompt, model, b), 0, b);
  }

  /** The breaker's window bound survives any run, interleaved with anything else. */
  lemma RunKeepsBreakerInv(s: Setting, prompt: string, model: string, b: Breaker.State)
    requires Breaker.Inv(b)
    ensures Breaker.Inv(TheRun(s, prompt, model, b).0.breaker)
  {
    RunPlaysItsEvents(s, prompt, model, b);
    Breaker.PlayKeepsInv(b, RunEvents(s.world, TheRun(s, prompt, model, b).0.calls, b));
  }

  /** While the breaker is open a run is free: no HTTP attempt, no tool call, an error at once. */
  lemma OpenBreakerShortCircuits(s: Setting, prompt: string, model: string, b: Breaker.State)
    requires b.phase == Breaker.Open && Breaker.Expire !in s.world.before(0) && s.maxTurns > 0
    ensures var (r, v) := TheRun(s, prompt, model, b);
            v == CallFailed(BreakerRejected) && |r.calls| == 1 && Attempts(r.calls) == 0 && r.log == [] && r.breaker == b
  {
    Breaker.OpenUntilExpiry(b, s.world.before(0));
    var r0 := Started(prompt, model, b);
    var (r, v) := TurnStep(s, r0);
    assert r.calls[..0] == [];
    assert TheRun(s, prompt, model, b) == (r, v.value);
  }

  // ----- one run with the breaker to itself -----

  /** Nobody else uses the breaker and none of its timers ends. */
  ghost predicate Quiet(w: World) { forall t: nat :: w.before(t) == [] && w.during(t) == [] }

  /** n more requests, all of them answered. */
  function Answering(c: Breaker.Counts, n: nat): Breaker.Counts {
    Breaker.Counts(c.requests + n, c.successes + n, c.failures, if n == 0 then c.consecutiveFailures else 0)
  }

  /** One more request, which failed: the breaker opens or counts it. */
  function AfterFailure(b: Breaker.State): Breaker.State {
    var c := Breaker.Failed(b.counts.(requests := b.counts.requests + 1));
    if Breaker.ReadyToTrip(c) then Breaker.NewWindow(b, Breaker.Open) else b.(counts := c)
  }

  /** A closed breaker after a run of n calls: all answered, or all but the last. */
  function AfterRun(b: Breaker.State, n: nat, failed: bool): Breaker.State {
    if failed && n > 0 then AfterFailure(b.(counts := Answering(b.counts, n - 1))) else b.(counts := Answering(b.counts, n))
  }

  lemma QuietTurn(s: Setting, r: Run, b: Breaker.State)
    requires Quiet(s.world) && b.phase == Breaker.Closed && Breaker.Inv(b)
    requires r.breaker == b.(counts := Answering(b.counts, |r.calls|))
    ensures var (r', v) := TurnStep(s, r);
            && |r'.calls| == |r.calls| + 1
            && r'.breaker == AfterRun(b, |r'.calls|, v.Some? && v.value.CallFailed?)
  {
    assert s.world.before(|r.calls|) == [] && s.world.during(|r.calls|) == [];
  }

  lemma {:induction false} QuietRunFrom(s: Setting, r: Run, turn: nat, b: Breaker.State)
    requires Quiet(s.world) && b.phase == Breaker.Closed && Breaker.Inv(b)
    requires r.breaker == b.(counts := Answering(b.counts, |r.calls|))
    ensures var (r', v) := RunFrom(s, r, turn);
            r'.breaker == AfterRun(b, |r'.calls|, v.CallFailed?)
    decreases if turn < s.maxTurns then s.maxTurns - turn else 0
  {
    if turn < s.maxTurns {
      QuietTurn(s, r, b);
      var (r', v) := TurnStep(s, r);
      if v.None? { QuietRunFrom(s, r', turn + 1, b); }
    }
  }

  /** A run of n model calls is n requests to a closed breaker that nobody else uses meanwhile: n
      successes, or n - 1 and one failure when a call failed, however many attempts each call made. */
  lemma RunCountsItsCalls(s: Setting, prompt: string, model: string, b: Breaker.State)
    requires Quiet(s.world) && b.phase == Breaker.Closed && Breaker.Inv(b)
    ensures var (r, v) := TheRun(s, prompt, model, b);
            r.breaker == AfterRun(b, |r.calls|, v.CallFailed?)
  {
    QuietRunFrom(s, Started(prompt, model, b), 0, b);
  }

  // ----- runs in a row -----

  /** The first call fails for good, after however many attempts. */
  ghost predicate FailsAtOnce(s: Setting) {
    s.maxTurns > 0 && Quiet(s.world)
    && Retry(s.world.http(0), s.world.over(0), CallTimeout(Some(s.deadline), s.world.clock(0), MAX_CALL_TIMEOUT), 0).result.Err?
  }

  /** The breaker after one run after the other. */
  function BreakerAfter(runs: seq<Setting>, prompt: string, model: string, b: Breaker.State): Breaker.State {
    if runs == [] then b else
    TheRun(runs[|runs| - 1], prompt, model, BreakerAfter(runs[..|runs| - 1], prompt, model, b)).0.breaker
  }

  /** A run whose first call fails is one request and one failure. */
  lemma FailedRunCountsOnce(s: Setting, prompt: string, model: string, b: Breaker.State)
    requires FailsAtOnce(s) && b.phase == Breaker.Closed && Breaker.Inv(b)
    ensures TheRun(s, prompt, model, b).0.breaker == AfterFailure(b)
  {
    RunCountsItsCalls(s, prompt, model, b);
    var (r, v) := TurnStep(s, Started(prompt, model, b));
    assert s.world.before(0) == [];
    assert TheRun(s, prompt, model, b) == (r, v.value);
  }

  lemma RejectedRunChangesNothing(s: Setting, prompt: string, model: string, b: Breaker.State)
    requires FailsAtOnce(s) && b.phase == Breaker.Open
    ensures TheRun(s, prompt, model, b).0.breaker == b
  {
    assert s.world.before(0) == [];
    OpenBreakerShortCircuits(s, prompt, model, b);
  }

  /** From a fresh breaker, n failed runs leave n failures in the first window up to four, and an open
      breaker from the fifth on, whatever failed and however often each was retried. */
  lemma {:induction false} FiveFailedRunsOpenTheBreaker(runs: seq<Setting>, prompt: string, model: string)
    requires forall s :: s in runs ==> FailsAtOnce(s)
    ensures var b := BreakerAfter(runs, prompt, model, Breaker.START);
            && (|runs| <= 4 ==> b == Breaker.START.(counts := Breaker.Counts(|runs|, 0, |runs|, |runs|)))
            && (|runs| >= 5 ==> b == Breaker.State(Breaker.Open, 1, Breaker.NO_COUNTS))
  {
    if runs != [] {
      var front, last := runs[..|runs| - 1], runs[|runs| - 1];
      assert runs == front + [last];
      FiveFailedRunsOpenTheBreaker(front, prompt, model);
      var b := BreakerAfter(front, prompt, model, Breaker.START);
      if |front| <= 4 {
        FailedRunCountsOnce(last, prompt, model, b);
      } else {
        RejectedRunChangesNothing(last, prompt, model, b);
      }
    }
  }
}
