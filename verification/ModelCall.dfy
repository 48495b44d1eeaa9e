/** One call to the model (reasoner.go: call, retryingRequest, doRequest; resilience/deadline.go).
    What the network does is a parameter, attempt by attempt, and so is how long it takes. Two things
    are assumed of the retry library: its attempt bound, which breaker_test.go pins, and its stop on an
    ended context, which nothing in the repository pins. */
module ModelCall {
  import opened Common
  import opened Ports
  import Breaker

  const MAX_CALL_TIMEOUT := 12_000
  const MAX_RETRY_ATTEMPTS: nat := 3

  datatype SubmittedPlan = SubmittedPlan(action: string, heads: int, rationale: string)

  /** A tool_use input: absent, or raw JSON with what decoding it as an arguments object and as a
      submit_plan input would give. */
  datatype RawInput = NoInput | RawInput(args: Option<Args>, plan: Option<SubmittedPlan>)

  /** Text shown to the model; error texts are constructors. */
  datatype Body = Text(text: string) | UnknownToolText | BadArgumentsText | ErrorText(error: InvokeError)

  /** One content block, flat as on the wire: a reply may carry any type in any field combination. */
  datatype Content = Content(typ: string, text: string, id: string, name: string, input: RawInput,
                             toolUseId: string, body: Body, isError: bool)

  datatype ApiResponse = ApiResponse(content: seq<Content>, model: string)

  datatype HttpOutcome =
    | NotSent
    | TransportFailed
    | BodyReadFailed
    | Undecodable(status: nat)
    | Answered(status: nat, response: ApiResponse)

  datatype CallError = RequestNotBuilt | Transient | NotJson(status: nat) | ApiStatus(status: nat) | ContextEnded | BreakerRejected

  function DoRequest(o: HttpOutcome): Result<ApiResponse, CallError> {
    match o
    case NotSent => Err(RequestNotBuilt)
    case TransportFailed => Err(Transient)
    case BodyReadFailed => Err(Transient)
    case Undecodable(status) => Err(NotJson(status))
    case Answered(status, response) => if status / 100 != 2 then Err(ApiStatus(status)) else Ok(response)
  }

  /** A reply is a decoded answer with a status from 200 to 299 and nothing else; every other outcome has
      its own error. */
  lemma RepliesExactly(o: HttpOutcome)
    ensures DoRequest(o).Ok? <==> Replied(o)
    ensures Replied(o) ==> DoRequest(o).value == o.response
    ensures !Replied(o) ==> DoRequest(o).error == match o
                                                  case NotSent => RequestNotBuilt
                                                  case TransportFailed => Transient
                                                  case BodyReadFailed => Transient
                                                  case Undecodable(status) => NotJson(status)
                                                  case Answered(status, _) => ApiStatus(status)
  {
  }

  predicate Replied(o: HttpOutcome) { o.Answered? && 200 <= o.status < 300 }

  predicate IsTransientError(e: CallError) {
    if e.ApiStatus? then e.status >= 500 else e.Transient?
  }

  datatype Exchange = Exchange(result: Result<ApiResponse, CallError>, attempts: nat)

  /** The exchange from attempt k on. over(k) is the time at which attempt k, and the pause after it if
      another may follow, have passed; from the deadline on the call's context has ended. */
  function Retry(http: nat -> HttpOutcome, over: nat -> int, deadline: int, k: nat): Exchange
    requires k < MAX_RETRY_ATTEMPTS
    decreases MAX_RETRY_ATTEMPTS - k
  {
    var r := DoRequest(http(k));
    if r.Ok? || !IsTransientError(r.error) then Exchange(r, k + 1)
    else if over(k) >= deadline then Exchange(Err(ContextEnded), k + 1)
    else if k + 1 == MAX_RETRY_ATTEMPTS then Exchange(r, k + 1)
    else Retry(http, over, deadline, k + 1)
  }

  method RetryingRequest(http: nat -> HttpOutcome, over: nat -> int, deadline: int) returns (x: Exchange)
    ensures x == Retry(http, over, deadline, 0)
  {
    var k: nat := 0;
    while true
      invariant k < MAX_RETRY_ATTEMPTS
      invariant Retry(http, over, deadline, 0) == Retry(http, over, deadline, k)
      decreases MAX_RETRY_ATTEMPTS - k
    {
      var r := DoRequest(http(k));
      if r.Ok? || !IsTransientError(r.error) { return Exchange(r, k + 1); }
      if over(k) >= deadline { return Exchange(Err(ContextEnded), k + 1); }
      if k + 1 == MAX_RETRY_ATTEMPTS { return Exchange(r, k + 1); }
      k := k + 1;
    }
  }

  /** The failures worth paying for again. A body that does not decode is not one of them, whatever
      its status; nor is a 4xx. */
  predicate Retriable(o: HttpOutcome) {
    o.TransportFailed? || o.BodyReadFailed? || (o.Answered? && o.status >= 500)
  }

  /** The exchange makes one to three attempts; it goes past an attempt exactly when that attempt was
      retriable, the deadline had not passed and an attempt was left; and it reports the last attempt, or
      the ended context. */
  lemma {:induction false} RetriesExactly(http: nat -> HttpOutcome, over: nat -> int, deadline: int, k: nat)
    requires k < MAX_RETRY_ATTEMPTS
    ensures var x := Retry(http, over, deadline, k);
            var last := x.attempts - 1;
            && k < x.attempts <= MAX_RETRY_ATTEMPTS
            && (forall i :: k <= i < last ==> Retriable(http(i)) && over(i) < deadline)
            && (x.attempts < MAX_RETRY_ATTEMPTS ==> !Retriable(http(last)) || over(last) >= deadline)
            && (x.result.Ok? <==> Replied(http(last))) && (Replied(http(last)) ==> x.result.value == http(last).response)
            && x.result == if Retriable(http(last)) && over(last) >= deadline then Err(ContextEnded) else DoRequest(http(last))
    decreases MAX_RETRY_ATTEMPTS - k
  {
    var r := DoRequest(http(k));
    assert r.Err? && IsTransientError(r.error) <==> Retriable(http(k));
    RepliesExactly(http(k));
    if Retriable(http(k)) && over(k) < deadline && k + 1 < MAX_RETRY_ATTEMPTS {
      RetriesExactly(http, over, deadline, k + 1);
    }
  }

  /** The deadline of one outbound call: the caller's own when it is nearer than the cap. */
  function CallTimeout(deadline: Option<int>, now: int, maxPerCall: int): (r: int)
    ensures r <= now + maxPerCall && (deadline.Some? ==> r <= deadline.value)
    ensures r == now + maxPerCall || deadline == Some(r)
  {
    if deadline.Some? && deadline.value - now <= maxPerCall then deadline.value else now + maxPerCall
  }

  /** Everything outside one Reason call: the network per turn and attempt and when each attempt with its
      pause is over, the clock per turn, what other runs and the breaker's timers do before and during each
      turn, and what the n-th tool invocation of the run would answer if it reached its upstream. */
  datatype World = World(
    http: nat -> nat -> HttpOutcome,
    over: nat -> nat -> int,
    clock: nat -> int,
    before: nat -> seq<Breaker.Event>,
    during: nat -> seq<Breaker.Event>,
    answer: nat -> Result<string, string>)

  /** What one turn's call did: its result, its HTTP attempts, the deadline they all shared, and what
      was reported to the breaker. */
  datatype CallRecord = CallRecord(result: Result<ApiResponse, CallError>, attempts: nat, deadline: int, reported: Option<bool>)

  function CallModel(w: World, turn: nat, deadline: int, b: Breaker.State): (CallRecord, Breaker.State) {
    var callDeadline := CallTimeout(Some(deadline), w.clock(turn), MAX_CALL_TIMEOUT);
    var asked := Breaker.Play(b, w.before(turn));
    if !Breaker.Admits(asked) then
      (CallRecord(Err(BreakerRejected), 0, callDeadline, None), asked)
    else
      var x := Retry(w.http(turn), w.over(turn), callDeadline, 0);
      var waiting := Breaker.Play(Breaker.Admitted(asked), w.during(turn));
      (CallRecord(x.result, x.attempts, callDeadline, Some(x.result.Ok?)),
       Breaker.Finished(waiting, asked.window, x.result.Ok?))
  }

  /** A rejected call costs nothing and reports nothing. Any other makes one to three attempts under the
      nearer of the run's deadline and twelve seconds from the turn's start, none but the first of them
      begun after that deadline, and reports its one result, however many attempts it took; the result is a
      reply exactly when the last attempt's answer was one. */
  ghost predicate WithinBudget(w: World, turn: nat, deadline: int, r: CallRecord) {
    && r.deadline == (if deadline <= w.clock(turn) + MAX_CALL_TIMEOUT then deadline else w.clock(turn) + MAX_CALL_TIMEOUT)
    && (r.result == Err(BreakerRejected) <==> r.attempts == 0)
    && (r.attempts == 0 ==> r.reported == None)
    && (r.attempts > 0 ==> r.reported == Some(r.result.Ok?))
    && r.attempts <= MAX_RETRY_ATTEMPTS
    && (forall k :: 0 <= k < r.attempts - 1 ==> Retriable(w.http(turn)(k)) && w.over(turn)(k) < r.deadline)
    && (r.attempts > 0 ==>
          var last := w.http(turn)(r.attempts - 1);
          (r.result.Ok? <==> Replied(last)) && (Replied(last) ==> r.result.value == last.response))
  }

  lemma CallStaysWithinBudget(w: World, turn: nat, deadline: int, b: Breaker.State)
    ensures WithinBudget(w, turn, deadline, CallModel(w, turn, deadline, b).0)
  {
    var callDeadline := CallTimeout(Some(deadline), w.clock(turn), MAX_CALL_TIMEOUT);
    RetriesExactly(w.http(turn), w.over(turn), callDeadline, 0);
    RepliesExactly(w.http(turn)(Retry(w.http(turn), w.over(turn), callDeadline, 0).attempts - 1));
  }

  method Call(w: World, turn: nat, deadline: int, breaker: Breaker.CircuitBreaker) returns (r: CallRecord)
    modifies breaker
    ensures (r, breaker.state) == CallModel(w, turn, deadline, old(breaker.state))
    ensures WithinBudget(w, turn, deadline, r)
  {
    CallStaysWithinBudget(w, turn, deadline, breaker.state);
    var callDeadline := CallTimeout(Some(deadline), w.clock(turn), MAX_CALL_TIMEOUT);
    breaker.Pass(w.before(turn));
    var token := breaker.Acquire();
    if token.None? { return CallRecord(Err(BreakerRejected), 0, callDeadline, None); }
    var x := RetryingRequest(w.http(turn), w.over(turn), callDeadline);
    breaker.Pass(w.during(turn));
    breaker.Report(token.value, x.result.Ok?);
    return CallRecord(x.result, x.attempts, callDeadline, Some(x.result.Ok?));
  }

  /** What a call returns and reports, in terms of the network alone: the last attempt decides, and only an
      answer with a status from 200 to 299 is a reply and a success to the breaker. */
  lemma CallReturnsTheLastAnswer(w: World, turn: nat, deadline: int, b: Breaker.State)
    ensures var r := CallModel(w, turn, deadline, b).0;
            var last := r.attempts - 1;
            && (r.attempts == 0 <==> !Breaker.Admits(Breaker.Play(b, w.before(turn))))
            && (r.attempts == 0 ==> r.result == Err(BreakerRejected) && r.reported == None)
            && (r.attempts > 0 && Replied(w.http(turn)(last)) ==>
                  r.result == Ok(w.http(turn)(last).response) && r.reported == Some(true))
            && (r.attempts > 0 && !Replied(w.http(turn)(last)) ==>
                  && r.reported == Some(false)
                  && r.result == if Retriable(w.http(turn)(last)) && w.over(turn)(last) >= r.deadline then Err(ContextEnded)
                                 else DoRequest(w.http(turn)(last)))
            && (0 < r.attempts < 3 ==> !Retriable(w.http(turn)(last)) || w.over(turn)(last) >= r.deadline)
  {
    var callDeadline := CallTimeout(Some(deadline), w.clock(turn), MAX_CALL_TIMEOUT);
    RetriesExactly(w.http(turn), w.over(turn), callDeadline, 0);
    if Breaker.Admits(Breaker.Play(b, w.before(turn))) {
      RepliesExactly(w.http(turn)(Retry(w.http(turn), w.over(turn), callDeadline, 0).attempts - 1));
    }
  }

  /** All that happened to the breaker in one turn: what others did before, one Begin, and, if that was
      admitted, what others did meanwhile and one Finish, for the window of the admission. */
  function CallEvents(w: World, turn: nat, b: Breaker.State, r: CallRecord): seq<Breaker.Event> {
    w.before(turn) + [Breaker.Begin]
    + if r.reported.None? then [] else
      w.during(turn) + [Breaker.Finish(Breaker.Play(b, w.before(turn)).window, r.reported.value)]
  }

  /** A turn is one request and at most one result to the breaker, among everybody else's events, and
      nothing else: not one per attempt, and no result of a rejected call. */
  lemma CallPlaysItsEvents(w: World, turn: nat, deadline: int, b: Breaker.State)
    ensures var (r, b') := CallModel(w, turn, deadline, b);
            b' == Breaker.Play(b, CallEvents(w, turn, b, r))
  {
    var (r, b') := CallModel(w, turn, deadline, b);
    var asked := Breaker.Play(b, w.before(turn));
    var begun := w.before(turn) + [Breaker.Begin];
    Breaker.PlaySnoc(b, w.before(turn), Breaker.Begin);
    if r.reported.Some? {
      var admitted, finish := Breaker.Admitted(asked), Breaker.Finish(asked.window, r.reported.value);
      Breaker.PlaySnoc(admitted, w.during(turn), finish);
      Breaker.PlayAppend(b, begun, w.during(turn) + [finish]);
    } else {
      assert CallEvents(w, turn, b, r) == begun;
    }
  }

  /** The breaker's invariant survives a call, whatever else happens to the breaker meanwhile. */
  lemma CallKeepsBreakerInv(w: World, turn: nat, deadline: int, b: Breaker.State)
    requires Breaker.Inv(b)
    ensures Breaker.Inv(CallModel(w, turn, deadline, b).1)
  {
    CallPlaysItsEvents(w, turn, deadline, b);
    Breaker.PlayKeepsInv(b, CallEvents(w, turn, b, CallModel(w, turn, deadline, b).0));
  }
}
