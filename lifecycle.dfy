/**
 * The task lifecycle of charities/views.py as pure transitions on the two columns of a task
 * that the handlers change: `state` and `assigned_benefactor`.
 *
 * Each transition returns the task as it is afterwards together with the HTTP outcome the
 * handler answers with. The handlers in module TaskViews are proved to do exactly this.
 */
module TaskLifecycle {
  import opened Wrappers

  type BenefactorId = nat

  /** The four values of the `state` column, stored as "P", "W", "A" and "D". */
  datatype State = Pending | Waiting | Assigned | Done

  /** The mutable part of a task row. */
  datatype Snapshot = Snapshot(state: State, benefactor: Option<BenefactorId>)

  /** Exceptions a handler does not catch; the framework turns them into a 500 answer. */
  datatype Fault =
    | TaskDoesNotExist      // Task.DoesNotExist raised by the lookup
    | MissingResponseField  // KeyError on request.data['response']

  /** What a handler answers: a status code and, on the lifecycle endpoints, a `detail` text. */
  datatype Outcome =
    | Ok(detail: string)
    | BadRequest(detail: string)
    | NotFound(message: Option<string>)
    | Crash(fault: Fault)

  function StatusCode(o: Outcome): int
  {
    match o
    case Ok(_) => 200
    case BadRequest(_) => 400
    case NotFound(_) => 404
    case Crash(_) => 500
  }

  const RequestSent := "Request sent."
  const NotPending := "This task is not pending."
  const ResponseRequired := "Required field (\"A\" for accepted / \"R\" for rejected)"
  const NotWaiting := "This task is not waiting."
  const ResponseSent := "Response sent."
  const NotAssigned := "Task is not assigned yet."
  const DoneSuccessfully := "Task has been done successfully."

  /** A task after a handler ran, and the handler's answer. */
  datatype Step = Step(after: Snapshot, outcome: Outcome)

  /** The two response values a charity owner may send: "A" accepts, "R" rejects. */
  predicate IsDecision(response: string)
  {
    response == "A" || response == "R"
  }

  /** A benefactor asks for a task (TaskRequest.get once the task is found). */
  function Request(t: Snapshot, requester: BenefactorId): (r: Step)
    ensures r.outcome.Ok? <==> t.state == Pending
    ensures r.outcome.Ok? ==> r.after == Snapshot(Waiting, Some(requester)) && r.outcome.detail == RequestSent
    ensures !r.outcome.Ok? ==> r.after == t && r.outcome == NotFound(Some(NotPending))
  {
    if t.state != Pending then Step(t, NotFound(Some(NotPending)))
    else Step(Snapshot(Waiting, Some(requester)), Ok(RequestSent))
  }

  /**
   * The charity owner answers a request (TaskResponse.post once the task is found).
   * `response` is None when the body has no "response" key. The value is checked before the
   * state, so an invalid value is a 400 whatever the state is.
   */
  function Respond(t: Snapshot, response: Option<string>): (r: Step)
    ensures r.outcome.Crash? <==> response.None?
    ensures r.outcome.Crash? ==> r.outcome.fault == MissingResponseField
    ensures r.outcome.BadRequest? <==> response.Some? && !IsDecision(response.value)
    ensures r.outcome.BadRequest? ==> r.outcome.detail == ResponseRequired
    ensures r.outcome.Ok? <==> response.Some? && IsDecision(response.value) && t.state == Waiting
    ensures r.outcome.NotFound? ==> r.outcome.message == Some(NotWaiting)
    ensures !r.outcome.Ok? ==> r.after == t
    ensures r.outcome.Ok? ==> r.outcome.detail == ResponseSent
    ensures r.outcome.Ok? && response == Some("A") ==> r.after == Snapshot(Assigned, t.benefactor)
    ensures r.outcome.Ok? && response == Some("R") ==> r.after == Snapshot(Pending, None)
  {
    match response
    case None => Step(t, Crash(MissingResponseField))
    case Some(v) =>
      if v != "A" && v != "R" then Step(t, BadRequest(ResponseRequired))
      else if t.state != Waiting then Step(t, NotFound(Some(NotWaiting)))
      else if v == "A" then Step(Snapshot(Assigned, t.benefactor), Ok(ResponseSent))
      else Step(Snapshot(Pending, None), Ok(ResponseSent))
  }

  /** An assigned task is marked done (DoneTask.post once the task is found). */
  function Complete(t: Snapshot): (r: Step)
    ensures r.outcome.Ok? <==> t.state == Assigned
    ensures r.outcome.Ok? ==> r.after == Snapshot(Done, t.benefactor) && r.outcome.detail == DoneSuccessfully
    ensures !r.outcome.Ok? ==> r.after == t && r.outcome == NotFound(Some(NotAssigned))
  {
    if t.state != Assigned then Step(t, NotFound(Some(NotAssigned)))
    else Step(Snapshot(Done, t.benefactor), Ok(DoneSuccessfully))
  }

  /** One call of one of the three lifecycle endpoints on an existing task. */
  datatype Action =
    | AskFor(requester: BenefactorId)
    | Answer(response: Option<string>)
    | Finish

  function Perform(t: Snapshot, a: Action): Step
  {
    match a
    case AskFor(requester) => Request(t, requester)
    case Answer(response) => Respond(t, response)
    case Finish => Complete(t)
  }

  /** The task after a sequence of calls, failed ones included. */
  function Run(t: Snapshot, actions: seq<Action>): Snapshot
    decreases |actions|
  {
    if actions == [] then t else Run(Perform(t, actions[0]).after, actions[1..])
  }

  /** A task as the charity creates it. */
  const Fresh := Snapshot(Pending, None)

  /** The invariant the handlers keep: a task has no benefactor exactly when it is pending. */
  predicate Consistent(t: Snapshot)
  {
    t.benefactor.None? <==> t.state == Pending
  }

  /** Every call keeps Consistent. */
  lemma PerformPreservesConsistent(t: Snapshot, a: Action)
    requires Consistent(t)
    ensures Consistent(Perform(t, a).after)
  {
  }

  /** Any sequence of calls keeps Consistent. */
  lemma {:induction false} RunPreservesConsistent(t: Snapshot, actions: seq<Action>)
    requires Consistent(t)
    ensures Consistent(Run(t, actions))
    decreases |actions|
  {
    if actions != [] {
      PerformPreservesConsistent(t, actions[0]);
      RunPreservesConsistent(Perform(t, actions[0]).after, actions[1..]);
    }
  }

  /** Every task reachable from creation satisfies Consistent. */
  lemma ReachableIsConsistent(actions: seq<Action>)
    ensures Consistent(Run(Fresh, actions))
  {
    RunPreservesConsistent(Fresh, actions);
  }

  /** A done task never changes again, neither its state nor its benefactor. */
  lemma {:induction false} DoneIsFinal(t: Snapshot, actions: seq<Action>)
    requires t.state == Done
    ensures Run(t, actions) == t
    decreases |actions|
  {
    if actions != [] {
      assert Perform(t, actions[0]).after == t;
      DoneIsFinal(t, actions[1..]);
    }
  }

  /** A call either fails and changes nothing, or succeeds and moves the task to another state. */
  lemma SuccessChangesState(t: Snapshot, a: Action)
    ensures Perform(t, a).outcome.Ok? ==> Perform(t, a).after.state != t.state
    ensures !Perform(t, a).outcome.Ok? ==> Perform(t, a).after == t
  {
  }

  /** Once assigned, a task only moves on to done and keeps its benefactor. */
  lemma {:induction false} RunMovesForward(t: Snapshot, actions: seq<Action>)
    requires t.state in {Assigned, Done}
    ensures Run(t, actions).state in {Assigned, Done}
    ensures Run(t, actions).benefactor == t.benefactor
    decreases |actions|
  {
    if actions != [] {
      var s := Perform(t, actions[0]).after;
      assert s.state in {Assigned, Done} && s.benefactor == t.benefactor;
      RunMovesForward(s, actions[1..]);
    }
  }

  /**
   * Request, accept, done drives a new task through every state and keeps the requester
   * attached from the request on, also after it is done.
   */
  lemma FullLifecycle(b: BenefactorId)
    ensures Run(Fresh, [AskFor(b)]) == Snapshot(Waiting, Some(b))
    ensures Run(Fresh, [AskFor(b), Answer(Some("A"))]) == Snapshot(Assigned, Some(b))
    ensures Run(Fresh, [AskFor(b), Answer(Some("A")), Finish]) == Snapshot(Done, Some(b))
  {
    var s1 := Request(Fresh, b).after;
    var s2 := Respond(s1, Some("A")).after;
    assert [AskFor(b), Answer(Some("A"))][1..] == [Answer(Some("A"))];
    assert [AskFor(b), Answer(Some("A")), Finish][1..] == [Answer(Some("A")), Finish];
    assert [Answer(Some("A")), Finish][1..] == [Finish];
    assert Run(s2, []) == s2;
    assert Run(s1, [Answer(Some("A"))]) == s2;
    assert Run(s2, [Finish]) == Snapshot(Done, Some(b));
  }

  /** After a rejection the task is pending again and the next request succeeds. */
  lemma RejectReopens(b1: BenefactorId, b2: BenefactorId)
    ensures Run(Fresh, [AskFor(b1), Answer(Some("R"))]) == Fresh
    ensures Run(Fresh, [AskFor(b1), Answer(Some("R")), AskFor(b2)]) == Snapshot(Waiting, Some(b2))
  {
    var s1 := Request(Fresh, b1).after;
    assert [AskFor(b1), Answer(Some("R"))][1..] == [Answer(Some("R"))];
    assert [AskFor(b1), Answer(Some("R")), AskFor(b2)][1..] == [Answer(Some("R")), AskFor(b2)];
    assert [Answer(Some("R")), AskFor(b2)][1..] == [AskFor(b2)];
    assert Run(Fresh, []) == Fresh;
    assert Run(s1, [Answer(Some("R"))]) == Fresh;
    assert Run(Fresh, [AskFor(b2)]) == Snapshot(Waiting, Some(b2));
  }

  /**
   * A named witness, taken from FullLifecycle: a done task keeps its benefactor, so the
   * invariant one might expect, "a benefactor is set exactly when the task is waiting or
   * assigned", does not hold of reachable tasks; Consistent is what the code keeps instead.
   */
  lemma DoneKeepsBenefactor(b: BenefactorId)
    ensures var t := Run(Fresh, [AskFor(b), Answer(Some("A")), Finish]);
      t.state == Done && t.benefactor == Some(b)
  {
    FullLifecycle(b);
  }
}
