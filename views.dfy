/**
 * The three lifecycle handlers of charities/views.py (TaskRequest.get, TaskResponse.post,
 * DoneTask.post) over task objects whose fields they update in place.
 *
 * The task table is a map from id to Task object; a handler looks its task up, checks it and
 * writes at most that one object. Saving the row is not modelled: a write to a field stands for
 * the write and the `save()` that follows it.
 */
module TaskViews {
  import opened Wrappers
  import opened TaskLifecycle

  type TaskId = nat
  type CharityId = nat

  /** A task row. Its id and its owning charity never change; state and benefactor do. */
  class Task {
    const id: TaskId
    const charity: CharityId
    var state: State
    var benefactor: Option<BenefactorId>

    function View(): Snapshot
      reads this
    {
      Snapshot(state, benefactor)
    }

    /** The row `serializer.save()` inserts when a charity posts a task: pending, unassigned. */
    constructor (id: TaskId, charity: CharityId)
      ensures this.id == id && this.charity == charity
      ensures View() == Fresh
    {
      this.id := id;
      this.charity := charity;
      state := Pending;
      benefactor := None;
    }
  }

  /** GET /tasks/{taskId}/request by the benefactor `requester`. */
  method TaskRequest(store: map<TaskId, Task>, taskId: TaskId, requester: BenefactorId) returns (o: Outcome)
    modifies if taskId in store then {store[taskId]} else {}
    ensures taskId !in store ==> o == NotFound(None)
    ensures taskId in store ==>
      var s := Request(old(store[taskId].View()), requester);
      store[taskId].View() == s.after && o == s.outcome
  {
    if taskId !in store {
      return NotFound(None);
    }
    var task := store[taskId];
    if task.state != Pending {
      return NotFound(Some(NotPending));
    }
    task.state := Waiting;
    task.benefactor := Some(requester);
    return Ok(RequestSent);
  }

  /**
   * POST /tasks/{taskId}/response with body field `response` (None when the key is absent).
   * The caller is not an argument: the handler does not look at who owns the task.
   */
  method TaskResponse(store: map<TaskId, Task>, taskId: TaskId, response: Option<string>) returns (o: Outcome)
    modifies if taskId in store then {store[taskId]} else {}
    ensures taskId !in store ==> o == Crash(TaskDoesNotExist)
    ensures taskId in store ==>
      var s := Respond(old(store[taskId].View()), response);
      store[taskId].View() == s.after && o == s.outcome
  {
    if taskId !in store {
      return Crash(TaskDoesNotExist);
    }
    var task := store[taskId];
    if response.None? {
      return Crash(MissingResponseField);
    }
    var value := response.value;
    if value != "A" && value != "R" {
      return BadRequest(ResponseRequired);
    }
    if task.state != Waiting {
      return NotFound(Some(NotWaiting));
    } else if value == "A" {
      task.state := Assigned;
      return Ok(ResponseSent);
    } else {
      task.state := Pending;
      task.benefactor := None;
      return Ok(ResponseSent);
    }
  }

  /** POST /tasks/{taskId}/done; the view declares no permission of its own. */
  method DoneTask(store: map<TaskId, Task>, taskId: TaskId) returns (o: Outcome)
    modifies if taskId in store then {store[taskId]} else {}
    ensures taskId !in store ==> o == NotFound(None)
    ensures taskId in store ==>
      var s := Complete(old(store[taskId].View()));
      store[taskId].View() == s.after && o == s.outcome
  {
    if taskId !in store {
      return NotFound(None);
    }
    var task := store[taskId];
    if task.state != Assigned {
      return NotFound(Some(NotAssigned));
    }
    task.state := Done;
    return Ok(DoneSuccessfully);
  }

  /**
   * Task 1 is created; a benefactor requests it, the charity rejects, and a second request
   * succeeds because the rejection made the task pending again. A request for an unknown id
   * is a 404 and a response for an unknown id is an uncaught error.
   */
  method RequestAfterRejection(charity: CharityId, b1: BenefactorId, b2: BenefactorId)
    returns (first: Outcome, reject: Outcome, second: Outcome, unknown: Outcome, crash: Outcome, finalState: Snapshot)
    ensures first == Ok(RequestSent) && reject == Ok(ResponseSent) && second == Ok(RequestSent)
    ensures unknown == NotFound(None) && StatusCode(crash) == 500
    ensures finalState == Snapshot(Waiting, Some(b2))
  {
    var task := new Task(1, charity);
    var store := map[1 := task];
    first := TaskRequest(store, 1, b1);
    reject := TaskResponse(store, 1, Some("R"));
    second := TaskRequest(store, 1, b2);
    unknown := TaskRequest(store, 2, b1);
    crash := TaskResponse(store, 2, Some("A"));
    finalState := task.View();
  }
}
