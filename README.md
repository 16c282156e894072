# Charity task lifecycle

A model of the task-handling views of a small charity platform (`charities/views.py`).
Charities post tasks. Benefactors request them. Any charity owner may accept or reject a
request, since the code does not check who owns the task. `DoneTask` marks an accepted task as
done and declares no permission of its own; what the project's default permissions demand
there is not modelled. A task's `state` column takes four
values: `P` (pending), `W` (waiting for the charity's answer), `A` (assigned) and `D` (done).
Its `assigned_benefactor` column is optional.

Modules:

- `TaskLifecycle` (lifecycle.dfy): the three transitions as pure functions on a snapshot of
  `state` and `assigned_benefactor`. Each returns the new snapshot and the handler's answer:
  200, 400 or 404 with its `detail` text, or an uncaught error (a 500).
  `Run` replays any sequence of calls. Lemmas prove the invariant the code keeps
  (`Consistent`: no benefactor exactly when pending) and that a done task never changes again.
- `TaskViews` (views.py → views.dfy): a `Task` class whose `state` and `benefactor` fields the
  handlers update in place. There is one method per handler: `TaskRequest`, `TaskResponse`,
  `DoneTask`. Each looks its task up in a map from id to task object, writes only that object,
  and is proved to produce exactly the snapshot and answer of the pure transition. A missing id
  is a 404 in `TaskRequest` and `DoneTask`. In `TaskResponse` it is an uncaught error, because
  that lookup is not guarded.
- `Access` (access.dfy): the permission lists the views declare and `Tasks.get_permissions`.
  The caller's roles are an abstract input.
- `TaskListing` (listing.dfy): the include and exclude lookup maps of `Tasks.filter_queryset`,
  built by two loops. Also the payload merge of `Tasks.post`, which forces `charity_id` to the
  caller's charity.

Where the code differs from what one might expect, the model follows the code:

- Done keeps the benefactor (views.py:129-130). The invariant one might expect, "a benefactor is set
  exactly when the task is waiting or assigned" fails for done tasks (`DoneKeepsBenefactor`).
  What holds is "no benefactor exactly when pending" (`RunPreservesConsistent`).
- `TaskResponse` checks no ownership; the caller is not even an input of the handler.
  Only the charity-owner role is required (views.py:97).
- `TaskResponse` on an unknown id raises instead of answering 404 (views.py:100).
  So does a body without a `response` key (views.py:101).
- `DoneTask` declares no permission classes (views.py:120-121).

## Model

| member | source | states |
|---|---|---|
| TaskLifecycle.Request | charities/views.py:81-89 | a request succeeds exactly on a pending task; it then makes the task waiting, records the requester and answers "Request sent."; otherwise 404 "This task is not pending." and the task is unchanged |
| TaskLifecycle.Respond | charities/views.py:101-117 | missing `response` key is an uncaught error; a value other than "A"/"R" is a 400 whatever the state; a valid value succeeds exactly on a waiting task, otherwise 404 "This task is not waiting."; every failure leaves the task unchanged; "A" assigns and keeps the benefactor, "R" makes it pending and clears the benefactor; success answers "Response sent." |
| TaskLifecycle.Complete | charities/views.py:125-132 | done succeeds exactly on an assigned task, makes it done and keeps its benefactor; otherwise 404 "Task is not assigned yet." with no change |
| TaskLifecycle.PerformPreservesConsistent | charities/views.py:85-130 | each of the three calls keeps "no benefactor exactly when pending" |
| TaskLifecycle.RunPreservesConsistent | charities/views.py:85-130 | any sequence of calls, failed ones included, keeps "no benefactor exactly when pending" |
| TaskLifecycle.ReachableIsConsistent | charities/views.py:77-135 | every task reachable from a new task satisfies that invariant |
| TaskLifecycle.DoneIsFinal | charities/views.py:125-130 | no sequence of calls changes a done task, neither its state nor its benefactor |
| TaskLifecycle.SuccessChangesState | charities/views.py:81-130 | a failed call leaves the task as it was; a successful call always moves it to a different state |
| TaskLifecycle.RunMovesForward | charities/views.py:104-130 | once assigned, a task stays assigned or done and its benefactor never changes |
| TaskLifecycle.FullLifecycle | charities/views.py:77-132 | request, accept, done take a new task through waiting, assigned and done with the requester attached at each step |
| TaskLifecycle.RejectReopens | charities/views.py:81-117 | a rejection returns the task to pending with no benefactor, and a later request by anyone succeeds |
| TaskLifecycle.DoneKeepsBenefactor | charities/views.py:129-130 | a task that was done still has its benefactor |
| TaskViews.Task.constructor | charities/views.py:42-48 | a created task has its id and owning charity, is pending and has no benefactor |
| TaskViews.TaskRequest | charities/views.py:77-93 | unknown id: 404 without body and nothing changes; otherwise the task's new state, benefactor and the answer are those of `Request`; no other task object is written |
| TaskViews.TaskResponse | charities/views.py:99-117 | unknown id: uncaught error and nothing changes; otherwise the task's new state, benefactor and the answer are those of `Respond`; no other task object is written |
| TaskViews.DoneTask | charities/views.py:121-135 | unknown id: 404 without body and nothing changes; otherwise the task's new state, benefactor and the answer are those of `Complete`; no other task object is written |
| TaskViews.RequestAfterRejection | charities/views.py:77-117 | request, reject and request again on one task all succeed and leave it waiting for the second benefactor; unknown ids give 404 on request and an error on response |
| Access.TasksPermissions | charities/views.py:51-57 | GET, HEAD and OPTIONS get exactly the authentication check; every other method gets exactly the charity-owner check |
| Access.TasksAdmits | charities/views.py:51-57 | listing admits exactly the authenticated callers; creating admits exactly the charity owners |
| Access.ViewPermissions | charities/views.py:74-97 | documents what the declared lists admit: request exactly benefactors, response exactly charity owners, without regard to which task they own |
| TaskListing.FilterQueryset | charities/views.py:59-71 | the two loops build exactly the include and exclude lookup maps `Lookups` defines, from the filtering and the excluding table |
| TaskListing.LookupsDomain | charities/views.py:60-69 | a lookup name is in the map exactly when some table row with that name has its query parameter present and non-empty |
| TaskListing.LookupsValue | charities/views.py:61-64 | a name maps to the parameter value of the last row with that name whose parameter is given |
| TaskListing.LookupsDistinct | charities/views.py:59-71 | with distinct names, a name is in the map exactly when its parameter is present and non-empty, and maps to that parameter's value |
| TaskListing.LookupsIgnoreOtherParams | charities/views.py:61-69 | query parameters that no table row names have no effect on either map |
| TaskListing.CreationData | charities/views.py:42-45 | the creation data has the client's keys plus `charity_id`, `charity_id` is the caller's charity, every other key passes through unchanged |
| TaskListing.CreationDataIgnoresClientCharity | charities/views.py:42-45 | whatever `charity_id` the client sends, or none, the creation data is the same |

## Left out

- Framework machinery: `APIView`, `Response`, `get_object_or_404` and the execution of
  `.filter()`/`.exclude()` on the query set. Only the lookup maps passed to them are modelled.
- `Task.objects.all_related_tasks_to_user`, the lookup tables `Task.filtering_lookups` and
  `Task.excluding_lookups`, and the `state` default. They live in `charities/models.py`, which is
  not part of this model. The tables are parameters of `FilterQueryset`, and the constructor
  assumes the pending default.
- Persistence: `task.save()` is folded into the field writes before it.
- Serializer validation, the data a serializer returns, and the `BenefactorRegistration` and
  `CharityRegistration` endpoints (views.py:15-32). They are thin wrappers over serializers that
  are not part of this model. `Tasks.post` is modelled as the data it hands to the serializer
  and the pending task the save creates.
- The internals of `IsBenefactor`, `IsCharityOwner` and `IsAuthenticated`, and the project's
  default permission classes, which apply to `DoneTask`. A caller is a set of roles, and
  `DoneTask`'s own permission list is empty. The framework's 401/403 answer is not modelled;
  when it refuses a caller the handler never runs.
- Who the requesting benefactor is: `request.user.benefactor` is the `requester` argument of
  `TaskRequest`.
- Query strings with repeated keys: the query is a map holding the value `GET.get` returns.
- The race between concurrent requests that both pass the state check before either saves.
  Each handler call is modelled as one atomic step.
- The debug `print` at views.py:92.
