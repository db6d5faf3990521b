# Job lifecycle of the guideline-processing service

This project is a Dafny model of the job lifecycle of a small Django/Celery service. A client posts a guideline text. The service stores it as a `Job` and enqueues a background task. The task asks a language model for a summary and then for a checklist of that summary, saving each as it arrives.

What is modelled:

- **The job record** (`jobs/models.py`):
  - the four status choices and their stored labels;
  - the defaults of a new job;
  - `save(update_fields=[...])`: `Models.Persist` copies the one named column into the stored row.
- **The processor** (`process_job` in `jobs/tasks.py`):
  - One invocation is `Tasks.Invoke`. It is a pure function of the row it loads and the outcomes of the two model calls. Each outcome is `Ok(text)`, an API error (`OpenAIError`) or any other exception.
  - It returns the saves and calls it made, in order, as an event log, together with the row it leaves and how it ended.
  - A retry chain (`Tasks.Chain`, `Tasks.Reschedule` and `Tasks.Retry`) is the first invocation plus the retries it asks for, at most three. Each retry reloads the row the previous attempt left and takes the next model outcomes from an oracle indexed by call number.
  - `Tasks.Process` is one delivery of the task against the store.
- **The endpoints** (`jobs/views.py`):
  - `Views.Create` is `POST /jobs/`: validate, insert a PENDING job, enqueue; on an enqueue error, mark the job FAILED and raise.
  - `Views.Retrieve` is `GET /jobs/{id}/`.
  - `Views.Represent` is the serialized form.

The modules follow the source files:

| file | module | content |
|---|---|---|
| `wrappers.dfy` | `Wrappers` | `Option` |
| `models.dfy` | `Models` | status choices, `Job`, store, saves |
| `tasks.dfy` | `Tasks` | one invocation, retry chain, delivery |
| `task_properties.dfy` | `TaskProperties` | properties of one invocation |
| `retry_properties.dfy` | `RetryProperties` | properties of a retry chain |
| `delivery_properties.dfy` | `DeliveryProperties` | properties of one delivery |
| `views.dfy` | `Views` | the two endpoints and their properties |
| `lifecycle.dfy` | `Lifecycle` | submission followed by processing |
| `scenarios.dfy` | `Scenarios` | the repository's test cases and other concrete runs |

SUCCEEDED and FAILED read as final statuses, but the task has no guard: every delivery saves RUNNING first, whatever status it loads (`jobs/tasks.py:8-10`). A redelivered finished job is therefore processed again, as `DeliveryProperties.ProcessRestartsFromRunning` and `Scenarios.RedeliveryReentersRunning` show. Finality is stated only for one chain that starts from PENDING or RUNNING (`RetryProperties.ChainStatusMonotone`).

How Celery ends an exhausted retry budget is not visible in the repository. `self.retry(exc=e, ...)` may raise `MaxRetriesExceededError`, which the task catches and turns into FAILED. Or it may re-raise `e`, which escapes and leaves the job RUNNING. The model keeps both cases as a parameter, `ExhaustPolicy`. The FAILED-after-four-attempts properties are stated for the first case.

## Model

| member | source | states |
|---|---|---|
| Models.Label | jobs/models.py:5-14 | each status is stored as a non-empty label that fits the 10-character `status` column |
| Models.ParseStatus | jobs/models.py:5-9 | a column value is read as the choice whose label it is, and as nothing when it is no choice's label |
| Models.LabelRoundTrip | jobs/models.py:5-9 | every status choice reads back as itself, so the four labels are distinct |
| Models.StatusChoices | jobs/models.py:5-14 | exactly "pending", "running", "succeeded" and "failed" are valid statuses; the longest has 9 characters |
| Models.NewJob | jobs/models.py:11-20 | a created job has the given key and text, is PENDING, has no summary and no checklist, and satisfies the lifecycle invariant |
| Models.Persist | jobs/tasks.py:9-10 | `save(update_fields=[col])` keeps the stored key, stores the object's value of the named column and keeps every other column |
| Models.PersistSynchronizes | jobs/tasks.py:24-25 | saving an object that differs from the stored row only in the saved column makes the stored row equal to the object |
| Tasks.Invoke | jobs/tasks.py:9-56 | an invocation on a loaded row never reports a missing job and asks for a retry only while the budget of three retries lasts |
| Tasks.Chain | jobs/tasks.py:45-52 | a retry chain makes at least one attempt and, beyond the first, never more than the remaining budget allows, and it never ends waiting for a retry |
| Tasks.Reschedule | jobs/tasks.py:47-48 | after an invocation, the queue either stops or runs the task again within the budget, with the same guarantees as `Chain` |
| Tasks.Retry | jobs/tasks.py:46-48 | a retried task, run with one more retry already spent, makes at least one and at most the remaining number of attempts, and never ends waiting for another retry |
| Tasks.Process | jobs/tasks.py:7-10 | an unknown id raises on the lookup with nothing written; a known id takes one to four attempts, changes only its own row and keeps every key |
| TaskProperties.InvokeSaves | jobs/tasks.py:9-56 | every save of an invocation names status, summary or checklist, never the input text, and changes no other column; the row left is the last row saved; one model call, or two after a successful first call |
| TaskProperties.InvokeOpensWithRunning | jobs/tasks.py:8-20 | every invocation first saves RUNNING and only then calls the model, on the input text |
| TaskProperties.InvokeStageOrder | jobs/tasks.py:16-37 | the summary call gets the input text; the checklist call happens only after a successful summary call, right after the summary was saved, and gets that saved summary; a checklist is saved only after a summary was |
| TaskProperties.InvokeSettles | jobs/tasks.py:39-56 | the status left is given by a decision table over the two outcomes, retries and policy; summary and checklist are the model's answers when the calls succeed, otherwise as loaded; the task returns exactly when that status is terminal and retries exactly on an unexpected error with budget left |
| TaskProperties.InvokeStatusShape | jobs/tasks.py:9-56 | no save writes PENDING; only the last save can leave RUNNING, and it does exactly when the invocation returns |
| TaskProperties.InvokeSucceededOnlyOnFallThrough | jobs/tasks.py:39-56 | SUCCEEDED is saved if and only if both model calls succeed |
| TaskProperties.InvokeKeepsConsistent | jobs/tasks.py:24-37 | from a consistent row every saved row keeps the invariant: a checklist only next to a summary, and both on a succeeded job |
| TaskProperties.SavesKeepIdentity | jobs/models.py:11-12 | saves restricted to the processor's columns never change the primary key or the input text |
| RetryProperties.RescheduleRetries | jobs/tasks.py:46-48 | after a retry request the row and end are the retried task's, the events and calls are the invocation's followed by the retried task's, and one attempt is added |
| RetryProperties.ChainSaves | jobs/tasks.py:45-52 | across all attempts, saves touch only status, summary and checklist; the row left is the last row saved; the call count is the number of calls logged |
| RetryProperties.ChainKeepsInput | jobs/tasks.py:45-52 | no save of a chain, and not the row it leaves, changes the key or the input text |
| RetryProperties.ChainKeepsConsistent | jobs/tasks.py:45-52 | a chain from a consistent row saves only consistent rows and leaves a consistent row |
| RetryProperties.ChainStatusShape | jobs/tasks.py:45-52 | a chain never saves PENDING; retried attempts save only RUNNING; only the very last event can save another status |
| RetryProperties.ChainStatusMonotone | jobs/tasks.py:9-56 | from PENDING or RUNNING, saved statuses never move back along pending, running, finished |
| RetryProperties.ChainSettles | jobs/tasks.py:45-52 | when the exhausted budget raises `MaxRetriesExceededError`, every chain returns and leaves the job SUCCEEDED or FAILED |
| RetryProperties.ChainAlwaysTransient | jobs/tasks.py:45-52 | against a model that always fails unexpectedly, a chain uses the whole budget with one call per attempt; it leaves FAILED, or RUNNING when the cause is re-raised, with summary and checklist untouched |
| DeliveryProperties.ProcessSaves | jobs/tasks.py:8-56 | a delivery saves only status, summary and checklist, keeps the key and input text, and leaves the last row it saved |
| DeliveryProperties.ProcessKeepsWellFormed | jobs/tasks.py:8-56 | a delivery keeps every row under its own key and every row consistent |
| DeliveryProperties.ProcessSettles | jobs/tasks.py:39-56 | with `MaxRetriesExceededError` on exhaustion, a delivery for a stored job returns and leaves it SUCCEEDED or FAILED |
| DeliveryProperties.ProcessStatusMonotone | jobs/tasks.py:9-56 | from PENDING or RUNNING, a delivery never saves PENDING and never saves a status earlier than one it saved before |
| DeliveryProperties.ProcessAlwaysTransient | jobs/tasks.py:45-52 | against a model that always fails unexpectedly, a delivery makes four attempts and four calls and ends FAILED, or RUNNING with the error raised |
| DeliveryProperties.ProcessRestartsFromRunning | jobs/tasks.py:8-20 | every delivery for a stored job, whatever its status, starts by saving RUNNING and calling the model on the input text |
| Views.Validate | jobs/views.py:15-16 | a body is valid exactly when it carries `input_text`, and validation keeps that text |
| Views.Create | jobs/views.py:14-24 | 201 exactly when the body is valid, the key is fresh and enqueueing succeeds; a 201 stores a PENDING job with the submitted text, enqueues its key once and returns it as `event_id`; an invalid body stores and enqueues nothing; a failed enqueue leaves the job FAILED and raises |
| Views.Retrieve | jobs/views.py:26-33 | a lookup finds a job exactly when its key is stored, and returns the stored row |
| Views.Represent | jobs/serializers.py:8-16 | the detail response carries exactly the fields id, input_text, status, summary and checklist; what they hold is stated by `Views.ReadBackRepresent` |
| Views.ReadBackRepresent | jobs/views.py:30-31 | the serialized fields of a job determine it: reading them back gives the stored row |
| Views.CreateTouchesOnlyFreshRow | jobs/views.py:17-22 | a submission leaves every existing row as it was and adds a key exactly when it inserted the job |
| Views.CreateIgnoresReadOnlyFields | jobs/serializers.py:17-25 | two bodies that agree on `input_text` submit alike, whatever else they carry |
| Views.PendingOnlyWhenDispatched | jobs/views.py:17-23 | the new row stays PENDING if and only if the submission answered 201 |
| Views.CreateKeepsWellFormed | jobs/views.py:17-22 | a submission keeps every row under its own key and every row consistent |
| Views.CreatedThenRetrieved | jobs/views.py:17-24 | after a 201, looking up `event_id` finds the submitted text as "pending", with null summary and checklist |
| Lifecycle.SubmitThenProcess | jobs/views.py:17-24 | a job answered 201 and then processed keeps its key and text, never goes back from PENDING, keeps the store well formed, and ends SUCCEEDED or FAILED when exhaustion raises `MaxRetriesExceededError` |
| Scenarios.SuccessfulProcessJob | jobs/tests.py:69-91 | with answers "a nice summary" and "- item1\n- item2", one attempt saves RUNNING, summary, checklist and SUCCEEDED, in that order |
| Scenarios.OpenAIErrorMarksFailed | jobs/tests.py:94-109 | with the API down, one attempt ends FAILED with no summary and no checklist |
| Scenarios.TransientThenSuccess | jobs/tasks.py:45-52 | an unexpected error on the checklist call leads to one retry, which succeeds; four calls in all |
| Scenarios.ReraisedCauseLeavesRunning | jobs/tasks.py:47-52 | if the cause is re-raised on exhaustion, four attempts end with the job RUNNING and the error escaping |
| Scenarios.RedeliveryReentersRunning | jobs/tasks.py:8-10 | a second delivery for a SUCCEEDED job saves RUNNING over it and can leave it FAILED |
| Scenarios.CreateJobEndpoint | jobs/tests.py:44-55 | posting "Test input" answers 201, enqueues the new key once and stores the text as PENDING |
| Scenarios.MissingInputText | jobs/tests.py:33-36 | an empty body is rejected on `input_text`; nothing is stored or enqueued |

## Left out

- The OpenAI client is replaced by an outcome oracle, indexed by call number. Left out with it:
  - the prompts, the model name and `max_tokens` (`jobs/tasks.py:16-35`);
  - a `None` message content.
- Client construction sits outside the `try` (`jobs/tasks.py:12`). An error there would escape with the job RUNNING. The model has no outcome for it.
- Errors raised by the database saves themselves are not modelled. Only the model calls fail.
- Celery's mechanics are not modelled:
  - `shared_task`, the broker and `countdown=2`;
  - how `self.retry` behaves once the budget is spent, which is a parameter instead (see above).
  - A retry is modelled as reloading exactly the row the previous attempt left, with no other writer in between.
- Concurrency and duplicate deliveries running at the same time are left out. Sequential redelivery is modelled.
- The primary key is a natural number, not a UUID. `str(job.id)` and its parsing back are not modelled: the enqueued value is the key itself.
- Fresh-key generation (`uuid4`) is a parameter of `Create`. A taken key raises on insert.
- The `created_at` and `updated_at` timestamps, `Job.__str__`, `jobs/admin.py` and the URL routing are not modelled.
- Views.Validate: the serializer library's own field rules are not modelled, because they live in the framework, not in this repository. These are rejecting a blank `input_text`, stripping surrounding whitespace, and converting non-string JSON values. Any present text is accepted as is.
- Views.Create: for the same reason, the stored text is the submitted text as is, not the whitespace-stripped text the framework would store.
- Views.Represent: the serialized form omits the two timestamps.
- The HTTP status codes other than 201 and the error bodies are not modelled. A validation failure is `Invalid(field)`, and a propagated exception is `Errored(cause)`.
