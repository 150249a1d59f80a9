# Image-processor controller — a Dafny model

This project models the decision logic of the image-processor controller:
the service that receives control messages for camera devices from a
message broker, starts, pauses and removes the worker container of each
device on a container engine, and reports every outcome back on the
broker. The Docker SDK, the AMQP client and the SQL database are replaced
by abstract state, which leaves four small rule sets:

- **Goal detection and failure cleanup** (`goals.dfy`, `docker_api.dfy`).
  A started worker's log stream is scanned line by line, and the first
  line carrying a marker decides. If that line contains `[ERROR`, the scan
  fails with the line's second `]`-separated segment as detail. If it
  contains only `[SUCCESS 4]`, the scan succeeds, so an earlier success
  line wins over a later error line. A stream that closes with no marker
  fails with "Did not reach final goal". A failure or a timeout
  force-removes the container and raises `ContainerExitedError` or
  `ContainerGoalTimeout`; success removes nothing. An `[ERROR` line with
  no `]` makes the scan itself raise, and then nothing is removed. The
  clock is abstracted to `inTime`, the number of stream events (lines,
  then the close of the stream) that arrive before the deadline. A
  followed stream closes only when its container has exited, so the
  engine records that container as exited.
- **Container lifecycle** (`docker_api.dfy`). The engine is a map from
  container name to container plus a reachability flag. Every operation
  returns the engine afterwards, the engine calls it made in order, and its
  result or error. `Traced` ties the two together: the reported engine is
  the one obtained by replaying the call trace. The removal decision stops
  a container unless it has exited, then either force-removes it or waits
  and removes it. Every operation on an existing container resolves the
  name first and turns the engine's `NotFound` into `ContainerNotFound`.
- **Acknowledgement routing** (`messages.dfy`, `rabbitmq_handler.dfy`). A
  message body decodes into an action, a device id and an optional stream
  URL, or fails before any handling. After the handler runs, a successful
  REMOVE is acknowledged on the delete queue. Any other success gets a
  2000 status acknowledgement. Any exception, including one from the
  success publish, gets a 4000 status acknowledgement that carries the
  exception's message. The broker URL and the consumer settings are
  modelled too.
- **Instance store** (`instance.dfy`, `instance_dao.dfy`,
  `instance_service.dfy`). The instance table is a map from the unique
  instance id to its row, with the status stored by name. The service
  turns a missing row into `InstanceNotFound`. Round trips cover
  create-then-get, update-then-get and delete-then-get.

`outcomes.dfy` holds the `Option` and `Result` wrappers. `text.dfy` holds
the string operations the controller uses: Python's `in` on strings,
`str.split`/`str.join` on one character, and cutting a string at the first
occurrence of a character.

### Behaviour of the code worth knowing

- The detail of an error line is the raw second segment of `split("]")`
  at docker_api.py:255. For `[ERROR] bad weights` it is `" bad weights"`,
  with the leading space (`Goals.ErrorDetailExample`).
- A line that contains `[ERROR` but no `]` makes `split("]")[1]` at
  docker_api.py:255 raise inside the scan. The `except` at line 276 and
  the one at line 214 do not catch that exception, so the cleanup never
  runs and the new container keeps running while the call fails. The
  model reports it as `ErrorLineUnsplittable(line)`
  (`DockerApi.RunCrashLeavesRunning`).
- `remove_container`'s docstring (docker_api.py:131-133) says that force
  kills and removes immediately. The code still stops a container that
  has not exited (lines 173-175) before `remove(force=True)`.
- The `except Exception` at rabbitmq_handler.py:162 also catches an
  exception from the success publish at line 160. That exception is
  reported as a 4000 acknowledgement, like a handler failure.
- A body that does not decode raises at rabbitmq_handler.py:130-137,
  before the `try`. Nothing is handled and nothing is published.
- The instance tests call `create_instance` with the instance alone
  (tests/instance_service_test.py:67). The model follows the service,
  which also takes the stream URL passed to the worker
  (instance_service.py:33-44).

## Model

| member | source | states |
|---|---|---|
| Text.ContainsIffOccurs | src/docker_manager/docker_api.py:254-259 | the substring test used for the markers holds exactly when the marker occurs at some index of the line |
| Text.JoinSplit | src/docker_manager/docker_api.py:255 | joining the `]`-split segments with `]` gives the line back |
| Text.SplitJoin | src/docker_manager/docker_api.py:255 | splitting a join of separator-free segments gives the segments back, so the segments are exactly Python's `split` pieces |
| Text.SplitHasSecond | src/docker_manager/docker_api.py:255 | a line has a second `]` segment, so `[1]` is defined, exactly when it contains `]` |
| Text.CutAtJoined | src/rabbitmq/rabbitmq_handler.py:31 | cutting `a + c + b` at the first `c` recovers `a` and `b` when `a` has no `c` |
| Goals.Scan | src/docker_manager/docker_api.py:248-263 | a scan that reports success always carries the empty detail |
| Goals.ErrorDetailShape | src/docker_manager/docker_api.py:254-257 | the error detail is the `]`-free run right after the line's first `]`, ending at the next `]` or at the end of the line |
| Goals.ErrorDetail | src/docker_manager/docker_api.py:255 | the detail taken from an error line holds no `]` |
| Goals.MarkerVerdict | src/docker_manager/docker_api.py:254-261 | a marker line crashes the scan exactly when it has the error marker and no `]`; otherwise it succeeds exactly when it lacks the error marker, with the empty detail on success and a `]`-free detail on failure |
| Goals.ScanAppend | src/docker_manager/docker_api.py:250-263 | the scan is a fold: a marker-free prefix is skipped, and once a prefix holds a marker line nothing after it is read |
| Goals.ScanAtFirstMarker | src/docker_manager/docker_api.py:250-261 | the first marker line alone decides the scan: error with detail, crash on an error line without `]`, or success |
| Goals.ScanUnmarked | src/docker_manager/docker_api.py:263 | a stream with no marker line yields `(False, "Did not reach final goal")` |
| Goals.ErrorLineEndsScan | src/docker_manager/docker_api.py:254-257 | the first error line yields `(False, detail)` and the lines after it never change the result |
| Goals.ErrorBeatsSuccess | src/docker_manager/docker_api.py:254-261 | a line with both markers is never a success, because the error check comes first |
| Goals.ScanReachedIff | src/docker_manager/docker_api.py:259-261 | the scan succeeds exactly when its first marker line has the success marker and no error marker |
| Goals.Events | src/docker_manager/docker_api.py:250-263 | the scan consumes the lines up to its first marker line, or every line plus the end of the stream |
| Goals.WatchLogs | src/docker_manager/docker_api.py:265-271 | the timed wait finishes with the scan's own result, always does so when the whole stream arrives in time, and times out when nothing arrives |
| Goals.StreamEnded | src/docker_manager/docker_api.py:250-263 | the wait read the stream to its close exactly when it finished and no line was a marker, and then it yields `(False, "Did not reach final goal")` |
| Goals.WatchMonotone | src/docker_manager/docker_api.py:271 | more time never turns a finished wait into a timeout |
| Goals.SuccessInTime | src/docker_manager/docker_api.py:259-271 | a success line that arrives before the deadline makes the wait succeed, whatever the stream holds later |
| Goals.AbsentCharNoMarker | src/docker_manager/docker_api.py:254-259 | a line lacking one of a marker's characters does not carry that marker |
| Goals.SuccessLineScan | src/docker_manager/docker_api.py:259-261 | the stream `[SUCCESS 4] ready` yields `(True, "")` |
| Goals.ErrorDetailAfterBracket | src/docker_manager/docker_api.py:255 | when a line has exactly one `]`, its detail is all the text after that `]` |
| Goals.ErrorDetailExample | src/docker_manager/docker_api.py:255 | the detail of `[ERROR] bad weights` is `" bad weights"` |
| Goals.ErrorLineScan | src/docker_manager/docker_api.py:254-257 | the stream `[ERROR] bad weights` yields `(False, " bad weights")` |
| DockerApi.ReplayAppend | src/docker_manager/docker_api.py:143-183 | replaying two call traces one after the other equals replaying their concatenation |
| DockerApi.Targeted | src/docker_manager/docker_api.py:173-183 | the handle calls of a plan are issued on the named container, one per step and in order |
| DockerApi.DeviceRequests | src/docker_manager/docker_api.py:42-47 | CPU mode requests no device; GPU mode requests every GPU in one request |
| DockerApi.CommandArgs | src/docker_manager/docker_api.py:198-203 | the command is `--device` and `cpu` (CPU) or `0` (otherwise), followed by the extra arguments in their order |
| DockerApi.CheckHealth | src/docker_manager/docker_api.py:49-63 | a ping succeeds exactly when the engine answers and changes nothing |
| DockerApi.GetContainer | src/docker_manager/docker_api.py:65-90 | lookup returns the named container; an absent name raises `ContainerNotFound(name)` and an unreachable engine its transport error |
| DockerApi.Resolved | src/docker_manager/docker_api.py:85-87 | an operation on a container issues its call only after the name resolves; a failed lookup makes no other call and changes nothing |
| DockerApi.StopContainer | src/docker_manager/docker_api.py:92-119 | stop resolves the name first, then stops the container with the given grace timeout; it stays present and is exited afterwards |
| DockerApi.PauseContainer | src/docker_manager/docker_api.py:280-299 | pause resolves the name first; the container stays present and is paused afterwards |
| DockerApi.UnpauseContainer | src/docker_manager/docker_api.py:301-320 | unpause resolves the name first; the container stays present and is running afterwards |
| DockerApi.RemovalPlan | src/docker_manager/docker_api.py:173-183 | stop is called exactly when the status is not `exited` and comes first; exactly one remove, last, with the given force; a wait just before it exactly when not forced; stop and wait are each called at most once |
| DockerApi.ReplayRemovalPlan | src/docker_manager/docker_api.py:173-183 | carrying out a removal plan on the engine removes exactly the named container |
| DockerApi.RemoveContainer | src/docker_manager/docker_api.py:121-152 | removal resolves the name first, then runs the removal plan; afterwards the container is gone and every other container is unchanged |
| DockerApi.WaitGoals | src/docker_manager/docker_api.py:233-278 | success leaves the engine untouched; a failure outcome or a timeout force-removes the container and raises `ContainerExitedError(name, detail)` or `ContainerGoalTimeout(name)`; a crash of the scan escapes without cleanup; a stream read to its close records the container as exited |
| DockerApi.CleanUp | src/docker_manager/docker_api.py:143-152 | after a failed wait the container is looked up again and force-removed before the error is raised, with no stop when its stream closed or it had exited; an error of the removal itself escapes instead |
| DockerApi.RemovalCalls | src/docker_manager/docker_api.py:173-179 | a forced removal looks the container up, stops it only if it has not exited, then removes it with `force=True` |
| DockerApi.WaitAfterLaunch | src/docker_manager/docker_api.py:205-212 | the run call followed by the goal wait replays to the reported engine; a failed wait force-removes the new container and leaves the engine as it was before the run; a crashed scan leaves the launched container in place |
| DockerApi.LaunchThenWait | src/docker_manager/docker_api.py:205-212 | on an engine that accepts the run, the container is launched and its goal awaited: success exactly when reached in time; the failure and timeout errors exactly for the matching watch outcomes, with the engine as before the run; a crash leaves the container running |
| DockerApi.RunContainer | src/docker_manager/docker_api.py:185-231 | a new container runs with the mode's command and devices; success exactly when the goal is reached in time, leaving it running; a failure outcome or timeout raises the matching error and leaves the engine as it was before the run; an `[ERROR` line without `]` raises `ErrorLineUnsplittable` and leaves the container running |
| DockerApi.StartContainer | src/docker_manager/docker_api.py:322-343 | start resolves the name, issues the start call, then waits for the goal; success exactly when the goal is reached in time; a failure outcome or a timeout raises the matching error and removes the container; a crash of the scan leaves it running |
| DockerApi.RunReachesGoal | src/docker_manager/docker_api.py:259-261 | a worker that logs `[SUCCESS 4] ready` in time is left running |
| DockerApi.RunHitsError | src/docker_manager/docker_api.py:254-275 | a worker that logs `[ERROR] bad weights` is removed and reported with detail `" bad weights"` |
| DockerApi.RunTimesOut | src/docker_manager/docker_api.py:276-278 | a worker with no marker before the deadline is removed and reported as `ContainerGoalTimeout` |
| DockerApi.RunEndsWithoutGoal | src/docker_manager/docker_api.py:263-275 | a worker whose stream closes with no marker is reported as not reaching its goal, and is removed with a lookup and `remove(force=True)` but no stop |
| DockerApi.RunCrashLeavesRunning | src/docker_manager/docker_api.py:254-257 | a worker whose first marker line is an `[ERROR` line without `]` makes the run raise and stays running |
| DockerApi.RemoveExitedWithoutForce | src/docker_manager/docker_api.py:173-183 | removing an exited container without force skips the stop, waits, then removes |
| Instances.ParseStatus | src/instance_manager/instance/instance_dao.py:42 | exactly the names ACTIVE, INACTIVE and PAUSED read back as a status |
| Instances.StatusNameRoundTrip | src/instance_manager/instance/instance_dao.py:42 | a status stored by name reads back as itself, and a name that reads back as a status is that status's name |
| Instances.NewInstance | tests/instance_service_test.py:134-152 | an instance is built exactly when its update time is not before its creation time; otherwise `DomainLogicError` |
| InstanceDao.GetInstance | src/instance_manager/instance/instance_dao.py:19-30 | reading returns the instance stored under the id, or `None` when there is no such row |
| InstanceDao.CreateInstance | src/instance_manager/instance/instance_dao.py:32-49 | insert stores id, status name and both times and returns the instance's own id; a duplicate id or backdated update time is rejected |
| InstanceDao.UpdateInstance | src/instance_manager/instance/instance_dao.py:51-71 | update overwrites the row with the instance's id, never changes ids or other rows, and reports 1 row when the id exists and 0 otherwise |
| InstanceDao.DeleteInstance | src/instance_manager/instance/instance_dao.py:73-79 | delete removes exactly the row with the id, leaves the others, and reports 1 or 0 rows |
| InstanceDao.CreateThenGet | tests/instance_service_test.py:59-96 | a created instance reads back field for field |
| InstanceDao.UpdateThenGet | tests/instance_service_test.py:104-120 | an updated instance reads back as the new value |
| InstanceDao.WritesAreLocal | src/instance_manager/instance/instance_dao.py:51-79 | writes to one id leave every other instance as it reads |
| InstanceService.GetInstance | src/instance_manager/instance/instance_service.py:24-31 | the stored instance, or `InstanceNotFound(id)` when there is none |
| InstanceService.CreateInstance | src/instance_manager/instance/instance_service.py:33-45 | the row is inserted first; the container then runs with `--source <url>`; the id is returned exactly when both succeed; after a successful insert the engine is the run's, and a failed run raises its own error |
| InstanceService.UpdateInstance | src/instance_manager/instance/instance_service.py:47-54 | `InstanceNotFound(id)` when no row has the id, otherwise `True` and the row overwritten |
| InstanceService.DeleteInstance | src/instance_manager/instance/instance_service.py:56-64 | `InstanceNotFound(id)` when no row has the id, otherwise `True` and the row gone |
| InstanceService.CreateThenGet | tests/instance_service_test.py:59-96 | after a successful create, getting the returned id yields the instance |
| InstanceService.UpdateThenGet | tests/instance_service_test.py:104-120 | after updating an existing instance, getting it yields exactly the new value |
| InstanceService.DeleteThenGet | tests/instance_service_test.py:155-165 | after a delete, getting or deleting the id raises `InstanceNotFound` |
| InstanceService.BackdatedUpdateRejected | tests/instance_service_test.py:134-152 | an instance updated before it was created is rejected and the table is left unchanged |
| Messages.ParseAction | src/rabbitmq/rabbitmq_handler.py:134 | exactly the four member names are actions |
| Messages.ActionNameRoundTrip | src/rabbitmq/rabbitmq_handler.py:134 | the action lookup and the member name are inverse |
| Messages.Decode | src/rabbitmq/rabbitmq_handler.py:130-137 | a body decodes exactly when it is JSON with a known action and a device id; the action, id and optional URL come from those fields |
| Messages.DecodeEncode | src/rabbitmq/rabbitmq_handler.py:130-137 | every control message survives encoding and decoding |
| Messages.EncodeDecode | src/rabbitmq/rabbitmq_handler.py:130-137 | a decodable body loses nothing but keys the decoder ignores |
| RabbitHandler.SuccessAck | src/rabbitmq/rabbitmq_handler.py:145-158 | a REMOVE is acknowledged by a delete ack on the delete queue, any other action by code 2000 with the action as state and "OK" |
| RabbitHandler.FailureAck | src/rabbitmq/rabbitmq_handler.py:162-170 | the failure ack goes to the status queue with code 4000, the device id, the raw action as state and the exception's text |
| RabbitHandler.ProcessMessage | src/rabbitmq/rabbitmq_handler.py:120-171 | an undecodable body publishes nothing; otherwise an exception escapes exactly when the last send made raises, and one ack is published exactly when none escapes; acks carry the device id and echo the action; a successful REMOVE publishes its delete ack and any other successful action a 2000 ack with "OK"; a 4000 ack carries the text of the handler's or the success publish's exception; delete acks only follow a successful REMOVE |
| RabbitHandler.RemoveSuccess | src/rabbitmq/rabbitmq_handler.py:142-160 | for any body that decodes to a REMOVE, a successful handling publishes exactly one delete ack for its device, to the delete queue, and nothing escapes |
| RabbitHandler.EncodedRemoveSuccess | src/rabbitmq/rabbitmq_handler.py:142-160 | in particular an encoded REMOVE message is acknowledged on the delete queue |
| RabbitHandler.OtherSuccess | src/rabbitmq/rabbitmq_handler.py:151-160 | for any body that decodes to another action, a successful handling publishes one code-2000 status ack with the action as state |
| RabbitHandler.HandlerFailure | src/rabbitmq/rabbitmq_handler.py:162-170 | for any decodable body, a handler exception publishes one code-4000 status ack with its message, whatever the action |
| RabbitHandler.SuccessPublishFailure | src/rabbitmq/rabbitmq_handler.py:145-170 | for any decodable body, an exception from the success publish is itself reported as a code-4000 status ack |
| RabbitHandler.DeleteQueueOnlyOnSuccess | src/rabbitmq/rabbitmq_handler.py:145-170 | only a successful REMOVE reaches the delete queue |
| RabbitHandler.BrokerUrlRoundTrip | src/rabbitmq/rabbitmq_handler.py:23-31 | the broker URL gives user, password, host and port back when user and host hold no `:` and the password no `@` |
| RabbitHandler.BrokerUrl | src/rabbitmq/rabbitmq_handler.py:31 | the URL starts with `amqp://`, ends with `/`, and adds exactly the eleven separator characters to the four parts |
| RabbitHandler.FirstMissing | src/rabbitmq/rabbitmq_handler.py:23-29 | reading keys in order stops at the first key the mapping lacks; none is missing exactly when every key is present |
| RabbitHandler.ReadSettings | src/rabbitmq/rabbitmq_handler.py:23-31 | the settings are read when all seven keys are present, with the URL built from them; otherwise the first missing key is reported |

## Left out

- Concurrency and timing: the worker pools, `run_in_executor`, and the
  real 60-second `asyncio.wait_for` clock. The deadline is the abstract
  event budget `inTime`. The scan thread that keeps running after a
  timeout is not modelled.
- The `tail=5` window of the log stream. The stream is the finite
  sequence of decoded lines it delivers. Lines are strings, so the byte
  test `b"[ERROR" in line` is taken on the decoded line.
- Docker SDK details: restart policy, host network and IPC mode,
  entrypoint and environment of `containers.run`. A modelled container
  records only its image, status, command and device requests.
- Engine errors other than an unreachable engine and a name conflict on
  `run`. The modelled engine accepts every state change, such as pausing
  an exited container. An unreachable engine is only observed at the
  first call of an operation.
- Broker plumbing: connection and channel pools, the consume loop, QoS,
  fire-and-forget task spawning, and when the delivery is acknowledged.
  The exchange and queue declarations of `send_message` are left out, and
  so is all of `src/rabbitmq/rabbitmq_client.py`, which is I/O plus a
  queue-name prefix.
- UTF-8 and JSON decoding. A body is either undecodable or a map of
  string fields, so JSON values that are not strings are not modelled.
- The dispatch from action to instance-management call. That module is
  not part of this model, so the handler is an abstract outcome: it
  returns, or it raises with a message.
- The members of the `Action` and `ProcessingMode` enumerations are
  defined in modules that are not part of this model. The model uses
  CREATE, REMOVE, PAUSE and RESUME, and CPU and GPU.
- The text of the controller's exceptions. An exception's message is
  whatever string the handler or the broker supplies.
- Database machinery: SQL text, cursors, and the commit or rollback of
  `transaction()`. `InstanceService.CreateInstance` returns the table as
  the insert leaves it, even when the container then fails to start,
  because whether the transaction rolls back is not known.
- InstanceDao.UpdateInstance: the source runs the `UPDATE` a second time,
  passing a dictionary to positional placeholders. It is modelled as the
  single overwrite the first execution performs. What the driver does with
  the second execution is not modelled.
- InstanceDao.GetInstance: requires the table to satisfy its check
  constraints, so that every stored status name reads back. The schema
  guarantees this for any table the database holds.
- The `Instance` class and its timestamp check are not part of this
  model. `Instances.NewInstance` models the rejection the tests expect.
  The database's own check constraint is modelled in the data-access
  object.
- Logging throughout.
