/** The container lifecycle controller. The container engine is abstract
    state: whether it answers at all, and a map from container name to the
    container it runs. Every operation returns the engine afterwards, the
    engine calls it issued in order, and its result or the error it raises. */
module DockerApi {
  import opened Outcomes
  import opened Goals

  datatype ProcessingMode = CPU | GPU

  /** An engine device request; a `count` of -1 asks for every device. */
  datatype DeviceRequest = DeviceRequest(count: int, capabilities: seq<seq<string>>)

  const ExitedStatus := "exited"
  const RunningStatus := "running"
  const PausedStatus := "paused"

  /** Grace period, in seconds, of `stop_container` and `remove_container`. */
  const DefaultTimeout := 5

  datatype Container = Container(
    image: string,
    status: string,
    command: seq<string>,
    deviceRequests: seq<DeviceRequest>)

  datatype Engine = Engine(up: bool, containers: map<string, Container>)

  /** An engine call on one container handle. `FollowLogs(toEnd)` follows
      the log stream; `toEnd` says it was read until the stream closed,
      which the engine does only once the container has exited. */
  datatype Op = Stop(timeout: int) | Wait | Remove(force: bool) | Start | Pause | Unpause | FollowLogs(toEnd: bool)

  /** An engine call, as the controller issues it. */
  datatype Call =
    | Ping
    | Get(name: string)
    | Run(name: string, image: string, command: seq<string>, deviceRequests: seq<DeviceRequest>)
    | On(name: string, op: Op)

  /** The errors the controller raises. */
  datatype Failure =
    | EngineUnavailable
    | ContainerNotFound(name: string)
    | NameConflict(name: string)
    | ContainerExitedError(name: string, detail: string)
    | ContainerGoalTimeout(name: string)
    | ErrorLineUnsplittable(line: string)

  datatype Effect<T> = Effect(engine: Engine, calls: seq<Call>, result: Result<T, Failure>)

  /* ---------------------------------------------------------------------
     The engine's own semantics: what each call does to its state.
     --------------------------------------------------------------------- */

  function SetStatus(e: Engine, name: string, status: string): Engine
    requires name in e.containers
  {
    e.(containers := e.containers[name := e.containers[name].(status := status)])
  }

  function Apply(e: Engine, name: string, op: Op): Engine {
    if name !in e.containers then e
    else match op
      case Stop(_) => SetStatus(e, name, ExitedStatus)
      case Wait => SetStatus(e, name, ExitedStatus)
      case Remove(_) => e.(containers := e.containers - {name})
      case Start => SetStatus(e, name, RunningStatus)
      case Pause => SetStatus(e, name, PausedStatus)
      case Unpause => SetStatus(e, name, RunningStatus)
      case FollowLogs(toEnd) => if toEnd then SetStatus(e, name, ExitedStatus) else e
  }

  function Launch(e: Engine, name: string, image: string, command: seq<string>, devices: seq<DeviceRequest>): Engine {
    e.(containers := e.containers[name := Container(image, RunningStatus, command, devices)])
  }

  function Step(e: Engine, call: Call): Engine {
    match call
    case Ping => e
    case Get(_) => e
    case Run(name, image, command, devices) =>
      if e.up && name !in e.containers then Launch(e, name, image, command, devices) else e
    case On(name, op) => Apply(e, name, op)
  }

  /** The engine after it has served `calls` in order. */
  function Replay(e: Engine, calls: seq<Call>): Engine
    decreases |calls|
  {
    if |calls| == 0 then e else Replay(Step(e, calls[0]), calls[1..])
  }

  lemma {:induction false} ReplayAppend(e: Engine, a: seq<Call>, b: seq<Call>)
    ensures Replay(e, a + b) == Replay(Replay(e, a), b)
    decreases |a|
  {
    if |a| == 0 {
      assert a + b == b;
    } else {
      assert (a + b)[0] == a[0];
      assert (a + b)[1..] == a[1..] + b;
      ReplayAppend(Step(e, a[0]), a[1..], b);
    }
  }

  lemma ReplayTwo(e: Engine, a: Call, b: Call)
    ensures Replay(e, [a, b]) == Step(Step(e, a), b)
  {
    var e1 := Step(e, a);
    assert [a, b][1..] == [b];
    assert Replay(e, [a, b]) == Replay(e1, [b]);
    assert [b][1..] == [];
    assert Replay(e1, [b]) == Replay(Step(e1, b), []);
  }

  /** The operation's reported engine state is the one its call trace produces. */
  ghost predicate Traced<T>(e: Engine, r: Effect<T>) {
    r.engine == Replay(e, r.calls)
  }

  /** The calls `ops` issued on the container `name`. */
  function Targeted(name: string, ops: seq<Op>): (calls: seq<Call>)
    ensures |calls| == |ops|
    ensures forall k :: 0 <= k < |ops| ==> calls[k] == On(name, ops[k])
  {
    if |ops| == 0 then [] else [On(name, ops[0])] + Targeted(name, ops[1..])
  }

  /** Every public operation on an existing container looks its name up
      first; a failed lookup ends it with no other engine call, the engine
      untouched, and the engine's `NotFound` reported as `ContainerNotFound`. */
  ghost predicate ResolvesFirst<T>(e: Engine, name: string, r: Effect<T>) {
    && |r.calls| >= 1 && r.calls[0] == Get(name)
    && (!e.up ==> r == Effect(e, [Get(name)], Err(EngineUnavailable)))
    && (e.up && name !in e.containers ==> r == Effect(e, [Get(name)], Err(ContainerNotFound(name))))
  }

  /* ---------------------------------------------------------------------
     Controller configuration.
     --------------------------------------------------------------------- */

  /** The device requests chosen once when the controller is built. */
  function DeviceRequests(mode: ProcessingMode): (reqs: seq<DeviceRequest>)
    ensures mode == CPU <==> |reqs| == 0
    ensures mode == GPU ==> reqs == [DeviceRequest(-1, [["gpu"]])]
  {
    match mode
    case CPU => []
    case GPU => [DeviceRequest(-1, [["gpu"]])]
  }

  /** The command arguments of a new container: the device selection, then
      the caller's extra arguments in their order. */
  function CommandArgs(mode: ProcessingMode, extra: seq<string>): (args: seq<string>)
    ensures |args| == |extra| + 2
    ensures args[..2] == ["--device", if mode == CPU then "cpu" else "0"]
    ensures args[2..] == extra
  {
    (if mode == CPU then ["--device", "cpu"] else ["--device", "0"]) + extra
  }

  /* ---------------------------------------------------------------------
     Public operations.
     --------------------------------------------------------------------- */

  function CheckHealth(e: Engine): (r: Effect<()>)
    ensures r.engine == e && r.calls == [Ping]
    ensures r.result.Ok? <==> e.up
    ensures r.result.Err? ==> r.result.error == EngineUnavailable
  {
    Effect(e, [Ping], if e.up then Ok(()) else Err(EngineUnavailable))
  }

  function GetContainer(e: Engine, name: string): (r: Effect<Container>)
    ensures r.engine == e && r.calls == [Get(name)]
    ensures ResolvesFirst(e, name, r)
    ensures r.result.Ok? <==> e.up && name in e.containers
    ensures r.result.Ok? ==> r.result.value == e.containers[name]
  {
    Effect(e, [Get(name)],
      if !e.up then Err(EngineUnavailable)
      else if name !in e.containers then Err(ContainerNotFound(name))
      else Ok(e.containers[name]))
  }

  /** Resolve the name, then issue `op` on the container. */
  function Resolved(e: Engine, name: string, op: Op): (r: Effect<()>)
    ensures Traced(e, r) && ResolvesFirst(e, name, r)
    ensures r.result.Ok? <==> e.up && name in e.containers
    ensures r.result.Ok? ==> r.calls == [Get(name), On(name, op)] && r.engine == Apply(e, name, op)
  {
    var g := GetContainer(e, name);
    if g.result.Err? then Effect(e, g.calls, Err(g.result.error))
    else
      ReplayTwo(e, Get(name), On(name, op));
      Effect(Apply(e, name, op), [Get(name), On(name, op)], Ok(()))
  }

  function StopContainer(e: Engine, name: string, timeout: int): (r: Effect<()>)
    ensures Traced(e, r) && ResolvesFirst(e, name, r)
    ensures r.result.Ok? <==> e.up && name in e.containers
    ensures r.result.Ok? ==>
      && r.calls[1..] == [On(name, Stop(timeout))]
      && r.engine.containers.Keys == e.containers.Keys
      && r.engine.containers[name].status == ExitedStatus
  {
    Resolved(e, name, Stop(timeout))
  }

  function PauseContainer(e: Engine, name: string): (r: Effect<()>)
    ensures Traced(e, r) && ResolvesFirst(e, name, r)
    ensures r.result.Ok? <==> e.up && name in e.containers
    ensures r.result.Ok? ==>
      && r.calls[1..] == [On(name, Pause)]
      && r.engine.containers.Keys == e.containers.Keys
      && r.engine.containers[name].status == PausedStatus
  {
    Resolved(e, name, Pause)
  }

  function UnpauseContainer(e: Engine, name: string): (r: Effect<()>)
    ensures Traced(e, r) && ResolvesFirst(e, name, r)
    ensures r.result.Ok? <==> e.up && name in e.containers
    ensures r.result.Ok? ==>
      && r.calls[1..] == [On(name, Unpause)]
      && r.engine.containers.Keys == e.containers.Keys
      && r.engine.containers[name].status == RunningStatus
  {
    Resolved(e, name, Unpause)
  }

  /** The engine calls `remove_container` makes on a resolved container. */
  function RemovalPlan(status: string, force: bool, timeout: int): (ops: seq<Op>)
    ensures Stop(timeout) in ops <==> status != ExitedStatus
    ensures status != ExitedStatus ==> ops[0] == Stop(timeout)
    ensures |ops| >= 1 && ops[|ops| - 1] == Remove(force)
    ensures forall k :: 0 <= k < |ops| - 1 ==> !ops[k].Remove?
    ensures Wait in ops <==> !force
    ensures !force ==> |ops| >= 2 && ops[|ops| - 2] == Wait
    ensures forall k :: 0 <= k < |ops| ==> ops[k].Stop? || ops[k].Wait? || ops[k].Remove?
    ensures |ops| == (if status != ExitedStatus then 1 else 0) + (if force then 1 else 2)
  {
    (if status != ExitedStatus then [Stop(timeout)] else [])
      + (if force then [Remove(true)] else [Wait, Remove(false)])
  }

  /** Stopping and waiting keep a container; the final remove drops it. */
  lemma {:induction false} ReplayRemovalPlan(e: Engine, name: string, ops: seq<Op>)
    requires name in e.containers
    requires |ops| >= 1 && ops[|ops| - 1].Remove?
    requires forall k :: 0 <= k < |ops| - 1 ==> ops[k].Stop? || ops[k].Wait?
    ensures Replay(e, Targeted(name, ops)).containers == e.containers - {name}
    ensures Replay(e, Targeted(name, ops)).up == e.up
    decreases |ops|
  {
    var calls := Targeted(name, ops);
    var e1 := Step(e, calls[0]);
    assert calls[1..] == Targeted(name, ops[1..]);
    assert Replay(e, calls) == Replay(e1, calls[1..]);
    if |ops| == 1 {
      assert e1.containers == e.containers - {name};
    } else {
      assert e1 == SetStatus(e, name, ExitedStatus);
      ReplayRemovalPlan(e1, name, ops[1..]);
      assert e1.containers - {name} == e.containers - {name};
    }
  }

  function RemoveContainer(e: Engine, name: string, force: bool, timeout: int): (r: Effect<()>)
    ensures Traced(e, r) && ResolvesFirst(e, name, r)
    ensures r.result.Ok? <==> e.up && name in e.containers
    ensures r.result.Ok? ==>
      && r.calls == [Get(name)] + Targeted(name, RemovalPlan(e.containers[name].status, force, timeout))
      && r.engine == e.(containers := e.containers - {name})
  {
    var g := GetContainer(e, name);
    if g.result.Err? then Effect(e, g.calls, Err(g.result.error))
    else
      var ops := RemovalPlan(g.result.value.status, force, timeout);
      var calls := [Get(name)] + Targeted(name, ops);
      ReplayRemovalPlan(e, name, ops);
      assert calls[1..] == Targeted(name, ops);
      Effect(e.(containers := e.containers - {name}), calls, Ok(()))
  }

  /** The goal wait: follow the logs; on success return, on a failure
      outcome or a timeout force-remove the container and raise, and let an
      exception of the scan itself escape untouched. `ended` says the wait
      read the stream to its close, which happens only when the scan found
      no marker line. */
  function WaitGoals(e: Engine, name: string, w: Watch, ended: bool): (r: Effect<()>)
    requires ended ==> w == Finished(Concluded(GoalOutcome(false, NotReachedDetail)))
    ensures Traced(e, r)
    ensures |r.calls| >= 1 && r.calls[0] == On(name, FollowLogs(ended))
    ensures r.result.Ok? <==> w.Finished? && w.result.Concluded? && w.result.outcome.reached
    ensures r.result.Ok? ==> r.engine == e && r.calls == [On(name, FollowLogs(false))]
    ensures w.Finished? && w.result.Crashed? ==>
      r == Effect(e, [On(name, FollowLogs(false))], Err(ErrorLineUnsplittable(w.result.line)))
    ensures ((w.TimedOut? || (w.Finished? && w.result.Concluded? && !w.result.outcome.reached))
      && e.up && name in e.containers) ==>
        && r.engine == e.(containers := e.containers - {name})
        && r.calls == [On(name, FollowLogs(ended))] + RemoveContainer(Apply(e, name, FollowLogs(ended)), name, true, DefaultTimeout).calls
        && r.result == Err(if w.TimedOut? then ContainerGoalTimeout(name)
                           else ContainerExitedError(name, w.result.outcome.detail))
  {
    match w
    case Finished(Crashed(line)) => Effect(e, [On(name, FollowLogs(false))], Err(ErrorLineUnsplittable(line)))
    case Finished(Concluded(o)) =>
      if o.reached then Effect(e, [On(name, FollowLogs(false))], Ok(()))
      else CleanUp(e, name, ended, ContainerExitedError(name, o.detail))
    case TimedOut => CleanUp(e, name, ended, ContainerGoalTimeout(name))
  }

  /** Force-remove after following the logs, then raise `failure`; if the
      removal itself raises, that error escapes instead. The removal looks
      the container up again, so a container whose stream has ended is
      seen as exited and is not stopped first. */
  function CleanUp(e: Engine, name: string, ended: bool, failure: Failure): (r: Effect<()>)
    requires !failure.EngineUnavailable? && !failure.ContainerNotFound?
    ensures Traced(e, r) && r.result.Err?
    ensures r.calls == [On(name, FollowLogs(ended))] + RemoveContainer(Apply(e, name, FollowLogs(ended)), name, true, DefaultTimeout).calls
    ensures r.result == Err(failure) <==> e.up && name in e.containers
    ensures e.up && name in e.containers ==>
      && r.engine == e.(containers := e.containers - {name})
      && r.calls[1..] == [Get(name)]
           + (if ended || e.containers[name].status == ExitedStatus then [] else [On(name, Stop(DefaultTimeout))])
           + [On(name, Remove(true))]
  {
    var follow := [On(name, FollowLogs(ended))];
    var f := Apply(e, name, FollowLogs(ended));
    assert Replay(e, follow) == f by {
      assert follow[1..] == [];
    }
    var rm := RemoveContainer(f, name, true, DefaultTimeout);
    ReplayAppend(e, follow, rm.calls);
    if e.up && name in e.containers then
      RemovalCalls(f, name);
      assert (follow + rm.calls)[1..] == rm.calls;
      assert f.containers - {name} == e.containers - {name};
      Effect(rm.engine, follow + rm.calls, Err(failure))
    else
      Effect(rm.engine, follow + rm.calls, Err(rm.result.error))
  }

  /** The calls of a forced removal: look up, stop unless exited, remove. */
  lemma RemovalCalls(e: Engine, name: string)
    requires e.up && name in e.containers
    ensures RemoveContainer(e, name, true, DefaultTimeout).calls
      == [Get(name)]
         + (if e.containers[name].status == ExitedStatus then [] else [On(name, Stop(DefaultTimeout))])
         + [On(name, Remove(true))]
  {
    var ops := RemovalPlan(e.containers[name].status, true, DefaultTimeout);
    var t := Targeted(name, ops);
    assert RemoveContainer(e, name, true, DefaultTimeout).calls == [Get(name)] + t;
    if e.containers[name].status == ExitedStatus {
      assert ops == [Remove(true)];
      assert |t| == 1 && t[0] == On(name, Remove(true));
      assert t == [On(name, Remove(true))];
    } else {
      assert ops == [Stop(DefaultTimeout), Remove(true)];
      assert |t| == 2 && t[0] == On(name, Stop(DefaultTimeout)) && t[1] == On(name, Remove(true));
      assert t == [On(name, Stop(DefaultTimeout)), On(name, Remove(true))];
    }
  }

  /** The run call on an engine that accepts it, followed by the goal wait. */
  function LaunchThenWait(
    e: Engine, name: string, image: string, command: seq<string>, devices: seq<DeviceRequest>,
    logs: seq<string>, inTime: nat): (r: Effect<()>)
    requires e.up && name !in e.containers
    ensures Traced(e, r)
    ensures |r.calls| >= 1 && r.calls[0] == Run(name, image, command, devices)
    ensures r.result.Ok? <==> WatchLogs(logs, inTime) == Finished(Concluded(GoalOutcome(true, "")))
    ensures r.result.Ok? ==> r.engine == Launch(e, name, image, command, devices)
    ensures r.result.Err? && (r.result.error.ContainerExitedError? || r.result.error.ContainerGoalTimeout?) ==>
      r.engine == e && r.result.error.name == name
    ensures forall d :: r.result == Err(ContainerExitedError(name, d)) <==>
      WatchLogs(logs, inTime) == Finished(Concluded(GoalOutcome(false, d)))
    ensures r.result == Err(ContainerGoalTimeout(name)) <==> WatchLogs(logs, inTime) == TimedOut
    ensures forall line :: r.result == Err(ErrorLineUnsplittable(line)) <==> WatchLogs(logs, inTime) == Finished(Crashed(line))
    ensures r.result.Err? && r.result.error.ErrorLineUnsplittable? ==> r.engine == Launch(e, name, image, command, devices)
  {
    var w := WatchLogs(logs, inTime);
    var ended := StreamEnded(logs, inTime);
    var g := WaitGoals(Launch(e, name, image, command, devices), name, w, ended);
    WaitAfterLaunch(e, name, image, command, devices, w, ended);
    Effect(g.engine, [Run(name, image, command, devices)] + g.calls, g.result)
  }

  /** Following a freshly launched container's logs: the run call and the
      wait replay to the reported engine, and a failed wait leaves the
      engine as it was before the run. */
  lemma WaitAfterLaunch(
    e: Engine, name: string, image: string, command: seq<string>, devices: seq<DeviceRequest>, w: Watch, ended: bool)
    requires e.up && name !in e.containers
    requires ended ==> w == Finished(Concluded(GoalOutcome(false, NotReachedDetail)))
    ensures var g := WaitGoals(Launch(e, name, image, command, devices), name, w, ended);
      && Replay(e, [Run(name, image, command, devices)] + g.calls) == g.engine
      && (g.result.Ok? ==> g.engine == Launch(e, name, image, command, devices))
      && ((w.TimedOut? || (w.Finished? && w.result.Concluded? && !w.result.outcome.reached)) ==> g.engine == e)
      && (w.Finished? && w.result.Crashed? ==> g.engine == Launch(e, name, image, command, devices))
  {
    var run := Run(name, image, command, devices);
    var started := Launch(e, name, image, command, devices);
    var g := WaitGoals(started, name, w, ended);
    ReplayAfterRun(e, name, image, command, devices, g.calls);
    if w.TimedOut? || (w.Finished? && w.result.Concluded? && !w.result.outcome.reached) {
      LaunchThenRemove(e, name, image, command, devices);
    }
  }

  /** Replaying a successful run call and then `calls` is replaying `calls`
      on the launched engine. */
  lemma ReplayAfterRun(
    e: Engine, name: string, image: string, command: seq<string>, devices: seq<DeviceRequest>, calls: seq<Call>)
    requires e.up && name !in e.containers
    ensures Replay(e, [Run(name, image, command, devices)] + calls) == Replay(Launch(e, name, image, command, devices), calls)
  {
    var all := [Run(name, image, command, devices)] + calls;
    assert all[1..] == calls;
  }

  /** Removing a freshly launched container restores the engine. */
  lemma LaunchThenRemove(
    e: Engine, name: string, image: string, command: seq<string>, devices: seq<DeviceRequest>)
    requires name !in e.containers
    ensures var started := Launch(e, name, image, command, devices);
      started.(containers := started.containers - {name}) == e
  {
    var started := Launch(e, name, image, command, devices);
    assert started.containers - {name} == e.containers;
  }

  /** Create and start a container from the processor image, then wait for
      its goal. */
  function RunContainer(
    e: Engine, image: string, mode: ProcessingMode, name: string, extra: seq<string>,
    logs: seq<string>, inTime: nat): (r: Effect<()>)
    ensures Traced(e, r)
    ensures |r.calls| >= 1 && r.calls[0] == Run(name, image, CommandArgs(mode, extra), DeviceRequests(mode))
    ensures !e.up ==> r == Effect(e, r.calls[..1], Err(EngineUnavailable))
    ensures e.up && name in e.containers ==> r == Effect(e, r.calls[..1], Err(NameConflict(name)))
    ensures r.result.Ok? <==> e.up && name !in e.containers && WatchLogs(logs, inTime) == Finished(Concluded(GoalOutcome(true, "")))
    ensures r.result.Ok? ==> r.engine == Launch(e, name, image, CommandArgs(mode, extra), DeviceRequests(mode))
    ensures r.result.Err? && (r.result.error.ContainerExitedError? || r.result.error.ContainerGoalTimeout?) ==>
      r.engine == e && r.result.error.name == name
    ensures forall d :: r.result == Err(ContainerExitedError(name, d)) <==>
      e.up && name !in e.containers && WatchLogs(logs, inTime) == Finished(Concluded(GoalOutcome(false, d)))
    ensures r.result == Err(ContainerGoalTimeout(name)) <==>
      e.up && name !in e.containers && WatchLogs(logs, inTime) == TimedOut
    ensures forall line :: r.result == Err(ErrorLineUnsplittable(line)) <==>
      e.up && name !in e.containers && WatchLogs(logs, inTime) == Finished(Crashed(line))
    ensures r.result.Err? && r.result.error.ErrorLineUnsplittable? ==>
      r.engine == Launch(e, name, image, CommandArgs(mode, extra), DeviceRequests(mode))
  {
    var command := CommandArgs(mode, extra);
    var devices := DeviceRequests(mode);
    if !e.up || name in e.containers then
      Effect(e, [Run(name, image, command, devices)], Err(if !e.up then EngineUnavailable else NameConflict(name)))
    else
      LaunchThenWait(e, name, image, command, devices, logs, inTime)
  }

  /** Start an existing container, then wait for its goal; a failure or a
      timeout removes it. */
  function StartContainer(e: Engine, name: string, logs: seq<string>, inTime: nat): (r: Effect<()>)
    ensures Traced(e, r) && ResolvesFirst(e, name, r)
    ensures e.up && name in e.containers ==> |r.calls| >= 2 && r.calls[..2] == [Get(name), On(name, Start)]
    ensures r.result.Ok? <==> e.up && name in e.containers && WatchLogs(logs, inTime) == Finished(Concluded(GoalOutcome(true, "")))
    ensures r.result.Ok? ==> r.engine == SetStatus(e, name, RunningStatus)
    ensures forall d :: r.result == Err(ContainerExitedError(name, d)) <==>
      e.up && name in e.containers && WatchLogs(logs, inTime) == Finished(Concluded(GoalOutcome(false, d)))
    ensures r.result == Err(ContainerGoalTimeout(name)) <==>
      e.up && name in e.containers && WatchLogs(logs, inTime) == TimedOut
    ensures r.result.Err? && (r.result.error.ContainerExitedError? || r.result.error.ContainerGoalTimeout?) ==>
      r.engine == e.(containers := e.containers - {name}) && r.result.error.name == name
    ensures forall line :: r.result == Err(ErrorLineUnsplittable(line)) <==>
      e.up && name in e.containers && WatchLogs(logs, inTime) == Finished(Crashed(line))
    ensures r.result.Err? && r.result.error.ErrorLineUnsplittable? ==> r.engine == SetStatus(e, name, RunningStatus)
  {
    var s := Resolved(e, name, Start);
    if s.result.Err? then s
    else
      var started := s.engine;
      var w := WatchLogs(logs, inTime);
      var ended := StreamEnded(logs, inTime);
      assert started == SetStatus(e, name, RunningStatus);
      assert started.up && name in started.containers;
      assert started.(containers := started.containers - {name}) == e.(containers := e.containers - {name});
      var g := WaitGoals(started, name, w, ended);
      ReplayAppend(e, s.calls, g.calls);
      assert (s.calls + g.calls)[..2] == s.calls;
      Effect(g.engine, s.calls + g.calls, g.result)
  }

  /** A worker that logs the success marker in time is left running. */
  lemma RunReachesGoal(e: Engine, image: string, mode: ProcessingMode, name: string, extra: seq<string>, inTime: nat)
    requires e.up && name !in e.containers && inTime >= 1
    ensures var r := RunContainer(e, image, mode, name, extra, ["[SUCCESS 4] ready"], inTime);
      && r.result.Ok?
      && name in r.engine.containers
      && r.engine.containers[name].status == RunningStatus
  {
    SuccessLineScan();
  }

  /** A worker that logs an error line is removed and reported with the
      line's detail. */
  lemma RunHitsError(e: Engine, image: string, mode: ProcessingMode, name: string, extra: seq<string>, inTime: nat)
    requires e.up && name !in e.containers && inTime >= 1
    ensures var r := RunContainer(e, image, mode, name, extra, ["[ERROR] bad weights"], inTime);
      && r.result == Err(ContainerExitedError(name, " bad weights"))
      && r.engine == e
  {
    ErrorLineScan();
  }

  /** A worker that shows no marker before the deadline is removed and
      reported as timed out. */
  lemma RunTimesOut(e: Engine, image: string, mode: ProcessingMode, name: string, extra: seq<string>, logs: seq<string>, inTime: nat)
    requires e.up && name !in e.containers
    requires Unmarked(logs) && inTime <= |logs|
    ensures var r := RunContainer(e, image, mode, name, extra, logs, inTime);
      && r.result == Err(ContainerGoalTimeout(name))
      && r.engine == e
  {
  }

  /** A worker whose log stream closes with no marker line has exited: it
      is reported as not reaching its goal and force-removed without a stop. */
  lemma RunEndsWithoutGoal(e: Engine, image: string, mode: ProcessingMode, name: string, extra: seq<string>, logs: seq<string>, inTime: nat)
    requires e.up && name !in e.containers
    requires Unmarked(logs) && inTime > |logs|
    ensures var r := RunContainer(e, image, mode, name, extra, logs, inTime);
      && r.result == Err(ContainerExitedError(name, NotReachedDetail))
      && r.engine == e
      && r.calls == [Run(name, image, CommandArgs(mode, extra), DeviceRequests(mode)),
                     On(name, FollowLogs(true)), Get(name), On(name, Remove(true))]
  {
    var started := Launch(e, name, image, CommandArgs(mode, extra), DeviceRequests(mode));
    assert StreamEnded(logs, inTime);
    var c := CleanUp(started, name, true, ContainerExitedError(name, NotReachedDetail));
    assert c.calls == [c.calls[0]] + c.calls[1..];
  }

  /** A worker whose first marker line is an error line without `]` makes
      the wait raise before any cleanup: the new container keeps running. */
  lemma RunCrashLeavesRunning(
    e: Engine, image: string, mode: ProcessingMode, name: string, extra: seq<string>,
    logs: seq<string>, i: int, inTime: nat)
    requires e.up && name !in e.containers
    requires FirstMarkerAt(logs, i) && HasError(logs[i]) && ']' !in logs[i] && i < inTime
    ensures var r := RunContainer(e, image, mode, name, extra, logs, inTime);
      && r.result == Err(ErrorLineUnsplittable(logs[i]))
      && name in r.engine.containers
      && r.engine.containers[name].status == RunningStatus
  {
    ScanAtFirstMarker(logs, i);
    EventsAtFirstMarker(logs, i);
  }

  /** Removing an exited container without force skips the stop, waits, and
      removes it. */
  lemma RemoveExitedWithoutForce(e: Engine, name: string)
    requires e.up && name in e.containers && e.containers[name].status == ExitedStatus
    ensures var r := RemoveContainer(e, name, false, DefaultTimeout);
      && r.calls == [Get(name), On(name, Wait), On(name, Remove(false))]
      && name !in r.engine.containers
  {
    assert Targeted(name, [Wait, Remove(false)]) == [On(name, Wait), On(name, Remove(false))];
  }
}
