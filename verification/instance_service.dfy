/** Instance management: the store operations as the rest of the system
    sees them, with a missing instance reported as `InstanceNotFound`, and
    creation coupled to starting the instance's container. */
module InstanceService {
  import opened Outcomes
  import opened Instances
  import opened InstanceDao
  import DockerApi

  datatype ServiceError =
    | InstanceNotFound(id: string)
    | Database(cause: DbError)
    | Docker(failure: DockerApi.Failure)

  /** What the container runtime needs to start an instance's worker: the
      controller's fixed image and mode, and the abstract log stream and
      deadline the goal wait observes. */
  datatype Runtime = Runtime(
    engine: DockerApi.Engine,
    image: string,
    mode: DockerApi.ProcessingMode,
    logs: seq<string>,
    inTime: nat)

  /** The outcome of `create_instance`: the table after the insert, the
      engine after the container start, and the id or the raised error. */
  datatype Creation = Creation(table: Table, engine: DockerApi.Engine, result: Result<string, ServiceError>)

  function GetInstance(t: Table, id: string): (r: Result<Instance, ServiceError>)
    requires WellFormed(t)
    ensures r.Err? <==> id !in t
    ensures r.Err? ==> r.error == InstanceNotFound(id)
    ensures r.Ok? ==> r.value.id == id && RowOf(r.value) == t[id]
  {
    match InstanceDao.GetInstance(t, id)
    case None => Err(InstanceNotFound(id))
    case Some(i) => Ok(i)
  }

  /** Insert the row, then run the instance's container with the stream
      as its source; the id comes from the insert. */
  function CreateInstance(t: Table, rt: Runtime, i: Instance, streamUrl: string): (r: Creation)
    ensures InstanceDao.CreateInstance(t, i).Err? ==>
      r == Creation(t, rt.engine, Err(Database(InstanceDao.CreateInstance(t, i).error)))
    ensures InstanceDao.CreateInstance(t, i).Ok? ==> r.table == t[i.id := RowOf(i)]
    ensures r.result.Ok? ==> r.result.value == i.id
    ensures r.result.Ok? <==>
      && InstanceDao.CreateInstance(t, i).Ok?
      && DockerApi.RunContainer(rt.engine, rt.image, rt.mode, i.id, ["--source", streamUrl], rt.logs, rt.inTime).result.Ok?
    ensures r.result.Ok? ==>
      && i.id in r.engine.containers
      && r.engine.containers[i.id].command == DockerApi.CommandArgs(rt.mode, ["--source", streamUrl])
    ensures var run := DockerApi.RunContainer(rt.engine, rt.image, rt.mode, i.id, ["--source", streamUrl], rt.logs, rt.inTime);
      InstanceDao.CreateInstance(t, i).Ok? ==>
        && r.engine == run.engine
        && (run.result.Err? ==> r.result == Err(Docker(run.result.error)))
  {
    match InstanceDao.CreateInstance(t, i)
    case Err(e) => Creation(t, rt.engine, Err(Database(e)))
    case Ok((t', id)) =>
      var run := DockerApi.RunContainer(rt.engine, rt.image, rt.mode, i.id, ["--source", streamUrl], rt.logs, rt.inTime);
      Creation(t', run.engine, if run.result.Ok? then Ok(id) else Err(Docker(run.result.error)))
  }

  /** Overwrite the instance's row; `InstanceNotFound` when no row has its id. */
  function UpdateInstance(t: Table, i: Instance): (r: (Table, Result<bool, ServiceError>))
    ensures i.id !in t ==> r == (t, Err(InstanceNotFound(i.id)))
    ensures i.id in t && !TimestampsOrdered(i) ==> r == (t, Err(Database(CheckViolation(i.id))))
    ensures r.1.Ok? <==> i.id in t && TimestampsOrdered(i)
    ensures r.1.Ok? ==> r.1.value && r.0 == t[i.id := RowOf(i)]
  {
    match InstanceDao.UpdateInstance(t, i)
    case Err(e) => (t, Err(Database(e)))
    case Ok((t', rows)) =>
      if rows == 0 then (t', Err(InstanceNotFound(i.id))) else (t', Ok(rows == 1))
  }

  /** Delete the instance's row; `InstanceNotFound` when no row has the id. */
  function DeleteInstance(t: Table, id: string): (r: (Table, Result<bool, ServiceError>))
    ensures r.0 == t - {id}
    ensures r.1.Ok? <==> id in t
    ensures r.1.Ok? ==> r.1.value
    ensures r.1.Err? ==> r.1.error == InstanceNotFound(id)
  {
    var (t', rows) := InstanceDao.DeleteInstance(t, id);
    if rows == 0 then (t', Err(InstanceNotFound(id))) else (t', Ok(rows == 1))
  }

  /** A created instance reads back field for field. */
  lemma CreateThenGet(t: Table, rt: Runtime, i: Instance, streamUrl: string)
    requires WellFormed(t)
    requires CreateInstance(t, rt, i, streamUrl).result.Ok?
    ensures var c := CreateInstance(t, rt, i, streamUrl);
      WellFormed(c.table) && GetInstance(c.table, c.result.value) == Ok(i)
  {
    InstanceDao.CreateThenGet(t, i);
  }

  /** An updated instance reads back as exactly the new value. */
  lemma UpdateThenGet(t: Table, i: Instance)
    requires WellFormed(t) && i.id in t && TimestampsOrdered(i)
    ensures var (t', r) := UpdateInstance(t, i);
      r == Ok(true) && WellFormed(t') && GetInstance(t', i.id) == Ok(i)
  {
    InstanceDao.UpdateThenGet(t, i);
  }

  /** After a delete, reading the id raises `InstanceNotFound`; a second
      delete does too. */
  lemma DeleteThenGet(t: Table, id: string)
    requires WellFormed(t)
    ensures var (t', _) := DeleteInstance(t, id);
      && WellFormed(t')
      && GetInstance(t', id) == Err(InstanceNotFound(id))
      && DeleteInstance(t', id).1 == Err(InstanceNotFound(id))
  {
  }

  /** An instance built with its update time before its creation time never
      reaches the store. */
  lemma BackdatedUpdateRejected(t: Table, id: string, status: InstanceStatus, createdAt: int, updatedAt: int)
    requires updatedAt < createdAt
    ensures NewInstance(id, status, createdAt, updatedAt).Err?
    ensures UpdateInstance(t, Instance(id, status, createdAt, updatedAt)).0 == t
    ensures UpdateInstance(t, Instance(id, status, createdAt, updatedAt)).1.Err?
  {
  }
}
