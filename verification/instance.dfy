/** The persisted instance: one managed device/container, its status and
    its creation and last-update times (abstract instants, as integers). */
module Instances {
  import opened Outcomes

  datatype InstanceStatus = ACTIVE | INACTIVE | PAUSED

  datatype Instance = Instance(id: string, status: InstanceStatus, createdAt: int, updatedAt: int)

  /** The domain error raised for an instance updated before it was created. */
  datatype DomainLogicError = UpdatedBeforeCreated(createdAt: int, updatedAt: int)

  /** The enum member name, the form in which a status is stored. */
  function StatusName(s: InstanceStatus): string {
    match s
    case ACTIVE => "ACTIVE"
    case INACTIVE => "INACTIVE"
    case PAUSED => "PAUSED"
  }

  /** Lookup of a stored status name. */
  function ParseStatus(name: string): (r: Option<InstanceStatus>)
    ensures r.Some? <==> name in {"ACTIVE", "INACTIVE", "PAUSED"}
  {
    if name == "ACTIVE" then Some(ACTIVE)
    else if name == "INACTIVE" then Some(INACTIVE)
    else if name == "PAUSED" then Some(PAUSED)
    else None
  }

  /** A status survives being stored by name, and the three names are the
      only ones that read back as a status. */
  lemma StatusNameRoundTrip(s: InstanceStatus, name: string)
    ensures ParseStatus(StatusName(s)) == Some(s)
    ensures ParseStatus(name) == Some(s) ==> StatusName(s) == name
  {
  }

  predicate TimestampsOrdered(i: Instance) {
    i.updatedAt >= i.createdAt
  }

  /** Building an instance, which rejects an update time before the
      creation time. */
  function NewInstance(id: string, status: InstanceStatus, createdAt: int, updatedAt: int)
    : (r: Result<Instance, DomainLogicError>)
    ensures r.Ok? <==> updatedAt >= createdAt
    ensures r.Ok? ==> r.value == Instance(id, status, createdAt, updatedAt) && TimestampsOrdered(r.value)
    ensures r.Err? ==> r.error == UpdatedBeforeCreated(createdAt, updatedAt)
  {
    if updatedAt < createdAt then Err(UpdatedBeforeCreated(createdAt, updatedAt))
    else Ok(Instance(id, status, createdAt, updatedAt))
  }
}
