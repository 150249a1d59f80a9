/** The instance table and its data-access object. The table is a map from
    the unique instance id to the rest of the row; the status column holds
    the status name. */
module InstanceDao {
  import opened Outcomes
  import opened Instances

  datatype Row = Row(status: string, createdAt: int, updatedAt: int)

  type Table = map<string, Row>

  /** The errors the database raises for a rejected write: a duplicate id
      (the id column is unique), or a row whose update time precedes its
      creation time (the table's check constraint). */
  datatype DbError = UniqueViolation(id: string) | CheckViolation(id: string)

  /** The table's check constraints: a known status name, and ordered times. */
  ghost predicate WellFormed(t: Table) {
    forall id :: id in t ==> ParseStatus(t[id].status).Some? && t[id].updatedAt >= t[id].createdAt
  }

  /** The row stored for an instance. */
  function RowOf(i: Instance): Row {
    Row(StatusName(i.status), i.createdAt, i.updatedAt)
  }

  /** Reads the row with the given id back as an instance; `None` when there is none. */
  function GetInstance(t: Table, id: string): (r: Option<Instance>)
    requires WellFormed(t)
    ensures r.None? <==> id !in t
    ensures r.Some? ==> r.value.id == id && RowOf(r.value) == t[id]
  {
    if id !in t then None
    else
      var row := t[id];
      StatusNameRoundTrip(ParseStatus(row.status).value, row.status);
      Some(Instance(id, ParseStatus(row.status).value, row.createdAt, row.updatedAt))
  }

  /** Inserts the instance's row and returns the inserted id. */
  function CreateInstance(t: Table, i: Instance): (r: Result<(Table, string), DbError>)
    ensures r.Ok? <==> i.id !in t && TimestampsOrdered(i)
    ensures r.Ok? ==> r.value.0 == t[i.id := RowOf(i)] && r.value.1 == i.id
    ensures r.Err? ==> r.error.id == i.id
    ensures WellFormed(t) && r.Ok? ==> WellFormed(r.value.0)
  {
    if !TimestampsOrdered(i) then Err(CheckViolation(i.id))
    else if i.id in t then Err(UniqueViolation(i.id))
    else Ok((t[i.id := RowOf(i)], i.id))
  }

  /** Overwrites status and times of the row with the instance's id and
      returns the number of rows changed. */
  function UpdateInstance(t: Table, i: Instance): (r: Result<(Table, nat), DbError>)
    ensures r.Err? <==> i.id in t && !TimestampsOrdered(i)
    ensures r.Err? ==> r.error == CheckViolation(i.id)
    ensures r.Ok? ==> r.value.1 == (if i.id in t then 1 else 0)
    ensures r.Ok? ==> r.value.0.Keys == t.Keys
    ensures r.Ok? ==> forall id :: id in t && id != i.id ==> r.value.0[id] == t[id]
    ensures r.Ok? && i.id in t ==> r.value.0[i.id] == RowOf(i)
    ensures WellFormed(t) && r.Ok? ==> WellFormed(r.value.0)
  {
    if i.id !in t then Ok((t, 0))
    else if !TimestampsOrdered(i) then Err(CheckViolation(i.id))
    else Ok((t[i.id := RowOf(i)], 1))
  }

  /** Deletes the row with the given id and returns the number of rows removed. */
  function DeleteInstance(t: Table, id: string): (r: (Table, nat))
    ensures r.1 == (if id in t then 1 else 0)
    ensures r.0.Keys == t.Keys - {id}
    ensures forall k :: k in r.0 ==> r.0[k] == t[k]
    ensures WellFormed(t) ==> WellFormed(r.0)
  {
    (t - {id}, if id in t then 1 else 0)
  }

  /** Creating and then reading an instance gives it back field for field. */
  lemma CreateThenGet(t: Table, i: Instance)
    requires WellFormed(t) && CreateInstance(t, i).Ok?
    ensures var (t', id) := CreateInstance(t, i).value;
      WellFormed(t') && GetInstance(t', id) == Some(i)
  {
    var (t', id) := CreateInstance(t, i).value;
    StatusNameRoundTrip(i.status, StatusName(i.status));
  }

  /** Updating an existing instance and then reading it gives the new value. */
  lemma UpdateThenGet(t: Table, i: Instance)
    requires WellFormed(t) && i.id in t && TimestampsOrdered(i)
    ensures var (t', rows) := UpdateInstance(t, i).value;
      rows == 1 && WellFormed(t') && GetInstance(t', i.id) == Some(i)
  {
    StatusNameRoundTrip(i.status, StatusName(i.status));
  }

  /** Writes to one id leave every other instance as it reads. */
  lemma WritesAreLocal(t: Table, i: Instance, id: string, other: string)
    requires WellFormed(t) && other != i.id && other != id
    ensures CreateInstance(t, i).Ok? ==> GetInstance(CreateInstance(t, i).value.0, other) == GetInstance(t, other)
    ensures UpdateInstance(t, i).Ok? ==> GetInstance(UpdateInstance(t, i).value.0, other) == GetInstance(t, other)
    ensures GetInstance(DeleteInstance(t, id).0, other) == GetInstance(t, other)
  {
  }
}
