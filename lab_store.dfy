/** The in-memory lab table: a map from lab id to lab metadata, the error it
    raises for a missing id, and the LabDB object whose methods update it in place. */
module LabStore {
  import opened LabModels

  /** LabNotFoundError, carrying the id that was asked for. */
  datatype LabError = LabNotFound(labId: string)

  /** The text the store attaches to a LabNotFoundError. */
  function Message(e: LabError): (r: string)
    ensures |r| == |e.labId| + 19
    ensures r[..4] == "Lab " && r[4..4 + |e.labId|] == e.labId
    ensures r[4 + |e.labId|..] == " does not exist"
  {
    "Lab " + e.labId + " does not exist"
  }

  /** Distinct missing ids give distinct messages: the message names the lab. */
  lemma MessageNamesLab(e1: LabError, e2: LabError)
    ensures Message(e1) == Message(e2) <==> e1 == e2
  {
  }

  /** The outcome of an operation that may raise LabNotFoundError. */
  datatype Result<T> = Ok(value: T) | Err(error: LabError)

  /** The contents of labs_by_id. */
  type Table = map<string, LabMetaCreate>

  /** What get_lab_meta answers on table `t`: the stored metadata tagged with
      `id` when `id` is present, LabNotFound(id) when it is absent. */
  function Lookup(t: Table, id: string): (r: Result<LabMetaExists>)
    ensures r.Ok? <==> id in t
    ensures r.Ok? ==> r.value.id == id && WithoutId(r.value) == t[id]
    ensures r.Err? ==> r.error == LabNotFound(id)
  {
    if id in t then Ok(WithId(id, t[id])) else Err(LabNotFound(id))
  }

  /** The table after the assignment labs_by_id[id] = meta: `id` is present
      and maps to `meta`, and every other entry is as it was. */
  function Store(t: Table, id: string, meta: LabMetaCreate): (r: Table)
    ensures r.Keys == t.Keys + {id}
    ensures r[id] == meta
    ensures forall k :: k in t && k != id ==> r[k] == t[k]
  {
    t[id := meta]
  }

  /** The table after delete_lab_meta: LabNotFound(id) when `id` is absent;
      otherwise exactly `id` is gone and every other entry is as it was. */
  function Remove(t: Table, id: string): (r: Result<Table>)
    ensures r.Ok? <==> id in t
    ensures r.Ok? ==> r.value.Keys == t.Keys - {id}
    ensures r.Ok? ==> forall k :: k in r.value ==> r.value[k] == t[k]
    ensures r.Err? ==> r.error == LabNotFound(id)
  {
    if id !in t then Err(LabNotFound(id)) else Ok(t - {id})
  }

  /** An empty table knows no lab. */
  lemma EmptyTableHasNoLab(id: string)
    ensures Lookup(map[], id) == Err(LabNotFound(id))
  {
  }

  /** Round trip: after storing `meta` under `id`, a lookup of `id` returns
      `meta` tagged with `id`. */
  lemma LookupAfterStore(t: Table, id: string, meta: LabMetaCreate)
    ensures Lookup(Store(t, id, meta), id) == Ok(WithId(id, meta))
  {
  }

  /** Storing under `id` leaves the answer for every other id unchanged. */
  lemma StoreLeavesOthers(t: Table, id: string, meta: LabMetaCreate, other: string)
    requires other != id
    ensures Lookup(Store(t, id, meta), other) == Lookup(t, other)
  {
  }

  /** Storing the same metadata twice is the same as storing it once, and a
      later store under the same id overrides an earlier one. */
  lemma StoreOverrides(t: Table, id: string, m1: LabMetaCreate, m2: LabMetaCreate)
    ensures Store(Store(t, id, m1), id, m2) == Store(t, id, m2)
  {
  }

  /** After a successful removal a lookup of the removed id fails, and the
      answer for every other id is unchanged. */
  lemma LookupAfterRemove(t: Table, id: string, other: string)
    requires id in t
    ensures Lookup(Remove(t, id).value, id) == Err(LabNotFound(id))
    ensures other != id ==> Lookup(Remove(t, id).value, other) == Lookup(t, other)
  {
  }

  /** Removing a lab that was just stored under a new id restores the table. */
  lemma RemoveUndoesNewStore(t: Table, id: string, meta: LabMetaCreate)
    requires id !in t
    ensures Remove(Store(t, id, meta), id) == Ok(t)
  {
    assert Store(t, id, meta) - {id} == t;
  }

  /** LabDB: the lab table, updated in place. */
  class LabDB {
    var labsById: Table

    /** A new store holds no labs. */
    constructor ()
      ensures labsById == map[]
    {
      labsById := map[];
    }

    /** get_lab_meta: the stored record tagged with `labId`, or LabNotFound;
        the table is not changed. */
    method GetLabMeta(labId: string) returns (r: Result<LabMetaExists>)
      ensures r == Lookup(labsById, labId)
    {
      if labId in labsById {
        var lab := labsById[labId];
        r := Ok(WithId(labId, lab));
      } else {
        r := Err(LabNotFound(labId));
      }
    }

    /** put_lab_meta: an upsert that never fails. The plain assignment it
        guards cannot raise, so its LabNotFound branch is never taken. */
    method PutLabMeta(labId: string, lab: LabMetaCreate) returns (r: Result<LabMetaExists>)
      modifies this
      ensures labsById == Store(old(labsById), labId, lab)
      ensures r == Ok(WithId(labId, lab))
    {
      labsById := labsById[labId := lab];
      r := Ok(WithId(labId, lab));
    }

    /** create_new_lab_meta: stores `lab` under `newId`, the id the pod store's
        lab initialisation hands out, overwriting any lab already stored there. */
    method CreateNewLabMeta(lab: LabMetaCreate, newId: string) returns (r: LabMetaExists)
      modifies this
      ensures labsById == Store(old(labsById), newId, lab)
      ensures r == WithId(newId, lab)
    {
      var labId := newId;
      labsById := labsById[labId := lab];
      r := WithId(labId, lab);
    }

    /** delete_lab_meta: LabNotFound and no change when `labId` is absent;
        otherwise removes exactly that entry and answers true. */
    method DeleteLabMeta(labId: string) returns (r: Result<bool>)
      modifies this
      ensures match Remove(old(labsById), labId)
        case Ok(rest) => labsById == rest && r == Ok(true)
        case Err(e) => labsById == old(labsById) && r == Err(e)
    {
      if labId !in labsById {
        r := Err(LabNotFound(labId));
        return;
      }
      labsById := labsById - {labId};
      r := Ok(true);
    }
  }
}
