/** Sequences of calls on a lab store: what the table holds after any
    history of gets, replaces, creates and deletes. */
module LabHistory {
  import opened LabModels
  import opened LabStore

  /** One call on a LabDB. For a create, `newId` is the id the pod store
      handed out for it. */
  datatype Call =
    | GetLab(labId: string)
    | PutLab(labId: string, meta: LabMetaCreate)
    | CreateLab(newId: string, meta: LabMetaCreate)
    | DeleteLab(labId: string)

  /** What a call answers: a tagged record, a deletion's `true`, or an error. */
  datatype Reply = Record(lab: LabMetaExists) | Deleted(done: bool) | Raised(error: LabError)

  datatype Option<T> = None | Some(value: T)

  /** What a table holds under `id`, if anything. */
  function Slot(t: Table, id: string): Option<LabMetaCreate>
  {
    if id in t then Some(t[id]) else None
  }

  /** The write a call makes to `id`: None if it does not write `id`,
      Some(None) if it deletes `id`, Some(Some(m)) if it stores `m` there. */
  function Written(c: Call, id: string): Option<Option<LabMetaCreate>>
  {
    match c
    case GetLab(_) => None
    case PutLab(k, m) => if k == id then Some(Some(m)) else None
    case CreateLab(k, m) => if k == id then Some(Some(m)) else None
    case DeleteLab(k) => if k == id then Some(None) else None
  }

  /** One call's effect on the table and its reply. Gets and failing calls
      leave the table as it was, and every id the call does not write keeps
      what it held. */
  function Step(t: Table, c: Call): (r: (Table, Reply))
    ensures c.GetLab? || r.1.Raised? ==> r.0 == t
    ensures r.1.Raised? <==> (c.GetLab? || c.DeleteLab?) && c.labId !in t
    ensures forall id :: Written(c, id) == None ==> Slot(r.0, id) == Slot(t, id)
    ensures c.GetLab? && c.labId in t ==> r.1 == Record(WithId(c.labId, t[c.labId]))
    ensures c.PutLab? ==> r.1 == Record(WithId(c.labId, c.meta))
    ensures c.CreateLab? ==> r.1 == Record(WithId(c.newId, c.meta))
    ensures c.DeleteLab? && c.labId in t ==> r.1 == Deleted(true)
    ensures r.1.Raised? ==> r.1.error == LabNotFound(c.labId)
  {
    match c
    case GetLab(id) =>
      (t, match Lookup(t, id) case Ok(lab) => Record(lab) case Err(e) => Raised(e))
    case PutLab(id, m) => (Store(t, id, m), Record(WithId(id, m)))
    case CreateLab(id, m) => (Store(t, id, m), Record(WithId(id, m)))
    case DeleteLab(id) =>
      match Remove(t, id)
      case Ok(rest) => (rest, Deleted(true))
      case Err(e) => (t, Raised(e))
  }

  /** Performs call `c` on `db` through the matching LabDB method: its effect
      on the table and its reply are those of Step, so every result about
      Step and Run holds of a LabDB. */
  method Apply(db: LabDB, c: Call) returns (reply: Reply)
    modifies db
    ensures (db.labsById, reply) == Step(old(db.labsById), c)
  {
    match c
    case GetLab(id) =>
      var r := db.GetLabMeta(id);
      reply := match r case Ok(lab) => Record(lab) case Err(e) => Raised(e);
    case PutLab(id, m) =>
      var r := db.PutLabMeta(id, m);
      reply := Record(r.value);
    case CreateLab(id, m) =>
      var r := db.CreateNewLabMeta(m, id);
      reply := Record(r);
    case DeleteLab(id) =>
      var r := db.DeleteLabMeta(id);
      reply := match r case Ok(b) => Deleted(b) case Err(e) => Raised(e);
  }

  /** The table after the calls of `calls`, in order, starting from `t`. */
  function Run(t: Table, calls: seq<Call>): Table
    decreases |calls|
  {
    if calls == [] then t else Step(Run(t, calls[..|calls| - 1]), calls[|calls| - 1]).0
  }

  /** The last write `calls` make to `id`, or None if they never write it. */
  function LastWrite(calls: seq<Call>, id: string): Option<Option<LabMetaCreate>>
    decreases |calls|
  {
    if calls == [] then None
    else match Written(calls[|calls| - 1], id)
      case Some(w) => Some(w)
      case None => LastWrite(calls[..|calls| - 1], id)
  }

  /** A single call leaves `id` holding what it writes there, or what it held. */
  lemma StepFollowsWrite(t: Table, c: Call, id: string)
    ensures Slot(Step(t, c).0, id) == match Written(c, id) case None => Slot(t, id) case Some(w) => w
  {
  }

  /** After any history, `id` holds what the last write to it put there
      (nothing after a delete), or what it held at the start if no call wrote it. */
  lemma {:induction false} RunFollowsLastWrite(t: Table, calls: seq<Call>, id: string)
    ensures Slot(Run(t, calls), id) == match LastWrite(calls, id) case None => Slot(t, id) case Some(w) => w
    decreases |calls|
  {
    if calls != [] {
      var before := calls[..|calls| - 1];
      RunFollowsLastWrite(t, before, id);
      StepFollowsWrite(Run(t, before), calls[|calls| - 1], id);
    }
  }

  /** Once a lab is deleted, every later get of it fails until a replace or a
      create writes that id again, whatever happens to other labs meanwhile. */
  lemma {:induction false} DeletedLabStaysMissing(t: Table, calls: seq<Call>, id: string)
    requires LastWrite(calls, id) == Some(None)
    ensures Lookup(Run(t, calls), id) == Err(LabNotFound(id))
  {
    RunFollowsLastWrite(t, calls, id);
  }

  /** A get after any history returns the metadata of the last replace or
      create of that id, tagged with the id, unless a delete came later. */
  lemma {:induction false} LastStoreIsReadBack(t: Table, calls: seq<Call>, id: string, m: LabMetaCreate)
    requires LastWrite(calls, id) == Some(Some(m))
    ensures Lookup(Run(t, calls), id) == Ok(WithId(id, m))
  {
    RunFollowsLastWrite(t, calls, id);
  }

  /** Calls that never write `id` do not change what a get of `id` answers. */
  lemma {:induction false} UnwrittenLabUnchanged(t: Table, calls: seq<Call>, id: string)
    requires LastWrite(calls, id) == None
    ensures Lookup(Run(t, calls), id) == Lookup(t, id)
  {
    RunFollowsLastWrite(t, calls, id);
  }

  /** Starting from a new store, the labs present after a history are exactly
      the ids whose last write stored something. */
  lemma {:induction false} FreshStoreHolds(calls: seq<Call>, id: string)
    ensures id in Run(map[], calls) <==> LastWrite(calls, id).Some? && LastWrite(calls, id).value.Some?
  {
    RunFollowsLastWrite(map[], calls, id);
  }
}
