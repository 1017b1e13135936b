# Lab metadata store

A model of `LabDB`, the in-memory lab table of a physical-testbed inventory
service. The store maps a lab id to the lab's metadata (name, location,
building, floor). It offers four operations: a lookup that raises
`LabNotFoundError` for an unknown id, a replace, a create that stores under an
id obtained from the pod store, and a delete that raises `LabNotFoundError` for
an unknown id and otherwise answers `true`.

- `lab_db_model.dfy` (module `LabModels`): the stored metadata record
  `LabMetaCreate` and the "exists" view `LabMetaExists`, which is the record
  paired with its id. The conversions between them are inverse to each other.
- `lab_store.dfy` (module `LabStore`): the error `LabNotFound`, a `Result`
  type in place of the raised exception, the table as a `map`, one
  specification function per operation (`Lookup`, `Store`, `Remove`) and the
  class `LabDB`. Its field `labsById` is reassigned by the methods that change
  it.
- `lab_history.dfy` (module `LabHistory`): arbitrary sequences of calls on
  the store. After any history, an id holds whatever the last write to it
  left there. So a deleted lab stays missing until it is written again, a get
  reads back the last replace or create, and calls on other ids change
  nothing.

Two behaviours of the store are worth stating outright:

- A replace of an unknown id does not fail. `put_lab_meta` only wraps a
  dictionary assignment in a `KeyError` handler, and that assignment cannot
  raise (`app/services/lab_store.py:20-25`). So the replace is an upsert that
  always succeeds, and `PutLabMeta` is stated that way.
- A create never reports a clash. The store imports `LabAlreadyExistsError`
  (`app/services/lab_store.py:3`) but never raises it, and
  `create_new_lab_meta` overwrites any lab already stored under its id.

The id a create stores under comes from the pod store's lab initialisation
(`PodDB._init_lab`). `PodDB` is not part of this model, so that id is a
parameter of `CreateNewLabMeta`. Nothing is assumed about its freshness.

`app/models/lab_db_model.py` declares only `LabMeta`, which has an id and
four fields. The store uses `LabMetaCreate` and `LabMetaExists`, which that
file does not show. The model takes `LabMetaCreate` to be the four fields
without the id, because that is what callers pass and what is stored. It takes
`LabMetaExists` to be `LabMeta`.

## Model

| member | source | states |
|---|---|---|
| LabModels.WithId | app/services/lab_store.py:14 | the exists view built from stored metadata carries the given id, and dropping the id gives the metadata back |
| LabModels.WithIdWithoutId | app/models/lab_db_model.py:3-8 | tagging an exists view with its own id after dropping it gives the same record back |
| LabModels.WithIdInjective | app/services/lab_store.py:14 | two tagged views are equal exactly when their ids and their metadata are equal |
| LabStore.Message | app/services/lab_store.py:16 | the not-found message has the form "Lab <id> does not exist" |
| LabStore.MessageNamesLab | app/services/lab_store.py:16 | two not-found messages are equal exactly when they name the same id |
| LabStore.Lookup | app/services/lab_store.py:10-16 | a lookup succeeds exactly when the id is present, and then returns the stored metadata tagged with that id; otherwise it fails with LabNotFound for that id |
| LabStore.Store | app/services/lab_store.py:21 | after the assignment the id is present with the new metadata, no other key is added, and every other entry is unchanged |
| LabStore.Remove | app/services/lab_store.py:35-39 | a delete fails with LabNotFound exactly when the id is absent; otherwise exactly that key is gone and every other entry is unchanged |
| LabStore.EmptyTableHasNoLab | app/services/lab_store.py:7-8 | a lookup in the empty table fails for every id |
| LabStore.LookupAfterStore | app/services/lab_store.py:21-22 | round trip: after storing metadata under an id, a lookup of that id returns that metadata tagged with the id |
| LabStore.StoreLeavesOthers | app/services/lab_store.py:31 | storing under one id leaves the lookup of every other id unchanged |
| LabStore.StoreOverrides | app/services/lab_store.py:21 | a later store under an id overrides an earlier one, so repeating a replace changes nothing |
| LabStore.LookupAfterRemove | app/services/lab_store.py:38 | after a successful delete, a lookup of that id fails and lookups of other ids are unchanged |
| LabStore.RemoveUndoesNewStore | app/services/lab_store.py:31 | deleting a lab just created under a previously unused id restores the previous table |
| LabStore.LabDB.constructor | app/services/lab_store.py:7-8 | a new store holds no labs |
| LabStore.LabDB.GetLabMeta | app/services/lab_store.py:10-16 | answers exactly as Lookup on the current table: the stored record tagged with the id when present, LabNotFound otherwise; the table is not changed |
| LabStore.LabDB.PutLabMeta | app/services/lab_store.py:18-25 | always succeeds, present id or not; the id then maps to the new metadata, all other entries are unchanged, and the result is the metadata tagged with the id |
| LabStore.LabDB.CreateNewLabMeta | app/services/lab_store.py:27-33 | stores the metadata under the id supplied by the pod store, overwriting any lab already stored there, leaves every other key alone, and returns the metadata tagged with that id |
| LabStore.LabDB.DeleteLabMeta | app/services/lab_store.py:35-39 | on an absent id, fails with LabNotFound and leaves the table unchanged; otherwise removes exactly that key and returns true |
| LabHistory.Step | app/services/lab_store.py:10-39 | a get or a failing call leaves the table unchanged; exactly the get or delete of an absent id fails, with LabNotFound for that id; an id that the call does not write keeps what it held; a successful get answers the stored record tagged with the id, a put or create answers the new metadata tagged with its id, a successful delete answers true |
| LabHistory.Apply | app/services/lab_store.py:10-39 | running a call through the matching LabDB method changes the object's table and replies exactly as Step, so the history lemmas hold of a LabDB |
| LabHistory.StepFollowsWrite | app/services/lab_store.py:21-38 | after one call, an id holds what the call wrote there (nothing after a delete), or what it held before |
| LabHistory.RunFollowsLastWrite | app/services/lab_store.py:10-39 | after any sequence of calls, an id holds what the last write to it left there, or its starting value if no call wrote it |
| LabHistory.DeletedLabStaysMissing | app/services/lab_store.py:16 | once a lab is deleted, every later get of it fails until a replace or create writes that id again |
| LabHistory.LastStoreIsReadBack | app/services/lab_store.py:14 | a get after any history returns the metadata of the last replace or create of that id, if no delete came after it |
| LabHistory.UnwrittenLabUnchanged | app/services/lab_store.py:31 | calls that never write an id do not change what a get of that id answers |
| LabHistory.FreshStoreHolds | app/services/lab_store.py:7-8 | starting from a new store, a lab is present after a history exactly when the last write to its id stored something |

## Left out

- `PodDB._init_lab`, which supplies the id for a create, belongs to the pod store and is not part of this model. The id is a parameter, and no freshness is assumed. Any side effect `_init_lab` has on the pod store is not modelled either.
- The pod store, the device registry and the per-pod address tracker are not modelled, because no shown file implements them. The same goes for the cascade that deletes a lab's pods after its metadata, `delete_lab_and_pod`.
- The HTTP routers (labs, pods, devices, uploads) and the application wiring are not modelled. They do request routing, dependency injection, file parsing and status-code translation.
- LabStore.LabDB.PutLabMeta: takes `LabMetaCreate`, which is what its caller passes, although the source annotates the argument as `LabMetaExists`. With a record that already has an id, the assignment at `app/services/lab_store.py:21` has already changed the table when the tagging step at line 22 raises `TypeError` (a duplicate `id` keyword argument), and the call raises. The model captures neither that failure nor the table change it leaves behind.
- The table stores the caller's record object by reference (`app/services/lab_store.py:21`, `:31`), and a get copies its fields only when it reads (line 14). The model stores values, so a caller changing a stored record after a put or create, which would change what later gets return, is not captured.
- Exception messages are modelled as the string `LabStore.Message`. Raising and propagating the exception is modelled as an `Err` result.
- Concurrent access to the store is not modelled. Each call is one atomic step.
