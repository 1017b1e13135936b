/** Lab metadata records: the value the lab store keeps per lab id, and the
    "exists" view it hands back, which pairs that value with its id. */
module LabModels {

  /** LabMetaCreate: the descriptive part of a lab, without its id.
      This is what the store keeps under each id. */
  datatype LabMetaCreate = LabMetaCreate(name: string, location: string, building: string, floor: string)

  /** LabMetaExists: a lab's metadata together with the id it is stored
      under (the LabMeta record: id, name, location, building, floor). */
  datatype LabMetaExists = LabMetaExists(id: string, name: string, location: string, building: string, floor: string)

  /** The metadata of an existing lab with its id dropped (its dump without the id). */
  function WithoutId(lab: LabMetaExists): LabMetaCreate
  {
    LabMetaCreate(lab.name, lab.location, lab.building, lab.floor)
  }

  /** Builds the exists view of `meta` stored under `id`: the id is the given
      one and every other field is taken from `meta`, which is recovered by
      dropping the id again. */
  function WithId(id: string, meta: LabMetaCreate): (r: LabMetaExists)
    ensures r.id == id
    ensures WithoutId(r) == meta
  {
    LabMetaExists(id, meta.name, meta.location, meta.building, meta.floor)
  }

  /** Tagging an exists view with its own id after dropping it gives it back:
      WithId and WithoutId are inverse to each other. */
  lemma WithIdWithoutId(lab: LabMetaExists)
    ensures WithId(lab.id, WithoutId(lab)) == lab
  {
  }

  /** Two tagged views are equal only when both the ids and the metadata are. */
  lemma WithIdInjective(a: string, m: LabMetaCreate, b: string, n: LabMetaCreate)
    ensures WithId(a, m) == WithId(b, n) <==> a == b && m == n
  {
  }
}
