/** The shapes of the `medications` table: the row the store returns and the
    fields of an insert or update that the reminder logic reads. */
module Database {
  import opened Wrappers

  /** One stored medication. `days` are weekday indices (0 = Sunday), `times`
      clock strings such as "08:00", `taken` maps "<date>T<time>" keys to
      acknowledgments. */
  datatype MedicationRow = MedicationRow(
    id: string,
    userId: string,
    name: string,
    dosage: Option<string>,
    notes: Option<string>,
    days: seq<int>,
    times: seq<string>,
    taken: map<string, bool>,
    createdAt: string,
    updatedAt: string)

  /** The fields of an insert that reach the reminder logic. `id` is
      optional: absent, the store's generated id is used. */
  datatype MedicationInsert = MedicationInsert(
    id: Option<string>,
    userId: string,
    name: string,
    days: seq<int>,
    times: seq<string>)

  /** The fields of a partial update that reach the reminder logic; an absent
      field keeps the stored value. */
  datatype MedicationUpdate = MedicationUpdate(
    id: Option<string>,
    name: Option<string>,
    days: Option<seq<int>>,
    times: Option<seq<string>>)

  /** What a store round trip yields: the row (or nothing) and an error (or nothing). */
  datatype StoreResponse = StoreResponse(data: Option<MedicationRow>, error: Option<string>) {
    /** `data && !error` */
    predicate Succeeded() { data.Some? && error.None? }
  }
}
