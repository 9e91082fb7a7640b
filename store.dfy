/** The relational store the controllers read and write, as in-memory tables.

    A row's id is its position in its table, so an id the store does not know is one
    past the end. Foreign keys are positions in the referenced table; the store refuses
    a row whose reference dangles, which the controllers see as a thrown error.
    Strings that a request may omit use "" for "absent", as JavaScript's falsy test does. */
module Store {
  import opened Wrappers
  import opened LocalDays

  /** A date in a request body: absent (falsy), present but not a valid date (JavaScript's
      Invalid Date, which the store refuses to write), or a calendar day. */
  datatype DateInput = NoDate | BadDate | OnDay(day: Day)

  datatype Field = Field(userId: string, name: string, deleted: bool)

  datatype PlantType = PlantType(name: string, frequencyDays: int)

  datatype Batch = Batch(
    fieldId: nat,
    plantTypeId: nat,
    name: string,
    plantingDay: Day,
    quantity: Option<int>,
    status: string,
    lastIrrigation: Option<Day>,
    deleted: bool)

  datatype EventStatus = Planned | Completed

  datatype IrrigationEvent = IrrigationEvent(
    batchId: nat,
    scheduledDay: Day,
    executedDay: Option<Day>,
    status: EventStatus,
    waterLiters: Option<real>,
    wateringMethod: Option<string>,
    notes: Option<string>,
    createdBy: string)

  /** A row of `status_history`. */
  datatype StatusChange = StatusChange(
    batchId: nat,
    status: string,
    previousStatus: Option<string>,
    changedBy: string,
    reason: Option<string>,
    severity: Option<string>,
    changedOn: Day)

  datatype Note = Note(batchId: nat, createdBy: string, noteType: string, content: string, createdOn: Day)

  /** One element of the `records` array of an import request; "" stands for a missing key. */
  datatype ImportRecord = ImportRecord(
    date: string,
    fieldName: string,
    plantName: string,
    plantType: string,
    eventType: string,
    note: string,
    status: string)

  /** Why a record failed: a check of the import loop, or the store refusing a write
      (an Invalid Date), whose own message text is not modelled. */
  datatype ImportError = MissingFields | DuplicateIrrigation(batchName: string) | StoreRejected

  /** An entry of a job's `error_log`. */
  datatype ImportFailure = ImportFailure(recordIndex: nat, record: ImportRecord, error: ImportError)

  datatype JobStatus = Processing | JobCompleted | CompletedWithErrors

  datatype ImportJob = ImportJob(
    createdBy: string,
    status: JobStatus,
    totalRecords: nat,
    successful: nat,
    failed: nat,
    errorLog: seq<ImportFailure>)

  /** The content of the store at one moment. */
  datatype Tables = Tables(
    fields: seq<Field>,
    plantTypes: seq<PlantType>,
    batches: seq<Batch>,
    events: seq<IrrigationEvent>,
    history: seq<StatusChange>,
    notes: seq<Note>,
    jobs: seq<ImportJob>)

  /** Every foreign key names an existing row. */
  predicate WellFormed(t: Tables)
  {
    && (forall i :: 0 <= i < |t.batches| ==>
          t.batches[i].fieldId < |t.fields| && t.batches[i].plantTypeId < |t.plantTypes|)
    && (forall i :: 0 <= i < |t.events| ==> t.events[i].batchId < |t.batches|)
    && (forall i :: 0 <= i < |t.history| ==> t.history[i].batchId < |t.batches|)
    && (forall i :: 0 <= i < |t.notes| ==> t.notes[i].batchId < |t.batches|)
  }

  /** The job table takes no part in the references between the other tables. */
  lemma JobsAside(t: Tables, jobs: seq<ImportJob>)
    requires WellFormed(t)
    ensures WellFormed(t.(jobs := jobs))
  {
  }

  /** A batch joined with its field and plant type, as `include: { fields, plant_types }` gives it. */
  datatype BatchView = BatchView(
    id: nat,
    name: string,
    fieldName: string,
    status: string,
    lastIrrigation: Option<Day>,
    frequencyDays: int)

  function ViewOf(t: Tables, id: nat): (v: BatchView)
    requires WellFormed(t) && id < |t.batches|
    ensures v.id == id
  {
    var b := t.batches[id];
    BatchView(id, b.name, t.fields[b.fieldId].name, b.status, b.lastIrrigation,
              t.plantTypes[b.plantTypeId].frequencyDays)
  }

  /** The batch is not soft-deleted and, when a user is given, lies in a field of that user
      that is not soft-deleted either: `{ deleted_at: null, fields: { user_id, deleted_at: null } }`. */
  predicate InScope(t: Tables, id: nat, user: string)
    requires WellFormed(t) && id < |t.batches|
  {
    var b := t.batches[id];
    !b.deleted && (user != "" ==> t.fields[b.fieldId].userId == user && !t.fields[b.fieldId].deleted)
  }

  /** Ids below `upTo` in scope, in store order. */
  function ScopedIds(t: Tables, user: string, upTo: nat): (r: seq<nat>)
    requires WellFormed(t) && upTo <= |t.batches|
    ensures forall k :: 0 <= k < |r| ==> r[k] < upTo && InScope(t, r[k], user)
    ensures forall id: nat :: id < upTo && InScope(t, id, user) ==> id in r
    ensures forall j, k :: 0 <= j < k < |r| ==> r[j] < r[k]
  {
    if upTo == 0 then []
    else ScopedIds(t, user, upTo - 1) + (if InScope(t, upTo - 1, user) then [upTo - 1] else [])
  }

  /** The joined rows of `findMany` over the batches in scope, in store order. */
  function ScopedBatches(t: Tables, user: string): (r: seq<BatchView>)
    requires WellFormed(t)
  {
    var ids := ScopedIds(t, user, |t.batches|);
    seq(|ids|, k requires 0 <= k < |ids| => ViewOf(t, ids[k]))
  }

  /** The scoped rows are exactly the joined rows of the batches in scope, one per batch, in
      store order. */
  lemma ScopedBatchesMembers(t: Tables, user: string)
    requires WellFormed(t)
    ensures forall b :: b in ScopedBatches(t, user) ==>
      b.id < |t.batches| && InScope(t, b.id, user) && b == ViewOf(t, b.id)
    ensures forall id: nat :: id < |t.batches| && InScope(t, id, user) ==> ViewOf(t, id) in ScopedBatches(t, user)
    ensures var bs := ScopedBatches(t, user); forall i, j :: 0 <= i < j < |bs| ==> bs[i].id < bs[j].id
  {
    var ids := ScopedIds(t, user, |t.batches|);
    var bs := ScopedBatches(t, user);
    forall id: nat | id < |t.batches| && InScope(t, id, user)
      ensures ViewOf(t, id) in bs
    {
      var k :| 0 <= k < |ids| && ids[k] == id;
      assert bs[k] == ViewOf(t, id);
    }
  }

  /** The store. Each table is a sequence the handlers reassign. */
  class Db {
    var fields: seq<Field>
    var plantTypes: seq<PlantType>
    var batches: seq<Batch>
    var events: seq<IrrigationEvent>
    var history: seq<StatusChange>
    var notes: seq<Note>
    var jobs: seq<ImportJob>

    function Snapshot(): Tables
      reads this
    {
      Tables(fields, plantTypes, batches, events, history, notes, jobs)
    }

    predicate Valid()
      reads this
    {
      WellFormed(Snapshot())
    }

    constructor ()
      ensures Valid()
      ensures Snapshot() == Tables([], [], [], [], [], [], [])
    {
      fields, plantTypes, batches := [], [], [];
      events, history, notes, jobs := [], [], [], [];
    }
  }
}
