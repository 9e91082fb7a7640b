/** Plant batches: the irrigation-status calculation, the filtered listing, the lookup by id,
    creation and status updates. */
module PlantBatchController {
  import opened Wrappers
  import opened LocalDays
  import opened Store
  import opened Seqs

  datatype IrrigationTier = OnTime | Overdue | Critical

  /** `{ next_due_date, days_overdue, status }`. */
  datatype IrrigationStatus = IrrigationStatus(nextDueDay: Option<Day>, daysOverdue: nat, tier: IrrigationTier)

  /** `calculateIrrigationStatus(lastIrrigationDate, frequencyDays)` evaluated on `today`.
      A batch never irrigated is critical with no due date. Otherwise the batch is due
      `frequencyDays` after its last irrigation; the reported lateness is clamped at 0 and
      the tier follows the reported lateness: 0 on time, 1 or 2 overdue, more critical. */
  function CalculateIrrigationStatus(last: Option<Day>, frequencyDays: int, today: Day): (r: IrrigationStatus)
    ensures last.None? ==> r == IrrigationStatus(None, 0, Critical)
    ensures last.Some? ==> r.nextDueDay == Some(last.value + frequencyDays)
    ensures last.Some? ==>
      r.daysOverdue == if today - (last.value + frequencyDays) > 0 then today - (last.value + frequencyDays) else 0
    ensures last.Some? ==> (r.tier == OnTime <==> r.daysOverdue == 0)
    ensures last.Some? ==> (r.tier == Overdue <==> 1 <= r.daysOverdue <= 2)
    ensures r.tier == Critical <==> last.None? || r.daysOverdue > 2
  {
    if last.None? then
      IrrigationStatus(None, 0, Critical)
    else
      var nextDue := AddDays(last.value, frequencyDays);
      var daysOverdue := DaysBetween(nextDue, today);
      var tier :=
        if daysOverdue > 0 && daysOverdue <= 2 then Overdue
        else if daysOverdue > 2 then Critical
        else OnTime;
      IrrigationStatus(Some(nextDue), if daysOverdue > 0 then daysOverdue else 0, tier)
  }

  /** The tier boundaries, day by day around the due day. */
  lemma TierBoundaries(last: Day, frequencyDays: int)
    ensures CalculateIrrigationStatus(Some(last), frequencyDays, last + frequencyDays - 1).tier == OnTime
    ensures CalculateIrrigationStatus(Some(last), frequencyDays, last + frequencyDays).tier == OnTime
    ensures CalculateIrrigationStatus(Some(last), frequencyDays, last + frequencyDays + 1).tier == Overdue
    ensures CalculateIrrigationStatus(Some(last), frequencyDays, last + frequencyDays + 2).tier == Overdue
    ensures CalculateIrrigationStatus(Some(last), frequencyDays, last + frequencyDays + 3).tier == Critical
  {
  }

  /** Watering a batch late never makes it less urgent: the tier only rises as days pass. */
  lemma {:induction false} TierMonotone(last: Option<Day>, frequencyDays: int, today: Day, later: Day)
    requires today <= later
    ensures TierRank(CalculateIrrigationStatus(last, frequencyDays, today).tier)
         <= TierRank(CalculateIrrigationStatus(last, frequencyDays, later).tier)
    ensures CalculateIrrigationStatus(last, frequencyDays, today).daysOverdue
         <= CalculateIrrigationStatus(last, frequencyDays, later).daysOverdue
  {
  }

  function TierRank(tier: IrrigationTier): nat
  {
    match tier
    case OnTime => 0
    case Overdue => 1
    case Critical => 2
  }

  /** The query string of `GET /plant-batches`; "" or `None` leaves a filter out. */
  datatype BatchQuery = BatchQuery(userId: string, fieldId: Option<nat>, plantTypeId: Option<nat>, status: string)

  /** The `where` object: not soft-deleted, and every filter that is given. */
  predicate MatchesQuery(t: Tables, id: nat, q: BatchQuery)
    requires WellFormed(t) && id < |t.batches|
  {
    var b := t.batches[id];
    && !b.deleted
    && (q.fieldId.Some? ==> b.fieldId == q.fieldId.value)
    && (q.plantTypeId.Some? ==> b.plantTypeId == q.plantTypeId.value)
    && (q.status != "" ==> b.status == q.status)
    && (q.userId != "" ==> t.fields[b.fieldId].userId == q.userId && !t.fields[b.fieldId].deleted)
  }

  /** `getPlantBatches`: exactly the batches that are not soft-deleted and pass every given
      filter, each once, the most recently created first. */
  function GetPlantBatches(t: Tables, q: BatchQuery): (r: seq<nat>)
    requires WellFormed(t)
    ensures forall id: nat :: id in r <==> id < |t.batches| && MatchesQuery(t, id, q)
    ensures forall id :: id in r ==> !t.batches[id].deleted
    ensures forall j, k :: 0 <= j < k < |r| ==> r[j] > r[k]
  {
    DescendingBelow(|t.batches|, (id: nat) => id < |t.batches| && MatchesQuery(t, id, q))
  }

  /** The body of `GET /plant-batches/:id`: the row and its irrigation status. */
  datatype BatchDetail = BatchDetail(batch: Batch, irrigation: IrrigationStatus)

  /** `getPlantBatchById`: an unknown or soft-deleted batch is 404; otherwise the batch with
      its irrigation status computed from its plant type's frequency. */
  function GetPlantBatchById(t: Tables, id: nat, today: Day): (r: Reply<BatchDetail>)
    requires WellFormed(t)
    ensures r.Fail? <==> id >= |t.batches| || t.batches[id].deleted
    ensures r.Fail? ==> r.code == 404
    ensures r.Ok? ==> r.value.batch == t.batches[id]
    ensures r.Ok? ==>
              r.value.irrigation == CalculateIrrigationStatus(t.batches[id].lastIrrigation,
                                                             t.plantTypes[t.batches[id].plantTypeId].frequencyDays, today)
  {
    if id >= |t.batches| || t.batches[id].deleted then Fail(404, "Plant batch not found")
    else
      var b := t.batches[id];
      Ok(BatchDetail(b, CalculateIrrigationStatus(b.lastIrrigation, t.plantTypes[b.plantTypeId].frequencyDays, today)))
  }

  /** `createPlantBatch`. A missing field, plant type, name or planting date is 400 with
      nothing written; a reference to an unknown field or plant type, or an unreadable
      planting date, makes the store throw (500, nothing written). Otherwise a new
      'healthy' batch is appended, and an 'Initial planting' history row follows it only
      when a user is given. */
  method CreatePlantBatch(db: Db, fieldId: Option<nat>, plantTypeId: Option<nat>, batchName: string,
                          plantingDate: DateInput, quantity: Option<int>, userId: string, today: Day)
    returns (r: Reply<nat>)
    requires db.Valid()
    modifies db
    ensures db.Valid()
    ensures (fieldId.None? || plantTypeId.None? || batchName == "" || plantingDate.NoDate?) ==>
      r == Fail(400, "field_id, plant_type_id, batch_name, and planting_date are required")
    ensures r.Fail? ==> r.code in {400, 500} && db.Snapshot() == old(db.Snapshot())
    ensures r.Fail? && r.code == 500 <==>
      fieldId.Some? && plantTypeId.Some? && batchName != "" && !plantingDate.NoDate? &&
      (fieldId.value >= old(|db.fields|) || plantTypeId.value >= old(|db.plantTypes|) || plantingDate.BadDate?)
    ensures r.Ok? <==>
      && fieldId.Some? && plantTypeId.Some? && batchName != "" && plantingDate.OnDay?
      && fieldId.value < old(|db.fields|) && plantTypeId.value < old(|db.plantTypes|)
    ensures r.Ok? ==>
      && r.value == old(|db.batches|)
      && db.Snapshot() == old(db.Snapshot()).(
           batches := old(db.batches) + [Batch(fieldId.value, plantTypeId.value, batchName, plantingDate.day,
                                               quantity, "healthy", None, false)],
           history := old(db.history) +
             if userId != "" then [StatusChange(r.value, "healthy", None, userId, Some("Initial planting"), None, today)]
             else [])
  {
    if fieldId.None? || plantTypeId.None? || batchName == "" || plantingDate.NoDate? {
      return Fail(400, "field_id, plant_type_id, batch_name, and planting_date are required");
    }
    if fieldId.value >= |db.fields| || plantTypeId.value >= |db.plantTypes| || plantingDate.BadDate? {
      return Fail(500, "Failed to create plant batch");
    }
    var id := |db.batches|;
    db.batches := db.batches + [Batch(fieldId.value, plantTypeId.value, batchName, plantingDate.day,
                                      quantity, "healthy", None, false)];
    if userId != "" {
      db.history := db.history + [StatusChange(id, "healthy", None, userId, Some("Initial planting"), None, today)];
    }
    r := Ok(id);
  }

  /** `updatePlantBatchStatus`. A missing status or user is 400, an unknown id 404, both
      with nothing written. Otherwise the batch, soft-deleted or not, takes the new status
      and one history row records the new status and the status it replaced. */
  method UpdatePlantBatchStatus(db: Db, id: nat, status: string, userId: string,
                                reason: Option<string>, severity: Option<string>, today: Day)
    returns (r: Reply<Batch>)
    requires db.Valid()
    modifies db
    ensures db.Valid()
    ensures (status == "" || userId == "") ==> r == Fail(400, "status and user_id are required")
    ensures status != "" && userId != "" && id >= old(|db.batches|) ==> r == Fail(404, "Plant batch not found")
    ensures r.Fail? ==> db.Snapshot() == old(db.Snapshot())
    ensures r.Ok? <==> status != "" && userId != "" && id < old(|db.batches|)
    ensures r.Ok? ==>
      && r.value == old(db.batches[id]).(status := status)
      && db.Snapshot() == old(db.Snapshot()).(
           batches := old(db.batches)[id := r.value],
           history := old(db.history) +
             [StatusChange(id, status, Some(old(db.batches[id].status)), userId, reason, severity, today)])
  {
    if status == "" || userId == "" {
      return Fail(400, "status and user_id are required");
    }
    if id >= |db.batches| {
      return Fail(404, "Plant batch not found");
    }
    var current := db.batches[id];
    var updated := current.(status := status);
    db.batches := db.batches[id := updated];
    db.history := db.history + [StatusChange(id, status, Some(current.status), userId, reason, severity, today)];
    r := Ok(updated);
  }
}
