/** Irrigation events: recording a watering (done now or planned), completing a planned one,
    and the list of batches that are overdue for water. */
module IrrigationController {
  import opened Wrappers
  import opened LocalDays
  import opened Store
  import opened Sorting
  import Seqs

  /** `isCompleted ? 'completed' : 'planned'`: an event is completed exactly when an
      executed date is given or the request says 'completed'. */
  function EventStatusFor(executed: DateInput, status: string): (r: EventStatus)
    ensures r == Completed <==> !executed.NoDate? || status == "completed"
    ensures r == Planned <==> executed.NoDate? && status != "completed"
  {
    if !executed.NoDate? || status == "completed" then Completed else Planned
  }

  /** `finalExecutedDate`: the given date when there is one, otherwise today for a completed
      event and nothing for a planned one. */
  function ExecutedDayFor(executed: DateInput, status: string, today: Day): (r: Option<Day>)
    requires !executed.BadDate?
    ensures executed.OnDay? ==> r == Some(executed.day)
    ensures executed.NoDate? && EventStatusFor(executed, status) == Completed ==> r == Some(today)
    ensures r.None? <==> EventStatusFor(executed, status) == Planned
  {
    if executed.OnDay? then Some(executed.day)
    else if EventStatusFor(executed, status) == Completed then Some(today)
    else None
  }

  /** `createIrrigationEvent`. A missing batch, scheduled date or user is 400 with nothing
      written. An unknown batch or an unreadable date makes the store throw (500, nothing
      written). Otherwise one event is appended; when it is completed, and only then, the
      batch's last irrigation day becomes the event's executed day. */
  method CreateIrrigationEvent(db: Db, batchId: Option<nat>, scheduled: DateInput, executed: DateInput,
                               waterLiters: Option<real>, wateringMethod: Option<string>, notes: Option<string>,
                               userId: string, status: string, today: Day)
    returns (r: Reply<nat>)
    requires db.Valid()
    modifies db
    ensures db.Valid()
    ensures batchId.None? || scheduled.NoDate? || userId == "" ==>
      r == Fail(400, "plant_batch_id, scheduled_date, and user_id are required")
    ensures r.Fail? ==> db.Snapshot() == old(db.Snapshot())
    ensures r.Ok? <==>
      batchId.Some? && scheduled.OnDay? && userId != "" && batchId.value < old(|db.batches|) && !executed.BadDate?
    ensures r.Ok? ==>
      var b := batchId.value;
      var eventStatus := EventStatusFor(executed, status);
      var day := ExecutedDayFor(executed, status, today);
      && r.value == old(|db.events|)
      && db.Snapshot() == old(db.Snapshot()).(
           events := old(db.events) +
             [IrrigationEvent(b, scheduled.day, day, eventStatus, waterLiters, wateringMethod, notes, userId)],
           batches := if eventStatus == Completed then old(db.batches)[b := old(db.batches[b]).(lastIrrigation := day)]
                      else old(db.batches))
  {
    if batchId.None? || scheduled.NoDate? || userId == "" {
      return Fail(400, "plant_batch_id, scheduled_date, and user_id are required");
    }
    var eventStatus := EventStatusFor(executed, status);
    if batchId.value >= |db.batches| || scheduled.BadDate? || executed.BadDate? {
      return Fail(500, "Failed to create irrigation event");
    }
    var b := batchId.value;
    var day := ExecutedDayFor(executed, status, today);
    r := Ok(|db.events|);
    db.events := db.events + [IrrigationEvent(b, scheduled.day, day, eventStatus, waterLiters, wateringMethod, notes, userId)];
    if eventStatus == Completed && day.Some? {
      db.batches := db.batches[b := db.batches[b].(lastIrrigation := day)];
    }
  }

  /** `completeIrrigation`. An unknown event or an unreadable date makes the store throw (500,
      nothing written). Otherwise the event becomes completed on the given day or today,
      takes the given amount and notes (an absent one leaves the stored value), and its
      batch's last irrigation day becomes that day. */
  method CompleteIrrigation(db: Db, eventId: nat, executed: DateInput, waterLiters: Option<real>,
                            notes: Option<string>, today: Day)
    returns (r: Reply<IrrigationEvent>)
    requires db.Valid()
    modifies db
    ensures db.Valid()
    ensures r.Fail? <==> eventId >= old(|db.events|) || executed.BadDate?
    ensures r.Fail? ==> r.code == 500 && db.Snapshot() == old(db.Snapshot())
    ensures r.Ok? ==>
      var e := old(db.events[eventId]);
      var day := if executed.OnDay? then executed.day else today;
      && r.value == e.(executedDay := Some(day), status := Completed,
                       waterLiters := if waterLiters.Some? then waterLiters else e.waterLiters,
                       notes := if notes.Some? then notes else e.notes)
      && db.Snapshot() == old(db.Snapshot()).(
           events := old(db.events)[eventId := r.value],
           batches := old(db.batches)[e.batchId := old(db.batches[e.batchId]).(lastIrrigation := Some(day))])
  {
    if eventId >= |db.events| || executed.BadDate? {
      return Fail(500, "Failed to complete irrigation");
    }
    var e := db.events[eventId];
    var day := if executed.OnDay? then executed.day else today;
    var updated := e.(executedDay := Some(day), status := Completed,
                      waterLiters := if waterLiters.Some? then waterLiters else e.waterLiters,
                      notes := if notes.Some? then notes else e.notes);
    db.events := db.events[eventId := updated];
    db.batches := db.batches[e.batchId := db.batches[e.batchId].(lastIrrigation := Some(day))];
    r := Ok(updated);
  }

  datatype Severity = Overdue | Critical

  /** An element of the overdue list: the batch row with `days_overdue` and `severity`. */
  datatype OverdueEntry = OverdueEntry(batch: BatchView, daysOverdue: int, severity: Severity)

  /** The `days_overdue` reported for a batch that was never irrigated. */
  const NeverIrrigatedDays: int := 999

  /** Days since the batch fell due, as the map step computes it. */
  function DaysLate(b: BatchView, today: Day): int
    requires b.lastIrrigation.Some?
  {
    DaysBetween(AddDays(b.lastIrrigation.value, b.frequencyDays), today)
  }

  /** The map step followed by the `null` filter for one batch: a never-irrigated batch is
      critical at 999 days; a batch due today or later is dropped; any other is overdue for 1
      or 2 days and critical beyond. */
  function OverdueEntryOf(b: BatchView, today: Day): (r: Option<OverdueEntry>)
    ensures r.Some? <==> b.lastIrrigation.None? || DaysLate(b, today) >= 1
    ensures r.Some? ==> r.value.batch == b
    ensures r.Some? && b.lastIrrigation.None? ==> r.value.daysOverdue == NeverIrrigatedDays && r.value.severity == Critical
    ensures r.Some? && b.lastIrrigation.Some? ==>
      && r.value.daysOverdue == DaysLate(b, today)
      && (r.value.severity == Critical <==> r.value.daysOverdue > 2)
  {
    if b.lastIrrigation.None? then Some(OverdueEntry(b, NeverIrrigatedDays, Critical))
    else
      var daysOverdue := DaysLate(b, today);
      if daysOverdue <= 0 then None
      else Some(OverdueEntry(b, daysOverdue, if daysOverdue > 2 then Critical else Overdue))
  }

  /** The entries of the batches that need water, in the order the store returned them. */
  function OverdueCandidates(bs: seq<BatchView>, today: Day): (r: seq<OverdueEntry>)
    ensures forall e :: e in r ==> e.batch in bs && OverdueEntryOf(e.batch, today) == Some(e)
    ensures forall b :: b in bs && OverdueEntryOf(b, today).Some? ==> OverdueEntryOf(b, today).value in r
  {
    if bs == [] then []
    else
      var rest := OverdueCandidates(bs[1..], today);
      match OverdueEntryOf(bs[0], today)
      case Some(e) => [e] + rest
      case None => rest
  }

  /** The sort key of `(a, b) => b.days_overdue - a.days_overdue`. */
  function MostOverdueFirst(e: OverdueEntry): int
  {
    -e.daysOverdue
  }

  /** The overdue list of the given batches: every batch that needs water, once, most days
      overdue first; entries with equal days keep the store's order. */
  function OverdueList(bs: seq<BatchView>, today: Day): (r: seq<OverdueEntry>)
    ensures multiset(r) == multiset(OverdueCandidates(bs, today))
    ensures forall i, j :: 0 <= i < j < |r| ==> r[i].daysOverdue >= r[j].daysOverdue
  {
    var r := SortBy(OverdueCandidates(bs, today), MostOverdueFirst);
    assert forall i, j :: 0 <= i < j < |r| ==> MostOverdueFirst(r[i]) <= MostOverdueFirst(r[j]);
    r
  }

  /** `getOverdueIrrigation`: the overdue list of the batches that are not soft-deleted,
      restricted to the user's live fields when a user is given. */
  function GetOverdueIrrigation(t: Tables, userId: string, today: Day): (r: seq<OverdueEntry>)
    requires WellFormed(t)
    ensures forall e :: e in r ==>
      && e.batch.id < |t.batches| && InScope(t, e.batch.id, userId) && e.batch == ViewOf(t, e.batch.id)
      && NeedsWater(e.batch, today) && OverdueEntryOf(e.batch, today) == Some(e)
    ensures forall id: nat :: id < |t.batches| && InScope(t, id, userId) && NeedsWater(ViewOf(t, id), today) ==>
      OverdueEntryOf(ViewOf(t, id), today).Some? && OverdueEntryOf(ViewOf(t, id), today).value in r
    ensures forall i, j :: 0 <= i < j < |r| ==> r[i].daysOverdue >= r[j].daysOverdue
    ensures OneEntryPerBatch(r)
  {
    var bs := ScopedBatches(t, userId);
    ScopedBatchesMembers(t, userId);
    OverdueListMembers(bs, today);
    OverdueListOnePerBatch(bs, today);
    OverdueList(bs, today)
  }

  /** No two entries are for the same batch. */
  predicate OneEntryPerBatch(es: seq<OverdueEntry>)
  {
    forall i, j :: 0 <= i < j < |es| ==> es[i].batch.id != es[j].batch.id
  }

  /** Batches with different ids give entries for different batches, each batch once. */
  lemma {:induction false} CandidatesOnePerBatch(bs: seq<BatchView>, today: Day)
    requires forall i, j :: 0 <= i < j < |bs| ==> bs[i].id != bs[j].id
    ensures OneEntryPerBatch(OverdueCandidates(bs, today))
  {
    if bs != [] {
      var rest := OverdueCandidates(bs[1..], today);
      CandidatesOnePerBatch(bs[1..], today);
      forall e | e in rest
        ensures e.batch.id != bs[0].id
      {
        var k :| 0 <= k < |bs[1..]| && bs[1..][k] == e.batch;
        assert bs[k + 1] == e.batch;
      }
      if OverdueEntryOf(bs[0], today).Some? {
        ConsOneEntryPerBatch(OverdueEntryOf(bs[0], today).value, rest);
      }
    }
  }

  /** An entry for a batch that `rest` has no entry for keeps one entry per batch. */
  lemma ConsOneEntryPerBatch(e: OverdueEntry, rest: seq<OverdueEntry>)
    requires OneEntryPerBatch(rest) && forall x :: x in rest ==> x.batch.id != e.batch.id
    ensures OneEntryPerBatch([e] + rest)
  {
    var c := [e] + rest;
    forall i, j | 0 <= i < j < |c|
      ensures c[i].batch.id != c[j].batch.id
    {
      assert c[j] == rest[j - 1];
      if i > 0 {
        assert c[i] == rest[i - 1];
      }
    }
  }

  /** Queried batches with distinct ids each appear at most once in the overdue list. */
  lemma OverdueListOnePerBatch(bs: seq<BatchView>, today: Day)
    requires forall i, j :: 0 <= i < j < |bs| ==> bs[i].id != bs[j].id
    ensures OneEntryPerBatch(OverdueList(bs, today))
  {
    var c := OverdueCandidates(bs, today);
    var r := OverdueList(bs, today);
    CandidatesOnePerBatch(bs, today);
    forall i, j | 0 <= i < j < |c|
      ensures c[i] != c[j]
    {
      assert c[i].batch.id != c[j].batch.id;
    }
    assert Seqs.Distinct(c);
    Seqs.DistinctPermutation(r, c);
    OverdueListMembers(bs, today);
    forall i, j | 0 <= i < j < |r|
      ensures r[i].batch.id != r[j].batch.id
    {
      if r[i].batch.id == r[j].batch.id {
        assert false;
      }
    }
  }

  /** The batch needs water today: it was never irrigated, or its due day has passed. */
  predicate NeedsWater(b: BatchView, today: Day)
  {
    b.lastIrrigation.None? || DaysLate(b, today) >= 1
  }

  /** Every entry comes from a queried batch that needs water, and is the entry the map step
      makes for it: a never-irrigated batch at 999 days and critical, any other batch at
      least one day overdue and critical exactly beyond two days. */
  lemma OverdueListEntries(bs: seq<BatchView>, today: Day)
    ensures forall e :: e in OverdueList(bs, today) ==>
      && e.batch in bs
      && NeedsWater(e.batch, today)
      && (e.batch.lastIrrigation.None? ==> e.daysOverdue == NeverIrrigatedDays && e.severity == Critical)
      && (e.batch.lastIrrigation.Some? ==>
            e.daysOverdue == DaysLate(e.batch, today) >= 1 && (e.severity == Critical <==> e.daysOverdue > 2))
  {
    var r := OverdueList(bs, today);
    forall e | e in r
      ensures e.batch in bs && OverdueEntryOf(e.batch, today) == Some(e)
    {
      assert e in multiset(r);
      assert e in OverdueCandidates(bs, today);
    }
  }

  /** Every queried batch that needs water has its entry in the list. */
  lemma OverdueListComplete(bs: seq<BatchView>, today: Day, b: BatchView)
    requires b in bs && NeedsWater(b, today)
    ensures OverdueEntryOf(b, today).Some? && OverdueEntryOf(b, today).value in OverdueList(bs, today)
  {
    var e := OverdueEntryOf(b, today).value;
    assert e in OverdueCandidates(bs, today);
    assert e in multiset(OverdueList(bs, today));
  }

  /** The list holds exactly the entries of the queried batches that need water. */
  lemma OverdueListMembers(bs: seq<BatchView>, today: Day)
    ensures forall e :: e in OverdueList(bs, today) ==>
      e.batch in bs && NeedsWater(e.batch, today) && OverdueEntryOf(e.batch, today) == Some(e)
    ensures forall b :: b in bs && NeedsWater(b, today) ==>
      OverdueEntryOf(b, today).Some? && OverdueEntryOf(b, today).value in OverdueList(bs, today)
  {
    var r := OverdueList(bs, today);
    forall e | e in r
      ensures e.batch in bs && NeedsWater(e.batch, today) && OverdueEntryOf(e.batch, today) == Some(e)
    {
      assert e in multiset(r);
      assert e in OverdueCandidates(bs, today);
    }
    forall b | b in bs && NeedsWater(b, today)
      ensures OverdueEntryOf(b, today).Some? && OverdueEntryOf(b, today).value in OverdueList(bs, today)
    {
      OverdueListComplete(bs, today, b);
    }
  }

  /** Never-irrigated batches come first, provided no irrigated batch is 999 or more days late. */
  lemma {:induction false} NeverIrrigatedFirst(bs: seq<BatchView>, today: Day)
    requires forall b :: b in bs && b.lastIrrigation.Some? ==> DaysLate(b, today) < NeverIrrigatedDays
    ensures forall i, j :: 0 <= i < j < |OverdueList(bs, today)| && OverdueList(bs, today)[j].batch.lastIrrigation.None? ==>
              OverdueList(bs, today)[i].batch.lastIrrigation.None?
  {
    var r := OverdueList(bs, today);
    OverdueListEntries(bs, today);
    forall i, j | 0 <= i < j < |r| && r[j].batch.lastIrrigation.None?
      ensures r[i].batch.lastIrrigation.None?
    {
      assert r[i] in r && r[j] in r;
    }
  }

  /** Entries with the same number of overdue days keep the order the store returned them in. */
  lemma OverdueTiesKeepStoreOrder(bs: seq<BatchView>, today: Day, days: int)
    ensures WithKey(OverdueList(bs, today), MostOverdueFirst, -days)
         == WithKey(OverdueCandidates(bs, today), MostOverdueFirst, -days)
  {
    var c := OverdueCandidates(bs, today);
    assert OverdueList(bs, today) == SortBy(c, MostOverdueFirst);
    SortedTiesKeepOrder(c, -days);
  }

  lemma SortedTiesKeepOrder(c: seq<OverdueEntry>, k: int)
    ensures WithKey(SortBy(c, MostOverdueFirst), MostOverdueFirst, k) == WithKey(c, MostOverdueFirst, k)
  {
    SortByIsStable(c, MostOverdueFirst, k);
  }
}
