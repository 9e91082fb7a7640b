/** The JSON import: `parseLocalDateTime` and the record loop of `importData`. Each record
    finds or creates a field, a plant type and a batch, then records its event; the loop
    counts the records that went through and logs the ones that failed. A failed record
    keeps whatever it wrote before failing: the loop is not a transaction. */
module ImportController {
  import opened Wrappers
  import opened LocalDays
  import opened Seqs
  import opened Decimal
  import opened Store

  /** `Number(part)` for a piece of a date: "" is 0, a run of ASCII digits is its value, and
      any other text is NaN, here `None`. */
  function NumberOf(part: string): Option<int>
  {
    if AllDigits(part) then Some(DigitsValue(part)) else None
  }

  /** `parseLocalDateTime` to the day: split on '-', read year, month and day with `Number`
      and build `new Date(year, month - 1, day)`. A missing part or a NaN gives the Invalid
      Date, `None`; parts after the third are ignored. */
  function ParseLocalDate(text: string): (r: Option<Day>)
    ensures '-' !in text ==> r.None?
    ensures r.Some? ==> -MaxDay <= r.value <= MaxDay
  {
    var parts := Split(text, '-');
    if '-' !in text then
      SplitNone(text, '-');
      None
    else if |parts| < 3 then None
    else
      match (NumberOf(parts[0]), NumberOf(parts[1]), NumberOf(parts[2]))
      case (Some(year), Some(month), Some(day)) => MakeLocalDay(year, month - 1, day)
      case _ => None
  }

  /** A month or day written with two digits, as in `2024-03-05`. */
  function TwoDigits(n: nat): string
    requires n < 100
  {
    if n < 10 then "0" + NatToString(n) else NatToString(n)
  }

  /** The `YYYY-MM-DD` text of a calendar day. */
  function DateText(year: nat, month: nat, day: nat): string
    requires month < 100 && day < 100
  {
    NatToString(year) + "-" + TwoDigits(month) + "-" + TwoDigits(day)
  }

  lemma {:induction false} TwoDigitsValue(n: nat)
    requires n < 100
    ensures AllDigits(TwoDigits(n)) && NumberOf(TwoDigits(n)) == Some(n)
  {
    DigitsValueOfNatToString(n);
    if n < 10 {
      LeadingZero(NatToString(n));
    }
  }

  lemma DigitsHaveNoDash(s: string)
    requires AllDigits(s)
    ensures '-' !in s
  {
    forall i | 0 <= i < |s| ensures s[i] != '-' {
      assert IsDigit(s[i]);
    }
  }

  /** Reading back the `YYYY-MM-DD` text of a day with a four-digit year gives that day. */
  lemma {:induction false} ParseDateText(year: nat, month: nat, day: nat)
    requires 100 <= year <= 9999 && 1 <= month <= 12 && 1 <= day <= 31
    ensures ParseLocalDate(DateText(year, month, day)) == Some(DaysFromCivil(year, month, 1) + day - 1)
  {
    var y, m, d := NatToString(year), TwoDigits(month), TwoDigits(day);
    DigitsValueOfNatToString(year);
    TwoDigitsValue(month);
    TwoDigitsValue(day);
    DigitsHaveNoDash(y);
    DigitsHaveNoDash(m);
    DigitsHaveNoDash(d);
    SplitThree(y, m, d);
    ParseThreeParts(DateText(year, month, day), y, m, d);
    MakeLocalDayInYear(year, month, day);
  }

  lemma {:induction false} SplitThree(y: string, m: string, d: string)
    requires '-' !in y && '-' !in m && '-' !in d
    ensures Split(y + "-" + m + "-" + d, '-') == [y, m, d]
    ensures '-' in y + "-" + m + "-" + d
  {
    assert y + "-" + m + "-" + d == y + ['-'] + (m + ['-'] + d);
    assert (y + "-" + m + "-" + d)[|y|] == '-';
    SplitPrefix(y, m + ['-'] + d, '-');
    SplitPrefix(m, d, '-');
    SplitNone(d, '-');
  }

  lemma ParseThreeParts(text: string, y: string, m: string, d: string)
    requires '-' in text && Split(text, '-') == [y, m, d]
    requires NumberOf(y).Some? && NumberOf(m).Some? && NumberOf(d).Some?
    ensures ParseLocalDate(text) == MakeLocalDay(NumberOf(y).value, NumberOf(m).value - 1, NumberOf(d).value)
  {
  }


  /** `record.plant_name || record.plant_type`: the record names a plant. */
  predicate NamesPlant(rec: ImportRecord)
  {
    rec.plantName != "" || rec.plantType != ""
  }

  /** `record.plant_type || 'Unknown'`. */
  function TypeNameOf(rec: ImportRecord): string
  {
    if rec.plantType != "" then rec.plantType else "Unknown"
  }

  /** `record.plant_name || \`${record.plant_type} Batch\``. */
  function BatchNameOf(rec: ImportRecord): string
  {
    if rec.plantName != "" then rec.plantName else rec.plantType + " Batch"
  }

  /** The columns of the `where` objects of the four look-ups. */
  function FieldKey(f: Field): (string, string, bool)
  {
    (f.userId, f.name, f.deleted)
  }

  function TypeKey(p: PlantType): string
  {
    p.name
  }

  function BatchKey(b: Batch): (nat, string, nat, bool)
  {
    (b.fieldId, b.name, b.plantTypeId, b.deleted)
  }

  function EventKey(e: IrrigationEvent): (nat, Day)
  {
    (e.batchId, e.scheduledDay)
  }

  /** A row found or created, and the tables after the look-up. */
  datatype Found = Found(tables: Tables, id: nat)

  /** Find or create the field: the first live field of the user with that name, or a new one
      appended. Either way the row is the first match of the tables that follow. */
  function FieldFor(t: Tables, user: string, name: string): (r: Found)
    requires WellFormed(t)
    ensures WellFormed(r.tables)
    ensures FirstWithKey(r.tables.fields, FieldKey, (user, name, false)) == Some(r.id)
    ensures r.tables == t <==> FirstWithKey(t.fields, FieldKey, (user, name, false)).Some?
    ensures r.tables != t ==> r.tables == t.(fields := t.fields + [Field(user, name, false)])
  {
    match FirstWithKey(t.fields, FieldKey, (user, name, false))
    case Some(i) => Found(t, i)
    case None =>
      FirstWithKeyAppend(t.fields, Field(user, name, false), FieldKey, (user, name, false));
      Found(t.(fields := t.fields + [Field(user, name, false)]), |t.fields|)
  }

  /** Find or create the plant type by name; a new type is watered every 7 days. */
  function PlantTypeFor(t: Tables, name: string): (r: Found)
    requires WellFormed(t)
    ensures WellFormed(r.tables)
    ensures FirstWithKey(r.tables.plantTypes, TypeKey, name) == Some(r.id)
    ensures r.tables == t <==> FirstWithKey(t.plantTypes, TypeKey, name).Some?
    ensures r.tables != t ==> r.tables == t.(plantTypes := t.plantTypes + [PlantType(name, 7)])
  {
    match FirstWithKey(t.plantTypes, TypeKey, name)
    case Some(i) => Found(t, i)
    case None =>
      FirstWithKeyAppend(t.plantTypes, PlantType(name, 7), TypeKey, name);
      Found(t.(plantTypes := t.plantTypes + [PlantType(name, 7)]), |t.plantTypes|)
  }

  /** Find or create the live batch of that field, type and name. A new batch is planted on
      the record's day; when that day is the Invalid Date the store refuses the row (`None`). */
  function BatchFor(t: Tables, fieldId: nat, typeId: nat, name: string, planting: Option<Day>): (r: Option<Found>)
    requires WellFormed(t) && fieldId < |t.fields| && typeId < |t.plantTypes|
    ensures r.None? <==> FirstWithKey(t.batches, BatchKey, (fieldId, name, typeId, false)).None? && planting.None?
    ensures r.Some? ==> WellFormed(r.value.tables)
    ensures r.Some? ==> FirstWithKey(r.value.tables.batches, BatchKey, (fieldId, name, typeId, false)) == Some(r.value.id)
    ensures r.Some? ==> (r.value.tables == t <==> FirstWithKey(t.batches, BatchKey, (fieldId, name, typeId, false)).Some?)
    ensures r.Some? && r.value.tables != t ==>
      r.value.tables == t.(batches := t.batches + [Batch(fieldId, typeId, name, planting.value, None, "healthy", None, false)])
  {
    match FirstWithKey(t.batches, BatchKey, (fieldId, name, typeId, false))
    case Some(i) => Some(Found(t, i))
    case None =>
      if planting.None? then None
      else
        var b := Batch(fieldId, typeId, name, planting.value, None, "healthy", None, false);
        FirstWithKeyAppend(t.batches, b, BatchKey, (fieldId, name, typeId, false));
        Some(Found(t.(batches := t.batches + [b]), |t.batches|))
  }

  /** The tables after a record, and the error that ended it, if any. */
  datatype StepResult = StepResult(tables: Tables, error: Option<ImportError>)

  /** `record.note`, absent when empty. */
  function NoteText(note: string): Option<string>
  {
    if note == "" then None else Some(note)
  }

  /** The `irrigation` case for batch `b`: an event of that batch already scheduled on the
      day is a duplicate and fails; otherwise one completed, imported event on the day is
      added and becomes the batch's last irrigation. */
  function IrrigationStep(t: Tables, user: string, b: nat, day: Option<Day>, note: string): (r: StepResult)
    requires WellFormed(t) && b < |t.batches|
    ensures WellFormed(r.tables)
    ensures r.error.None? <==> day.Some? && FirstWithKey(t.events, EventKey, (b, day.value)).None?
    ensures r.error.Some? ==> r.tables == t
    ensures day.None? ==> r.error == Some(StoreRejected)
    ensures day.Some? && r.error.Some? ==> r.error == Some(DuplicateIrrigation(t.batches[b].name))
    ensures r.error.None? ==>
      r.tables == t.(events := t.events + [IrrigationEvent(b, day.value, day, Completed, None, Some("imported"), NoteText(note), user)],
                     batches := t.batches[b := t.batches[b].(lastIrrigation := day)])
  {
    if day.None? then StepResult(t, Some(StoreRejected))
    else if FirstWithKey(t.events, EventKey, (b, day.value)).Some? then
      StepResult(t, Some(DuplicateIrrigation(t.batches[b].name)))
    else
      StepResult(t.(events := t.events + [IrrigationEvent(b, day.value, day, Completed, None, Some("imported"), NoteText(note), user)],
                    batches := t.batches[b := t.batches[b].(lastIrrigation := day)]),
                 None)
  }

  /** The `observation` and `problem` cases: one note on the day, a `disease` note for a
      problem, with a default text when the record has none. */
  function NoteStep(t: Tables, user: string, b: nat, problem: bool, day: Option<Day>, note: string): (r: StepResult)
    requires WellFormed(t) && b < |t.batches|
    ensures WellFormed(r.tables)
    ensures r.error.None? <==> day.Some?
    ensures r.error.Some? ==> r == StepResult(t, Some(StoreRejected))
    ensures r.error.None? ==> r.tables.(notes := t.notes) == t && |r.tables.notes| == |t.notes| + 1
    ensures r.error.None? ==>
      var n := r.tables.notes[|t.notes|];
      && n.batchId == b && n.createdBy == user && n.createdOn == day.value
      && (n.noteType == "disease" <==> problem) && (!problem ==> n.noteType == "observation")
      && (n.content == if note != "" then note else "Imported observation")
  {
    if day.None? then StepResult(t, Some(StoreRejected))
    else
      var content := if note != "" then note else "Imported observation";
      StepResult(t.(notes := t.notes + [Note(b, user, if problem then "disease" else "observation", content, day.value)]), None)
  }

  /** The `status_change` case: nothing happens when the batch already has the status;
      otherwise the batch takes it, then one history row records the change and the status
      it replaced. An Invalid Date fails the record after the batch was updated. */
  function StatusStep(t: Tables, user: string, b: nat, status: string, day: Option<Day>, note: string): (r: StepResult)
    requires WellFormed(t) && b < |t.batches|
    ensures WellFormed(r.tables)
    ensures t.batches[b].status == status ==> r == StepResult(t, None)
    ensures t.batches[b].status != status ==>
      && r.tables.batches == t.batches[b := t.batches[b].(status := status)]
      && (r.error.None? <==> day.Some?)
      && (r.error.Some? ==> r.error == Some(StoreRejected) && r.tables.history == t.history)
      && (r.error.None? ==>
            r.tables.history == t.history + [StatusChange(b, status, Some(t.batches[b].status), user,
                                                          Some(if note != "" then note else "Imported status change"), None, day.value)])
    ensures r.tables.(batches := t.batches, history := t.history) == t
  {
    var previous := t.batches[b].status;
    if previous == status then StepResult(t, None)
    else
      var updated := t.(batches := t.batches[b := t.batches[b].(status := status)]);
      if day.None? then StepResult(updated, Some(StoreRejected))
      else
        var reason := if note != "" then note else "Imported status change";
        StepResult(updated.(history := t.history + [StatusChange(b, status, Some(previous), user, Some(reason), None, day.value)]), None)
  }

  /** The `switch` on the event type for batch `b`; any other event type, or a status change
      without a status, does nothing. */
  function EventStep(t: Tables, user: string, rec: ImportRecord, b: nat, day: Option<Day>): (r: StepResult)
    requires WellFormed(t) && b < |t.batches|
    ensures WellFormed(r.tables)
    ensures r.tables.fields == t.fields && r.tables.plantTypes == t.plantTypes && r.tables.jobs == t.jobs
    ensures |r.tables.batches| == |t.batches|
    ensures AtMostOneAdded(t.events, r.tables.events) && AtMostOneAdded(t.notes, r.tables.notes)
    ensures AtMostOneAdded(t.history, r.tables.history)
    ensures r.error != Some(MissingFields)
  {
    if rec.eventType == "irrigation" then IrrigationStep(t, user, b, day, rec.note)
    else if rec.eventType == "observation" || rec.eventType == "problem" then
      NoteStep(t, user, b, rec.eventType == "problem", day, rec.note)
    else if rec.eventType == "status_change" && rec.status != "" then
      StatusStep(t, user, b, rec.status, day, rec.note)
    else StepResult(t, None)
  }

  /** The record lacks one of `date`, `field_name` and `event_type`. */
  predicate LacksRequired(rec: ImportRecord)
  {
    rec.date == "" || rec.fieldName == "" || rec.eventType == ""
  }

  /** `b` is `a`, or `a` with one row added. */
  predicate AtMostOneAdded<T(==)>(a: seq<T>, b: seq<T>)
  {
    b == a || (|b| == |a| + 1 && b[..|a|] == a)
  }

  /** The body of the loop for one record. A record lacking a required value fails with
      nothing written; a record naming no plant only finds or creates its field; otherwise
      field, plant type and batch are found or created in turn and the event is recorded.
      A record adds at most one row to each table and never touches the import jobs. */
  function ImportStep(t: Tables, user: string, rec: ImportRecord): (r: StepResult)
    requires WellFormed(t)
    ensures WellFormed(r.tables) && r.tables.jobs == t.jobs
    ensures r.error == Some(MissingFields) <==> LacksRequired(rec)
    ensures LacksRequired(rec) ==> r.tables == t
    ensures !LacksRequired(rec) && !NamesPlant(rec) ==> r.error.None? && r.tables == FieldFor(t, user, rec.fieldName).tables
  {
    if LacksRequired(rec) then StepResult(t, Some(MissingFields))
    else
      var day := ParseLocalDate(rec.date);
      var field := FieldFor(t, user, rec.fieldName);
      if !NamesPlant(rec) then StepResult(field.tables, None)
      else
        var plantType := PlantTypeFor(field.tables, TypeNameOf(rec));
        match BatchFor(plantType.tables, field.id, plantType.id, BatchNameOf(rec), day)
        case None => StepResult(plantType.tables, Some(StoreRejected))
        case Some(batch) => EventStep(batch.tables, user, rec, batch.id, day)
  }

  /** A record adds at most one row to each table: find-or-create makes at most one field,
      one plant type and one batch, and the event at most one event, note or history row. */
  lemma ImportStepAddsAtMostOne(t: Tables, user: string, rec: ImportRecord)
    requires WellFormed(t)
    ensures var r := ImportStep(t, user, rec).tables;
      && AtMostOneAdded(t.fields, r.fields) && AtMostOneAdded(t.plantTypes, r.plantTypes)
      && |t.batches| <= |r.batches| <= |t.batches| + 1
      && AtMostOneAdded(t.events, r.events) && AtMostOneAdded(t.notes, r.notes)
      && AtMostOneAdded(t.history, r.history)
  {
    if !LacksRequired(rec) {
      var field := FieldFor(t, user, rec.fieldName);
      var f := field.tables;
      assert f.plantTypes == t.plantTypes && f.batches == t.batches;
      assert f.events == t.events && f.notes == t.notes && f.history == t.history;
      assert AtMostOneAdded(t.fields, f.fields);
      if !NamesPlant(rec) {
        assert ImportStep(t, user, rec).tables == f;
      } else {
        var plantType := PlantTypeFor(f, TypeNameOf(rec));
        var p := plantType.tables;
        assert p.fields == f.fields && p.batches == t.batches;
        assert p.events == t.events && p.notes == t.notes && p.history == t.history;
        assert AtMostOneAdded(t.plantTypes, p.plantTypes);
        var day := ParseLocalDate(rec.date);
        var batch := BatchFor(p, field.id, plantType.id, BatchNameOf(rec), day);
        if batch.None? {
          assert ImportStep(t, user, rec).tables == p;
        } else {
          var b := batch.value.tables;
          assert b.fields == f.fields && b.plantTypes == p.plantTypes;
          assert b.events == t.events && b.notes == t.notes && b.history == t.history;
          assert |t.batches| <= |b.batches| <= |t.batches| + 1;
          var r := EventStep(b, user, rec, batch.value.id, day);
          assert ImportStep(t, user, rec).tables == r.tables;
        }
      }
    }
  }


  /** After the `irrigation` case on a valid day, the batch has an event on that day,
      whichever way the case went, and no look-up key of a field, type or batch changed. */
  lemma IrrigationLeavesEvent(t: Tables, user: string, b: nat, day: Option<Day>, note: string)
    requires WellFormed(t) && b < |t.batches| && day.Some?
    ensures var once := IrrigationStep(t, user, b, day, note).tables;
      && FirstWithKey(once.events, EventKey, (b, day.value)).Some?
      && once.fields == t.fields && once.plantTypes == t.plantTypes && |once.batches| == |t.batches|
      && forall j :: 0 <= j < |t.batches| ==> BatchKey(once.batches[j]) == BatchKey(t.batches[j])
  {
    var r := IrrigationStep(t, user, b, day, note);
    if r.error.None? {
      var e := IrrigationEvent(b, day.value, day, Completed, None, Some("imported"), NoteText(note), user);
      assert r.tables.events == t.events + [e];
      FirstWithKeyAppend(t.events, e, EventKey, (b, day.value));
    }
  }

  /** Importing a complete irrigation record a second time finds the same field, plant type
      and batch, writes nothing and fails as a duplicate of the first. */
  lemma {:induction false} RepeatedIrrigationIsDuplicate(t: Tables, user: string, rec: ImportRecord)
    requires WellFormed(t)
    requires !LacksRequired(rec) && rec.eventType == "irrigation" && NamesPlant(rec)
    requires ParseLocalDate(rec.date).Some?
    ensures var once := ImportStep(t, user, rec).tables;
            ImportStep(once, user, rec) == StepResult(once, Some(DuplicateIrrigation(BatchNameOf(rec))))
  {
    var day := ParseLocalDate(rec.date);
    var field := FieldFor(t, user, rec.fieldName);
    var plantType := PlantTypeFor(field.tables, TypeNameOf(rec));
    var key := (field.id, BatchNameOf(rec), plantType.id, false);
    var batch := BatchFor(plantType.tables, field.id, plantType.id, BatchNameOf(rec), day).value;
    var b := batch.id;
    var once := IrrigationStep(batch.tables, user, b, day, rec.note).tables;
    assert ImportStep(t, user, rec).tables == once;
    IrrigationLeavesEvent(batch.tables, user, b, day, rec.note);
    assert FieldFor(once, user, rec.fieldName) == Found(once, field.id);
    assert PlantTypeFor(once, TypeNameOf(rec)) == Found(once, plantType.id);
    FirstWithKeySameKeys(once.batches, batch.tables.batches, BatchKey, key);
    assert BatchFor(once, field.id, plantType.id, BatchNameOf(rec), day) == Some(Found(once, b));
    assert once.batches[b].name == BatchNameOf(rec);
    assert IrrigationStep(once, user, b, day, rec.note) == StepResult(once, Some(DuplicateIrrigation(BatchNameOf(rec))));
  }

  /** The loop so far: the tables, the number of records that went through and the error log. */
  datatype ImportState = ImportState(tables: Tables, successful: nat, failures: seq<ImportFailure>)

  /** The loop over `records`, from the tables that hold the new job: each record either
      counts as a success or adds one entry, with its 0-based index, to the error log. */
  function ImportAll(t: Tables, user: string, records: seq<ImportRecord>): (r: ImportState)
    requires WellFormed(t)
    ensures WellFormed(r.tables) && r.tables.jobs == t.jobs
    ensures r.successful + |r.failures| == |records|
    ensures forall k :: 0 <= k < |r.failures| ==>
      r.failures[k].recordIndex < |records| && r.failures[k].record == records[r.failures[k].recordIndex]
    ensures forall j, k :: 0 <= j < k < |r.failures| ==> r.failures[j].recordIndex < r.failures[k].recordIndex
    decreases |records|
  {
    if records == [] then ImportState(t, 0, [])
    else
      var i := |records| - 1;
      var before := ImportAll(t, user, records[..i]);
      var step := ImportStep(before.tables, user, records[i]);
      AdvanceLog(before, records, step);
      Advance(before, i, records[i], step)
  }

  /** One more record keeps the loop's accounting: counts add up, and the log stays in record
      order with each entry naming its own record. */
  lemma AdvanceLog(before: ImportState, records: seq<ImportRecord>, step: StepResult)
    requires records != []
    requires before.successful + |before.failures| == |records| - 1
    requires forall k :: 0 <= k < |before.failures| ==>
      before.failures[k].recordIndex < |records[..|records| - 1]| &&
      before.failures[k].record == records[..|records| - 1][before.failures[k].recordIndex]
    requires forall j, k :: 0 <= j < k < |before.failures| ==> before.failures[j].recordIndex < before.failures[k].recordIndex
    ensures var r := Advance(before, |records| - 1, records[|records| - 1], step);
      && r.successful + |r.failures| == |records|
      && (forall k :: 0 <= k < |r.failures| ==>
            r.failures[k].recordIndex < |records| && r.failures[k].record == records[r.failures[k].recordIndex])
      && (forall j, k :: 0 <= j < k < |r.failures| ==> r.failures[j].recordIndex < r.failures[k].recordIndex)
  {
    var r := Advance(before, |records| - 1, records[|records| - 1], step);
    assert forall k :: 0 <= k < |before.failures| ==> r.failures[k] == before.failures[k];
  }

  /** The loop state after record `i`, whose step gave `step`. */
  function Advance(before: ImportState, i: nat, rec: ImportRecord, step: StepResult): (r: ImportState)
    ensures r.tables == step.tables
    ensures step.error.None? ==> r.successful == before.successful + 1 && r.failures == before.failures
    ensures step.error.Some? ==>
      r.successful == before.successful && r.failures == before.failures + [ImportFailure(i, rec, step.error.value)]
  {
    match step.error
    case None => ImportState(step.tables, before.successful + 1, before.failures)
    case Some(e) => ImportState(step.tables, before.successful, before.failures + [ImportFailure(i, rec, e)])
  }

  /** One more record of the loop. */
  lemma ImportAllNext(t: Tables, user: string, records: seq<ImportRecord>, i: nat)
    requires WellFormed(t) && i < |records|
    ensures var before := ImportAll(t, user, records[..i]);
      ImportAll(t, user, records[..i + 1]) == Advance(before, i, records[i], ImportStep(before.tables, user, records[i]))
  {
    assert records[..i + 1][..i] == records[..i];
  }

  /** The step of record `i`, taken on the tables the records before it left. */
  function StepAt(t: Tables, user: string, records: seq<ImportRecord>, i: nat): StepResult
    requires WellFormed(t) && i < |records|
  {
    ImportStep(ImportAll(t, user, records[..i]).tables, user, records[i])
  }

  /** The records before the last one see the same steps in the whole run as in the run
      over them alone. */
  lemma StepAtPrefix(t: Tables, user: string, records: seq<ImportRecord>, n: nat)
    requires WellFormed(t) && n <= |records|
    ensures forall i :: 0 <= i < n ==> StepAt(t, user, records, i) == StepAt(t, user, records[..n], i)
  {
    forall i | 0 <= i < n
      ensures StepAt(t, user, records, i) == StepAt(t, user, records[..n], i)
    {
      assert records[..i] == records[..n][..i];
    }
  }

  /** Every entry of the error log is a record whose step failed, with that step's error. */
  lemma {:induction false} ImportAllFailuresFailed(t: Tables, user: string, records: seq<ImportRecord>)
    requires WellFormed(t)
    ensures forall k :: 0 <= k < |ImportAll(t, user, records).failures| ==>
      var f := ImportAll(t, user, records).failures[k];
      f.recordIndex < |records| && StepAt(t, user, records, f.recordIndex).error == Some(f.error)
    decreases |records|
  {
    forall k | 0 <= k < |ImportAll(t, user, records).failures|
      ensures var f := ImportAll(t, user, records).failures[k];
        f.recordIndex < |records| && StepAt(t, user, records, f.recordIndex).error == Some(f.error)
    {
      FailureFailed(t, user, records, k);
    }
  }

  /** Entry `k` of the error log names a record whose step failed, with that step's error. */
  lemma {:induction false} FailureFailed(t: Tables, user: string, records: seq<ImportRecord>, k: nat)
    requires WellFormed(t) && k < |ImportAll(t, user, records).failures|
    ensures var f := ImportAll(t, user, records).failures[k];
      f.recordIndex < |records| && StepAt(t, user, records, f.recordIndex).error == Some(f.error)
    decreases |records|
  {
    var n := |records| - 1;
    var prefix := records[..n];
    var before := ImportAll(t, user, prefix).failures;
    var step := StepAt(t, user, records, n);
    var all := ImportAll(t, user, records).failures;
    FailuresOfLast(t, user, records);
    if k < |before| {
      FailureFailed(t, user, prefix, k);
      StepAtOfPrefix(t, user, records, n, before[k].recordIndex);
      assert all[k] == before[k];
    } else {
      assert all[k] == ImportFailure(n, records[n], step.error.value);
    }
  }

  /** The whole run's log is the log without the last record, plus that record's failure. */
  lemma FailuresOfLast(t: Tables, user: string, records: seq<ImportRecord>)
    requires WellFormed(t) && records != []
    ensures var n := |records| - 1;
      var step := StepAt(t, user, records, n);
      ImportAll(t, user, records).failures
        == ImportAll(t, user, records[..n]).failures + (if step.error.Some? then [ImportFailure(n, records[n], step.error.value)] else [])
  {
    var n := |records| - 1;
    ImportAllNext(t, user, records, n);
    assert records[..n + 1] == records;
  }

  /** The `record_index` values of an error log. */
  function LoggedIndices(log: seq<ImportFailure>): (r: seq<nat>)
    ensures |r| == |log| && forall k :: 0 <= k < |log| ==> r[k] == log[k].recordIndex
  {
    if log == [] then [] else LoggedIndices(log[..|log| - 1]) + [log[|log| - 1].recordIndex]
  }

  /** The last record of a run adds its index to the error log exactly when its step fails. */
  lemma LoggedLast(t: Tables, user: string, records: seq<ImportRecord>)
    requires WellFormed(t) && records != []
    ensures var n := |records| - 1;
      LoggedIndices(ImportAll(t, user, records).failures)
        == LoggedIndices(ImportAll(t, user, records[..n]).failures) + (if StepAt(t, user, records, n).error.Some? then [n] else [])
    ensures var before := LoggedIndices(ImportAll(t, user, records[..|records| - 1]).failures);
      forall k :: 0 <= k < |before| ==> before[k] < |records| - 1
  {
    var n := |records| - 1;
    var before := ImportAll(t, user, records[..n]);
    var step := StepAt(t, user, records, n);
    ImportAllNext(t, user, records, n);
    assert records[..n + 1] == records;
    LogOfAdvance(before, n, records[n], step);
  }

  /** One step adds its record's index to the logged indices exactly when it fails. */
  lemma LogOfAdvance(before: ImportState, i: nat, rec: ImportRecord, step: StepResult)
    ensures LoggedIndices(Advance(before, i, rec, step).failures)
         == LoggedIndices(before.failures) + (if step.error.Some? then [i] else [])
  {
    if step.error.Some? {
      LoggedIndicesAppend(before.failures, ImportFailure(i, rec, step.error.value));
    }
  }

  lemma LoggedIndicesAppend(log: seq<ImportFailure>, f: ImportFailure)
    ensures LoggedIndices(log + [f]) == LoggedIndices(log) + [f.recordIndex]
  {
    assert (log + [f])[..|log|] == log;
  }

  /** A record has an entry in the error log exactly when its step failed. */
  lemma {:induction false} ImportAllFailuresLogged(t: Tables, user: string, records: seq<ImportRecord>)
    requires WellFormed(t)
    ensures forall i :: 0 <= i < |records| ==>
      (i in LoggedIndices(ImportAll(t, user, records).failures) <==> StepAt(t, user, records, i).error.Some?)
    decreases |records|
  {
    forall i | 0 <= i < |records|
      ensures i in LoggedIndices(ImportAll(t, user, records).failures) <==> StepAt(t, user, records, i).error.Some?
    {
      LoggedIff(t, user, records, i);
    }
  }

  /** Record `i` is logged exactly when its step failed. */
  lemma {:induction false} LoggedIff(t: Tables, user: string, records: seq<ImportRecord>, i: nat)
    requires WellFormed(t) && i < |records|
    ensures i in LoggedIndices(ImportAll(t, user, records).failures) <==> StepAt(t, user, records, i).error.Some?
    decreases |records|
  {
    var n := |records| - 1;
    if i == n {
      LoggedAtLast(t, user, records);
    } else {
      LoggedIff(t, user, records[..n], i);
      LoggedBeforeLast(t, user, records, i);
      StepAtOfPrefix(t, user, records, n, i);
    }
  }

  /** The last record is logged exactly when its step failed. */
  lemma LoggedAtLast(t: Tables, user: string, records: seq<ImportRecord>)
    requires WellFormed(t) && records != []
    ensures |records| - 1 in LoggedIndices(ImportAll(t, user, records).failures)
        <==> StepAt(t, user, records, |records| - 1).error.Some?
  {
    var n := |records| - 1;
    LoggedLast(t, user, records);
    assert n !in LoggedIndices(ImportAll(t, user, records[..n]).failures);
  }

  /** An earlier record is logged by the whole run exactly when the run without the last
      record logs it. */
  lemma LoggedBeforeLast(t: Tables, user: string, records: seq<ImportRecord>, i: nat)
    requires WellFormed(t) && i < |records| - 1
    ensures i in LoggedIndices(ImportAll(t, user, records).failures)
        <==> i in LoggedIndices(ImportAll(t, user, records[..|records| - 1]).failures)
  {
    LoggedLast(t, user, records);
  }

  /** The step of record `i` is the same in a run of a longer list. */
  lemma StepAtOfPrefix(t: Tables, user: string, records: seq<ImportRecord>, n: nat, i: nat)
    requires WellFormed(t) && i < n <= |records|
    ensures StepAt(t, user, records, i) == StepAt(t, user, records[..n], i)
  {
    assert records[..i] == records[..n][..i];
  }

  /** The `error` text of a failure the loop raises itself, with the 1-based record number;
      the text of an error the store throws is not modelled. */
  function ErrorMessage(f: ImportFailure): (m: Option<string>)
    ensures m.None? <==> f.error == StoreRejected
  {
    var prefix := "Record " + NatToString(f.recordIndex + 1) + ": ";
    match f.error
    case MissingFields => Some(prefix + "Missing required fields (date, field_name, event_type)")
    case DuplicateIrrigation(name) => Some(prefix + "Duplicate irrigation event for " + name + " on " + f.record.date)
    case StoreRejected => None
  }

  /** The message numbers records from 1 while `record_index` counts from 0. */
  lemma MessageNumbersFromOne(f: ImportFailure)
    requires f.error != StoreRejected
    ensures ErrorMessage(f).Some?
    ensures var m := ErrorMessage(f).value; var head := "Record " + NatToString(f.recordIndex + 1) + ": ";
            |head| <= |m| && m[..|head|] == head
    ensures DigitsValue(NatToString(f.recordIndex + 1)) == f.recordIndex + 1
  {
    DigitsValueOfNatToString(f.recordIndex + 1);
  }

  /** The body of the response. */
  datatype ImportSummary = ImportSummary(jobId: nat, totalRecords: nat, successful: nat, failed: nat, errors: seq<ImportFailure>)

  /** The job row after the loop: `completed` exactly when no record failed. */
  function FinishedJob(user: string, total: nat, run: ImportState): (j: ImportJob)
    ensures j.status == JobCompleted <==> |run.failures| == 0
    ensures j.status != Processing
  {
    ImportJob(user, if |run.failures| == 0 then JobCompleted else CompletedWithErrors, total, run.successful, |run.failures|, run.failures)
  }

  /** Find or create the field, in place. */
  method FindOrCreateField(db: Db, user: string, name: string) returns (id: nat)
    requires db.Valid()
    modifies db
    ensures db.Valid()
    ensures Found(db.Snapshot(), id) == FieldFor(old(db.Snapshot()), user, name)
  {
    var found := FirstWithKey(db.fields, FieldKey, (user, name, false));
    if found.Some? {
      id := found.value;
    } else {
      id := |db.fields|;
      db.fields := db.fields + [Field(user, name, false)];
    }
  }

  /** Find or create the plant type, in place. */
  method FindOrCreatePlantType(db: Db, name: string) returns (id: nat)
    requires db.Valid()
    modifies db
    ensures db.Valid()
    ensures Found(db.Snapshot(), id) == PlantTypeFor(old(db.Snapshot()), name)
  {
    var found := FirstWithKey(db.plantTypes, TypeKey, name);
    if found.Some? {
      id := found.value;
    } else {
      id := |db.plantTypes|;
      db.plantTypes := db.plantTypes + [PlantType(name, 7)];
    }
  }

  /** Find or create the batch, in place; `None` when the store refuses the new row. */
  method FindOrCreateBatch(db: Db, fieldId: nat, typeId: nat, name: string, planting: Option<Day>)
    returns (id: Option<nat>)
    requires db.Valid() && fieldId < |db.fields| && typeId < |db.plantTypes|
    modifies db
    ensures db.Valid()
    ensures var expected := BatchFor(old(db.Snapshot()), fieldId, typeId, name, planting);
            && (id.None? <==> expected.None?)
            && (id.None? ==> db.Snapshot() == old(db.Snapshot()))
            && (id.Some? ==> Found(db.Snapshot(), id.value) == expected.value)
  {
    var found := FirstWithKey(db.batches, BatchKey, (fieldId, name, typeId, false));
    if found.Some? {
      id := found;
    } else if planting.None? {
      id := None;
    } else {
      id := Some(|db.batches|);
      db.batches := db.batches + [Batch(fieldId, typeId, name, planting.value, None, "healthy", None, false)];
    }
  }

  /** The `switch` on the event type, in place. */
  method RecordEvent(db: Db, user: string, rec: ImportRecord, b: nat, day: Option<Day>)
    returns (error: Option<ImportError>)
    requires db.Valid() && b < |db.batches|
    modifies db
    ensures db.Valid()
    ensures StepResult(db.Snapshot(), error) == EventStep(old(db.Snapshot()), user, rec, b, day)
  {
    error := None;
    if rec.eventType == "irrigation" {
      if day.None? {
        error := Some(StoreRejected);
      } else if FirstWithKey(db.events, EventKey, (b, day.value)).Some? {
        error := Some(DuplicateIrrigation(db.batches[b].name));
      } else {
        db.events := db.events + [IrrigationEvent(b, day.value, day, Completed, None, Some("imported"), NoteText(rec.note), user)];
        db.batches := db.batches[b := db.batches[b].(lastIrrigation := day)];
      }
    } else if rec.eventType == "observation" || rec.eventType == "problem" {
      if day.None? {
        error := Some(StoreRejected);
      } else {
        var content := if rec.note != "" then rec.note else "Imported observation";
        var noteType := if rec.eventType == "problem" then "disease" else "observation";
        db.notes := db.notes + [Note(b, user, noteType, content, day.value)];
      }
    } else if rec.eventType == "status_change" && rec.status != "" {
      var previous := db.batches[b].status;
      if previous != rec.status {
        db.batches := db.batches[b := db.batches[b].(status := rec.status)];
        if day.None? {
          error := Some(StoreRejected);
        } else {
          var reason := if rec.note != "" then rec.note else "Imported status change";
          db.history := db.history + [StatusChange(b, rec.status, Some(previous), user, Some(reason), None, day.value)];
        }
      }
    }
  }

  /** The body of the loop for one record, in place. */
  method ImportRecordInto(db: Db, user: string, rec: ImportRecord) returns (error: Option<ImportError>)
    requires db.Valid()
    modifies db
    ensures db.Valid()
    ensures StepResult(db.Snapshot(), error) == ImportStep(old(db.Snapshot()), user, rec)
  {
    if LacksRequired(rec) {
      return Some(MissingFields);
    }
    var day := ParseLocalDate(rec.date);
    var fieldId := FindOrCreateField(db, user, rec.fieldName);
    if !NamesPlant(rec) {
      return None;
    }
    var typeId := FindOrCreatePlantType(db, TypeNameOf(rec));
    var batch := FindOrCreateBatch(db, fieldId, typeId, BatchNameOf(rec), day);
    if batch.None? {
      return Some(StoreRejected);
    }
    error := RecordEvent(db, user, rec, batch.value, day);
  }

  /** `importData`. A missing user or a missing or non-array `records` is 400 with nothing
      written. Otherwise a `processing` job is added, every record is imported in order, and
      the job is closed with the counters and the error log; the response carries the
      counters and the first 10 errors. */
  method ImportData(db: Db, user: string, records: Option<seq<ImportRecord>>) returns (r: Reply<ImportSummary>)
    requires db.Valid()
    modifies db
    ensures db.Valid()
    ensures r.Fail? <==> user == "" || records.None?
    ensures r.Fail? ==> r == Fail(400, "user_id and records array are required") && db.Snapshot() == old(db.Snapshot())
    ensures r.Ok? ==>
      var start := old(db.Snapshot()).(jobs := old(db.jobs) + [ImportJob(user, Processing, |records.value|, 0, 0, [])]);
      var run := ImportAll(start, user, records.value);
      && r.value == ImportSummary(old(|db.jobs|), |records.value|, run.successful, |run.failures|, Take(run.failures, 10))
      && db.Snapshot() == run.tables.(jobs := old(db.jobs) + [FinishedJob(user, |records.value|, run)])
    ensures r.Ok? ==> r.value.successful + r.value.failed == r.value.totalRecords && |r.value.errors| <= 10
  {
    if user == "" || records.None? {
      return Fail(400, "user_id and records array are required");
    }
    var summary := RunImport(db, user, records.value);
    r := Ok(summary);
  }

  /** The body of `importData` past its checks: the job is opened, the records imported and
      the job closed with the run's counters and log. */
  method RunImport(db: Db, user: string, rs: seq<ImportRecord>) returns (summary: ImportSummary)
    requires db.Valid()
    modifies db
    ensures db.Valid()
    ensures var start := old(db.Snapshot()).(jobs := old(db.jobs) + [ImportJob(user, Processing, |rs|, 0, 0, [])]);
      var run := ImportAll(start, user, rs);
      && summary == ImportSummary(old(|db.jobs|), |rs|, run.successful, |run.failures|, Take(run.failures, 10))
      && db.Snapshot() == run.tables.(jobs := old(db.jobs) + [FinishedJob(user, |rs|, run)])
  {
    var jobId := |db.jobs|;
    ghost var jobsBefore := db.jobs;
    db.jobs := db.jobs + [ImportJob(user, Processing, |rs|, 0, 0, [])];
    ghost var start := db.Snapshot();
    assert start == old(db.Snapshot()).(jobs := jobsBefore + [ImportJob(user, Processing, |rs|, 0, 0, [])]);
    var successCount, errors := ImportRecords(db, user, rs);
    var failCount := |errors|;
    var run := ImportState(db.Snapshot(), successCount, errors);
    assert run == ImportAll(start, user, rs);
    assert db.jobs == jobsBefore + [ImportJob(user, Processing, |rs|, 0, 0, [])];
    db.jobs := db.jobs[jobId := FinishedJob(user, |rs|, run)];
    assert db.jobs == jobsBefore + [FinishedJob(user, |rs|, run)];
    JobsAside(run.tables, db.jobs);
    assert db.Snapshot() == run.tables.(jobs := jobsBefore + [FinishedJob(user, |rs|, run)]);
    summary := ImportSummary(jobId, |rs|, successCount, failCount, Take(errors, 10));
  }

  /** The `for` loop of `importData`: each record is imported in turn, counted as a success or
      logged with its index and error, as `ImportAll` describes. */
  method ImportRecords(db: Db, user: string, rs: seq<ImportRecord>) returns (successCount: nat, errors: seq<ImportFailure>)
    requires db.Valid()
    modifies db
    ensures db.Valid()
    ensures var run := ImportAll(old(db.Snapshot()), user, rs);
      db.Snapshot() == run.tables && successCount == run.successful && errors == run.failures
  {
    ghost var start := db.Snapshot();
    errors := [];
    successCount := 0;
    for i := 0 to |rs|
      invariant db.Valid()
      invariant db.Snapshot() == ImportAll(start, user, rs[..i]).tables
      invariant successCount == ImportAll(start, user, rs[..i]).successful
      invariant errors == ImportAll(start, user, rs[..i]).failures
    {
      ImportAllNext(start, user, rs, i);
      var error := ImportRecordInto(db, user, rs[i]);
      if error.None? {
        successCount := successCount + 1;
      } else {
        errors := errors + [ImportFailure(i, rs[i], error.value)];
      }
    }
    assert rs[..|rs|] == rs;
  }
}
