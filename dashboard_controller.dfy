/** The dashboard: the irrigation counters of the statistics endpoint and the alert feed. */
module DashboardController {
  import opened Wrappers
  import opened LocalDays
  import opened Store
  import opened Seqs
  import opened Sorting
  import opened Decimal
  import IrrigationController
  import PlantBatchController

  /** The counter one batch adds to in the counting loop, if any. */
  datatype Bucket = Uncounted | OverdueBucket | CriticalBucket

  /** The classification of the counting loop: never irrigated is critical; otherwise one or
      two days late is overdue, more is critical, and a batch not yet late is not counted. */
  function BucketOf(b: BatchView, today: Day): Bucket
  {
    if b.lastIrrigation.None? then CriticalBucket
    else
      var daysOverdue := DaysBetween(AddDays(b.lastIrrigation.value, b.frequencyDays), today);
      if 0 < daysOverdue <= 2 then OverdueBucket
      else if daysOverdue > 2 then CriticalBucket
      else Uncounted
  }

  /** How many of the batches fall in the bucket. */
  function CountBucket(bs: seq<BatchView>, today: Day, k: Bucket): nat
  {
    if bs == [] then 0
    else CountBucket(bs[..|bs| - 1], today, k) + (if BucketOf(bs[|bs| - 1], today) == k then 1 else 0)
  }

  /** The three buckets share out the batches: each batch adds to at most one counter. */
  lemma {:induction false} BucketsPartition(bs: seq<BatchView>, today: Day)
    ensures CountBucket(bs, today, Uncounted) + CountBucket(bs, today, OverdueBucket)
          + CountBucket(bs, today, CriticalBucket) == |bs|
  {
    if bs != [] {
      BucketsPartition(bs[..|bs| - 1], today);
    }
  }

  /** The `forEach` loop of `getDashboardStats`: `overdueCount` and `criticalCount` count the
      batches of each bucket, and together never exceed the number of batches. */
  method CountIrrigation(bs: seq<BatchView>, today: Day) returns (overdue: nat, critical: nat)
    ensures overdue == CountBucket(bs, today, OverdueBucket)
    ensures critical == CountBucket(bs, today, CriticalBucket)
    ensures overdue + critical <= |bs|
  {
    overdue, critical := 0, 0;
    var i := 0;
    while i < |bs|
      invariant 0 <= i <= |bs|
      invariant overdue == CountBucket(bs[..i], today, OverdueBucket)
      invariant critical == CountBucket(bs[..i], today, CriticalBucket)
    {
      assert bs[..i + 1][..i] == bs[..i];
      var b := bs[i];
      if b.lastIrrigation.None? {
        critical := critical + 1;
      } else {
        var nextDue := AddDays(b.lastIrrigation.value, b.frequencyDays);
        var daysOverdue := DaysBetween(nextDue, today);
        if daysOverdue > 0 && daysOverdue <= 2 {
          overdue := overdue + 1;
        } else if daysOverdue > 2 {
          critical := critical + 1;
        }
      }
      i := i + 1;
    }
    assert bs[..|bs|] == bs;
    BucketsPartition(bs, today);
  }

  /** The counting loop, the overdue list and the batch detail classify a batch alike: not
      counted exactly when the overdue list drops it and the detail says on time; overdue
      and critical match the list's severity and the detail's tier. */
  lemma BucketAgreement(b: BatchView, today: Day)
    ensures var e := IrrigationController.OverdueEntryOf(b, today);
      && (BucketOf(b, today) == Uncounted <==> e.None?)
      && (BucketOf(b, today) == OverdueBucket <==> e.Some? && e.value.severity == IrrigationController.Overdue)
      && (BucketOf(b, today) == CriticalBucket <==> e.Some? && e.value.severity == IrrigationController.Critical)
    ensures var s := PlantBatchController.CalculateIrrigationStatus(b.lastIrrigation, b.frequencyDays, today);
      && (BucketOf(b, today) == Uncounted <==> s.tier == PlantBatchController.OnTime)
      && (BucketOf(b, today) == OverdueBucket <==> s.tier == PlantBatchController.Overdue)
      && (BucketOf(b, today) == CriticalBucket <==> s.tier == PlantBatchController.Critical)
  {
  }

  predicate IsOverdueEntry(e: IrrigationController.OverdueEntry)
  {
    e.severity == IrrigationController.Overdue
  }

  predicate IsCriticalEntry(e: IrrigationController.OverdueEntry)
  {
    e.severity == IrrigationController.Critical
  }

  /** The overdue list's entries before sorting, as the batches grow at the end. */
  lemma {:induction false} CandidatesAppend(bs: seq<BatchView>, b: BatchView, today: Day)
    ensures IrrigationController.OverdueCandidates(bs + [b], today)
         == IrrigationController.OverdueCandidates(bs, today) + IrrigationController.OverdueCandidates([b], today)
  {
    if bs != [] {
      assert (bs + [b])[1..] == bs[1..] + [b];
      CandidatesAppend(bs[1..], b, today);
    }
  }

  /** The counters of the statistics endpoint equal the number of overdue and of critical
      entries in the overdue list of the same batches on the same day. */
  lemma {:induction false} CountersAgreeWithOverdueList(bs: seq<BatchView>, today: Day)
    ensures CountBucket(bs, today, OverdueBucket) == Count(IrrigationController.OverdueList(bs, today), IsOverdueEntry)
    ensures CountBucket(bs, today, CriticalBucket) == Count(IrrigationController.OverdueList(bs, today), IsCriticalEntry)
  {
    var c := IrrigationController.OverdueCandidates(bs, today);
    assert IrrigationController.OverdueList(bs, today) == SortBy(c, IrrigationController.MostOverdueFirst);
    SortByCount(c, IrrigationController.MostOverdueFirst, IsOverdueEntry);
    SortByCount(c, IrrigationController.MostOverdueFirst, IsCriticalEntry);
    CandidateCounts(bs, today);
  }

  lemma {:induction false} CandidateCounts(bs: seq<BatchView>, today: Day)
    ensures CountBucket(bs, today, OverdueBucket) == Count(IrrigationController.OverdueCandidates(bs, today), IsOverdueEntry)
    ensures CountBucket(bs, today, CriticalBucket) == Count(IrrigationController.OverdueCandidates(bs, today), IsCriticalEntry)
  {
    if bs != [] {
      var init, b := bs[..|bs| - 1], bs[|bs| - 1];
      assert bs == init + [b];
      CandidateCounts(init, today);
      CandidatesAppend(init, b, today);
      var c0, c1 := IrrigationController.OverdueCandidates(init, today), IrrigationController.OverdueCandidates([b], today);
      CountAppend(c0, c1, IsOverdueEntry);
      CountAppend(c0, c1, IsCriticalEntry);
      BucketAgreement(b, today);
      assert [b][1..] == [];
    }
  }

  datatype IrrigationCounts = IrrigationCounts(overdue: nat, critical: nat, totalOverdue: nat)

  /** The part of the statistics response the model covers. */
  datatype DashboardStats = DashboardStats(totalPlants: nat, irrigation: IrrigationCounts, problemPlants: nat)

  predicate NotHealthy(b: BatchView)
  {
    b.status != "healthy"
  }

  /** `getDashboardStats`: a missing user is 400. Otherwise, over the user's live batches in
      live fields: their number, the irrigation counters with their sum, which never exceeds
      that number, and the number of batches whose status is not 'healthy'. */
  method GetDashboardStats(t: Tables, userId: string, today: Day) returns (r: Reply<DashboardStats>)
    requires WellFormed(t)
    ensures userId == "" <==> r == Fail(400, "userId is required")
    ensures r.Ok? <==> userId != ""
    ensures r.Ok? ==>
      var bs := ScopedBatches(t, userId);
      && r.value.totalPlants == |bs|
      && r.value.irrigation.overdue == CountBucket(bs, today, OverdueBucket)
      && r.value.irrigation.critical == CountBucket(bs, today, CriticalBucket)
      && r.value.irrigation.totalOverdue == r.value.irrigation.overdue + r.value.irrigation.critical
      && r.value.irrigation.totalOverdue <= r.value.totalPlants
      && r.value.problemPlants == Count(bs, NotHealthy)
  {
    if userId == "" {
      return Fail(400, "userId is required");
    }
    var batches := ScopedBatches(t, userId);
    var overdueCount, criticalCount := CountIrrigation(batches, today);
    var problemPlants := Count(batches, NotHealthy);
    r := Ok(DashboardStats(|batches|, IrrigationCounts(overdueCount, criticalCount, overdueCount + criticalCount),
                           problemPlants));
  }

  datatype AlertKind = IrrigationAlert | StatusAlert

  datatype AlertSeverity = CriticalAlert | WarningAlert | InfoAlert

  /** An element of the alert feed; `daysOverdue` and `status` are present on the alerts that carry them. */
  datatype Alert = Alert(
    kind: AlertKind,
    severity: AlertSeverity,
    message: string,
    batchId: nat,
    batchName: string,
    fieldName: string,
    daysOverdue: Option<int>,
    status: Option<string>)

  /** `severityOrder`: critical 0, warning 1, info 2. */
  function Rank(a: Alert): (r: int)
    ensures 0 <= r <= 2
    ensures r == 0 <==> a.severity == CriticalAlert
    ensures r == 1 <==> a.severity == WarningAlert
    ensures r == 2 <==> a.severity == InfoAlert
  {
    match a.severity
    case CriticalAlert => 0
    case WarningAlert => 1
    case InfoAlert => 2
  }

  /** The irrigation alert a batch raises, if any: critical when it was never irrigated or is
      more than two days late, a warning when one or two days late, none otherwise; exactly
      the batches the overdue list keeps raise one. */
  function IrrigationAlertOf(b: BatchView, today: Day): (r: Option<Alert>)
    ensures r.Some? <==> IrrigationController.NeedsWater(b, today)
    ensures r.Some? ==> r.value.kind == IrrigationAlert && r.value.batchId == b.id
    ensures r.Some? ==>
      (r.value.severity == CriticalAlert <==> b.lastIrrigation.None? || IrrigationController.DaysLate(b, today) > 2)
    ensures r.Some? ==>
      (r.value.severity == WarningAlert <==>
         b.lastIrrigation.Some? && 1 <= IrrigationController.DaysLate(b, today) <= 2)
    ensures r.Some? ==> r.value.batchName == b.name && r.value.fieldName == b.fieldName && r.value.status.None?
    ensures r.Some? && b.lastIrrigation.None? ==>
      && r.value.daysOverdue.None?
      && r.value.message == b.name + " in " + b.fieldName + " has never been irrigated"
    ensures r.Some? && b.lastIrrigation.Some? ==>
      && IrrigationController.DaysLate(b, today) >= 1
      && r.value.daysOverdue == Some(IrrigationController.DaysLate(b, today))
      && r.value.message == b.name + " in " + b.fieldName + " is "
           + NatToString(IrrigationController.DaysLate(b, today)) + " days overdue for irrigation"
  {
    if b.lastIrrigation.None? then
      Some(Alert(IrrigationAlert, CriticalAlert, b.name + " in " + b.fieldName + " has never been irrigated",
                 b.id, b.name, b.fieldName, None, None))
    else
      var daysOverdue := DaysBetween(AddDays(b.lastIrrigation.value, b.frequencyDays), today);
      if daysOverdue > 2 then
        Some(Alert(IrrigationAlert, CriticalAlert,
                   b.name + " in " + b.fieldName + " is " + NatToString(daysOverdue) + " days overdue for irrigation",
                   b.id, b.name, b.fieldName, Some(daysOverdue), None))
      else if daysOverdue > 0 then
        Some(Alert(IrrigationAlert, WarningAlert,
                   b.name + " in " + b.fieldName + " is " + NatToString(daysOverdue) + " days overdue for irrigation",
                   b.id, b.name, b.fieldName, Some(daysOverdue), None))
      else None
  }

  /** The irrigation alerts of the batches, in the order they are pushed. */
  function IrrigationAlerts(bs: seq<BatchView>, today: Day): seq<Alert>
  {
    if bs == [] then []
    else
      IrrigationAlerts(bs[..|bs| - 1], today) +
      match IrrigationAlertOf(bs[|bs| - 1], today)
      case Some(a) => [a]
      case None => []
  }

  /** The critical irrigation alerts are as many as the statistics' critical counter, and
      the warnings as many as its overdue counter. */
  lemma {:induction false} IrrigationAlertsAgreeWithCounters(bs: seq<BatchView>, today: Day)
    ensures |WithKey(IrrigationAlerts(bs, today), Rank, 0)| == CountBucket(bs, today, CriticalBucket)
    ensures |WithKey(IrrigationAlerts(bs, today), Rank, 1)| == CountBucket(bs, today, OverdueBucket)
    ensures WithKey(IrrigationAlerts(bs, today), Rank, 2) == []
  {
    if bs != [] {
      var init, b := bs[..|bs| - 1], bs[|bs| - 1];
      IrrigationAlertsAgreeWithCounters(init, today);
      var tail := match IrrigationAlertOf(b, today) case Some(a) => [a] case None => [];
      WithKeyAppend(IrrigationAlerts(init, today), tail, Rank, 0);
      WithKeyAppend(IrrigationAlerts(init, today), tail, Rank, 1);
      WithKeyAppend(IrrigationAlerts(init, today), tail, Rank, 2);
    }
  }

  predicate IsProblemStatus(b: BatchView)
  {
    b.status == "at_risk" || b.status == "critical" || b.status == "diseased"
  }

  function StatusAlertOf(b: BatchView): Alert
  {
    Alert(StatusAlert, if b.status == "critical" || b.status == "diseased" then CriticalAlert else WarningAlert,
          b.name + " in " + b.fieldName + " has status: " + b.status,
          b.id, b.name, b.fieldName, None, Some(b.status))
  }

  /** The status alerts of the problem batches, in the order they are pushed. */
  function StatusAlerts(ps: seq<BatchView>): seq<Alert>
  {
    if ps == [] then [] else StatusAlerts(ps[..|ps| - 1]) + [StatusAlertOf(ps[|ps| - 1])]
  }

  /** One status alert per problem batch, in order: critical for a 'critical' or 'diseased'
      batch, a warning for an 'at_risk' one. */
  lemma {:induction false} StatusAlertsPerBatch(ps: seq<BatchView>)
    requires forall k :: 0 <= k < |ps| ==> IsProblemStatus(ps[k])
    ensures |StatusAlerts(ps)| == |ps|
    ensures forall k :: 0 <= k < |ps| ==>
      && StatusAlerts(ps)[k].kind == StatusAlert
      && StatusAlerts(ps)[k].batchId == ps[k].id
      && StatusAlerts(ps)[k].status == Some(ps[k].status)
      && (StatusAlerts(ps)[k].severity == CriticalAlert <==> ps[k].status == "critical" || ps[k].status == "diseased")
      && (StatusAlerts(ps)[k].severity == WarningAlert <==> ps[k].status == "at_risk")
  {
    if ps != [] {
      StatusAlertsPerBatch(ps[..|ps| - 1]);
    }
  }

  lemma {:induction false} StatusAlertsNoInfo(ps: seq<BatchView>)
    ensures WithKey(StatusAlerts(ps), Rank, 2) == []
  {
    if ps != [] {
      StatusAlertsNoInfo(ps[..|ps| - 1]);
      WithKeyAppend(StatusAlerts(ps[..|ps| - 1]), [StatusAlertOf(ps[|ps| - 1])], Rank, 2);
    }
  }

  /** The first 50 live batches of the user, and the first 20 of those with a problem status. */
  function AlertBatches(t: Tables, userId: string): seq<BatchView>
    requires WellFormed(t)
  {
    Take(ScopedBatches(t, userId), 50)
  }

  function ProblemBatches(t: Tables, userId: string): seq<BatchView>
    requires WellFormed(t)
  {
    Take(Filter(ScopedBatches(t, userId), IsProblemStatus), 20)
  }

  /** The alerts before sorting: irrigation alerts first, then status alerts. */
  function AlertFeed(t: Tables, userId: string, today: Day): seq<Alert>
    requires WellFormed(t)
  {
    IrrigationAlerts(AlertBatches(t, userId), today) + StatusAlerts(ProblemBatches(t, userId))
  }

  /** The first `forEach` loop of `getRecentAlerts`: pushes each batch's irrigation alert. */
  method PushIrrigationAlerts(batches: seq<BatchView>, today: Day) returns (alerts: seq<Alert>)
    ensures alerts == IrrigationAlerts(batches, today)
  {
    alerts := [];
    var i := 0;
    while i < |batches|
      invariant 0 <= i <= |batches|
      invariant alerts == IrrigationAlerts(batches[..i], today)
    {
      assert batches[..i + 1][..i] == batches[..i];
      var b := batches[i];
      if b.lastIrrigation.None? {
        var a := Alert(IrrigationAlert, CriticalAlert, b.name + " in " + b.fieldName + " has never been irrigated",
                       b.id, b.name, b.fieldName, None, None);
        assert IrrigationAlertOf(b, today) == Some(a);
        alerts := alerts + [a];
      } else {
        var nextDue := AddDays(b.lastIrrigation.value, b.frequencyDays);
        var daysOverdue := DaysBetween(nextDue, today);
        if daysOverdue > 2 {
          var a := Alert(IrrigationAlert, CriticalAlert,
                         b.name + " in " + b.fieldName + " is " + NatToString(daysOverdue) + " days overdue for irrigation",
                         b.id, b.name, b.fieldName, Some(daysOverdue), None);
          assert IrrigationAlertOf(b, today) == Some(a);
          alerts := alerts + [a];
        } else if daysOverdue > 0 {
          var a := Alert(IrrigationAlert, WarningAlert,
                         b.name + " in " + b.fieldName + " is " + NatToString(daysOverdue) + " days overdue for irrigation",
                         b.id, b.name, b.fieldName, Some(daysOverdue), None);
          assert IrrigationAlertOf(b, today) == Some(a);
          alerts := alerts + [a];
        } else {
          assert IrrigationAlertOf(b, today) == None;
        }
      }
      i := i + 1;
    }
    assert batches[..|batches|] == batches;
  }

  /** The second `forEach` loop of `getRecentAlerts`: pushes one status alert per problem batch. */
  method PushStatusAlerts(alerts0: seq<Alert>, problemBatches: seq<BatchView>) returns (alerts: seq<Alert>)
    ensures alerts == alerts0 + StatusAlerts(problemBatches)
  {
    alerts := alerts0;
    var j := 0;
    while j < |problemBatches|
      invariant 0 <= j <= |problemBatches|
      invariant alerts == alerts0 + StatusAlerts(problemBatches[..j])
    {
      assert problemBatches[..j + 1][..j] == problemBatches[..j];
      var b := problemBatches[j];
      var severity := if b.status == "critical" || b.status == "diseased" then CriticalAlert else WarningAlert;
      alerts := alerts + [Alert(StatusAlert, severity, b.name + " in " + b.fieldName + " has status: " + b.status,
                                b.id, b.name, b.fieldName, None, Some(b.status))];
      j := j + 1;
    }
    assert problemBatches[..|problemBatches|] == problemBatches;
  }

  /** `getRecentAlerts`: a missing user is 400. Otherwise the feed is built by the two push
      loops, sorted stably by severity rank, and cut to its first 20 alerts. */
  method GetRecentAlerts(t: Tables, userId: string, today: Day) returns (r: Reply<seq<Alert>>)
    requires WellFormed(t)
    ensures userId == "" <==> r == Fail(400, "userId is required")
    ensures r.Ok? <==> userId != ""
    ensures r.Ok? ==> r.value == Take(SortBy(AlertFeed(t, userId, today), Rank), 20)
  {
    if userId == "" {
      return Fail(400, "userId is required");
    }
    var alerts := PushIrrigationAlerts(AlertBatches(t, userId), today);
    alerts := PushStatusAlerts(alerts, ProblemBatches(t, userId));
    alerts := SortBy(alerts, Rank);
    r := Ok(Take(alerts, 20));
  }

  /** Sorting irrigation alerts followed by status alerts, none of them 'info', gives the
      critical irrigation alerts, the critical status alerts, the irrigation warnings and
      the status warnings, each group in push order. */
  lemma SortedFeedOrder(irrigation: seq<Alert>, status: seq<Alert>)
    requires WithKey(irrigation, Rank, 2) == [] && WithKey(status, Rank, 2) == []
    ensures SortBy(irrigation + status, Rank)
         == WithKey(irrigation, Rank, 0) + WithKey(status, Rank, 0)
          + WithKey(irrigation, Rank, 1) + WithKey(status, Rank, 1)
  {
    SortByThreeGroups(irrigation + status, Rank);
    WithKeyAppend(irrigation, status, Rank, 0);
    WithKeyAppend(irrigation, status, Rank, 1);
    WithKeyAppend(irrigation, status, Rank, 2);
  }

  /** The sorted feed of `getRecentAlerts`: critical irrigation alerts, critical status
      alerts, irrigation warnings, status warnings, each group in push order. */
  lemma RecentAlertsOrder(t: Tables, userId: string, today: Day)
    requires WellFormed(t)
    ensures var irrigation := IrrigationAlerts(AlertBatches(t, userId), today);
            var status := StatusAlerts(ProblemBatches(t, userId));
            SortBy(AlertFeed(t, userId, today), Rank)
              == WithKey(irrigation, Rank, 0) + WithKey(status, Rank, 0)
               + WithKey(irrigation, Rank, 1) + WithKey(status, Rank, 1)
  {
    IrrigationAlertsAgreeWithCounters(AlertBatches(t, userId), today);
    StatusAlertsNoInfo(ProblemBatches(t, userId));
    SortedFeedOrder(IrrigationAlerts(AlertBatches(t, userId), today), StatusAlerts(ProblemBatches(t, userId)));
  }

  /** The response holds min(20, n) alerts of the n in the feed, and every critical alert
      comes before every warning. */
  lemma RecentAlertsResponse(t: Tables, userId: string, today: Day)
    requires WellFormed(t)
    ensures var feed := AlertFeed(t, userId, today);
            var response := Take(SortBy(feed, Rank), 20);
            && |response| == (if |feed| < 20 then |feed| else 20)
            && forall i, j :: 0 <= i < j < |response| ==> Rank(response[i]) <= Rank(response[j])
  {
    var sorted := SortBy(AlertFeed(t, userId, today), Rank);
    assert SortedBy(sorted, Rank);
  }
}
