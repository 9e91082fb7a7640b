/** The dashboard page's client-side logic: the status filter over the alert feed, the
    statistics shown under that filter, the greeting by hour and the five alerts listed. */
module DashboardPage {
  import opened Wrappers
  import opened Seqs
  import opened DashboardController

  /** The predicate passed to `alerts.filter` for the selected status filter. Only 'all',
      'critical' and 'at_risk' ever keep an alert: 'critical' keeps the critical ones,
      'at_risk' the warnings, and every other value (including 'healthy' and 'diseased')
      keeps none. */
  predicate KeepsAlert(statusFilter: string, a: Alert)
    ensures KeepsAlert(statusFilter, a) <==>
      || statusFilter == "all"
      || (statusFilter == "critical" && a.severity == CriticalAlert)
      || (statusFilter == "at_risk" && a.severity == WarningAlert)
  {
    if statusFilter != "all" then
      var severityMatch :=
        (statusFilter == "critical" && a.severity == CriticalAlert) ||
        (statusFilter == "at_risk" && a.severity == WarningAlert);
      if !severityMatch && statusFilter != "healthy" && statusFilter != "diseased" then false
      else if statusFilter == "healthy" || statusFilter == "diseased" then false
      else true
    else true
  }

  /** `filteredAlerts`: the alerts the filter keeps, in feed order. */
  function FilteredAlerts(alerts: seq<Alert>, statusFilter: string): (r: seq<Alert>)
    ensures IsSubsequence(r, alerts)
    ensures forall a :: a in r <==> a in alerts && KeepsAlert(statusFilter, a)
  {
    if alerts == [] then []
    else
      var rest := FilteredAlerts(alerts[1..], statusFilter);
      if KeepsAlert(statusFilter, alerts[0]) then
        assert ([alerts[0]] + rest)[1..] == rest;
        [alerts[0]] + rest
      else rest
  }

  predicate IsCriticalAlert(a: Alert)
  {
    a.severity == CriticalAlert
  }

  predicate IsWarningAlert(a: Alert)
  {
    a.severity == WarningAlert
  }

  /** The filter is one of four: 'all' is the identity, 'critical' keeps exactly the
      critical alerts, 'at_risk' exactly the warnings, and any other value empties the feed. */
  lemma {:induction false} FilteredAlertsByFilter(alerts: seq<Alert>, statusFilter: string)
    ensures statusFilter == "all" ==> FilteredAlerts(alerts, statusFilter) == alerts
    ensures statusFilter == "critical" ==> FilteredAlerts(alerts, statusFilter) == Filter(alerts, IsCriticalAlert)
    ensures statusFilter == "at_risk" ==> FilteredAlerts(alerts, statusFilter) == Filter(alerts, IsWarningAlert)
    ensures statusFilter !in {"all", "critical", "at_risk"} ==> FilteredAlerts(alerts, statusFilter) == []
  {
    if alerts != [] {
      FilteredAlertsByFilter(alerts[1..], statusFilter);
    }
  }

  /** An informational alert is listed only when the filter is 'all'. */
  lemma InfoAlertsOnlyUnderAll(alerts: seq<Alert>, statusFilter: string, a: Alert)
    requires a in FilteredAlerts(alerts, statusFilter) && a.severity == InfoAlert
    ensures statusFilter == "all"
  {
  }

  /** One element of `plants_by_status`: a status and the number of batches in it. */
  datatype StatusGroup = StatusGroup(status: string, count: nat)

  /** The part of the statistics payload the filter touches; `plantsByStatus` stands for
      the rest of the payload, which the page passes through unchanged. */
  datatype PageStats = PageStats(totalPlants: nat, plantsByStatus: seq<StatusGroup>, problemPlants: nat)

  function GroupStatus(g: StatusGroup): string
  {
    g.status
  }

  /** `filteredStats`: nothing until the statistics have arrived. Under 'all' the total is the
      server's; under any other filter it is the count of the first status group named by the
      filter, or 0 when no group is; the problem count is the number of filtered alerts. */
  function FilteredStats(stats: Option<PageStats>, statusFilter: string, alerts: seq<Alert>): (r: Option<PageStats>)
    ensures r.None? <==> stats.None?
    ensures r.Some? ==> r.value.plantsByStatus == stats.value.plantsByStatus
    ensures r.Some? ==> r.value.problemPlants == |FilteredAlerts(alerts, statusFilter)|
    ensures r.Some? && statusFilter == "all" ==> r.value.totalPlants == stats.value.totalPlants
    ensures r.Some? && statusFilter != "all" && (forall g :: g in stats.value.plantsByStatus ==> g.status != statusFilter) ==>
      r.value.totalPlants == 0
    ensures r.Some? && statusFilter != "all" ==>
      forall j ::
        (&& 0 <= j < |stats.value.plantsByStatus| && stats.value.plantsByStatus[j].status == statusFilter
         && (forall i :: 0 <= i < j ==> stats.value.plantsByStatus[i].status != statusFilter)) ==>
        r.value.totalPlants == stats.value.plantsByStatus[j].count
  {
    match stats
    case None => None
    case Some(s) =>
      var total :=
        if statusFilter == "all" then s.totalPlants
        else match FirstWithKey(s.plantsByStatus, GroupStatus, statusFilter)
          case Some(j) => s.plantsByStatus[j].count
          case None => 0;
      Some(s.(totalPlants := total, problemPlants := |FilteredAlerts(alerts, statusFilter)|))
  }

  /** When the groups name each status once, as a grouping by status makes them, a filter
      naming a group shows that group's count. */
  lemma FilteredStatsOfGroup(s: PageStats, statusFilter: string, alerts: seq<Alert>, j: nat)
    requires forall i, k :: 0 <= i < k < |s.plantsByStatus| ==> s.plantsByStatus[i].status != s.plantsByStatus[k].status
    requires statusFilter != "all" && j < |s.plantsByStatus| && s.plantsByStatus[j].status == statusFilter
    ensures FilteredStats(Some(s), statusFilter, alerts).value.totalPlants == s.plantsByStatus[j].count
  {
  }

  /** The greeting for the hour of the local clock. */
  function Greeting(hour: int): (r: string)
    requires 0 <= hour <= 23
    ensures r == "Good morning" <==> hour < 12
    ensures r == "Good afternoon" <==> 12 <= hour < 18
    ensures r == "Good evening" <==> 18 <= hour
  {
    if hour < 12 then "Good morning"
    else if hour < 18 then "Good afternoon"
    else "Good evening"
  }

  function GreetingRank(text: string): nat
  {
    if text == "Good morning" then 0 else if text == "Good afternoon" then 1 else 2
  }

  /** Through the day the greeting only moves forward: morning, afternoon, evening. */
  lemma GreetingAdvances(hour: int, later: int)
    requires 0 <= hour <= later <= 23
    ensures GreetingRank(Greeting(hour)) <= GreetingRank(Greeting(later))
  {
  }

  /** `filteredAlerts.slice(0, 5)`: the alerts listed on the page, the first five the filter
      keeps, in feed order. */
  function ShownAlerts(alerts: seq<Alert>, statusFilter: string): (r: seq<Alert>)
    ensures |r| == if |FilteredAlerts(alerts, statusFilter)| <= 5 then |FilteredAlerts(alerts, statusFilter)| else 5
    ensures r == FilteredAlerts(alerts, statusFilter)[..|r|]
    ensures forall a :: a in r ==> a in alerts && KeepsAlert(statusFilter, a)
  {
    Take(FilteredAlerts(alerts, statusFilter), 5)
  }
}
