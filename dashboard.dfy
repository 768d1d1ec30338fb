/** The dashboard's figures (`fetchDashboardData`): asset counts, the total
    maintenance cost, the next five deadlines, the five latest maintenances and
    the assets grouped by type and by status. Dates are milliseconds; "now" is
    a parameter. */
module Dashboard {
  import opened Wrappers
  import opened Seqs
  import opened Sorting
  import opened GroupBy
  import opened ApiClient

  /** The fields of an asset the dashboard reads (`type` is `kind`). */
  datatype AssetView = AssetView(status: string, kind: string)

  /** The fields of a maintenance record it reads; a missing cost is `None`. */
  datatype RecordView = RecordView(cost: Option<real>, date: int, deadline: int)

  datatype DashboardData = DashboardData(
    totalAssets: nat,
    operationalAssets: nat,
    maintenanceAssets: nat,
    totalMaintenanceCost: real,
    upcomingMaintenance: seq<RecordView>,
    recentMaintenance: seq<RecordView>,
    assetsByType: seq<Group>,
    assetsByStatus: seq<Group>)

  const FetchError: string := "Erro ao carregar dados do dashboard"

  /** `records.reduce((sum, r) => sum + (r.cost || 0), 0)`. */
  function TotalCost(records: seq<RecordView>): real {
    if records == [] then 0.0
    else TotalCost(records[..|records| - 1]) + records[|records| - 1].cost.GetOr(0.0)
  }

  /** Adding a record adds its cost; a record without one adds nothing. */
  lemma TotalCostAppend(records: seq<RecordView>, r: RecordView)
    ensures TotalCost(records + [r]) == TotalCost(records) + r.cost.GetOr(0.0)
    ensures r.cost.None? ==> TotalCost(records + [r]) == TotalCost(records)
  {
    assert (records + [r])[..|records|] == records;
  }

  /** With no negative cost the total is not negative. */
  lemma {:induction false} TotalCostNonNegative(records: seq<RecordView>)
    requires forall i :: 0 <= i < |records| && records[i].cost.Some? ==> records[i].cost.value >= 0.0
    ensures TotalCost(records) >= 0.0
  {
    if records != [] {
      TotalCostNonNegative(records[..|records| - 1]);
    }
  }

  predicate IsActive(a: AssetView) { a.status == "ACTIVE" }
  predicate InMaintenance(a: AssetView) { a.status == "MAINTENANCE" }

  function DeadlineKey(r: RecordView): real { r.deadline as real }
  function DateKey(r: RecordView): real { r.date as real }

  /** `.sort(by key).slice(0, n)`: at most `n` elements of `s`, in order. */
  function Top(s: seq<RecordView>, key: RecordView -> real, dir: Direction, n: nat): (top: seq<RecordView>)
    ensures |top| <= n
    ensures forall x :: x in top ==> x in s
    ensures Sorted(top, key, dir)
  {
    Take(SortBy(s, key, dir), n)
  }

  /** Every element left out of the top `n` comes after the last one kept,
      and when fewer than `n` are kept none is left out. */
  lemma TopLeavesOutOnlyLater(s: seq<RecordView>, key: RecordView -> real, dir: Direction, n: nat)
    requires n > 0
    ensures var top := Top(s, key, dir, n);
      forall x :: x in s && x !in top ==> |top| == n > 0 && InOrder(dir, key(top[n - 1]), key(x))
  {
    var sorted := SortBy(s, key, dir);
    var top := Top(s, key, dir, n);
    assert top == Take(sorted, n);
    forall x | x in s && x !in top
      ensures |top| == n > 0 && InOrder(dir, key(top[n - 1]), key(x))
    {
      assert x in sorted;
      var j :| 0 <= j < |sorted| && sorted[j] == x;
      assert forall i :: 0 <= i < |top| ==> top[i] == sorted[i];
      assert j >= |top|;
      assert sorted[n - 1] == top[n - 1];
    }
  }

  /** What the dashboard promises about its figures. */
  ghost predicate Describes(d: DashboardData, assets: seq<AssetView>, records: seq<RecordView>, now: int) {
    d.totalAssets == |assets| &&
    d.operationalAssets == Count(assets, IsActive) &&
    d.maintenanceAssets == Count(assets, InMaintenance) &&
    d.totalMaintenanceCost == TotalCost(records) &&
    d.upcomingMaintenance == Top(Filter(records, (r: RecordView) => r.deadline > now), DeadlineKey, Asc, 5) &&
    d.recentMaintenance == Top(records, DateKey, Desc, 5) &&
    GroupsOf(d.assetsByType, Kinds(assets)) &&
    GroupsOf(d.assetsByStatus, Statuses(assets))
  }

  /** The assets' types, in order. */
  function Kinds(assets: seq<AssetView>): (r: seq<string>)
    ensures |r| == |assets| && forall i :: 0 <= i < |assets| ==> r[i] == assets[i].kind
  {
    seq(|assets|, i requires 0 <= i < |assets| => assets[i].kind)
  }

  /** The assets' statuses, in order. */
  function Statuses(assets: seq<AssetView>): (r: seq<string>)
    ensures |r| == |assets| && forall i :: 0 <= i < |assets| ==> r[i] == assets[i].status
  {
    seq(|assets|, i requires 0 <= i < |assets| => assets[i].status)
  }

  /** The derived `DashboardData`. */
  method Summarize(assets: seq<AssetView>, records: seq<RecordView>, now: int) returns (d: DashboardData)
    ensures Describes(d, assets, records, now)
  {
    var byType := Tally(Kinds(assets));
    var byStatus := Tally(Statuses(assets));
    d := DashboardData(
      |assets|,
      Count(assets, IsActive),
      Count(assets, InMaintenance),
      TotalCost(records),
      Top(Filter(records, (r: RecordView) => r.deadline > now), DeadlineKey, Asc, 5),
      Top(records, DateKey, Desc, 5),
      byType,
      byStatus);
  }

  /** Active and in-maintenance assets together never outnumber the assets. */
  lemma StatusCountsBounded(d: DashboardData, assets: seq<AssetView>, records: seq<RecordView>, now: int)
    requires Describes(d, assets, records, now)
    ensures d.operationalAssets + d.maintenanceAssets <= d.totalAssets
  {
    CountSplits(assets, IsActive, InMaintenance);
  }

  /** The upcoming list: at most five records, all due after now, earliest
      deadline first, and any other record due after now is due no sooner
      than the last one listed. */
  lemma UpcomingIsNextFive(records: seq<RecordView>, now: int)
    ensures var up := Top(Filter(records, (r: RecordView) => r.deadline > now), DeadlineKey, Asc, 5);
      |up| <= 5 &&
      (forall r :: r in up ==> r in records && r.deadline > now) &&
      (forall i, j :: 0 <= i < j < |up| ==> up[i].deadline <= up[j].deadline) &&
      (forall r :: r in records && r.deadline > now && r !in up ==> |up| == 5 && up[4].deadline <= r.deadline)
  {
    TopLeavesOutOnlyLater(Filter(records, (r: RecordView) => r.deadline > now), DeadlineKey, Asc, 5);
  }

  /** The recent list: at most five records, latest first, and no record
      left out is newer than the last one listed. */
  lemma RecentIsLatestFive(records: seq<RecordView>)
    ensures var recent := Top(records, DateKey, Desc, 5);
      |recent| <= 5 &&
      (forall i, j :: 0 <= i < j < |recent| ==> recent[i].date >= recent[j].date) &&
      (forall r :: r in records && r !in recent ==> |recent| == 5 && r.date <= recent[4].date)
  {
    TopLeavesOutOnlyLater(records, DateKey, Desc, 5);
  }

  /** The dashboard screen's state. */
  class Screen {
    var loading: bool
    var error: Option<string>
    var data: Option<DashboardData>

    constructor ()
      ensures loading && error == None && data == None
    {
      loading := true;
      error := None;
      data := None;
    }

    /** `fetchDashboardData`: both lists fetched, or the first failure. On
        success the figures are set and the error is cleared; on failure the
        error message is set and no figures are set. */
    method Fetch(fetched: Result<(seq<AssetView>, seq<RecordView>), Failure>, now: int)
      modifies this
      ensures !loading
      ensures fetched.Ok? ==>
        error == None && data.Some? && Describes(data.value, fetched.value.0, fetched.value.1, now)
      ensures fetched.Err? ==> error == Some(FetchError) && data == old(data)
    {
      loading := true;
      error := None;
      if fetched.Ok? {
        var d := Summarize(fetched.value.0, fetched.value.1, now);
        data := Some(d);
      } else {
        error := Some(FetchError);
      }
      loading := false;
    }
  }
}
