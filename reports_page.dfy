/** The reports screen (`fetchReportData`): the KPIs and the maintenance
    records grouped by type and by status. Dates are milliseconds; an asset
    without a last maintenance date reads as 0. */
module ReportsPage {
  import opened Wrappers
  import opened Seqs
  import opened GroupBy
  import opened ApiClient

  /** The fields of an asset the screen reads. */
  datatype AssetView = AssetView(status: string)

  /** The fields of a maintenance record it reads, with the owning asset's
      `lastMaintenance` (`record.asset.lastMaintenance`); `type` is `kind`. */
  datatype RecordView = RecordView(kind: string, status: string, cost: real, date: int, assetLastMaintenance: int)

  /** The KPIs. `availability` and `oee` are `None` when there are no
      assets (a division by zero). */
  datatype Kpis = Kpis(mtbf: real, mttr: real, oee: Option<real>, availability: Option<real>,
                       totalAssets: nat, operationalAssets: nat, maintenanceCost: real)

  const MsPerDay: int := 24 * 60 * 60 * 1000
  const Performance: real := 0.95
  const Quality: real := 0.98
  const FetchError: string := "Erro ao carregar dados dos relatórios"

  predicate Completed(r: RecordView) { r.status == "completed" }
  predicate Corrective(r: RecordView) { r.kind == "corrective" }
  predicate Operational(a: AssetView) { a.status == "Operational" }

  /** The time since the asset's last maintenance, for a completed record. */
  function Span(r: RecordView): int {
    r.date - r.assetLastMaintenance
  }

  /** `totalOperationTime`: the spans of the completed records. */
  function OperationTime(records: seq<RecordView>): int {
    if records == [] then 0
    else
      var last := records[|records| - 1];
      OperationTime(records[..|records| - 1]) + (if last.status == "completed" then Span(last) else 0)
  }

  lemma OperationTimeAppend(records: seq<RecordView>, r: RecordView)
    ensures OperationTime(records + [r]) == OperationTime(records) + (if Completed(r) then Span(r) else 0)
  {
    assert (records + [r])[..|records|] == records;
  }

  /** `totalRepairTime`: written separately, with the same fold. */
  function RepairTime(records: seq<RecordView>): int {
    if records == [] then 0
    else
      var last := records[|records| - 1];
      RepairTime(records[..|records| - 1]) + (if last.status == "completed" then Span(last) else 0)
  }

  /** The two folds agree on every input. */
  lemma {:induction false} RepairTimeIsOperationTime(records: seq<RecordView>)
    ensures RepairTime(records) == OperationTime(records)
  {
    if records != [] {
      RepairTimeIsOperationTime(records[..|records| - 1]);
    }
  }

  /** Only completed records contribute to the operation time. */
  lemma {:induction false} OnlyCompletedCount(records: seq<RecordView>)
    ensures OperationTime(records) == OperationTime(Filter(records, Completed))
  {
    if records != [] {
      var init, last := records[..|records| - 1], records[|records| - 1];
      assert records == init + [last];
      OnlyCompletedCount(init);
      FilterAppend(init, [last], Completed);
      var kept := Filter(init, Completed);
      OperationTimeAppend(init, last);
      if Completed(last) {
        assert Filter([last], Completed) == [last];
        OperationTimeAppend(kept, last);
      } else {
        assert Filter([last], Completed) == [];
        assert kept + [] == kept;
      }
    }
  }

  function Sum(records: seq<RecordView>): real {
    if records == [] then 0.0 else Sum(records[..|records| - 1]) + records[|records| - 1].cost
  }

  /** `failureCount > 0 ? total / failureCount : 0`. */
  function PerFailure(total: int, failures: nat): real {
    if failures > 0 then total as real / failures as real else 0.0
  }

  /** `total / planned`; dividing by zero gives no number. */
  function Ratio(total: int, planned: nat): (r: Option<real>)
    ensures r.None? <==> planned == 0
    ensures r.Some? ==> r.value * planned as real == total as real
  {
    if planned == 0 then None else Some(total as real / planned as real)
  }

  /** The KPIs as `fetchReportData` computes them. */
  function KpisOf(assets: seq<AssetView>, records: seq<RecordView>): (k: Kpis)
    ensures k.totalAssets == |assets|
    ensures k.operationalAssets <= k.totalAssets
    ensures k.availability.None? <==> assets == []
    ensures k.oee.None? <==> assets == []
    ensures k.availability.Some? ==>
      k.availability.value * (|assets| * MsPerDay) as real == OperationTime(records) as real &&
      k.oee.value == k.availability.value * 0.95 * 0.98
  {
    var failures := Count(records, Corrective);
    var planned := |assets| * MsPerDay;
    var availability := Ratio(OperationTime(records), planned);
    Kpis(PerFailure(OperationTime(records), failures),
         PerFailure(RepairTime(records), failures),
         if availability.None? then None else Some(availability.value * Performance * Quality),
         availability,
         |assets|,
         Count(assets, Operational),
         Sum(records))
  }

  /** MTBF and MTTR are always equal: both divide the same total by the
      same failure count. */
  lemma MtbfIsMttr(assets: seq<AssetView>, records: seq<RecordView>)
    ensures KpisOf(assets, records).mtbf == KpisOf(assets, records).mttr
  {
    RepairTimeIsOperationTime(records);
  }

  /** Without a record of type 'corrective' both are 0. */
  lemma NoCorrectiveNoMtbf(assets: seq<AssetView>, records: seq<RecordView>)
    requires forall r :: r in records ==> r.kind != "corrective"
    ensures KpisOf(assets, records).mtbf == 0.0 && KpisOf(assets, records).mttr == 0.0
  {
    FilterKeepsNone(records, Corrective);
  }

  /** The records' types, in order. */
  function Kinds(records: seq<RecordView>): (r: seq<string>)
    ensures |r| == |records| && forall i :: 0 <= i < |records| ==> r[i] == records[i].kind
  {
    seq(|records|, i requires 0 <= i < |records| => records[i].kind)
  }

  /** The records' statuses, in order. */
  function Statuses(records: seq<RecordView>): (r: seq<string>)
    ensures |r| == |records| && forall i :: 0 <= i < |records| ==> r[i] == records[i].status
  {
    seq(|records|, i requires 0 <= i < |records| => records[i].status)
  }

  /** The screen's state. */
  class Screen {
    var loading: bool
    var error: Option<string>
    var kpis: Option<Kpis>
    var byType: seq<Group>
    var byStatus: seq<Group>

    constructor ()
      ensures loading && error == None && kpis == None && byType == [] && byStatus == []
    {
      loading := true;
      error := None;
      kpis := None;
      byType := [];
      byStatus := [];
    }

    /** `fetchReportData`. On success the KPIs and both groupings are set;
        the error is NOT cleared, so a message from an earlier failure stays.
        On failure the error is set and nothing else changes. */
    method Fetch(fetched: Result<(seq<AssetView>, seq<RecordView>), Failure>)
      modifies this
      ensures !loading
      ensures fetched.Ok? ==>
        var (assets, records) := fetched.value;
        error == old(error) && kpis == Some(KpisOf(assets, records)) &&
        GroupsOf(byType, Kinds(records)) && GroupsOf(byStatus, Statuses(records))
      ensures fetched.Err? ==>
        error == Some(FetchError) && kpis == old(kpis) && byType == old(byType) && byStatus == old(byStatus)
    {
      loading := true;
      if fetched.Ok? {
        var (assets, records) := fetched.value;
        kpis := Some(KpisOf(assets, records));
        byType := Tally(Kinds(records));
        byStatus := Tally(Statuses(records));
      } else {
        error := Some(FetchError);
      }
      loading := false;
    }
  }
}
