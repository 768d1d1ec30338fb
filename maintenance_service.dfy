/** The maintenance service (`MaintenanceService`): every create, update or
    delete of a maintenance record is followed by recomputing the owning
    asset's metrics and writing the six metric fields back onto the asset. The
    two writes are separate, so the record change stays in place when the
    write-back fails. */
module MaintenanceService {
  import opened Wrappers
  import opened JsValues
  import opened Store
  import opened AssetMetrics
  import AssetService

  /** The six fields the write-back sets. */
  const MetricNames: set<string> := {"mtbf", "mttr", "oee", "availability", "performance", "quality"}

  /** The metrics as the `data` object of the asset update. */
  function MetricsFields(m: Metrics): (r: Row)
    ensures r.Keys == MetricNames
    ensures r["mtbf"] == Num(m.mtbf) && r["mttr"] == Num(m.mttr) && r["oee"] == Num(m.oee)
    ensures r["availability"] == Num(m.availability)
    ensures r["performance"] == Num(m.performance) && r["quality"] == Num(m.quality)
  {
    map["mtbf" := Num(m.mtbf), "mttr" := Num(m.mttr), "oee" := Num(m.oee),
        "availability" := Num(m.availability), "performance" := Num(m.performance),
        "quality" := Num(m.quality)]
  }

  /** The asset table after `asset.update({ where: { id: assetId }, data: metrics })`;
      unchanged when no asset has that id (the update then fails). */
  function WriteBack(assets: seq<Row>, assetId: string, m: Metrics): (r: seq<Row>)
    requires UniqueOn(assets, AssetUniques)
    ensures |r| == |assets|
    ensures forall j, f :: 0 <= j < |r| && f !in MetricNames ==> Get(r[j], f) == Get(assets[j], f)
    ensures forall j :: 0 <= j < |r| && !HasId(assets[j], assetId) ==> r[j] == assets[j]
    ensures Lookup(assets, assetId).None? ==> r == assets
    ensures Lookup(assets, assetId).Some? ==>
      Lookup(r, assetId).Some? &&
      forall f :: f in MetricNames ==> Get(Lookup(r, assetId).value, f) == MetricsFields(m)[f]
  {
    match IndexOf(assets, assetId)
    case None => assets
    case Some(i) =>
      WriteBackKeeps(assets, assetId, m, i);
      WriteBackSets(assets, assetId, m, i);
      assets[i := assets[i] + MetricsFields(m)]
  }

  /** Setting the metrics on the asset's row changes no other field and no
      other row. */
  lemma WriteBackKeeps(assets: seq<Row>, assetId: string, m: Metrics, i: nat)
    requires IndexOf(assets, assetId) == Some(i)
    ensures var r := assets[i := assets[i] + MetricsFields(m)];
      (forall j, f :: 0 <= j < |r| && f !in MetricNames ==> Get(r[j], f) == Get(assets[j], f)) &&
      (forall j :: 0 <= j < |r| && !HasId(assets[j], assetId) ==> r[j] == assets[j])
  {
    MetricsUpdateKeeps(assets[i], m);
  }

  /** After setting the metrics, the asset is found with the new values. */
  lemma WriteBackSets(assets: seq<Row>, assetId: string, m: Metrics, i: nat)
    requires IndexOf(assets, assetId) == Some(i)
    ensures var r := assets[i := assets[i] + MetricsFields(m)];
      Lookup(r, assetId).Some? &&
      forall f :: f in MetricNames ==> Get(Lookup(r, assetId).value, f) == MetricsFields(m)[f]
  {
    var r := assets[i := assets[i] + MetricsFields(m)];
    MetricsUpdateKeeps(assets[i], m);
    SameIdsSamePosition(r, assets, assetId);
  }

  /** The write-back is exactly the ORM update of the metric fields, which
      succeeds whenever the asset exists. */
  lemma WriteBackIsUpdate(assets: seq<Row>, assetId: string, m: Metrics)
    requires UniqueOn(assets, AssetUniques)
    ensures var u := Modification(assets, AssetUniques, {}, {"id"}, assetId, MetricsFields(m));
      (u.Ok? <==> Lookup(assets, assetId).Some?) &&
      (u.Err? ==> u.error == RecordNotFound) &&
      (u.Ok? ==> assets[u.value.0 := u.value.1] == WriteBack(assets, assetId, m))
  {
    match IndexOf(assets, assetId)
    case None =>
    case Some(i) =>
      MetricsUpdateKeeps(assets[i], m);
      var row := assets[i] + MetricsFields(m);
      assert WellTyped(row, {}, {"id"});
      KeepingUniquesNoClash(assets, AssetUniques, i, row);
  }

  /** No metric value is `undefined`, and setting the metric fields keeps
      every other field, the unique columns among them. */
  lemma MetricsUpdateKeeps(row: Row, m: Metrics)
    ensures Defined(MetricsFields(m)) == MetricsFields(m)
    ensures forall f :: f !in MetricNames ==> Get(row + MetricsFields(m), f) == Get(row, f)
    ensures forall f :: f in AssetUniques ==> f !in MetricNames
  {
  }

  /** Writing back onto one asset leaves every other asset as it was; after an
      update that moves a record to another asset, the previous owner keeps
      its old metrics. */
  lemma WriteBackLeavesOthers(assets: seq<Row>, owner: string, other: string, m: Metrics)
    requires UniqueOn(assets, AssetUniques) && owner != other
    ensures Lookup(WriteBack(assets, owner, m), other) == Lookup(assets, other)
  {
    var r := WriteBack(assets, owner, m);
    SameIdsSamePosition(r, assets, other);
  }

  /** Recomputes the asset's metrics from the current records and writes them
      back (lines 39-45 of each method). */
  method RefreshMetrics(db: Database, assetId: string) returns (r: Result<Row, DbError>)
    requires db.Valid()
    modifies db.assets
    ensures db.Valid()
    ensures db.maintenance.rows == old(db.maintenance.rows)
    ensures db.assets.rows == WriteBack(old(db.assets.rows), assetId, MetricsFor(db.maintenance.rows, assetId))
    ensures r.Ok? <==> Lookup(old(db.assets.rows), assetId).Some?
    ensures r.Err? ==> r.error == RecordNotFound
  {
    var newMetrics := AssetService.CalculateMetrics(db, assetId);
    WriteBackIsUpdate(db.assets.rows, assetId, newMetrics);
    r := db.assets.Update(assetId, MetricsFields(newMetrics));
  }

  /** The metrics a maintenance table gives an asset. */
  function MetricsFor(records: seq<Row>, assetId: string): Metrics {
    MetricsOf(AssetService.HistoryOf(records, assetId))
  }

  /** `createMaintenance`: stores the record and, when its asset exists,
      refreshes that asset's metrics from a history that includes the new
      record. Returns the created record. */
  method CreateMaintenance(db: Database, data: Row, newId: string, now: int) returns (r: Result<Row, DbError>)
    requires db.Valid()
    modifies db.maintenance, db.assets
    ensures db.Valid()
    ensures r == Creation(old(db.maintenance.rows), {"id"}, MaintenanceDates, MaintenanceTexts, data, newId, now)
    ensures db.maintenance.rows == if r.Ok? then old(db.maintenance.rows) + [r.value] else old(db.maintenance.rows)
    ensures r.Err? ==> db.assets.rows == old(db.assets.rows)
    ensures r.Ok? ==> Get(data, "assetId") == Get(r.value, "assetId") && Get(r.value, "assetId").Str?
    ensures r.Ok? ==> var owner := Get(r.value, "assetId").s;
      r.value in AssetService.HistoryRows(db.maintenance.rows, owner) &&
      db.assets.rows == WriteBack(old(db.assets.rows), owner, MetricsFor(db.maintenance.rows, owner))
  {
    ghost var before := db.maintenance.rows;
    r := db.maintenance.Create(data, newId, now);
    if r.Err? {
      return;
    }
    CreatedRecordInHistory(before, data, newId, now);
    var owner := Get(data, "assetId").s;
    var asset := Lookup(db.assets.rows, owner);
    if asset.Some? {
      var _ := RefreshMetrics(db, owner);
    }
  }

  /** A created record keeps the body's asset id, a string, and is part of
      that asset's history once appended. */
  lemma CreatedRecordInHistory(rows: seq<Row>, data: Row, newId: string, now: int)
    requires Creation(rows, {"id"}, MaintenanceDates, MaintenanceTexts, data, newId, now).Ok?
    ensures var row := Creation(rows, {"id"}, MaintenanceDates, MaintenanceTexts, data, newId, now).value;
      Get(data, "assetId") == Get(row, "assetId") && Get(row, "assetId").Str? &&
      row in AssetService.HistoryRows(rows + [row], Get(row, "assetId").s)
  {
    var row := Creation(rows, {"id"}, MaintenanceDates, MaintenanceTexts, data, newId, now).value;
    assert Get(row, "assetId").Str?;
    assert row in rows + [row];
  }

  /** `updateMaintenance`: merges the data into the record, then refreshes the
      metrics of the asset the record now belongs to (only when that id is a
      non-empty string). Fails if the record is absent, and also, after the
      record has been changed, if its asset is absent. */
  method UpdateMaintenance(db: Database, id: string, data: Row) returns (r: Result<Row, DbError>)
    requires db.Valid()
    modifies db.maintenance, db.assets
    ensures db.Valid()
    ensures var u := Modification(old(db.maintenance.rows), {"id"}, MaintenanceDates, MaintenanceTexts, id, data);
      u.Err? ==> r == Err(u.error) && db.maintenance.rows == old(db.maintenance.rows) &&
                 db.assets.rows == old(db.assets.rows)
    ensures var u := Modification(old(db.maintenance.rows), {"id"}, MaintenanceDates, MaintenanceTexts, id, data);
      u.Ok? ==>
        var record := u.value.1;
        var owner := Get(record, "assetId").s;
        db.maintenance.rows == old(db.maintenance.rows)[u.value.0 := record] &&
        (owner == "" ==> r == Ok(record) && db.assets.rows == old(db.assets.rows)) &&
        (owner != "" ==>
          db.assets.rows == WriteBack(old(db.assets.rows), owner, MetricsFor(db.maintenance.rows, owner)) &&
          r == if Lookup(old(db.assets.rows), owner).Some? then Ok(record) else Err(RecordNotFound))
  {
    r := db.maintenance.Update(id, data);
    if r.Err? {
      return;
    }
    assert db.assets.rows == old(db.assets.rows);
    var record := r.value;
    assert Truthy(Get(record, "assetId")) <==> Get(record, "assetId").s != "";
    if Truthy(Get(record, "assetId")) {
      var w := RefreshMetrics(db, Get(record, "assetId").s);
      if w.Err? {
        return Err(w.error);
      }
    }
  }

  /** `deleteMaintenance`: removes the record, then refreshes the metrics of
      its former asset from the remaining history. */
  method DeleteMaintenance(db: Database, id: string) returns (r: Result<Row, DbError>)
    requires db.Valid()
    modifies db.maintenance, db.assets
    ensures db.Valid()
    ensures Lookup(old(db.maintenance.rows), id).None? ==>
      r == Err(RecordNotFound) && db.maintenance.rows == old(db.maintenance.rows) &&
      db.assets.rows == old(db.assets.rows)
    ensures Lookup(old(db.maintenance.rows), id).Some? ==>
      var record := Lookup(old(db.maintenance.rows), id).value;
      var owner := Get(record, "assetId").s;
      Lookup(db.maintenance.rows, id).None? &&
      (forall x :: x in db.maintenance.rows <==> x in old(db.maintenance.rows) && !HasId(x, id)) &&
      (owner == "" ==> r == Ok(record) && db.assets.rows == old(db.assets.rows)) &&
      (owner != "" ==>
        db.assets.rows == WriteBack(old(db.assets.rows), owner, MetricsFor(db.maintenance.rows, owner)) &&
        r == if Lookup(old(db.assets.rows), owner).Some? then Ok(record) else Err(RecordNotFound))
  {
    ghost var before := db.maintenance.rows;
    r := db.maintenance.Delete(id);
    if r.Err? {
      return;
    }
    assert db.assets.rows == old(db.assets.rows);
    var record := r.value;
    assert Get(record, "assetId").Str? by {
      FoundIsWellTyped(before, MaintenanceDates, MaintenanceTexts, id);
    }
    assert Truthy(Get(record, "assetId")) <==> Get(record, "assetId").s != "";
    if Truthy(Get(record, "assetId")) {
      var w := RefreshMetrics(db, Get(record, "assetId").s);
      if w.Err? {
        return Err(w.error);
      }
    }
  }

  /** Deleting an asset's records down to a single one resets its metrics
      to zero. */
  lemma DownToOneRecordResets(records: seq<Row>, assetId: string)
    requires |AssetService.HistoryRows(records, assetId)| <= 1
    ensures MetricsFor(records, assetId) == Zero
  {
  }
}
