/** The asset service (`AssetService`): pass-through reads and writes of the
    asset table, and `calculateMetrics`, which loads an asset's maintenance
    history ordered by date ascending and hands it to the metrics engine. */
module AssetService {
  import opened Wrappers
  import opened JsValues
  import opened Store
  import opened Sorting
  import opened Seqs
  import opened AssetMetrics

  // ---------------------------------------------------------------------------
  // CRUD pass-throughs

  /** `getAllAssets`: every stored asset, in table order. */
  method GetAllAssets(db: Database) returns (assets: seq<Row>)
    requires db.Valid()
    ensures assets == db.assets.rows
  {
    assets := db.assets.rows;
  }

  /** `getAssetById`: the asset with that id, or null. */
  method GetAssetById(db: Database, id: string) returns (asset: Option<Row>)
    requires db.Valid()
    ensures asset.Some? <==> exists i :: 0 <= i < |db.assets.rows| && HasId(db.assets.rows[i], id)
    ensures asset.Some? ==> asset.value in db.assets.rows && HasId(asset.value, id)
  {
    asset := Lookup(db.assets.rows, id);
  }

  /** `createAsset`: stores the data as a new asset. */
  method CreateAsset(db: Database, data: Row, newId: string, now: int) returns (r: Result<Row, DbError>)
    requires db.Valid()
    modifies db.assets
    ensures db.Valid()
    ensures r == Creation(old(db.assets.rows), AssetUniques, {}, {"id"}, data, newId, now)
    ensures db.assets.rows == if r.Ok? then old(db.assets.rows) + [r.value] else old(db.assets.rows)
  {
    r := db.assets.Create(data, newId, now);
  }

  /** `updateAsset`: merges the data into the stored asset. */
  method UpdateAsset(db: Database, id: string, data: Row) returns (r: Result<Row, DbError>)
    requires db.Valid()
    modifies db.assets
    ensures db.Valid()
    ensures var u := Modification(old(db.assets.rows), AssetUniques, {}, {"id"}, id, data);
      (u.Err? ==> r == Err(u.error) && db.assets.rows == old(db.assets.rows)) &&
      (u.Ok? ==> r == Ok(u.value.1) && db.assets.rows == old(db.assets.rows)[u.value.0 := u.value.1])
  {
    r := db.assets.Update(id, data);
  }

  /** `deleteAsset`: removes the asset and returns it. */
  method DeleteAsset(db: Database, id: string) returns (r: Result<Row, DbError>)
    requires db.Valid()
    modifies db.assets
    ensures db.Valid()
    ensures r.Err? <==> Lookup(old(db.assets.rows), id).None?
    ensures r.Err? ==> db.assets.rows == old(db.assets.rows)
    ensures r.Ok? ==> Lookup(old(db.assets.rows), id) == Some(r.value)
    ensures r.Ok? ==> Lookup(db.assets.rows, id).None?
    ensures r.Ok? ==> forall x :: x in db.assets.rows <==> x in old(db.assets.rows) && !HasId(x, id)
  {
    r := db.assets.Delete(id);
  }

  /** A created row is found again by its id, carrying every defined field of
      the data it was created from (the service tests create an asset and read
      back its code, name and id). */
  lemma CreatedRowIsFound(rows: seq<Row>, uniques: set<string>, dates: set<string>, texts: set<string>,
                          data: Row, newId: string, now: int)
    requires UniqueOn(rows, uniques) && "id" in uniques && "id" in texts
    requires Creation(rows, uniques, dates, texts, data, newId, now).Ok?
    ensures var row := Creation(rows, uniques, dates, texts, data, newId, now).value;
      Get(row, "id").Str? &&
      Lookup(rows + [row], Get(row, "id").s) == Some(row) &&
      forall f :: f in data && data[f] != Undefined ==> f in row && row[f] == data[f]
  {
    var row := Creation(rows, uniques, dates, texts, data, newId, now).value;
    var rows' := rows + [row];
    assert forall j, f :: 0 <= j < |rows| && f in uniques ==> !Clash(rows[j], row, f);
    assert UniqueOn(rows', uniques) by {
      forall i, j, f | 0 <= i < j < |rows'| && f in uniques
        ensures !Clash(rows'[i], rows'[j], f)
      {
        if j < |rows| {
          assert rows'[i] == rows[i] && rows'[j] == rows[j];
        }
      }
    }
    UniqueIdPosition(rows', uniques, |rows|, Get(row, "id").s);
  }

  /** An update changes exactly the fields it is given a defined value for
      (the service test renames an asset and reads back the new name). */
  lemma UpdateChangesOnlyGivenFields(rows: seq<Row>, uniques: set<string>, dates: set<string>, texts: set<string>,
                                     id: string, data: Row)
    requires Modification(rows, uniques, dates, texts, id, data).Ok?
    ensures var (i, row) := Modification(rows, uniques, dates, texts, id, data).value;
      i < |rows| && HasId(rows[i], id) &&
      (forall f :: f in data && data[f] != Undefined ==> Get(row, f) == data[f]) &&
      (forall f :: (f !in data || data[f] == Undefined) ==> Get(row, f) == Get(rows[i], f))
  {
  }

  // ---------------------------------------------------------------------------
  // The maintenance history of an asset

  /** The maintenance record belongs to the asset. */
  predicate BelongsTo(record: Row, assetId: string) {
    Get(record, "assetId") == Str(assetId)
  }

  /** The record's date as a sort key. Stored maintenance records always hold a
      date (`Database.Valid`), so the fallback 0 is never used on them. */
  function DateKey(record: Row): real {
    var d := Get(record, "date");
    if d.Date? then d.ms as real else 0.0
  }

  /** The record as the metrics engine reads it: date and type. */
  function EntryOf(record: Row): (e: Entry)
    ensures e.dateMs as real == DateKey(record)
  {
    var d, t := Get(record, "date"), Get(record, "type");
    Entry(if d.Date? then d.ms else 0, if t.Str? then t.s else "")
  }

  /** `findMany({ where: { assetId }, orderBy: { date: 'asc' } })`: every
      record of the asset, as many times as the table holds it and no other
      record, oldest first. The ORM leaves the order of records with equal
      dates open; the model keeps them in table order, a choice that decides
      which of them the engine reads as the first record. */
  function HistoryRows(records: seq<Row>, assetId: string): (r: seq<Row>)
    ensures forall x :: multiset(r)[x] == if BelongsTo(x, assetId) then multiset(records)[x] else 0
    ensures forall x :: x in r <==> x in records && BelongsTo(x, assetId)
    ensures Sorted(r, DateKey, Asc)
  {
    var mine := Filter(records, x => BelongsTo(x, assetId));
    FilterCounts(records, x => BelongsTo(x, assetId));
    SortBy(mine, DateKey, Asc)
  }

  /** The history the engine receives: the asset's records read as entries,
      one for one and in the same order, so its dates ascend. */
  function HistoryOf(records: seq<Row>, assetId: string): (h: seq<Entry>)
    ensures |h| == |HistoryRows(records, assetId)|
    ensures forall i :: 0 <= i < |h| ==> h[i] == EntryOf(HistoryRows(records, assetId)[i])
    ensures Ascending(h)
  {
    var rs := HistoryRows(records, assetId);
    var h := seq(|rs|, i requires 0 <= i < |rs| => EntryOf(rs[i]));
    EntriesAscend(rs, h);
    h
  }

  /** Entries read from rows sorted by date ascend. */
  lemma EntriesAscend(rs: seq<Row>, h: seq<Entry>)
    requires Sorted(rs, DateKey, Asc)
    requires |h| == |rs| && forall i :: 0 <= i < |h| ==> h[i] == EntryOf(rs[i])
    ensures Ascending(h)
  {
    forall j, k | 0 <= j < k < |h|
      ensures h[j].dateMs <= h[k].dateMs
    {
      assert DateKey(rs[j]) <= DateKey(rs[k]);
    }
  }

  /** `calculateMetrics(id)`: loads the history, then runs the engine. */
  method CalculateMetrics(db: Database, assetId: string) returns (m: Metrics)
    requires db.Valid()
    ensures m == MetricsOf(HistoryOf(db.maintenance.rows, assetId))
  {
    var history := HistoryOf(db.maintenance.rows, assetId);
    m := AssetMetrics.CalculateMetrics(history);
  }

  /** The engine only ever sees an ascending history, so the bounds proved for
      ascending histories hold for every stored asset. */
  lemma StoredMetricsBounds(records: seq<Row>, assetId: string)
    ensures var m := MetricsOf(HistoryOf(records, assetId));
      0.0 <= m.mttr <= m.mtbf && m.availability <= 1.0 && m.oee <= 0.855
  {
    AscendingBounds(HistoryOf(records, assetId));
  }
}
