/** The maintenance endpoints. Creating a record also stamps the owning asset's
    `lastMaintenance` with the record's date, in a second ORM call that is
    not part of a transaction. */
module MaintenanceController {
  import opened Wrappers
  import opened JsValues
  import opened Store
  import opened Http
  import Crud

  /** The list endpoint's equality filters, in the order the handler tests them. */
  const FilterNames: seq<string> := ["assetId", "type", "status"]

  predicate RecordMatches(row: Row, q: Query) {
    (Given(q, "assetId") ==> Get(row, "assetId") == Str(q["assetId"])) &&
    (Given(q, "type") ==> Get(row, "type") == Str(q["type"])) &&
    (Given(q, "status") ==> Get(row, "status") == Str(q["status"]))
  }

  /** `getMaintenanceRecords`: a page of the records matching every given
      filter, by default newest date first. */
  method GetMaintenanceRecords(db: Database, q: Query) returns (res: Response)
    requires db.Valid()
    ensures res == Listing(db.maintenance.rows, row => RecordMatches(row, q), q,
                           db.maintenance.columns, "date", "Failed to fetch maintenance records")
    ensures q == map[] ==> res.status == 200
  {
    var w := EqualityWhere(q, FilterNames);
    forall row
      ensures Matches(row, w) == RecordMatches(row, q)
    {
      assert FilterNames[0] == "assetId" && FilterNames[1] == "type" && FilterNames[2] == "status";
    }
    ListingSameFilter(db.maintenance.rows, row => Matches(row, w), row => RecordMatches(row, q),
                      q, db.maintenance.columns, "date", "Failed to fetch maintenance records");
    res := Listing(db.maintenance.rows, row => Matches(row, w), q,
                   db.maintenance.columns, "date", "Failed to fetch maintenance records");
    DefaultListing(db.maintenance.rows, row => Matches(row, w),
                   db.maintenance.columns, "date", "Failed to fetch maintenance records");
  }

  /** `getMaintenanceRecordById`: 404 exactly when no record has the id. */
  function GetMaintenanceRecordById(db: Database, id: string): (res: Response)
    reads db.maintenance
    ensures res.status == 404 <==> Lookup(db.maintenance.rows, id).None?
    ensures res.status == 404 ==> res.body == Error("Maintenance record not found")
    ensures res.status != 404 ==> res == Response(200, Record(Lookup(db.maintenance.rows, id).value))
  {
    Found(db.maintenance.rows, id, "Maintenance record not found")
  }

  /** The asset update `createMaintenanceRecord` sends. */
  function Stamp(record: Row): Row {
    map["lastMaintenance" := Get(record, "date")]
  }

  /** The stamp only fails for an absent asset, and sets `lastMaintenance` to
      the record's date whatever the asset held before, so recording an older
      maintenance moves the date back. */
  lemma StampOverwrites(assets: seq<Row>, record: Row)
    requires UniqueOn(assets, AssetUniques)
    requires Get(record, "assetId").Str? && Get(record, "date").Date?
    ensures var u := Modification(assets, AssetUniques, {}, {"id"}, Get(record, "assetId").s, Stamp(record));
      (u.Err? <==> Lookup(assets, Get(record, "assetId").s).None?) &&
      (u.Ok? ==>
        Lookup(assets, Get(record, "assetId").s) == Some(assets[u.value.0]) &&
        Get(u.value.1, "lastMaintenance") == Get(record, "date") &&
        forall f :: f != "lastMaintenance" ==> Get(u.value.1, f) == Get(assets[u.value.0], f))
  {
    var id := Get(record, "assetId").s;
    var u := Modification(assets, AssetUniques, {}, {"id"}, id, Stamp(record));
    assert Defined(Stamp(record)) == Stamp(record);
    if u.Ok? {
      UniqueIdPosition(assets, AssetUniques, u.value.0, id);
    }
  }

  /** `createMaintenanceRecord`: stores the record, then stamps its asset.
      The body goes to the ORM as it came, so an ISO string in `date` is read
      by the ORM's parser `parseIso`. 201 with the record when both writes
      succeed. If the record cannot be stored nothing changes; if the asset
      is missing the record stays stored and the answer is still 500. */
  method CreateMaintenanceRecord(db: Database, body: Row, parseIso: string -> Option<int>, newId: string, now: int)
    returns (res: Response)
    requires db.Valid()
    modifies db.maintenance, db.assets
    ensures db.Valid()
    ensures var c := Creation(old(db.maintenance.rows), {"id"}, MaintenanceDates, MaintenanceTexts,
                              CoerceDates(body, MaintenanceDates, parseIso), newId, now);
      (c.Err? ==> res == Response(500, Error("Failed to create maintenance record")) &&
                  db.maintenance.rows == old(db.maintenance.rows) && db.assets.rows == old(db.assets.rows)) &&
      (c.Ok? ==>
        db.maintenance.rows == old(db.maintenance.rows) + [c.value] &&
        var owner := Get(c.value, "assetId").s;
        var u := Modification(old(db.assets.rows), AssetUniques, {}, {"id"}, owner, Stamp(c.value));
        (u.Ok? ==> res == Response(201, Record(c.value)) &&
                   db.assets.rows == old(db.assets.rows)[u.value.0 := u.value.1] &&
                   Get(u.value.1, "lastMaintenance") == Get(c.value, "date")) &&
        (u.Err? ==> res == Response(500, Error("Failed to create maintenance record")) &&
                    db.assets.rows == old(db.assets.rows)))
    ensures res.status == 201 || res.status == 500
  {
    var r := db.maintenance.Create(CoerceDates(body, MaintenanceDates, parseIso), newId, now);
    if r.Err? {
      return Response(500, Error("Failed to create maintenance record"));
    }
    var record := r.value;
    StampOverwrites(db.assets.rows, record);
    var a := db.assets.Update(Get(record, "assetId").s, Stamp(record));
    if a.Ok? {
      res := Response(201, Record(record));
    } else {
      res := Response(500, Error("Failed to create maintenance record"));
    }
  }

  /** A body whose `date` is an ISO string the ORM reads, with a string
      `type` and `assetId` and no `id` of its own, is stored when the new id
      is free, with the date the string denotes. */
  lemma IsoDateCreates(rows: seq<Row>, body: Row, parseIso: string -> Option<int>, newId: string, now: int,
                       s: string, ms: int)
    requires Get(body, "date") == Str(s) && parseIso(s) == Some(ms)
    requires Get(body, "type").Str? && Get(body, "assetId").Str? && Get(body, "id") == Undefined
    requires forall x :: x in rows ==> !HasId(x, newId)
    ensures var c := Creation(rows, {"id"}, MaintenanceDates, MaintenanceTexts,
                              CoerceDates(body, MaintenanceDates, parseIso), newId, now);
      c.Ok? && Get(c.value, "date") == Date(ms)
  {
    IsoRowTyped(body, parseIso, newId, now, s, ms);
    FreshIdNoClash(rows, NewRow(CoerceDates(body, MaintenanceDates, parseIso), newId, now), newId);
  }

  /** The row such a body becomes holds the date and has the column types a
      maintenance record needs. */
  lemma IsoRowTyped(body: Row, parseIso: string -> Option<int>, newId: string, now: int, s: string, ms: int)
    requires Get(body, "date") == Str(s) && parseIso(s) == Some(ms)
    requires Get(body, "type").Str? && Get(body, "assetId").Str? && Get(body, "id") == Undefined
    ensures var row := NewRow(CoerceDates(body, MaintenanceDates, parseIso), newId, now);
      WellTyped(row, MaintenanceDates, MaintenanceTexts) && Get(row, "date") == Date(ms) && HasId(row, newId)
  {
    var data := CoerceDates(body, MaintenanceDates, parseIso);
    assert Get(data, "date") == Date(ms);
    assert Get(data, "type") == Get(body, "type") && Get(data, "assetId") == Get(body, "assetId");
    assert Get(data, "id") == Undefined;
    var row := NewRow(data, newId, now);
    assert Get(row, "date") == Date(ms);
    assert Get(row, "type").Str? && Get(row, "assetId").Str? && Get(row, "id") == Str(newId);
    MaintenanceTyped(row);
  }

  /** A `date` string the ORM cannot read fails the create, whatever else the
      body holds. */
  lemma UnreadableDateFails(rows: seq<Row>, body: Row, parseIso: string -> Option<int>, newId: string, now: int)
    requires Get(body, "date").Str? && parseIso(Get(body, "date").s).None?
    ensures Creation(rows, {"id"}, MaintenanceDates, MaintenanceTexts,
                     CoerceDates(body, MaintenanceDates, parseIso), newId, now) == Err(InvalidData)
  {
    var data := CoerceDates(body, MaintenanceDates, parseIso);
    assert Get(data, "date") == Get(body, "date");
    assert !Get(NewRow(data, newId, now), "date").Date?;
  }

  /** `updateMaintenanceRecord`: 404 for an absent id, else the merged record
      or 500. An ISO string in `date` is read by the ORM's parser, as on
      create. The asset's `lastMaintenance` is not touched. */
  method UpdateMaintenanceRecord(db: Database, id: string, body: Row, parseIso: string -> Option<int>)
    returns (res: Response)
    requires db.Valid()
    modifies db.maintenance
    ensures db.Valid()
    ensures Lookup(old(db.maintenance.rows), id).None? ==>
      res == Response(404, Error("Maintenance record not found")) && db.maintenance.rows == old(db.maintenance.rows)
    ensures Lookup(old(db.maintenance.rows), id).Some? ==>
      var u := Modification(old(db.maintenance.rows), {"id"}, MaintenanceDates, MaintenanceTexts, id,
                            CoerceDates(body, MaintenanceDates, parseIso));
      (u.Ok? ==> res == Response(200, Record(u.value.1)) &&
                 db.maintenance.rows == old(db.maintenance.rows)[u.value.0 := u.value.1]) &&
      (u.Err? ==> res == Response(500, Error("Failed to update maintenance record")) &&
                  db.maintenance.rows == old(db.maintenance.rows))
  {
    res := Crud.UpdateExisting(db.maintenance, id, CoerceDates(body, MaintenanceDates, parseIso),
                               "Maintenance record not found",
                               "Failed to update maintenance record");
  }

  /** `deleteMaintenanceRecord`: 404 for an absent id, else 204 and the
      record is gone. */
  method DeleteMaintenanceRecord(db: Database, id: string) returns (res: Response)
    requires db.Valid()
    modifies db.maintenance
    ensures db.Valid()
    ensures Lookup(old(db.maintenance.rows), id).None? ==>
      res == Response(404, Error("Maintenance record not found")) && db.maintenance.rows == old(db.maintenance.rows)
    ensures Lookup(old(db.maintenance.rows), id).Some? ==>
      res == Response(204, NoContent) && Lookup(db.maintenance.rows, id).None? &&
      forall x :: x in db.maintenance.rows <==> x in old(db.maintenance.rows) && !HasId(x, id)
  {
    res := Crud.DeleteExisting(db.maintenance, id, "Maintenance record not found");
  }
}
