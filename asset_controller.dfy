/** The asset endpoints: the list with search, filters, ordering and
    pagination; get, update and delete with a 404 for an absent id; and create
    with its required-field check, its code / serial number uniqueness check
    and the ORM's own uniqueness error. */
module AssetController {
  import opened Wrappers
  import opened JsValues
  import opened Text
  import opened Seqs
  import opened Store
  import opened Http
  import Crud

  // ---------------------------------------------------------------------------
  // GET /assets

  /** An asset the list keeps: its name or location contains `search`
      ignoring case, and its status and type equal their filters; a missing
      or empty parameter imposes nothing. */
  predicate AssetMatches(row: Row, q: Query) {
    (Given(q, "search") ==>
      ContainsIgnoringCase(Get(row, "name"), q["search"]) ||
      ContainsIgnoringCase(Get(row, "location"), q["search"])) &&
    (Given(q, "status") ==> Get(row, "status") == Str(q["status"])) &&
    (Given(q, "type") ==> Get(row, "type") == Str(q["type"]))
  }

  /** The `where` object, filled in field by field. */
  method AssetWhere(q: Query) returns (w: Where)
    ensures forall row :: Matches(row, w) <==> AssetMatches(row, q)
  {
    w := Where(None, [], map[]);
    if Given(q, "search") {
      w := w.(search := Some(q["search"]), searchIn := ["name", "location"]);
    }
    if Given(q, "status") {
      w := w.(equal := w.equal["status" := q["status"]]);
    }
    if Given(q, "type") {
      w := w.(equal := w.equal["type" := q["type"]]);
    }
    forall row
      ensures Matches(row, w) <==> AssetMatches(row, q)
    {
      if Given(q, "search") {
        assert w.searchIn[0] == "name" && w.searchIn[1] == "location";
      }
    }
  }

  /** `getAssets`: a page of the matching assets, by default the ten most
      recently created. */
  method GetAssets(db: Database, q: Query) returns (res: Response)
    requires db.Valid()
    ensures res == Listing(db.assets.rows, row => AssetMatches(row, q), q, db.assets.columns, "createdAt",
                           "Failed to fetch assets")
    ensures q == map[] ==> res.status == 200
  {
    var w := AssetWhere(q);
    ListingSameFilter(db.assets.rows, row => Matches(row, w), row => AssetMatches(row, q),
                      q, db.assets.columns, "createdAt", "Failed to fetch assets");
    res := Listing(db.assets.rows, row => Matches(row, w), q,
                   db.assets.columns, "createdAt", "Failed to fetch assets");
    DefaultListing(db.assets.rows, row => Matches(row, w),
                   db.assets.columns, "createdAt", "Failed to fetch assets");
  }

  // ---------------------------------------------------------------------------
  // GET /assets/:id

  /** `getAssetById`: 404 exactly when no asset has the id, else the asset. */
  function GetAssetById(db: Database, id: string): (res: Response)
    reads db.assets
    ensures res.status == 404 <==> Lookup(db.assets.rows, id).None?
    ensures res.status == 404 ==> res.body == Error("Asset not found")
    ensures res.status != 404 ==> res == Response(200, Record(Lookup(db.assets.rows, id).value))
  {
    Found(db.assets.rows, id, "Asset not found")
  }

  // ---------------------------------------------------------------------------
  // POST /assets

  /** The fields the handler requires, in its order. */
  const RequiredFields: seq<string> :=
    ["code", "name", "manufacturer", "model", "type", "location", "acquisitionDate",
     "estimatedLife", "cost", "serialNumber", "status"]

  /** `requiredFields.filter(field => !req.body[field])`: the required fields
      whose value is falsy, in the order of the list. */
  function MissingFields(body: Row): seq<string> {
    Falsy(RequiredFields, body)
  }

  /** The fields of `fields` whose value in `body` is falsy, in order. */
  function Falsy(fields: seq<string>, body: Row): seq<string> {
    if fields == [] then []
    else (if Truthy(Get(body, fields[0])) then [] else [fields[0]]) + Falsy(fields[1..], body)
  }

  /** The filter keeps exactly the required fields whose value is falsy, and
      keeps them in the order of the list. */
  lemma MissingFieldsMembers(body: Row)
    ensures forall f :: f in MissingFields(body) <==> f in RequiredFields && !Truthy(Get(body, f))
    ensures IsSubsequence(MissingFields(body), RequiredFields)
  {
    FalsyIsFilter(RequiredFields, body);
    FilterIsSubsequence(RequiredFields, f => !Truthy(Get(body, f)));
  }

  /** `Falsy` is the filter by a falsy value. */
  lemma {:induction false} FalsyIsFilter(fields: seq<string>, body: Row)
    ensures Falsy(fields, body) == Filter(fields, f => !Truthy(Get(body, f)))
    decreases |fields|
  {
    if fields != [] {
      FalsyIsFilter(fields[1..], body);
    }
  }

  /** A cost or estimated life of 0 is falsy, so it is reported missing. */
  lemma ZeroIsMissing(body: Row, f: string)
    requires f == "cost" || f == "estimatedLife"
    requires Get(body, f) == Num(0.0)
    ensures f in MissingFields(body)
  {
    MissingFieldsMembers(body);
  }

  /** A body with every required field truthy passes the check. */
  lemma AllTruthyPasses(body: Row)
    requires forall i :: 0 <= i < |RequiredFields| ==> Truthy(Get(body, RequiredFields[i]))
    ensures MissingFields(body) == []
  {
    NoneFalsy(RequiredFields, body);
  }

  /** Fields whose values are all truthy leave nothing falsy. */
  lemma {:induction false} NoneFalsy(fields: seq<string>, body: Row)
    requires forall i :: 0 <= i < |fields| ==> Truthy(Get(body, fields[i]))
    ensures Falsy(fields, body) == []
    decreases |fields|
  {
    if fields != [] {
      assert Truthy(Get(body, fields[0]));
      assert forall i :: 0 <= i < |fields[1..]| ==> fields[1..][i] == fields[i + 1];
      NoneFalsy(fields[1..], body);
    }
  }

  /** `findFirst({ where: { OR: [{ code }, { serialNumber }] } })`: the first
      stored asset with the same code or the same serial number. */
  function FindDuplicate(rows: seq<Row>, code: string, serial: string): (r: Option<Row>)
    ensures r.Some? ==> r.value in rows && (Get(r.value, "code") == Str(code) || Get(r.value, "serialNumber") == Str(serial))
    ensures r.None? ==> forall x :: x in rows ==> Get(x, "code") != Str(code) && Get(x, "serialNumber") != Str(serial)
  {
    if rows == [] then None
    else if Get(rows[0], "code") == Str(code) || Get(rows[0], "serialNumber") == Str(serial) then Some(rows[0])
    else FindDuplicate(rows[1..], code, serial)
  }

  /** The data stored: the body, with `acquisitionDate` converted to a date
      and `lastMaintenance` / `nextMaintenance` converted when truthy and
      null otherwise. `toDate` is `new Date(v)`; `None` is an invalid date,
      which the ORM rejects. */
  function CreateData(body: Row, toDate: Value -> Option<int>): (r: Option<Row>)
    ensures r.Some? <==>
      toDate(Get(body, "acquisitionDate")).Some? &&
      (Truthy(Get(body, "lastMaintenance")) ==> toDate(Get(body, "lastMaintenance")).Some?) &&
      (Truthy(Get(body, "nextMaintenance")) ==> toDate(Get(body, "nextMaintenance")).Some?)
    ensures r.Some? ==>
      (forall f :: f in body && f !in {"acquisitionDate", "lastMaintenance", "nextMaintenance"} ==>
        f in r.value && r.value[f] == body[f]) &&
      Get(r.value, "acquisitionDate") == Date(toDate(Get(body, "acquisitionDate")).value) &&
      Get(r.value, "lastMaintenance") ==
        (if Truthy(Get(body, "lastMaintenance")) then Date(toDate(Get(body, "lastMaintenance")).value) else Null) &&
      Get(r.value, "nextMaintenance") ==
        (if Truthy(Get(body, "nextMaintenance")) then Date(toDate(Get(body, "nextMaintenance")).value) else Null)
  {
    var acquired := toDate(Get(body, "acquisitionDate"));
    var last := if Truthy(Get(body, "lastMaintenance")) then toDate(Get(body, "lastMaintenance")) else Some(0);
    var next := if Truthy(Get(body, "nextMaintenance")) then toDate(Get(body, "nextMaintenance")) else Some(0);
    if acquired.None? || last.None? || next.None? then None
    else
      Some(Spread(body, map[
        "acquisitionDate" := Date(acquired.value),
        "lastMaintenance" := if Truthy(Get(body, "lastMaintenance")) then Date(last.value) else Null,
        "nextMaintenance" := if Truthy(Get(body, "nextMaintenance")) then Date(next.value) else Null]))
  }

  const DuplicateMessage := "Asset with this code or serial number already exists"
  const UniqueMessage := "Unique constraint violation. Code or serial number already exists."

  /** The checks `createAsset` makes before it writes: the data to store, or
      the response that ends the request. */
  function Precheck(rows: seq<Row>, body: Row, toDate: Value -> Option<int>): (r: Result<Row, Response>)
    ensures MissingFields(body) != [] ==>
      r == Err(Response(400, Missing("Missing required fields", MissingFields(body))))
    ensures MissingFields(body) == [] ==> r == UniqueCheck(rows, body, toDate)
    ensures r.Ok? ==> MissingFields(body) == []
    ensures r.Err? ==> r.error.status == 400 || r.error.status == 500
  {
    var missing := MissingFields(body);
    if |missing| > 0 then Err(Response(400, Missing("Missing required fields", missing)))
    else UniqueCheck(rows, body, toDate)
  }

  /** The checks of `createAsset` once no required field is missing: the code
      and serial number must be strings no stored asset holds, and the dates
      must convert. */
  function UniqueCheck(rows: seq<Row>, body: Row, toDate: Value -> Option<int>): (r: Result<Row, Response>)
    ensures Get(body, "code").Str? && Get(body, "serialNumber").Str? &&
            FindDuplicate(rows, Get(body, "code").s, Get(body, "serialNumber").s).Some? ==>
      r == Err(Response(400, Duplicate(DuplicateMessage,
                 FindDuplicate(rows, Get(body, "code").s, Get(body, "serialNumber").s).value)))
    ensures r.Ok? ==>
      Get(body, "code").Str? && Get(body, "serialNumber").Str? &&
      (forall x :: x in rows ==>
         Get(x, "code") != Get(body, "code") && Get(x, "serialNumber") != Get(body, "serialNumber")) &&
      CreateData(body, toDate) == Some(r.value)
    ensures r.Err? ==> r.error.status == 400 || r.error.status == 500
  {
    var code, serial := Get(body, "code"), Get(body, "serialNumber");
    // the ORM rejects a non-string value in a string filter
    if !code.Str? || !serial.Str? then Err(Response(500, Failed("Failed to create asset", InvalidData)))
    else match FindDuplicate(rows, code.s, serial.s)
      case Some(existing) => Err(Response(400, Duplicate(DuplicateMessage, existing)))
      case None =>
        match CreateData(body, toDate)
        case None => Err(Response(500, Failed("Failed to create asset", InvalidData)))
        case Some(data) => Ok(data)
  }

  /** `createAsset`. Answers 400 with the missing fields, 400 with the
      existing asset when the code or serial number is taken, 201 with the
      stored asset, 400 when the ORM reports a unique violation, and 500 for
      any other failure. Only a 201 changes the table, by exactly one asset. */
  method CreateAsset(db: Database, body: Row, toDate: Value -> Option<int>, newId: string, now: int)
    returns (res: Response)
    requires db.Valid()
    modifies db.assets
    ensures db.Valid()
    ensures res.status in {201, 400, 500}
    ensures res.status != 201 ==> db.assets.rows == old(db.assets.rows)
    ensures var c := Precheck(old(db.assets.rows), body, toDate);
      c.Err? ==> res == c.error
    ensures var c := Precheck(old(db.assets.rows), body, toDate);
      c.Ok? ==>
        var k := Creation(old(db.assets.rows), AssetUniques, {}, {"id"}, c.value, newId, now);
        (k.Ok? ==> res == Response(201, Record(k.value)) && db.assets.rows == old(db.assets.rows) + [k.value]) &&
        (k.Err? ==> res == if k.error == UniqueViolation then Response(400, Error(UniqueMessage))
                           else Response(500, Failed("Failed to create asset", k.error)))
  {
    var c := Precheck(db.assets.rows, body, toDate);
    if c.Err? {
      return c.error;
    }
    res := StoreAsset(db.assets, c.value, newId, now);
  }

  /** The `create` call of `createAsset` and its `catch`: 201 with the stored
      asset, 400 for a unique violation, 500 for any other error. */
  method StoreAsset(t: Table, data: Row, newId: string, now: int) returns (res: Response)
    requires t.Valid()
    modifies t
    ensures t.Valid()
    ensures var k := Creation(old(t.rows), t.uniques, t.dates, t.texts, data, newId, now);
      (k.Ok? ==> res == Response(201, Record(k.value)) && t.rows == old(t.rows) + [k.value]) &&
      (k.Err? ==> t.rows == old(t.rows) &&
                  res == if k.error == UniqueViolation then Response(400, Error(UniqueMessage))
                         else Response(500, Failed("Failed to create asset", k.error)))
  {
    var r := t.Create(data, newId, now);
    if r.Ok? {
      res := Response(201, Record(r.value));
    } else if r.error == UniqueViolation {
      res := Response(400, Error(UniqueMessage));
    } else {
      res := Response(500, Failed("Failed to create asset", r.error));
    }
  }

  // ---------------------------------------------------------------------------
  // PUT /assets/:id, DELETE /assets/:id

  /** `updateAsset`: 404 and no change for an absent id; otherwise the body is
      merged into the asset (200), or the ORM's error answers 500. */
  method UpdateAsset(db: Database, id: string, body: Row) returns (res: Response)
    requires db.Valid()
    modifies db.assets
    ensures db.Valid()
    ensures Lookup(old(db.assets.rows), id).None? ==>
      res == Response(404, Error("Asset not found")) && db.assets.rows == old(db.assets.rows)
    ensures Lookup(old(db.assets.rows), id).Some? ==>
      var u := Modification(old(db.assets.rows), AssetUniques, {}, {"id"}, id, body);
      (u.Ok? ==> res == Response(200, Record(u.value.1)) &&
                 db.assets.rows == old(db.assets.rows)[u.value.0 := u.value.1]) &&
      (u.Err? ==> res == Response(500, Error("Failed to update asset")) && db.assets.rows == old(db.assets.rows))
  {
    res := Crud.UpdateExisting(db.assets, id, body, "Asset not found", "Failed to update asset");
  }

  /** `deleteAsset`: 404 and no change for an absent id; otherwise 204 and
      the asset is gone, every other asset kept. */
  method DeleteAsset(db: Database, id: string) returns (res: Response)
    requires db.Valid()
    modifies db.assets
    ensures db.Valid()
    ensures Lookup(old(db.assets.rows), id).None? ==>
      res == Response(404, Error("Asset not found")) && db.assets.rows == old(db.assets.rows)
    ensures Lookup(old(db.assets.rows), id).Some? ==>
      res == Response(204, NoContent) && Lookup(db.assets.rows, id).None? &&
      forall x :: x in db.assets.rows <==> x in old(db.assets.rows) && !HasId(x, id)
  {
    res := Crud.DeleteExisting(db.assets, id, "Asset not found");
  }
}
