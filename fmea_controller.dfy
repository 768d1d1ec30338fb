/** The FMEA endpoints. The risk priority number is computed on the server as
    severity * occurrence * detection on create and on update. Unlike the
    other controllers, update and delete do not look the record up first, so
    an absent id surfaces as the ORM's error and answers 500. */
module FmeaController {
  import opened Wrappers
  import opened JsValues
  import opened Store
  import opened Http

  /** The nine fields create takes from the body. */
  const FmeaFields: set<string> :=
    {"assetId", "failureMode", "effect", "cause", "severity", "occurrence", "detection", "action", "status"}

  /** `severity * occurrence * detection` on the body's values. */
  function Rpn(body: Row): (r: Value)
    ensures r.Num? <==>
      ToNumber(Get(body, "severity")).Some? && ToNumber(Get(body, "occurrence")).Some? &&
      ToNumber(Get(body, "detection")).Some?
    ensures r.Num? ==>
      r.n == ToNumber(Get(body, "severity")).value * ToNumber(Get(body, "occurrence")).value *
             ToNumber(Get(body, "detection")).value
  {
    TimesThree(Get(body, "severity"), Get(body, "occurrence"), Get(body, "detection"))
  }

  /** A body holding just the three factors. */
  function Factors(s: real, o: real, d: real): Row {
    map["severity" := Num(s), "occurrence" := Num(o), "detection" := Num(d)]
  }

  /** Numeric factors give their product. */
  lemma RpnOfNumbers(s: real, o: real, d: real)
    ensures Rpn(Factors(s, o, d)) == Num(s * o * d)
  {
  }

  /** The rpn stored in each fixture row is the one the rule computes. */
  lemma FixtureRows()
    ensures Rpn(Factors(7.0, 3.0, 4.0)) == Num(84.0) && Rpn(Factors(8.0, 2.0, 3.0)) == Num(48.0)
    ensures Rpn(Factors(6.0, 4.0, 5.0)) == Num(120.0) && Rpn(Factors(8.0, 6.0, 7.0)) == Num(336.0)
    ensures Rpn(Factors(7.0, 4.0, 8.0)) == Num(224.0) && Rpn(Factors(9.0, 3.0, 6.0)) == Num(162.0)
  {
    RpnOfNumbers(7.0, 3.0, 4.0);
    RpnOfNumbers(8.0, 2.0, 3.0);
    RpnOfNumbers(6.0, 4.0, 5.0);
    RpnOfNumbers(8.0, 6.0, 7.0);
    RpnOfNumbers(7.0, 4.0, 8.0);
    RpnOfNumbers(9.0, 3.0, 6.0);
  }

  /** A body without one of the factors gets a NaN rpn. */
  lemma RpnMissingFactor(body: Row)
    requires "detection" !in body
    ensures Rpn(body) == NaN
  {
  }

  // ---------------------------------------------------------------------------
  // GET /fmea

  /** `where.assetId` is set when the `assetId` parameter is given. */
  method FmeaWhere(q: Query) returns (w: Where)
    ensures forall row :: Matches(row, w) <==> (Given(q, "assetId") ==> Get(row, "assetId") == Str(q["assetId"]))
  {
    w := Where(None, [], map[]);
    if Given(q, "assetId") {
      w := w.(equal := map["assetId" := q["assetId"]]);
    }
  }

  predicate FmeaMatches(row: Row, q: Query) {
    Given(q, "assetId") ==> Get(row, "assetId") == Str(q["assetId"])
  }

  /** `getFMEARecords`: a page of the records, filtered by asset only. */
  method GetFmeaRecords(db: Database, q: Query) returns (res: Response)
    requires db.Valid()
    ensures res == Listing(db.fmea.rows, row => FmeaMatches(row, q), q, db.fmea.columns, "createdAt",
                           "Failed to fetch FMEA records")
    ensures q == map[] ==> res.status == 200
  {
    var w := FmeaWhere(q);
    ListingSameFilter(db.fmea.rows, row => Matches(row, w), row => FmeaMatches(row, q),
                      q, db.fmea.columns, "createdAt", "Failed to fetch FMEA records");
    res := Listing(db.fmea.rows, row => Matches(row, w), q,
                   db.fmea.columns, "createdAt", "Failed to fetch FMEA records");
    DefaultListing(db.fmea.rows, row => Matches(row, w),
                   db.fmea.columns, "createdAt", "Failed to fetch FMEA records");
  }

  /** `getFMEARecordById`: 404 exactly when no record has the id. */
  function GetFmeaRecordById(db: Database, id: string): (res: Response)
    reads db.fmea
    ensures res.status == 404 <==> Lookup(db.fmea.rows, id).None?
    ensures res.status == 404 ==> res.body == Error("FMEA record not found")
    ensures res.status != 404 ==> res == Response(200, Record(Lookup(db.fmea.rows, id).value))
  {
    Found(db.fmea.rows, id, "FMEA record not found")
  }

  // ---------------------------------------------------------------------------
  // POST /fmea

  /** The data create stores: exactly the nine fields taken from the body and
      the computed rpn. */
  function CreateData(body: Row): (r: Row)
    ensures r.Keys == FmeaFields + {"rpn"}
    ensures forall f :: f in FmeaFields ==> r[f] == Get(body, f)
    ensures r["rpn"] == Rpn(body)
  {
    map f | f in FmeaFields + {"rpn"} :: if f == "rpn" then Rpn(body) else Get(body, f)
  }

  /** A caller-supplied rpn and every field outside the nine are ignored. */
  lemma CreateIgnoresOtherFields(body: Row, other: Row)
    requires forall f :: f in FmeaFields ==> Get(body, f) == Get(other, f)
    ensures CreateData(body) == CreateData(other)
  {
  }

  /** `createFMEARecord`: 201 with the stored record, whose rpn is the
      product of its factors; 500 if the ORM rejects it. */
  method CreateFmeaRecord(db: Database, body: Row, newId: string, now: int) returns (res: Response)
    requires db.Valid()
    modifies db.fmea
    ensures db.Valid()
    ensures var c := Creation(old(db.fmea.rows), {"id"}, {}, {"id"}, CreateData(body), newId, now);
      (c.Ok? ==> res == Response(201, Record(c.value)) && db.fmea.rows == old(db.fmea.rows) + [c.value]) &&
      (c.Err? ==> res == Response(500, Error("Failed to create FMEA record")) && db.fmea.rows == old(db.fmea.rows))
    ensures res.status == 201 && Rpn(body).Num? ==> Get(res.body.row, "rpn") == Rpn(body)
  {
    var r := db.fmea.Create(CreateData(body), newId, now);
    if r.Ok? {
      res := Response(201, Record(r.value));
    } else {
      res := Response(500, Error("Failed to create FMEA record"));
    }
  }

  // ---------------------------------------------------------------------------
  // PUT /fmea/:id, DELETE /fmea/:id

  /** The data update sends: the whole body with rpn recomputed from the
      body's own factors, overriding any rpn in the body. */
  function UpdateData(body: Row): (r: Row)
    ensures r.Keys == body.Keys + {"rpn"}
    ensures r["rpn"] == Rpn(body)
    ensures forall f :: f in body && f != "rpn" ==> r[f] == body[f]
  {
    Spread(body, map["rpn" := Rpn(body)])
  }

  /** The stored factors play no part: updating one factor alone stores a NaN
      rpn, not the product of the new factor and the stored ones. */
  lemma UpdateOneFactorLosesRpn(stored: Row, s: real)
    requires Get(stored, "occurrence") == Num(2.0) && Get(stored, "detection") == Num(3.0)
    ensures var row := stored + Defined(UpdateData(map["severity" := Num(s)]));
      Get(row, "severity") == Num(s) && Get(row, "rpn") == NaN &&
      Get(row, "occurrence") == Num(2.0) && Get(row, "detection") == Num(3.0)
  {
    assert Defined(UpdateData(map["severity" := Num(s)])) == map["severity" := Num(s), "rpn" := NaN];
  }

  /** `updateFMEARecord`: 200 with the updated record; any ORM error,
      including an absent id, answers 500. */
  method UpdateFmeaRecord(db: Database, id: string, body: Row) returns (res: Response)
    requires db.Valid()
    modifies db.fmea
    ensures db.Valid()
    ensures var u := Modification(old(db.fmea.rows), {"id"}, {}, {"id"}, id, UpdateData(body));
      (u.Ok? ==> res == Response(200, Record(u.value.1)) && db.fmea.rows == old(db.fmea.rows)[u.value.0 := u.value.1]) &&
      (u.Err? ==> res == Response(500, Error("Failed to update FMEA record")) && db.fmea.rows == old(db.fmea.rows))
    ensures Lookup(old(db.fmea.rows), id).None? ==> res == Response(500, Error("Failed to update FMEA record"))
  {
    var r := db.fmea.Update(id, UpdateData(body));
    if r.Ok? {
      res := Response(200, Record(r.value));
    } else {
      res := Response(500, Error("Failed to update FMEA record"));
    }
  }

  /** `deleteFMEARecord`: 204 and the record is gone, or 500 for an absent id. */
  method DeleteFmeaRecord(db: Database, id: string) returns (res: Response)
    requires db.Valid()
    modifies db.fmea
    ensures db.Valid()
    ensures Lookup(old(db.fmea.rows), id).None? ==>
      res == Response(500, Error("Failed to delete FMEA record")) && db.fmea.rows == old(db.fmea.rows)
    ensures Lookup(old(db.fmea.rows), id).Some? ==>
      res == Response(204, NoContent) && Lookup(db.fmea.rows, id).None? &&
      forall x :: x in db.fmea.rows <==> x in old(db.fmea.rows) && !HasId(x, id)
  {
    var r := db.fmea.Delete(id);
    if r.Ok? {
      res := Response(204, NoContent);
    } else {
      res := Response(500, Error("Failed to delete FMEA record"));
    }
  }
}
