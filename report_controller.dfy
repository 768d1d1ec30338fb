/** The report endpoints: plain CRUD over the report table, with the same
    list filters as the maintenance records. */
module ReportController {
  import opened JsValues
  import opened Store
  import opened Http
  import Crud
  import MaintenanceController

  /** `getReports`: a page of the reports matching every given filter
      (`assetId`, `type`, `status`), by default newest first. */
  method GetReports(db: Database, q: Query) returns (res: Response)
    requires db.Valid()
    ensures res == Listing(db.reports.rows, row => MaintenanceController.RecordMatches(row, q), q,
                           db.reports.columns, "createdAt", "Failed to fetch reports")
    ensures q == map[] ==> res.status == 200
  {
    var w := EqualityWhere(q, MaintenanceController.FilterNames);
    forall row
      ensures Matches(row, w) == MaintenanceController.RecordMatches(row, q)
    {
      var names := MaintenanceController.FilterNames;
      assert names[0] == "assetId" && names[1] == "type" && names[2] == "status";
    }
    ListingSameFilter(db.reports.rows, row => Matches(row, w), row => MaintenanceController.RecordMatches(row, q),
                      q, db.reports.columns, "createdAt", "Failed to fetch reports");
    res := Listing(db.reports.rows, row => Matches(row, w), q,
                   db.reports.columns, "createdAt", "Failed to fetch reports");
    DefaultListing(db.reports.rows, row => Matches(row, w),
                   db.reports.columns, "createdAt", "Failed to fetch reports");
  }

  /** `getReportById`: 404 exactly when no report has the id. */
  function GetReportById(db: Database, id: string): (res: Response)
    reads db.reports
    ensures res.status == 404 <==> Lookup(db.reports.rows, id).None?
    ensures res.status == 404 ==> res.body == Error("Report not found")
    ensures res.status != 404 ==> res == Response(200, Record(Lookup(db.reports.rows, id).value))
  {
    Found(db.reports.rows, id, "Report not found")
  }

  /** `createReport`: 201 with the stored report, or 500. */
  method CreateReport(db: Database, body: Row, newId: string, now: int) returns (res: Response)
    requires db.Valid()
    modifies db.reports
    ensures db.Valid()
    ensures var c := Creation(old(db.reports.rows), {"id"}, {}, {"id"}, body, newId, now);
      (c.Ok? ==> res == Response(201, Record(c.value)) && db.reports.rows == old(db.reports.rows) + [c.value]) &&
      (c.Err? ==> res == Response(500, Error("Failed to create report")) && db.reports.rows == old(db.reports.rows))
  {
    res := Crud.CreateFromBody(db.reports, body, newId, now, "Failed to create report");
  }

  /** `updateReport`: 404 for an absent id, else the merged report or 500. */
  method UpdateReport(db: Database, id: string, body: Row) returns (res: Response)
    requires db.Valid()
    modifies db.reports
    ensures db.Valid()
    ensures Lookup(old(db.reports.rows), id).None? ==>
      res == Response(404, Error("Report not found")) && db.reports.rows == old(db.reports.rows)
    ensures Lookup(old(db.reports.rows), id).Some? ==>
      var u := Modification(old(db.reports.rows), {"id"}, {}, {"id"}, id, body);
      (u.Ok? ==> res == Response(200, Record(u.value.1)) && db.reports.rows == old(db.reports.rows)[u.value.0 := u.value.1]) &&
      (u.Err? ==> res == Response(500, Error("Failed to update report")) && db.reports.rows == old(db.reports.rows))
  {
    res := Crud.UpdateExisting(db.reports, id, body, "Report not found", "Failed to update report");
  }

  /** `deleteReport`: 404 for an absent id, else 204 and the report is gone. */
  method DeleteReport(db: Database, id: string) returns (res: Response)
    requires db.Valid()
    modifies db.reports
    ensures db.Valid()
    ensures Lookup(old(db.reports.rows), id).None? ==>
      res == Response(404, Error("Report not found")) && db.reports.rows == old(db.reports.rows)
    ensures Lookup(old(db.reports.rows), id).Some? ==>
      res == Response(204, NoContent) && Lookup(db.reports.rows, id).None? &&
      forall x :: x in db.reports.rows <==> x in old(db.reports.rows) && !HasId(x, id)
  {
    res := Crud.DeleteExisting(db.reports, id, "Report not found");
  }
}
