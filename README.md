# Asset-Guardian core in Dafny

Asset-Guardian is a small CMMS: a computerized maintenance management system
for industrial assets. Its backend is an Express API over four tables:
assets, maintenance records, FMEA records and reports. Its two React
front-ends list, edit and summarise those tables. This project models the part
of the system that computes or decides something, and proves what that part
promises.

Backend:
- **Reliability metrics engine** (`AssetMetrics`, `AssetService`). It turns an
  asset's maintenance history into MTBF, MTTR, availability, performance,
  quality and OEE.
- **Metrics write-back** (`MaintenanceService`). Every create, update or delete
  of a maintenance record made through this service writes the six metrics
  back onto the owning asset. The maintenance endpoints do not go through it
  (see below).
- **Controllers** (`AssetController`, `FmeaController`,
  `MaintenanceController`, `ReportController`, with the shared `Http` and
  `Crud` modules):
  - list filters, ordering and pagination;
  - the asset validator (truthiness of required fields, then uniqueness of
    code or serial number);
  - the FMEA risk priority number (RPN);
  - the `lastMaintenance` stamp;
  - which handler answers 404 and which answers 500.
- **Database** (`Store`). The ORM's tables are a class over sequences of rows.
  It enforces unique columns (P2002) and reports a missing id on update or
  delete (P2025). Its column types are modelled only where the core relies on
  them: every `id` is a string, and a maintenance record needs a date in
  `date` and strings in `type` and `assetId`. A list request may only order by
  one of the table's columns.

Frontend:
- **API client** (`ApiClient`): query building, URLs, headers, the timeout and
  `handleResponse`.
- **List caches** (`ListCache`): the four data hooks as one `Hook` class
  holding the cached list.
- **Screens:**
  - the dashboard and report aggregations (`Dashboard`, `ReportsPage`,
    `GroupBy`);
  - the search filters (`MaintenanceList`, `EquipmentManagement`);
  - the colour and badge classifiers (`FailureAnalysis`, `EquipmentStatus`);
  - the FMEA page and its dialog (`FmeaPage`).
- **Forms:** the three react-hook-form validators (`FormRules`, `AssetForm`,
  `MaintenanceForm`, `FmeaForm`).

How JavaScript is modelled:
- JavaScript values are the `JsValues.Value` datatype and objects are maps
  (`Row`). Truthiness, property access, spreads, `parseInt` and the `*`
  operator follow JavaScript.
- Timestamps are integer milliseconds. Money and metrics are `real`.
- Generated ids, the clock, confirmation dialogs and every network reply are
  parameters.

The code is followed as written, including its quirks, and each quirk is
stated in a proved contract:
- only `'corretiva'` counts as a failure;
- a cost of 0 is "missing" to the backend;
- every path is prefixed with `/api` twice;
- the reports screen never clears its error.

Where the code and the system's description differ, the model follows the code:
- The description says `rpn == severity × occurrence × detection` holds for
  every stored FMEA row. An update whose body lacks a factor stores a NaN rpn
  (`FmeaController.UpdateOneFactorLosesRpn`).
- The description says every maintenance mutation recomputes the owning
  asset's metrics. The maintenance create endpoint only stamps
  `lastMaintenance` (`MaintenanceController.CreateMaintenanceRecord`). The
  recomputation lives in `MaintenanceService`.
- The description answers 404 for update or delete of an absent id. The FMEA
  handlers answer 500 (`FmeaController.UpdateFmeaRecord`,
  `FmeaController.DeleteFmeaRecord`).
- The description's end-to-end scenario expects a record of type "corrective"
  to count as a failure. The engine counts only `'corretiva'`
  (`AssetMetrics.CorrectiveIsNotAFailure`).

## Model

| member | source | states |
|---|---|---|
| AssetMetrics.CalculateMetrics | backend/src/services/asset.service.ts:60-107 | The loop over consecutive records returns exactly `MetricsOf(history)`. Its invariants tie the three accumulators to the prefix sums `Uptime`, `Downtime` and `Failures`. |
| AssetMetrics.FewerThanTwoRecords | backend/src/services/asset.service.ts:60-69 | With fewer than two records all six metrics are 0. |
| AssetMetrics.UptimeTelescopes | backend/src/services/asset.service.ts:75-89 | After i records the accumulated uptime is the date of record i-1 minus the first date: the differences telescope. |
| AssetMetrics.TotalUptimeIsSpan | backend/src/services/asset.service.ts:86-88 | The total uptime is the last date minus the first date. |
| AssetMetrics.FailuresBound | backend/src/services/asset.service.ts:75-81 | `failureCount` never exceeds i-1, one per visited interval. |
| AssetMetrics.DowntimeWithinUptime | backend/src/services/asset.service.ts:79-89 | With ascending dates, 0 <= downtime <= uptime at every step. |
| AssetMetrics.CountFailuresAppend | backend/src/services/asset.service.ts:79-80 | The independent failure count grows by one exactly when the appended record is `'corretiva'`. |
| AssetMetrics.FailuresAreCorretivaAfterFirst | backend/src/services/asset.service.ts:75-81 | `failureCount` equals the number of `'corretiva'` records at index 1 or later. |
| AssetMetrics.CorrectiveIsNotAFailure | backend/src/services/asset.service.ts:79 | The English `'corrective'` is never a failure. |
| AssetMetrics.AccumulatorsIgnoreFirstKind | backend/src/services/asset.service.ts:75-89 | Two histories that differ only in the type of the first record have the same accumulators. |
| AssetMetrics.FirstRecordNeverCounts | backend/src/services/asset.service.ts:75-98 | Changing the first record's type never changes the metrics. |
| AssetMetrics.NoFailuresNoDowntime | backend/src/services/asset.service.ts:79-84 | Without `'corretiva'` records after the first, the failure count and the downtime stay 0. |
| AssetMetrics.NoFailureMetrics | backend/src/services/asset.service.ts:91-98 | With two or more records and no failure: mtbf = mttr = 0, availability 1, performance 0.9, quality 0.95, oee 0.855. |
| AssetMetrics.AllFailuresDowntimeIsUptime | backend/src/services/asset.service.ts:79-88 | When every interval ends in `'corretiva'`, downtime equals uptime and the failure count is i-1. |
| AssetMetrics.AllFailuresMtbfIsMttr | backend/src/services/asset.service.ts:79-92 | In that case mtbf = mttr = span / ((n-1) hours). |
| AssetMetrics.AscendingBounds | backend/src/services/asset.service.ts:75-98 | With ascending dates: 0 <= mttr <= mtbf, availability <= 1 and oee <= 0.855. |
| AssetMetrics.FiveDayExample | backend/src/services/asset.service.ts:75-98 | Records on day 0 and day 5, the second `'corretiva'`, give mtbf = mttr = 120 h, availability 600/720 and oee = availability × 0.9 × 0.95. |
| AssetService.GetAllAssets | backend/src/services/asset.service.ts:7-15 | Returns every stored asset in table order. |
| AssetService.GetAssetById | backend/src/services/asset.service.ts:17-26 | Returns a stored asset with the id exactly when one exists, otherwise null. |
| AssetService.CreateAsset | backend/src/services/asset.service.ts:28-32 | Creation either appends exactly the new row or fails (P2002 or invalid data) and changes nothing. |
| AssetService.UpdateAsset | backend/src/services/asset.service.ts:34-39 | The row with the id is replaced by the merge of its fields with the defined fields of the data. Nothing else changes. An absent id fails. |
| AssetService.DeleteAsset | backend/src/services/asset.service.ts:41-45 | Returns the deleted row, after which no row has the id and every other row is kept. An absent id fails and changes nothing. |
| AssetService.CreatedRowIsFound | backend/src/tests/asset.test.ts:35-40 | A created row is found by its id and carries every defined field of the data, so its code and name are the ones given. |
| AssetService.UpdateChangesOnlyGivenFields | backend/src/tests/asset.test.ts:84-90 | An update changes exactly the fields given a defined value. Every other field keeps its value. |
| AssetService.EntryOf | backend/src/services/asset.service.ts:81-82 | The engine reads a record's date as epoch milliseconds, the same key the query sorts by. |
| AssetService.HistoryRows | backend/src/services/asset.service.ts:55-58 | The query returns every record of the asset as many times as the table holds it, and no other record, ordered by date ascending. |
| AssetService.HistoryOf | backend/src/services/asset.service.ts:55-58 | The history the engine receives has one entry per record, entry i being the date and type of the i-th record, with ascending dates. |
| AssetService.CalculateMetrics | backend/src/services/asset.service.ts:47-108 | The metrics of an asset are `MetricsOf` its stored history. |
| AssetService.StoredMetricsBounds | backend/src/services/asset.service.ts:55-98 | For any stored table, the computed metrics satisfy 0 <= mttr <= mtbf, availability <= 1 and oee <= 0.855. |
| MaintenanceService.MetricsFields | backend/src/services/maintenance.service.ts:40-45 | The update data holds exactly the six metric fields, each set to its metric. |
| MaintenanceService.WriteBack | backend/src/services/maintenance.service.ts:42-45 | The write-back changes only the six metric fields, and only on the asset with the id. An absent asset leaves the table unchanged. |
| MaintenanceService.WriteBackIsUpdate | backend/src/services/maintenance.service.ts:42-45 | The write-back is the ORM update of those fields, which never raises P2002. It fails only for an absent asset. |
| MaintenanceService.WriteBackLeavesOthers | backend/src/services/maintenance.service.ts:60-69 | Writing back onto one asset leaves every other asset as found. After an update that moves a record, the previous owner keeps stale metrics. |
| MaintenanceService.RefreshMetrics | backend/src/services/maintenance.service.ts:39-45 | The asset table becomes the write-back of the metrics recomputed from the current records. It fails exactly when the asset is absent. |
| MaintenanceService.CreateMaintenance | backend/src/services/maintenance.service.ts:25-49 | Returns the created record and appends it. If its asset exists, that asset's six fields are the metrics of a history that includes the new record. |
| MaintenanceService.UpdateMaintenance | backend/src/services/maintenance.service.ts:51-72 | Merges the data into the record. Only the asset the record now names is recomputed. An absent record changes nothing. |
| MaintenanceService.DeleteMaintenance | backend/src/services/maintenance.service.ts:74-94 | Removes the record and recomputes its former asset from the remaining history. An absent record changes nothing. |
| MaintenanceService.DownToOneRecordResets | backend/src/services/maintenance.service.ts:83-91 | An asset with at most one remaining record gets all six metrics 0. |
| JsValues.LeadingNumber | backend/src/controllers/asset.controller.ts:7-8 | After blanks and sign, `parseInt(s, 10)` reads a number exactly when a digit comes first, and that number is not negative. |
| JsValues.ParseIntDigits | backend/src/controllers/asset.controller.ts:7-8 | A digit run followed by a non-digit parses to the run's decimal value. |
| JsValues.ParseDefaults | backend/src/controllers/asset.controller.ts:6-8 | The default strings "1" and "10" parse to 1 and 10. |
| JsValues.ParseIntNoDigits | backend/src/controllers/asset.controller.ts:7 | A string that starts with no blank, sign or digit parses to NaN. |
| JsValues.Times | backend/src/controllers/fmea.controller.ts:69 | `*` gives the product when both operands convert to numbers, and NaN otherwise. |
| JsValues.TimesThree | backend/src/controllers/fmea.controller.ts:69 | `a * b * c` is the product when all three convert to numbers, and NaN otherwise. |
| JsValues.NestedTimes | backend/src/controllers/fmea.controller.ts:69 | `(a * b) * c`, two applications of `*`, equals `TimesThree(a, b, c)`. |
| JsValues.TextNumberDigits | backend/src/controllers/fmea.controller.ts:69 | A string operand of `*` converts exactly when it is all decimal digits (the empty string is 0), to its decimal value. |
| JsValues.Spread | frontend/src/hooks/useAssets.ts:39 | In `{...a, ...b}` every own field of `b` wins and the other fields of `a` are kept. |
| Http.EqualityWhere | backend/src/controllers/maintenance.controller.ts:11-23 | The built `where` keeps a row exactly when every given filter equals that column. An absent filter imposes nothing. |
| Http.CeilDiv | backend/src/controllers/asset.controller.ts:49 | `Math.ceil(total / limit)` is the least r with total <= r·limit. |
| Http.TotalPages | backend/src/controllers/asset.controller.ts:49 | `totalPages` is that ceiling, and is absent (null) exactly when the limit is 0. |
| Http.Window | backend/src/controllers/asset.controller.ts:31-32 | `skip`/`take` give at most `take` rows, those from position `skip` on. |
| Http.OrderOf | backend/src/controllers/asset.controller.ts:34 | The order is ascending exactly when `sortOrder` is the string "asc". |
| Http.PagingOf | backend/src/controllers/asset.controller.ts:7-9 | skip = (page-1)·limit. The request fails when page or limit is NaN, the skip is negative or the limit is negative. |
| Http.PageContents | backend/src/controllers/asset.controller.ts:28-51 | The page holds at most `limit` matching stored rows in the requested order. `meta` counts all matches, echoes page and limit, and `totalPages` is the ceiling of total/limit. |
| Http.ListingSameFilter | backend/src/controllers/asset.controller.ts:28-41 | Two filters that keep the same rows give the same response. |
| Http.ListingStatus | backend/src/controllers/asset.controller.ts:6-55 | A list request answers 200 exactly when its paging is usable and `sortBy` is a column of the table, and 500 with the handler's message otherwise. |
| Http.UnknownSortFails | backend/src/controllers/asset.controller.ts:30-55 | A `sortBy` naming no column of the table answers 500 with the handler's message, whatever the paging. |
| Http.DefaultPaging | backend/src/controllers/asset.controller.ts:6 | An empty query asks for page 1 of 10 rows, in descending order. |
| Http.DefaultListing | backend/src/controllers/asset.controller.ts:6-55 | An empty query answers 200 exactly when the default sort column is a column of the table. |
| Http.OnlyAscIsAscending | backend/src/controllers/asset.controller.ts:34 | Any `sortOrder` other than "asc" sorts descending. |
| Http.UnparsablePageFails | backend/src/controllers/asset.controller.ts:7-9 | A page that parses to NaN fails the request with 500. |
| Http.PageZeroFails | backend/src/controllers/fmea.controller.ts:7-9 | Page 0 with a positive limit gives a negative skip, which fails. |
| Http.Found | backend/src/controllers/report.controller.ts:57-66 | Get-by-id answers 404 exactly when no row has the id, and otherwise 200 with that row. |
| Crud.UpdateExisting | backend/src/controllers/maintenance.controller.ts:92-110 | An absent id answers 404 and changes nothing. Otherwise the merged row is stored and returned, or the ORM error answers 500 and changes nothing. |
| Crud.DeleteExisting | backend/src/controllers/maintenance.controller.ts:112-129 | An absent id answers 404 and changes nothing. Otherwise 204, and exactly the rows with that id are gone. |
| Crud.CreateFromBody | backend/src/controllers/report.controller.ts:73-85 | 201 with the stored body, which is appended; or 500 and no change. |
| AssetController.AssetWhere | backend/src/controllers/asset.controller.ts:11-26 | An asset passes exactly when its name or location contains `search` ignoring case, and status and type equal their filters when given. |
| AssetController.GetAssets | backend/src/controllers/asset.controller.ts:4-56 | The list response is the listing of the assets under that filter, ordered by `sortBy` (default `createdAt`) when it is a column of the asset table and 500 otherwise; an empty query answers 200. |
| AssetController.GetAssetById | backend/src/controllers/asset.controller.ts:58-74 | 404 "Asset not found" exactly when the id is absent, else 200 with the asset. |
| AssetController.MissingFieldsMembers | backend/src/controllers/asset.controller.ts:79-80 | The missing fields are exactly the required fields whose body value is falsy, in the order of the required list. |
| AssetController.ZeroIsMissing | backend/src/controllers/asset.controller.ts:79-80 | A cost or estimated life of 0 is reported missing. |
| AssetController.AllTruthyPasses | backend/src/controllers/asset.controller.ts:79-82 | A body whose required fields are all truthy has no missing field. |
| AssetController.FindDuplicate | backend/src/controllers/asset.controller.ts:90-97 | Finds a stored asset sharing the code or the serial number, and finds none only when no asset shares either. |
| AssetController.CreateData | backend/src/controllers/asset.controller.ts:106-112 | The stored data is the body with the acquisition date converted and the optional maintenance dates converted or null. |
| AssetController.Precheck | backend/src/controllers/asset.controller.ts:79-112 | Missing fields give 400 with their list and nothing else is checked. Otherwise the uniqueness check decides. Every error is a 400 or a 500. |
| AssetController.UniqueCheck | backend/src/controllers/asset.controller.ts:89-112 | A code or serial number that a stored asset holds gives 400 with that asset. A body that passes has string code and serial number that no stored asset holds, and is stored as `CreateData` converts it. Every error is a 400 or a 500. |
| AssetController.StoreAsset | backend/src/controllers/asset.controller.ts:106-125 | 201 with the appended asset; otherwise the table is unchanged and P2002 answers 400 while any other error answers 500. |
| AssetController.CreateAsset | backend/src/controllers/asset.controller.ts:76-126 | 201 with exactly one asset appended. Or 400 (missing fields, duplicate, P2002) or 500, with the table unchanged. |
| AssetController.UpdateAsset | backend/src/controllers/asset.controller.ts:128-146 | An absent id answers 404 with nothing changed. Otherwise the body is merged into the asset, or the ORM error answers 500. |
| AssetController.DeleteAsset | backend/src/controllers/asset.controller.ts:148-165 | An absent id answers 404 with nothing changed. Otherwise 204 and the asset is gone. |
| FmeaController.Rpn | backend/src/controllers/fmea.controller.ts:69 | The RPN is the product of the three factors when all convert to numbers, and NaN otherwise. |
| FmeaController.RpnOfNumbers | backend/src/controllers/fmea.controller.ts:69 | Numeric factors s, o, d give s·o·d. |
| FmeaController.FixtureRows | backend/prisma/seed.ts:195-226 | Each fixture row's stored rpn is the product of its factors: 84, 48, 120, 336, 224 and 162 (the last three from backend/src/seeders/fmea.seeder.ts). |
| FmeaController.RpnMissingFactor | backend/src/controllers/fmea.controller.ts:98-101 | A body without a factor gets rpn NaN. |
| FmeaController.FmeaWhere | backend/src/controllers/fmea.controller.ts:11-14 | A record passes exactly when `assetId`, if given, equals its asset id. |
| FmeaController.GetFmeaRecords | backend/src/controllers/fmea.controller.ts:4-44 | The list response is the listing of the records under that filter, ordered by `sortBy` (default `createdAt`) when it is a column of the FMEA table and 500 otherwise; an empty query answers 200. |
| FmeaController.GetFmeaRecordById | backend/src/controllers/fmea.controller.ts:46-62 | 404 exactly when the id is absent, else 200 with the record. |
| FmeaController.CreateData | backend/src/controllers/fmea.controller.ts:66-83 | The stored data holds exactly the nine body fields plus rpn = product of the factors. |
| FmeaController.CreateIgnoresOtherFields | backend/src/controllers/fmea.controller.ts:66-83 | Bodies that agree on the nine fields store the same data, so a caller-supplied rpn is ignored. |
| FmeaController.CreateFmeaRecord | backend/src/controllers/fmea.controller.ts:64-94 | 201 with the appended record, whose rpn is the product of the factors, or 500 with no change. |
| FmeaController.UpdateData | backend/src/controllers/fmea.controller.ts:98-108 | The update sends the whole body with rpn recomputed from the body's own factors, overriding any body rpn. |
| FmeaController.UpdateOneFactorLosesRpn | backend/src/controllers/fmea.controller.ts:98-108 | Updating one factor alone stores rpn NaN even though the stored record holds the other two. |
| FmeaController.UpdateFmeaRecord | backend/src/controllers/fmea.controller.ts:96-119 | 200 with the merged record; any ORM error, including an absent id, answers 500. |
| FmeaController.DeleteFmeaRecord | backend/src/controllers/fmea.controller.ts:121-131 | 204 and the record is gone, or 500 with nothing changed for an absent id. |
| MaintenanceController.GetMaintenanceRecords | backend/src/controllers/maintenance.controller.ts:4-53 | The listing of the records matching every given `assetId`, `type` and `status`, ordered by `sortBy` (default `date`, descending) when it is a column of the table and 500 otherwise; an empty query answers 200. |
| MaintenanceController.GetMaintenanceRecordById | backend/src/controllers/maintenance.controller.ts:55-71 | 404 exactly when the id is absent, else 200 with the record. |
| MaintenanceController.StampOverwrites | backend/src/controllers/maintenance.controller.ts:79-83 | The stamp sets the asset's `lastMaintenance` to the record's date, even an earlier one, and changes no other field. It fails only for an absent asset. |
| MaintenanceController.CreateMaintenanceRecord | backend/src/controllers/maintenance.controller.ts:73-90 | The body, with an ISO `date` string read by the ORM's parser, is appended and its asset stamped, with no metrics recomputed. A failing stamp answers 500 but the record stays stored. |
| MaintenanceController.IsoDateCreates | backend/src/controllers/maintenance.controller.ts:73-77 | A body whose `date` is a readable ISO string, with string `type` and `assetId` and a fresh id, is stored holding the date the string denotes. |
| MaintenanceController.UnreadableDateFails | backend/src/controllers/maintenance.controller.ts:73-77 | A `date` string the ORM cannot read fails the create as invalid data. |
| MaintenanceController.UpdateMaintenanceRecord | backend/src/controllers/maintenance.controller.ts:92-110 | 404 with nothing changed for an absent id, else the record merged with the body (an ISO `date` string read as a date) or 500. |
| MaintenanceController.DeleteMaintenanceRecord | backend/src/controllers/maintenance.controller.ts:112-129 | 404 with nothing changed for an absent id, else 204 and the record is gone. |
| ReportController.GetReports | backend/src/controllers/report.controller.ts:4-53 | The listing of the reports matching every given `assetId`, `type` and `status`, ordered by `sortBy` (default `createdAt`) when it is a column of the report table and 500 otherwise; an empty query answers 200. |
| ReportController.GetReportById | backend/src/controllers/report.controller.ts:55-71 | 404 "Report not found" exactly when the id is absent. |
| ReportController.CreateReport | backend/src/controllers/report.controller.ts:73-85 | The body is stored as given and answered with 201, or 500 with no change. |
| ReportController.UpdateReport | backend/src/controllers/report.controller.ts:87-106 | 404 with nothing changed for an absent id, else the merged report or 500. |
| ReportController.DeleteReport | backend/src/controllers/report.controller.ts:108-125 | 404 with nothing changed for an absent id, else 204 and the report is gone. |
| ApiClient.DefinedParamsMembers | frontend/src/services/api.ts:141-143 | A pair is in the query exactly when the parameter was given that value. |
| ApiClient.BuildQuery | frontend/src/services/api.ts:139-146 | The `forEach` loop builds exactly `DefinedParams`. |
| ApiClient.SplitDefined | frontend/src/services/api.ts:141-145 | Building the query distributes over concatenation of the parameter lists. |
| ApiClient.ListUrl | frontend/src/services/api.ts:147 | A list call fetches `/api/api/<resource>?<query>`: the prefix appears twice. |
| ApiClient.CallUrl | frontend/src/services/api.ts:109 | Every call's URL is `/api/api` followed by its path. |
| ApiClient.Headers | frontend/src/services/api.ts:112-115 | The headers hold `Content-Type: application/json` unless the caller gives one; caller headers win and nothing else is added. |
| ApiClient.Fetch | frontend/src/services/api.ts:104-126 | A delivered reply is returned; an abort becomes APIError "Request timeout" with status 408; a network error is rethrown. |
| ApiClient.HandleResponse | frontend/src/services/api.ts:86-101 | A non-OK reply becomes an APIError with its status, its body's code and message, or "An error occurred". An OK reply yields its JSON body, and an empty body is a parse error. |
| ApiClient.ServerErrorsShowDefault | frontend/src/services/api.ts:94-98 | An error body without `message` gives the default message. |
| ApiClient.NoContentRejects | frontend/src/services/api.ts:100 | A 204 with an empty body rejects with a parse error. |
| ApiClient.HandleReply | frontend/src/services/api.ts:86-101 | Corrected handling: a 204 succeeds with no body and every other reply is handled as before. |
| ApiClient.DeleteCall | frontend/src/services/api.ts:172-177 | Under the corrected reply handling, a delete succeeds exactly when the reply is delivered and is a 204 or an OK reply with a body. An abort becomes the 408 error. |
| ApiClient.AssetsUrlWithoutParams | frontend/src/services/api.ts:147 | Without parameters the assets list is fetched from `/api/api/assets?`. |
| ListCache.Appended | frontend/src/hooks/useAssets.ts:27 | Create appends exactly one element at the end; earlier elements are unchanged. |
| ListCache.Merged | frontend/src/hooks/useAssets.ts:38-40 | Update keeps length and order; only elements with the id change, to their spread with the response. |
| ListCache.Removed | frontend/src/hooks/useAssets.ts:51 | Delete keeps exactly the elements without the id, in order. |
| ListCache.RemovingAbsentId | frontend/src/hooks/useAssets.ts:51 | Deleting an absent id leaves the list as it was. |
| ListCache.MergingAbsentId | frontend/src/hooks/useAssets.ts:38-40 | Updating an absent id leaves the list as it was. |
| ListCache.Hook.constructor | frontend/src/hooks/useAssets.ts:6-8 | A hook starts with an empty list, loading and no error. |
| ListCache.Hook.Fetch | frontend/src/hooks/useAssets.ts:10-22 | Success replaces the list and clears the error; failure keeps the list and sets the load message; loading ends false. |
| ListCache.Hook.Create | frontend/src/hooks/useAssets.ts:24-33 | Success appends the response; failure keeps the list, sets the message and rethrows. |
| ListCache.Hook.Update | frontend/src/hooks/useMaintenance.ts:35-46 | Success merges the response into the matching elements; failure keeps the list, sets the message and rethrows. |
| ListCache.Hook.Delete | frontend/src/hooks/useFMEA.ts:48-56 | Success removes the id; failure keeps the list, sets the message and rethrows. |
| ListCache.CreateThenDelete | frontend/src/hooks/useReports.ts:42-74 | Creating a record with a fresh id and then deleting that id restores the list. |
| ListCache.DeleteAfterReply | frontend/src/hooks/useAssets.ts:48-56 | With the corrected reply handling, a 204 delete removes the id from the cache. |
| GroupBy.SumOfMultiplicities | frontend/src/components/Dashboard.tsx:84-89 | Group counts equal to the multiplicities of distinct keys sum to the number of elements. |
| GroupBy.Tally | frontend/src/components/Reports.tsx:98-108 | The `reduce` tally has one group per distinct key present, each counting that key's occurrences, and the counts sum to the input length. |
| Dashboard.TotalCostAppend | frontend/src/components/Dashboard.tsx:76 | The cost sum grows by each record's cost, with a missing cost counted as 0. |
| Dashboard.TotalCostNonNegative | frontend/src/components/Dashboard.tsx:76 | Non-negative costs give a non-negative total. |
| Dashboard.Top | frontend/src/components/Dashboard.tsx:77-83 | Sort then `slice(0, 5)`: at most n elements of the input, in order. |
| Dashboard.TopLeavesOutOnlyLater | frontend/src/components/Dashboard.tsx:77-83 | Every element left out comes after the last one kept, and none is left out when fewer than n are kept. |
| Dashboard.Summarize | frontend/src/components/Dashboard.tsx:72-96 | The figures: the asset count, the 'ACTIVE' and 'MAINTENANCE' counts, the cost total, the upcoming and recent lists, and the type and status groupings, one group per type or status present, each counting the assets that have it. |
| Dashboard.StatusCountsBounded | frontend/src/components/Dashboard.tsx:73-75 | Active plus in-maintenance assets never exceed the total. |
| Dashboard.UpcomingIsNextFive | frontend/src/components/Dashboard.tsx:77-80 | At most five records, all due after now, earliest first; no record left out is due sooner than the last listed. |
| Dashboard.RecentIsLatestFive | frontend/src/components/Dashboard.tsx:81-83 | At most five records, latest first; no record left out is newer than the last listed. |
| Dashboard.Screen.constructor | frontend/src/components/Dashboard.tsx:50-52 | The screen starts loading, with no error and no data. |
| Dashboard.Screen.Fetch | frontend/src/components/Dashboard.tsx:58-105 | Success sets the figures, groupings with per-group counts included, and clears the error; failure sets the message and keeps the old data; loading ends false. |
| ReportsPage.OperationTimeAppend | frontend/src/components/Reports.tsx:61-66 | The operation time grows by a record's span exactly when it is completed. |
| ReportsPage.RepairTimeIsOperationTime | frontend/src/components/Reports.tsx:61-73 | The repair time is the same sum as the operation time. |
| ReportsPage.OnlyCompletedCount | frontend/src/components/Reports.tsx:62-65 | Only completed records contribute to the operation time. |
| ReportsPage.Ratio | frontend/src/components/Reports.tsx:81-83 | Availability is operation time over planned time, and has no value when the planned time is 0. |
| ReportsPage.KpisOf | frontend/src/components/Reports.tsx:60-95 | The KPIs: the asset count, operational <= total, availability × planned = operation time, oee = availability × 0.95 × 0.98, and no availability without assets. |
| ReportsPage.MtbfIsMttr | frontend/src/components/Reports.tsx:75-78 | MTBF and MTTR are always equal. |
| ReportsPage.NoCorrectiveNoMtbf | frontend/src/components/Reports.tsx:75-78 | Without a 'corrective' record both are 0. |
| ReportsPage.Screen.constructor | frontend/src/components/Reports.tsx:39-43 | The screen starts loading, with no error, no KPIs and no groups. |
| ReportsPage.Screen.Fetch | frontend/src/components/Reports.tsx:49-129 | Success sets the KPIs and both groupings, each group counting the records of its type or status, and does not clear the error; failure sets the message and changes nothing else. |
| MaintenanceList.FilteredRecords | frontend/src/components/MaintenanceList.tsx:93-99 | A record is kept exactly when its asset name or description contains the search ignoring case and the type and status filters are empty or equal. Order is kept. |
| MaintenanceList.NoFilterKeepsAll | frontend/src/components/MaintenanceList.tsx:93-99 | With empty search and filters every record is kept. |
| MaintenanceList.FiltersOnlyNarrow | frontend/src/components/MaintenanceList.tsx:96-97 | Adding a type or status filter only removes records. |
| EquipmentManagement.FilteredEquipments | src/components/EquipmentManagement.tsx:91-95 | An equipment item is kept exactly when its name, id or type contains the term ignoring case. Order is kept. |
| EquipmentManagement.EmptySearchKeepsAll | src/components/EquipmentManagement.tsx:91-95 | The empty term keeps every item. |
| EquipmentManagement.StatusColorIgnoresCase | src/components/EquipmentManagement.tsx:71-79 | The status colour depends only on the lower-cased status. |
| EquipmentManagement.StatusColorExamples | src/components/EquipmentManagement.tsx:71-79 | "Operacional" in any case is green; an unknown status is grey. |
| EquipmentManagement.CriticalityColors | src/components/EquipmentManagement.tsx:81-89 | The four criticalities map to red, orange, yellow and green; anything else is grey. |
| FailureAnalysis.RpnColor | src/components/FailureAnalysis.tsx:62-66 | High exactly when rpn >= 64, medium exactly when 32 <= rpn < 64, low exactly when rpn < 32. |
| FailureAnalysis.RpnColorMonotone | src/components/FailureAnalysis.tsx:62-66 | A larger RPN never gets a lower band. |
| FailureAnalysis.RpnColorExamples | src/components/FailureAnalysis.tsx:8-66 | The band edges 31/32 and 63/64, and the bands of the three listed failures. |
| FailureAnalysis.SeverityColor | src/components/FailureAnalysis.tsx:47-60 | Any severity outside the four names gets the muted colour. |
| FailureAnalysis.HighAndMediumShareAColor | src/components/FailureAnalysis.tsx:51-54 | 'Alta' and 'Média' share one colour, distinct from 'Crítica' and 'Baixa'. |
| EquipmentStatus.AvailabilityColor | src/components/EquipmentStatus.tsx:83-87 | Green exactly when >= 95, yellow exactly in [80, 95), red exactly below 80. |
| EquipmentStatus.AvailabilityColorMonotone | src/components/EquipmentStatus.tsx:83-87 | Higher availability never gets a worse colour. |
| EquipmentStatus.StatusIcon | src/components/EquipmentStatus.tsx:46-59 | Each of the four statuses has its icon; any other status gets the default icon. |
| EquipmentStatus.StatusBadge | src/components/EquipmentStatus.tsx:61-81 | A known status gets its variant and label; any other gets "outline" and "Desconhecido". |
| EquipmentStatus.StatusSummary | src/components/EquipmentStatus.tsx:89-94 | Each count is the number of items with that status, and together they never exceed the item count. |
| EquipmentStatus.CountsBounded | src/components/EquipmentStatus.tsx:89-94 | Counts of pairwise exclusive predicates sum to at most the length. |
| EquipmentStatus.FixedStatuses | src/components/EquipmentStatus.tsx:8-44 | The listed equipment has five items with these statuses: operational, maintenance, warning, operational, critical. |
| EquipmentStatus.SummaryOfFixedList | src/components/EquipmentStatus.tsx:8-94 | The summary of the listed equipment is 2 operational, 1 warning, 1 critical, 1 in maintenance. |
| FormRules.Required | frontend/src/components/forms/AssetForm.tsx:34 | `register(field, { required })` is a required rule with no bounds. |
| FormRules.Errors | frontend/src/components/forms/AssetForm.tsx:25 | A field has an error exactly when one of its rules fails: required rejects undefined, null and ""; min and max compare numerically and let NaN through. |
| FormRules.Submit | frontend/src/components/forms/AssetForm.tsx:25 | `handleSubmit` passes the values to `onSubmit` exactly when every rule passes. |
| FormRules.RequiredFields | frontend/src/components/forms/MaintenanceForm.tsx:36-176 | The fields marked required are exactly those of the rules with `required`. |
| FormRules.UnruledFieldIgnored | frontend/src/components/forms/MaintenanceForm.tsx:191-203 | A field no rule mentions does not affect the errors. |
| AssetForm.SameRequiredFields | frontend/src/components/forms/AssetForm.tsx:34-190 | The form requires exactly the fields the create endpoint requires (backend/src/controllers/asset.controller.ts:79). |
| AssetForm.ZeroCostPassesFormOnly | frontend/src/components/forms/AssetForm.tsx:158-161 | A cost of 0 passes the form, yet the endpoint reports it missing. |
| AssetForm.ZeroLifeFailsBoth | frontend/src/components/forms/AssetForm.tsx:139-142 | An estimated life of 0 fails the form and the endpoint. |
| AssetForm.SubmittedFormMissing | frontend/src/components/forms/AssetForm.tsx:25-196 | A field the form lets through but the endpoint calls missing holds 0, false or NaN. |
| AssetForm.NotEmptyButFalsy | frontend/src/components/forms/AssetForm.tsx:34 | The values that are not empty yet falsy are exactly 0, false and NaN. |
| AssetForm.DashboardIgnoresFormStatuses | frontend/src/components/forms/AssetForm.tsx:193-196 | No form status is 'ACTIVE' or 'MAINTENANCE', so assets entered through the form count as neither on the dashboard. |
| MaintenanceForm.OptionalFieldsIgnored | frontend/src/components/forms/MaintenanceForm.tsx:191-203 | `failureDetails` and `solution` never change the errors or whether the form submits. |
| MaintenanceForm.CostRule | frontend/src/components/forms/MaintenanceForm.tsx:93-96 | A numeric cost passes exactly when it is >= 0; an unset cost fails. |
| MaintenanceForm.RequiredOfForm | frontend/src/components/forms/MaintenanceForm.tsx:36-176 | The required fields are exactly the nine registered with options. |
| MaintenanceForm.FormHistoriesNeverFail | frontend/src/components/forms/MaintenanceForm.tsx:61-63 | The form's types never include 'corretiva', so a history of form records gets the no-failure metrics. |
| FmeaForm.Factor | frontend/src/components/forms/FMEAForm.tsx:130-176 | A factor input is required with min 1 and max 10. |
| FmeaForm.Watch | frontend/src/components/forms/FMEAForm.tsx:28-30 | `watch(name, 1)` is the field's value, or 1 while unset. |
| FmeaForm.DisplayedRpn | frontend/src/components/forms/FMEAForm.tsx:31 | The shown RPN is the product of the watched factors when all convert to numbers. |
| FmeaForm.EmptyFormShowsOne | frontend/src/components/forms/FMEAForm.tsx:28-31 | A fresh form shows RPN 1. |
| FmeaForm.DisplayedRpnIsServerRpn | frontend/src/components/forms/FMEAForm.tsx:31 | With all three factors set, the shown RPN is the one the server stores (backend/src/controllers/fmea.controller.ts:69). |
| FmeaForm.FactorRule | frontend/src/components/forms/FMEAForm.tsx:130-176 | A numeric factor passes exactly when it lies in 1..10; an unset factor fails. |
| FmeaForm.SubmittedRpnBounds | frontend/src/components/forms/FMEAForm.tsx:130-191 | A submitted form with numeric factors shows an RPN between 1 and 1000. |
| FmeaForm.EveryFieldRequired | frontend/src/components/forms/FMEAForm.tsx:42-204 | All nine registered fields are required. |
| FmeaForm.FormCoversServerFields | frontend/src/components/forms/FMEAForm.tsx:42-204 | The form requires exactly the nine fields the server's create reads (backend/src/controllers/fmea.controller.ts:66). |
| FmeaPage.SelectorsOfferOneToTen | frontend/src/components/FMEA.tsx:44-81 | Each factor selector offers exactly the values 1 to 10 in order. |
| FmeaPage.Or | frontend/src/components/FMEA.tsx:326 | The or-default of a factor: the value when truthy, else the default. |
| FmeaPage.FactorChange | frontend/src/components/FMEA.tsx:321-373 | The factor takes the chosen value and every other field keeps its own. For a non-zero choice, rpn is the product of the form's factors, an unset or zero factor counted as 1. |
| FmeaPage.EffectiveRpnIsServerRpn | frontend/src/components/FMEA.tsx:183-185 | With all three factors truthy, the page's product of the factors is the server's rpn for the same form (backend/src/controllers/fmea.controller.ts:69). |
| FmeaPage.ShownRpnIsServerRpn | frontend/src/components/FMEA.tsx:183-185 | With the other two factors truthy, the RPN shown after a non-zero change is the one the server computes from the submitted form. |
| FmeaPage.UnitFormRpnIsTheFactor | frontend/src/components/FMEA.tsx:321-330 | On a form whose factors are all 1, changing one factor to a non-zero value shows that value as the RPN. |
| FmeaPage.NewFormRpnIsTheFactor | frontend/src/components/FMEA.tsx:90-100 | On a new record's form, changing one factor shows that factor as the RPN. |
| FmeaPage.Page.constructor | frontend/src/components/FMEA.tsx:84-101 | The page starts loading, with no records, no error, the dialog closed and the new-record form. |
| FmeaPage.Page.Fetch | frontend/src/components/FMEA.tsx:106-121 | Success replaces records and assets without clearing the error; failure sets the load message. |
| FmeaPage.Page.OpenDialog | frontend/src/components/FMEA.tsx:123-142 | Editing copies the record into the form; a new record starts from the new-record form; the dialog opens. |
| FmeaPage.Page.CloseDialog | frontend/src/components/FMEA.tsx:144-148 | The dialog closes, nothing is edited and the form is emptied. |
| FmeaPage.Page.ChangeFactor | frontend/src/components/FMEA.tsx:321-373 | The form becomes `FactorChange` of the old form; nothing else changes. |
| FmeaPage.Page.Submit | frontend/src/components/FMEA.tsx:150-166 | Sends an update of the edited record or a create, with the form. Success closes the dialog; failure sets the save message and keeps the dialog. |
| FmeaPage.Page.Delete | frontend/src/components/FMEA.tsx:168-181 | A delete call is made exactly when the user confirms; a failure sets the delete message. |
| FmeaPage.ChosenFactors | frontend/src/components/FMEA.tsx:321-373 | After choosing three non-zero factors on a new record's form, the form holds them, and its rpn is their product, equal to the server's rpn for it. |
| FmeaPage.NewRecordRpn | frontend/src/components/FMEA.tsx:123-166 | New dialog, three factor choices, then submit: creates a record whose rpn is s·o·d, the value the server stores. |

## Left out

- Network, clock and identifiers: HTTP transport, Express routing and the
  route files, `uuid` generation and `new Date()` are not modelled. Ids, `now`,
  the date conversion of request strings (`toDate`), the ORM's reading of an
  ISO date-time string (`parseIso`) and every API reply are parameters.
- The database schema is not part of this model. Each table's set of columns
  is given when the `Database` is built; only the default sort columns
  (`createdAt`, and `date` for maintenance) are known to be among them.
- Prisma is modelled only as far as the core relies on it:
  - unique columns, P2002 and P2025;
  - column types are checked only for every table's `id` (a string) and for
    the maintenance record's `date` (a date), `type` and `assetId` (strings).
    The other columns of the asset, FMEA, report and maintenance tables accept
    any value. A report whose `title` is a number, or an asset update with
    `cost: "abc"`, is stored by the model where the ORM rejects it with 500;
  - an ISO string is read as a date only in the maintenance record's `date`
    column, the one the core's handlers pass on unconverted;
  - foreign keys and cascades are left out, so a row may name an absent asset;
  - relation `include`s (the asset embedded in a record, the records embedded
    in an asset) are left out, and list responses hold only the table's own
    fields;
  - ordering is by the numeric value of a number or date column; ordering by
    a string column (collation) is left out;
  - Prisma's backward `take` for a negative limit is left out: a negative
    limit is modelled as a failing query (500).
- `Math.ceil` of a division by a limit of 0 (Infinity or NaN, sent as null) is
  modelled as an absent `totalPages`.
- `parseInt` handles decimal digits only. Hexadecimal prefixes and numbers
  beyond JavaScript's safe integers are left out.
- `Number(...)` of a string (the operand conversion of `*`) handles digit
  strings only. Decimal points, exponents and surrounding white space are left
  out.
- Floating point: metrics, costs and RPNs are exact reals, so rounding and
  overflow to Infinity are left out.
- `toLowerCase` is modelled on ASCII letters only. Accented capitals such as
  'Í' are not folded.
- Integer-like object keys that JavaScript enumerates first are left out.
  The tallies keep their keys in first-insertion order, but the groupings'
  contracts state only which keys they hold, each key's count and the sum of
  the counts, not the order.
- EquipmentStatus.StatusBadge: keys inherited from `Object.prototype` (such as
  `"constructor"`), which the source's `variants[status] || 'outline'` lookup
  would find, are left out.
- Dashboard.Summarize: the in-place `.sort` of the fetched record array is
  modelled on values. That the same array is reordered twice is left out; only
  the resulting lists are stated.
- ListCache.Hook.Fetch: the list it stores is the caller's `response.data`.
  The reports hook stores the raw response (frontend/src/hooks/useReports.ts:31-33),
  and `api.ts` defines no report calls, so that outcome is a parameter.
- The text-field handlers of the FMEA dialog (frontend/src/components/FMEA.tsx:278-311)
  are plain spreads and are not modelled separately. Nor are react-hook-form's
  error messages or its re-rendering.
- `window.confirm` is the `confirmed` parameter of `FmeaPage.Page.Delete`. The
  `fetchData` that follows a submit or delete is a separate `Fetch` call.
- Console logging, rendering and styling beyond the colour and badge
  classifiers are left out. So are the screens outside the listed components
  and the database seeders, apart from their FMEA fixture rows.
- Concurrency: `Promise.all` and the interleaving of React state updates are
  left out. Each handler runs to completion in one step.

## Findings

| source | as written | input that shows it | evidently intended | confidence | as-written member | corrected member |
|---|---|---|---|---|---|---|
| frontend/src/services/api.ts:86-101 | `handleResponse` always parses the body as JSON, including on the empty 204 reply every delete endpoint sends | any successful DELETE: status 204, empty body | a 204 succeeds without a body, so the caches drop the deleted id | not executed | ApiClient.NoContentRejects | ApiClient.HandleReply |
