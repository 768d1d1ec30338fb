/** The maintenance list screen's `filteredRecords`: a search over the asset
    name and the description, and optional exact filters on type and status. */
module MaintenanceList {
  import opened Text
  import opened Seqs

  /** The fields the filter reads (`record.asset.name`; `type` is `kind`). */
  datatype RecordView = RecordView(assetName: string, description: string, kind: string, status: string)

  /** The three filter inputs; an empty type or status filter is off. */
  datatype Filters = Filters(search: string, typeFilter: string, statusFilter: string)

  predicate Keeps(r: RecordView, f: Filters) {
    (IncludesIgnoringCase(r.assetName, f.search) || IncludesIgnoringCase(r.description, f.search)) &&
    (f.typeFilter == "" || r.kind == f.typeFilter) &&
    (f.statusFilter == "" || r.status == f.statusFilter)
  }

  /** `filteredRecords`: a record is kept exactly when its asset name or
      description contains the search term ignoring case, and its type and
      status equal the filters that are set; the kept records stay in order. */
  function FilteredRecords(records: seq<RecordView>, f: Filters): (r: seq<RecordView>)
    ensures forall x :: x in r <==>
      x in records &&
      (IncludesIgnoringCase(x.assetName, f.search) || IncludesIgnoringCase(x.description, f.search)) &&
      (f.typeFilter == "" || x.kind == f.typeFilter) &&
      (f.statusFilter == "" || x.status == f.statusFilter)
    ensures IsSubsequence(r, records)
  {
    FilterIsSubsequence(records, x => Keeps(x, f));
    Filter(records, x => Keeps(x, f))
  }

  /** With an empty search and no filter set every record is shown. */
  lemma NoFilterKeepsAll(records: seq<RecordView>)
    ensures FilteredRecords(records, Filters("", "", "")) == records
  {
    forall x | x in records
      ensures Keeps(x, Filters("", "", ""))
    {
      IncludesEmptyIgnoringCase(x.assetName);
    }
    FilterKeepsAll(records, x => Keeps(x, Filters("", "", "")));
  }

  /** Setting a type or status filter only ever hides records: the result is
      a subsequence of the result without it. */
  lemma FiltersOnlyNarrow(records: seq<RecordView>, search: string, typeFilter: string, statusFilter: string)
    ensures IsSubsequence(FilteredRecords(records, Filters(search, typeFilter, statusFilter)),
                          FilteredRecords(records, Filters(search, "", statusFilter)))
    ensures IsSubsequence(FilteredRecords(records, Filters(search, typeFilter, statusFilter)),
                          FilteredRecords(records, Filters(search, typeFilter, "")))
  {
    var f := Filters(search, typeFilter, statusFilter);
    FilterNarrows(records, x => Keeps(x, f), x => Keeps(x, Filters(search, "", statusFilter)));
    FilterNarrows(records, x => Keeps(x, f), x => Keeps(x, Filters(search, typeFilter, "")));
  }
}
