/** The database as the ORM presents it to the services and controllers: four
    tables of rows (assets, maintenance records, FMEA records, reports), each row
    keyed by a string `id`. A table enforces its unique columns (the ORM's
    P2002 error), the columns it requires with their type, and reports an
    update or delete of a missing id (P2025). */
module Store {
  import opened Wrappers
  import opened JsValues

  /** The errors the ORM raises. */
  datatype DbError =
    | UniqueViolation  // P2002: a unique column would hold a duplicate value
    | RecordNotFound   // P2025: update or delete of an id that is not stored
    | InvalidData      // a required column missing or of the wrong type

  /** The row's `id` is `id`. */
  predicate HasId(row: Row, id: string) {
    Get(row, "id") == Str(id)
  }

  /** Rows `a` and `b` hold the same non-null value in column `f`
      (SQL unique indexes ignore nulls). */
  predicate Clash(a: Row, b: Row, f: string) {
    Get(a, f) != Undefined && Get(a, f) != Null && Get(a, f) == Get(b, f)
  }

  /** No two rows share a value in any of the unique columns. */
  predicate UniqueOn(rows: seq<Row>, uniques: set<string>) {
    forall i, j, f :: 0 <= i < j < |rows| && f in uniques ==> !Clash(rows[i], rows[j], f)
  }

  /** `row` would clash with some stored row other than the one at `except`. */
  predicate ClashesWithAny(rows: seq<Row>, row: Row, uniques: set<string>, except: int) {
    exists j, f :: 0 <= j < |rows| && j != except && f in uniques && Clash(rows[j], row, f)
  }

  /** Every required date column holds a date and every required text column
      holds a string. */
  predicate WellTyped(row: Row, dates: set<string>, texts: set<string>) {
    (forall c :: c in dates ==> Get(row, c).Date?) &&
    (forall c :: c in texts ==> Get(row, c).Str?)
  }

  /** The ORM ignores fields whose value is `undefined`. */
  function Defined(data: Row): (r: Row)
    ensures forall f :: f in r <==> f in data && data[f] != Undefined
    ensures forall f :: f in r ==> r[f] == data[f]
  {
    map f | f in data && data[f] != Undefined :: data[f]
  }

  /** The data as the ORM reads it for a table whose date columns are
      `dates`: a string in a date column becomes the date `parseIso` reads
      from it, and stays a string (which the column then rejects) when
      `parseIso` reads none. `parseIso` stands for the ORM's ISO-8601
      date-time parser. */
  function CoerceDates(data: Row, dates: set<string>, parseIso: string -> Option<int>): (r: Row)
    ensures forall f :: f in r <==> f in data
    ensures forall f :: f in data && (f !in dates || !data[f].Str?) ==> r[f] == data[f]
    ensures forall f :: f in data && f in dates && data[f].Str? ==>
      r[f] == if parseIso(data[f].s).Some? then Date(parseIso(data[f].s).value) else data[f]
  {
    map f | f in data :: if f in dates && data[f].Str? && parseIso(data[f].s).Some?
                         then Date(parseIso(data[f].s).value) else data[f]
  }

  /** Position of the row with the given `id`, if any. */
  function IndexOf(rows: seq<Row>, id: string): (r: Option<nat>)
    ensures r.Some? ==> r.value < |rows| && HasId(rows[r.value], id)
    ensures r.Some? ==> forall i :: 0 <= i < r.value ==> !HasId(rows[i], id)
    ensures r.None? ==> forall i :: 0 <= i < |rows| ==> !HasId(rows[i], id)
  {
    if rows == [] then None
    else if HasId(rows[0], id) then Some(0)
    else match IndexOf(rows[1..], id)
      case None => None
      case Some(k) => Some(k + 1)
  }

  /** `findUnique({ where: { id } })`. */
  function Lookup(rows: seq<Row>, id: string): (r: Option<Row>)
    ensures r.Some? <==> exists i :: 0 <= i < |rows| && HasId(rows[i], id)
    ensures r.Some? ==> r.value in rows && HasId(r.value, id)
  {
    match IndexOf(rows, id)
    case None => None
    case Some(i) => Some(rows[i])
  }

  /** Where ids are unique, a row is found exactly at its own position. */
  /** A row found by id has the table's field types. */
  lemma FoundIsWellTyped(rows: seq<Row>, dates: set<string>, texts: set<string>, id: string)
    requires forall j :: 0 <= j < |rows| ==> WellTyped(rows[j], dates, texts)
    requires Lookup(rows, id).Some?
    ensures WellTyped(Lookup(rows, id).value, dates, texts)
  {
    var i := IndexOf(rows, id).value;
    assert Lookup(rows, id).value == rows[i];
  }

  /** A row whose `id` no stored row holds clashes with none of them on `id`. */
  lemma FreshIdNoClash(rows: seq<Row>, row: Row, id: string)
    requires HasId(row, id)
    requires forall x :: x in rows ==> !HasId(x, id)
    ensures !ClashesWithAny(rows, row, {"id"}, -1)
  {
    forall j, f | 0 <= j < |rows| && f in {"id"}
      ensures !Clash(rows[j], row, f)
    {
      assert rows[j] in rows;
    }
  }

  lemma UniqueIdPosition(rows: seq<Row>, uniques: set<string>, i: nat, id: string)
    requires UniqueOn(rows, uniques) && "id" in uniques
    requires i < |rows| && HasId(rows[i], id)
    ensures IndexOf(rows, id) == Some(i)
  {
    forall j | 0 <= j < i
      ensures !HasId(rows[j], id)
    {
      assert !Clash(rows[j], rows[i], "id");
    }
  }

  /** The row that `create({ data })` stores: the generated `id` and creation
      time unless the data supplies them, then the defined fields of `data`. */
  function NewRow(data: Row, newId: string, now: int): (r: Row)
    ensures Get(r, "id") == if Get(data, "id") == Undefined then Str(newId) else data["id"]
    ensures forall f :: f in data && data[f] != Undefined ==> f in r && r[f] == data[f]
  {
    map["id" := Str(newId), "createdAt" := Date(now)] + Defined(data)
  }

  /** The outcome of `create({ data })` on `rows`. */
  function Creation(rows: seq<Row>, uniques: set<string>, dates: set<string>, texts: set<string>,
                    data: Row, newId: string, now: int): (r: Result<Row, DbError>)
    ensures r.Ok? <==> WellTyped(NewRow(data, newId, now), dates, texts) &&
                       !ClashesWithAny(rows, NewRow(data, newId, now), uniques, -1)
    ensures r.Ok? ==> r.value == NewRow(data, newId, now)
    ensures r.Err? ==> r.error == InvalidData || r.error == UniqueViolation
  {
    var row := NewRow(data, newId, now);
    if !WellTyped(row, dates, texts) then Err(InvalidData)
    else if ClashesWithAny(rows, row, uniques, -1) then Err(UniqueViolation)
    else Ok(row)
  }

  /** The outcome of `update({ where: { id }, data })` on `rows`: the position
      of the changed row and its new value. */
  function Modification(rows: seq<Row>, uniques: set<string>, dates: set<string>, texts: set<string>,
                  id: string, data: Row): (r: Result<(nat, Row), DbError>)
    ensures r.Ok? ==> IndexOf(rows, id) == Some(r.value.0) && r.value.0 < |rows|
    ensures r.Ok? ==> r.value.1 == rows[r.value.0] + Defined(data) && WellTyped(r.value.1, dates, texts)
    ensures r.Err? ==> r.error in {RecordNotFound, InvalidData, UniqueViolation}
    ensures r.Err? && r.error == RecordNotFound <==> IndexOf(rows, id).None?
  {
    match IndexOf(rows, id)
    case None => Err(RecordNotFound)
    case Some(i) =>
      var row := rows[i] + Defined(data);
      if !WellTyped(row, dates, texts) then Err(InvalidData)
      else if ClashesWithAny(rows, row, uniques, i) then Err(UniqueViolation)
      else Ok((i, row))
  }

  /** A row that keeps the unique columns of the row it replaces clashes with
      no other row, so such an update never raises P2002. */
  lemma KeepingUniquesNoClash(rows: seq<Row>, uniques: set<string>, i: nat, row: Row)
    requires UniqueOn(rows, uniques) && i < |rows|
    requires forall f :: f in uniques ==> Get(row, f) == Get(rows[i], f)
    ensures !ClashesWithAny(rows, row, uniques, i)
  {
    forall j, f | 0 <= j < |rows| && j != i && f in uniques
      ensures !Clash(rows[j], row, f)
    {
      if j < i {
        assert !Clash(rows[j], rows[i], f);
      } else {
        assert !Clash(rows[i], rows[j], f);
      }
    }
  }

  /** Two tables whose rows agree on which of them carry `id` find it at the
      same position. */
  lemma {:induction false} SameIdsSamePosition(a: seq<Row>, b: seq<Row>, id: string)
    requires |a| == |b|
    requires forall j :: 0 <= j < |a| ==> (HasId(a[j], id) <==> HasId(b[j], id))
    ensures IndexOf(a, id) == IndexOf(b, id)
    decreases |a|
  {
    if a != [] {
      SameIdsSamePosition(a[1..], b[1..], id);
    }
  }

  /** `rows` without the row at position `i`. */
  function Without(rows: seq<Row>, i: nat): (r: seq<Row>)
    requires i < |rows|
    ensures |r| == |rows| - 1
    ensures forall j :: 0 <= j < |r| ==> r[j] == if j < i then rows[j] else rows[j + 1]
  {
    rows[..i] + rows[i + 1..]
  }

  /** Removing a row keeps the other rows unique and well typed. */
  lemma RemovalKeepsInvariant(rows: seq<Row>, uniques: set<string>, dates: set<string>, texts: set<string>, i: nat)
    requires i < |rows| && UniqueOn(rows, uniques)
    requires forall j :: 0 <= j < |rows| ==> WellTyped(rows[j], dates, texts)
    ensures UniqueOn(Without(rows, i), uniques)
    ensures forall j :: 0 <= j < |rows| - 1 ==> WellTyped(Without(rows, i)[j], dates, texts)
  {
    var r := Without(rows, i);
    forall a, b, f | 0 <= a < b < |r| && f in uniques
      ensures !Clash(r[a], r[b], f)
    {
      var a', b' := if a < i then a else a + 1, if b < i then b else b + 1;
      assert r[a] == rows[a'] && r[b] == rows[b'];
    }
  }

  /** Deleting the row with a unique `id` leaves no row with that `id`, and
      keeps every other row. */
  lemma RemovalDropsId(rows: seq<Row>, uniques: set<string>, i: nat, id: string)
    requires i < |rows| && UniqueOn(rows, uniques) && "id" in uniques
    requires HasId(rows[i], id)
    ensures Lookup(Without(rows, i), id).None?
    ensures forall x :: x in Without(rows, i) <==> x in rows && !HasId(x, id)
  {
    var r := Without(rows, i);
    forall j | 0 <= j < |rows| && j != i
      ensures !HasId(rows[j], id)
    {
      if j < i {
        assert !Clash(rows[j], rows[i], "id");
      } else {
        assert !Clash(rows[i], rows[j], "id");
      }
    }
    forall x | x in rows && !HasId(x, id)
      ensures x in r
    {
      var j :| 0 <= j < |rows| && rows[j] == x;
      if j < i {
        assert r[j] == x;
      } else {
        assert r[j - 1] == x;
      }
    }
  }

  /** A table: its rows, its scalar columns (the ones a query may order by),
      the columns that must be unique and the columns that must hold a date or
      a string. */
  class Table {
    const columns: set<string>
    const uniques: set<string>
    const dates: set<string>
    const texts: set<string>
    var rows: seq<Row>

    ghost predicate Valid()
      reads this
    {
      "id" in uniques && "id" in texts &&
      UniqueOn(rows, uniques) &&
      forall i :: 0 <= i < |rows| ==> WellTyped(rows[i], dates, texts)
    }

    constructor (columns: set<string>, uniques: set<string>, dates: set<string>, texts: set<string>)
      requires "id" in uniques && "id" in texts
      ensures Valid()
      ensures this.columns == columns
      ensures this.uniques == uniques && this.dates == dates && this.texts == texts
      ensures rows == []
    {
      this.columns := columns;
      this.uniques := uniques;
      this.dates := dates;
      this.texts := texts;
      rows := [];
    }

    /** `create({ data })`: appends the new row, or fails and changes nothing. */
    method Create(data: Row, newId: string, now: int) returns (r: Result<Row, DbError>)
      requires Valid()
      modifies this
      ensures Valid()
      ensures r == Creation(old(rows), uniques, dates, texts, data, newId, now)
      ensures rows == if r.Ok? then old(rows) + [r.value] else old(rows)
    {
      r := Creation(rows, uniques, dates, texts, data, newId, now);
      if r.Ok? {
        var row := r.value;
        assert forall j, f :: 0 <= j < |rows| && f in uniques ==> !Clash(rows[j], row, f);
        rows := rows + [row];
      }
    }

    /** `update({ where: { id }, data })`: merges the defined fields of `data`
        into the stored row, or fails and changes nothing. */
    method Update(id: string, data: Row) returns (r: Result<Row, DbError>)
      requires Valid()
      modifies this
      ensures Valid()
      ensures var u := Modification(old(rows), uniques, dates, texts, id, data);
        u.Err? ==> r == Err(u.error) && rows == old(rows)
      ensures var u := Modification(old(rows), uniques, dates, texts, id, data);
        u.Ok? ==> r == Ok(u.value.1) && rows == old(rows)[u.value.0 := u.value.1]
    {
      var u := Modification(rows, uniques, dates, texts, id, data);
      if u.Err? {
        return Err(u.error);
      }
      var (i, row) := u.value;
      assert forall j, f :: 0 <= j < |rows| && j != i && f in uniques ==> !Clash(rows[j], row, f);
      rows := rows[i := row];
      r := Ok(row);
    }

    /** `delete({ where: { id } })`: removes the row and returns it, or fails
        when no row has that id. */
    method Delete(id: string) returns (r: Result<Row, DbError>)
      requires Valid()
      modifies this
      ensures Valid()
      ensures r.Err? <==> Lookup(old(rows), id).None?
      ensures r.Err? ==> r.error == RecordNotFound && rows == old(rows)
      ensures r.Ok? ==> Lookup(old(rows), id) == Some(r.value)
      ensures r.Ok? ==> Lookup(rows, id).None?
      ensures r.Ok? ==> forall x :: x in rows <==> x in old(rows) && !HasId(x, id)
    {
      var k := IndexOf(rows, id);
      if k.None? {
        return Err(RecordNotFound);
      }
      var i := k.value;
      r := Ok(rows[i]);
      RemovalKeepsInvariant(rows, uniques, dates, texts, i);
      RemovalDropsId(rows, uniques, i, id);
      rows := Without(rows, i);
    }
  }

  /** The four tables. Asset codes and serial numbers are unique; maintenance
      records require a date, a type and the owning asset's id. The database
      schema, which fixes each table's columns, is not part of this model: the
      column sets are given when the database is built, and only the columns
      the handlers sort by by default are known to be among them. */
  class Database {
    const assets: Table
    const maintenance: Table
    const fmea: Table
    const reports: Table

    ghost predicate Valid()
      reads assets, maintenance, fmea, reports
    {
      assets != maintenance && assets != fmea && assets != reports &&
      maintenance != fmea && maintenance != reports && fmea != reports &&
      assets.Valid() && maintenance.Valid() && fmea.Valid() && reports.Valid() &&
      "createdAt" in assets.columns && "date" in maintenance.columns &&
      "createdAt" in fmea.columns && "createdAt" in reports.columns &&
      assets.uniques == AssetUniques && assets.dates == {} && assets.texts == {"id"} &&
      maintenance.uniques == {"id"} && maintenance.dates == MaintenanceDates &&
      maintenance.texts == MaintenanceTexts &&
      fmea.uniques == {"id"} && fmea.dates == {} && fmea.texts == {"id"} &&
      reports.uniques == {"id"} && reports.dates == {} && reports.texts == {"id"}
    }

    constructor (assetColumns: set<string>, maintenanceColumns: set<string>,
                 fmeaColumns: set<string>, reportColumns: set<string>)
      requires "createdAt" in assetColumns && "date" in maintenanceColumns
      requires "createdAt" in fmeaColumns && "createdAt" in reportColumns
      ensures Valid()
      ensures fresh(assets) && fresh(maintenance) && fresh(fmea) && fresh(reports)
      ensures assets.columns == assetColumns && maintenance.columns == maintenanceColumns
      ensures fmea.columns == fmeaColumns && reports.columns == reportColumns
      ensures assets.rows == [] && maintenance.rows == [] && fmea.rows == [] && reports.rows == []
    {
      assets := new Table(assetColumns, AssetUniques, {}, {"id"});
      maintenance := new Table(maintenanceColumns, {"id"}, MaintenanceDates, MaintenanceTexts);
      fmea := new Table(fmeaColumns, {"id"}, {}, {"id"});
      reports := new Table(reportColumns, {"id"}, {}, {"id"});
    }
  }

  /** A row with a date, a string id, a string type and a string asset id has
      the types a maintenance record needs. */
  lemma MaintenanceTyped(row: Row)
    requires Get(row, "date").Date? && Get(row, "id").Str?
    requires Get(row, "type").Str? && Get(row, "assetId").Str?
    ensures WellTyped(row, MaintenanceDates, MaintenanceTexts)
  {
  }

  const AssetUniques: set<string> := {"id", "code", "serialNumber"}
  const MaintenanceDates: set<string> := {"date"}
  const MaintenanceTexts: set<string> := {"id", "type", "assetId"}
}
