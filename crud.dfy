/** The update and delete handlers that look the record up first: an absent
    id answers 404 and changes nothing; otherwise the ORM call runs and any
    error it raises answers 500. The asset, maintenance and report
    controllers share this shape. */
module Crud {
  import opened Wrappers
  import opened JsValues
  import opened Store
  import opened Http

  /** `findUnique`, 404 if absent, then `update({ where: { id }, data: body })`. */
  method UpdateExisting(t: Table, id: string, body: Row, notFound: string, failure: string)
    returns (res: Response)
    requires t.Valid()
    modifies t
    ensures t.Valid()
    ensures Lookup(old(t.rows), id).None? ==> res == Response(404, Error(notFound)) && t.rows == old(t.rows)
    ensures Lookup(old(t.rows), id).Some? ==>
      var u := Modification(old(t.rows), t.uniques, t.dates, t.texts, id, body);
      (u.Ok? ==> res == Response(200, Record(u.value.1)) && t.rows == old(t.rows)[u.value.0 := u.value.1]) &&
      (u.Err? ==> res == Response(500, Error(failure)) && t.rows == old(t.rows))
  {
    if Lookup(t.rows, id).None? {
      return Response(404, Error(notFound));
    }
    var r := t.Update(id, body);
    if r.Ok? {
      res := Response(200, Record(r.value));
    } else {
      res := Response(500, Error(failure));
    }
  }

  /** `findUnique`, 404 if absent, then `delete({ where: { id } })` and 204. */
  method DeleteExisting(t: Table, id: string, notFound: string) returns (res: Response)
    requires t.Valid()
    modifies t
    ensures t.Valid()
    ensures Lookup(old(t.rows), id).None? ==> res == Response(404, Error(notFound)) && t.rows == old(t.rows)
    ensures Lookup(old(t.rows), id).Some? ==>
      res == Response(204, NoContent) && Lookup(t.rows, id).None? &&
      forall x :: x in t.rows <==> x in old(t.rows) && !HasId(x, id)
  {
    if Lookup(t.rows, id).None? {
      return Response(404, Error(notFound));
    }
    var r := t.Delete(id);
    res := Response(204, NoContent);
  }

  /** `create({ data: body })`: 201 with the stored row, or 500. */
  method CreateFromBody(t: Table, body: Row, newId: string, now: int, failure: string) returns (res: Response)
    requires t.Valid()
    modifies t
    ensures t.Valid()
    ensures var c := Creation(old(t.rows), t.uniques, t.dates, t.texts, body, newId, now);
      (c.Ok? ==> res == Response(201, Record(c.value)) && t.rows == old(t.rows) + [c.value]) &&
      (c.Err? ==> res == Response(500, Error(failure)) && t.rows == old(t.rows))
  {
    var r := t.Create(body, newId, now);
    if r.Ok? {
      res := Response(201, Record(r.value));
    } else {
      res := Response(500, Error(failure));
    }
  }
}
