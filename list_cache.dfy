/** The four list hooks (`useAssets`, `useMaintenance`, `useFMEA`,
    `useReports`): one state machine over a list of id-keyed records with a
    `loading` flag and an error message. Each call's outcome is a parameter
    (what the API call resolved to or rejected with); the hooks differ only
    in their messages and in what `fetch` stores. */
module ListCache {
  import opened Wrappers
  import opened JsValues
  import opened Seqs
  import opened Store
  import opened ApiClient

  /** The messages a hook sets when its fetch, create, update or delete fails. */
  datatype Messages = Messages(load: string, create: string, update: string, remove: string)

  const AssetMessages: Messages :=
    Messages("Erro ao carregar ativos", "Erro ao criar ativo", "Erro ao atualizar ativo", "Erro ao excluir ativo")
  const MaintenanceMessages: Messages :=
    Messages("Erro ao carregar registros de manutenção", "Erro ao criar registro de manutenção",
             "Erro ao atualizar registro de manutenção", "Erro ao excluir registro de manutenção")
  const FmeaMessages: Messages :=
    Messages("Erro ao carregar registros de FMEA", "Erro ao criar registro de FMEA",
             "Erro ao atualizar registro de FMEA", "Erro ao excluir registro de FMEA")
  const ReportMessages: Messages :=
    Messages("Erro ao carregar relatórios", "Erro ao criar relatório",
             "Erro ao atualizar relatório", "Erro ao excluir relatório")

  /** `[...prev, response]`. */
  function Appended(items: seq<Row>, created: Row): (r: seq<Row>)
    ensures |r| == |items| + 1 && r[..|items|] == items && r[|items|] == created
  {
    items + [created]
  }

  /** `prev.map(a => a.id === id ? { ...a, ...response } : a)`. */
  function Merged(items: seq<Row>, id: string, response: Row): (r: seq<Row>)
    ensures |r| == |items|
    ensures forall i :: 0 <= i < |r| && !HasId(items[i], id) ==> r[i] == items[i]
    ensures forall i :: 0 <= i < |r| && HasId(items[i], id) ==>
      r[i].Keys == items[i].Keys + response.Keys &&
      (forall f :: f in response ==> r[i][f] == response[f]) &&
      (forall f :: f in items[i] && f !in response ==> r[i][f] == items[i][f])
  {
    seq(|items|, i requires 0 <= i < |items| => if HasId(items[i], id) then Spread(items[i], response) else items[i])
  }

  /** `prev.filter(a => a.id !== id)`. */
  function Removed(items: seq<Row>, id: string): (r: seq<Row>)
    ensures forall x :: x in r <==> x in items && !HasId(x, id)
    ensures IsSubsequence(r, items)
  {
    FilterIsSubsequence(items, x => !HasId(x, id));
    Filter(items, x => !HasId(x, id))
  }

  /** Removing an id no record has changes nothing. */
  lemma RemovingAbsentId(items: seq<Row>, id: string)
    requires forall x :: x in items ==> !HasId(x, id)
    ensures Removed(items, id) == items
  {
    FilterKeepsAll(items, x => !HasId(x, id));
  }

  /** Merging under an id no record has changes nothing. */
  lemma MergingAbsentId(items: seq<Row>, id: string, response: Row)
    requires forall x :: x in items ==> !HasId(x, id)
    ensures Merged(items, id, response) == items
  {
  }

  /** A hook's state. */
  class Hook {
    const messages: Messages
    var items: seq<Row>
    var loading: bool
    var error: Option<string>

    /** `useState([])`, `useState(true)`, `useState(null)`. */
    constructor (messages: Messages)
      ensures this.messages == messages
      ensures items == [] && loading && error == None
    {
      this.messages := messages;
      items := [];
      loading := true;
      error := None;
    }

    /** `fetch`: `loading` is set, then the fetched list replaces the items
        and the error is cleared, or the load message is set and the items
        are kept; `loading` ends false either way. `fetched` is what the
        hook stores: `response.data` for the paged hooks, the response
        itself for the reports hook. */
    method Fetch(fetched: Result<seq<Row>, Failure>)
      modifies this
      ensures !loading
      ensures fetched.Ok? ==> items == fetched.value && error == None
      ensures fetched.Err? ==> items == old(items) && error == Some(messages.load)
    {
      loading := true;
      if fetched.Ok? {
        items := fetched.value;
        error := None;
      } else {
        error := Some(messages.load);
      }
      loading := false;
    }

    /** `create`: appends the created record and returns it, or sets the
        create message and rethrows with the items unchanged. */
    method Create(response: Result<Row, Failure>) returns (r: Result<Row, Failure>)
      modifies this
      ensures r == response && loading == old(loading)
      ensures response.Ok? ==> items == Appended(old(items), response.value) && error == old(error)
      ensures response.Err? ==> items == old(items) && error == Some(messages.create)
    {
      if response.Ok? {
        items := Appended(items, response.value);
      } else {
        error := Some(messages.create);
      }
      r := response;
    }

    /** `update`: merges the server's record into every item with the id
        and returns it, or sets the update message and rethrows. */
    method Update(id: string, response: Result<Row, Failure>) returns (r: Result<Row, Failure>)
      modifies this
      ensures r == response && loading == old(loading)
      ensures response.Ok? ==> items == Merged(old(items), id, response.value) && error == old(error)
      ensures response.Err? ==> items == old(items) && error == Some(messages.update)
    {
      if response.Ok? {
        items := Merged(items, id, response.value);
      } else {
        error := Some(messages.update);
      }
      r := response;
    }

    /** `delete`: drops every item with the id, or sets the delete message
        and rethrows. */
    method Delete(id: string, outcome: Result<(), Failure>) returns (r: Result<(), Failure>)
      modifies this
      ensures r == outcome && loading == old(loading)
      ensures outcome.Ok? ==> items == Removed(old(items), id) && error == old(error)
      ensures outcome.Err? ==> items == old(items) && error == Some(messages.remove)
    {
      if outcome.Ok? {
        items := Removed(items, id);
      } else {
        error := Some(messages.remove);
      }
      r := outcome;
    }
  }

  /** A created record that carries a fresh id is found exactly once after
      the append, and deleting it restores the list. */
  lemma CreateThenDelete(items: seq<Row>, created: Row, id: string)
    requires HasId(created, id) && forall x :: x in items ==> !HasId(x, id)
    ensures Removed(Appended(items, created), id) == items
  {
    var p := x => !HasId(x, id);
    FilterKeepsAll(items, p);
    FilterAppend(items, [created], p);
  }

  /** With the intended reply handling, a 204 answer to a delete removes the
      record from the list; with `handleResponse` as written the same answer
      is a failure that keeps it and shows the delete message. */
  method DeleteAfterReply(h: Hook, id: string, t: Transport) returns (r: Result<(), Failure>)
    modifies h
    ensures t.Delivered? && t.reply.status == 204 ==> r.Ok? && h.items == Removed(old(h.items), id)
    ensures r.Err? ==> h.items == old(h.items) && h.error == Some(h.messages.remove)
  {
    r := h.Delete(id, DeleteCall(t));
  }
}
