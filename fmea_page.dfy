/** The FMEA page: the records and assets it loads, the edit dialog with its
    form, the factor selectors that recompute the RPN as a factor changes,
    and submit and delete. Each API call's outcome is a parameter; submit
    and delete return the call they make. */
module FmeaPage {
  import opened Wrappers
  import opened JsValues
  import opened ApiClient
  import FmeaController

  /** One entry of a factor selector. */
  datatype Level = Level(value: int, text: string)

  const SeverityLevels: seq<Level> := [
    Level(1, "1 - Sem efeito"), Level(2, "2 - Muito leve"), Level(3, "3 - Leve"), Level(4, "4 - Moderado"),
    Level(5, "5 - Significativo"), Level(6, "6 - Grave"), Level(7, "7 - Muito grave"),
    Level(8, "8 - Extremamente grave"), Level(9, "9 - Crítico"), Level(10, "10 - Catastrófico")
  ]

  const OccurrenceLevels: seq<Level> := [
    Level(1, "1 - Improvável"), Level(2, "2 - Muito baixa"), Level(3, "3 - Baixa"), Level(4, "4 - Moderada"),
    Level(5, "5 - Média"), Level(6, "6 - Moderadamente alta"), Level(7, "7 - Alta"), Level(8, "8 - Muito alta"),
    Level(9, "9 - Extremamente alta"), Level(10, "10 - Quase certa")
  ]

  const DetectionLevels: seq<Level> := [
    Level(1, "1 - Quase certa"), Level(2, "2 - Muito alta"), Level(3, "3 - Alta"),
    Level(4, "4 - Moderadamente alta"), Level(5, "5 - Média"), Level(6, "6 - Moderada"), Level(7, "7 - Baixa"),
    Level(8, "8 - Muito baixa"), Level(9, "9 - Extremamente baixa"), Level(10, "10 - Improvável")
  ]

  /** The selector offers the values 1 to 10, in order. */
  predicate OneToTen(levels: seq<Level>) {
    |levels| == 10 && forall i :: 0 <= i < 10 ==> levels[i].value == i + 1
  }

  /** Every factor selector offers exactly the values 1 to 10. */
  lemma SelectorsOfferOneToTen()
    ensures OneToTen(SeverityLevels) && OneToTen(OccurrenceLevels) && OneToTen(DetectionLevels)
  {
  }

  const LoadError := "Erro ao carregar dados do FMEA"
  const SaveError := "Erro ao salvar registro FMEA"
  const DeleteError := "Erro ao excluir registro FMEA"

  /** The form of a new record: every factor 1, status "Pendente", every text
      empty. */
  const NewForm: Row := map[
    "assetId" := Str(""), "failureMode" := Str(""), "effect" := Str(""), "cause" := Str(""),
    "severity" := Num(1.0), "occurrence" := Num(1.0), "detection" := Num(1.0),
    "action" := Str(""), "status" := Str("Pendente")]

  datatype Factor = Severity | Occurrence | Detection

  function Field(f: Factor): string {
    match f
    case Severity => "severity"
    case Occurrence => "occurrence"
    case Detection => "detection"
  }

  /** `v || d`: the value when it is truthy, the default otherwise. */
  function Or(v: Value, d: Value): (r: Value)
    ensures Truthy(v) ==> r == v
    ensures !Truthy(v) ==> r == d
  {
    if Truthy(v) then v else d
  }

  /** `formData.<factor> || 1`. */
  function Effective(form: Row, name: string): Value {
    Or(Get(form, name), Num(1.0))
  }

  /** `calculateRPN(severity, occurrence, detection)`. */
  function CalculateRpn(severity: Value, occurrence: Value, detection: Value): Value {
    TimesThree(severity, occurrence, detection)
  }

  /** A factor selector's `onChange`: the factor takes the chosen number and
      `rpn` becomes the product of the three factors as the form now holds
      them, an unset or zero factor counted as 1. Every other field keeps its
      value. */
  function FactorChange(form: Row, f: Factor, n: real): (r: Row)
    ensures r.Keys == form.Keys + {Field(f), "rpn"}
    ensures r[Field(f)] == Num(n)
    ensures forall g :: g in form && g != Field(f) && g != "rpn" ==> r[g] == form[g]
    ensures Get(r, "severity") == if f == Severity then Num(n) else Get(form, "severity")
    ensures Get(r, "occurrence") == if f == Occurrence then Num(n) else Get(form, "occurrence")
    ensures Get(r, "detection") == if f == Detection then Num(n) else Get(form, "detection")
    ensures n != 0.0 ==>
      r["rpn"] == CalculateRpn(Effective(r, "severity"), Effective(r, "occurrence"), Effective(r, "detection"))
  {
    var v := Num(n);
    var rpn :=
      match f
      case Severity => CalculateRpn(v, Effective(form, "occurrence"), Effective(form, "detection"))
      case Occurrence => CalculateRpn(Effective(form, "severity"), v, Effective(form, "detection"))
      case Detection => CalculateRpn(Effective(form, "severity"), Effective(form, "occurrence"), v);
    SpreadFactor(form, f, v, rpn);
    Spread(form, map[Field(f) := v, "rpn" := rpn])
  }

  /** `{...form, <factor>: v, rpn}`: the factor and the rpn take the new
      values, every other field keeps its own. */
  lemma SpreadFactor(form: Row, f: Factor, v: Value, rpn: Value)
    ensures var r := Spread(form, map[Field(f) := v, "rpn" := rpn]);
      r.Keys == form.Keys + {Field(f), "rpn"} && r[Field(f)] == v && r["rpn"] == rpn &&
      (forall g :: g in form && g != Field(f) && g != "rpn" ==> r[g] == form[g]) &&
      Get(r, "severity") == (if f == Severity then v else Get(form, "severity")) &&
      Get(r, "occurrence") == (if f == Occurrence then v else Get(form, "occurrence")) &&
      Get(r, "detection") == (if f == Detection then v else Get(form, "detection"))
  {
  }

  /** Three numbers give their product. */
  lemma CalculateRpnOfNumbers(s: real, o: real, d: real)
    ensures CalculateRpn(Num(s), Num(o), Num(d)) == Num(s * o * d)
  {
    TimesThreeOfNumbers(s, o, d);
  }

  /** With all three factors truthy, the page's product of the effective
      factors is the server's rpn for the same form. */
  lemma EffectiveRpnIsServerRpn(r: Row)
    requires Truthy(Get(r, "severity")) && Truthy(Get(r, "occurrence")) && Truthy(Get(r, "detection"))
    ensures CalculateRpn(Effective(r, "severity"), Effective(r, "occurrence"), Effective(r, "detection"))
            == FmeaController.Rpn(r)
  {
    assert Effective(r, "severity") == Get(r, "severity");
    assert Effective(r, "occurrence") == Get(r, "occurrence");
    assert Effective(r, "detection") == Get(r, "detection");
  }

  /** When the other two factors are set, the RPN the page shows after a
      change is the one the server recomputes from the submitted form. */
  lemma ShownRpnIsServerRpn(form: Row, f: Factor, n: real)
    requires n != 0.0
    requires f != Severity ==> Truthy(Get(form, "severity"))
    requires f != Occurrence ==> Truthy(Get(form, "occurrence"))
    requires f != Detection ==> Truthy(Get(form, "detection"))
    ensures var r := FactorChange(form, f, n); r["rpn"] == FmeaController.Rpn(r)
  {
    var r := FactorChange(form, f, n);
    assert Truthy(Num(n));
    EffectiveRpnIsServerRpn(r);
  }

  /** The new-record form holds 1 for every factor. */
  lemma NewFormFactors()
    ensures Get(NewForm, "severity") == Num(1.0) && Get(NewForm, "occurrence") == Num(1.0)
    ensures Get(NewForm, "detection") == Num(1.0)
  {
  }

  /** On a form whose factors are 1, changing one factor gives an RPN equal
      to the chosen value. */
  lemma UnitFormRpnIsTheFactor(form: Row, f: Factor, n: real)
    requires n != 0.0
    requires Get(form, "severity") == Get(form, "occurrence") == Get(form, "detection") == Num(1.0)
    ensures FactorChange(form, f, n)["rpn"] == Num(n)
  {
    assert Truthy(Num(n)) && Truthy(Num(1.0));
    match f
    case Severity => CalculateRpnOfNumbers(n, 1.0, 1.0);
    case Occurrence => CalculateRpnOfNumbers(1.0, n, 1.0);
    case Detection => CalculateRpnOfNumbers(1.0, 1.0, n);
  }

  /** Changing one factor of a new record's form gives an RPN equal to the
      chosen value. */
  lemma NewFormRpnIsTheFactor(f: Factor, n: real)
    requires n != 0.0
    ensures FactorChange(NewForm, f, n)["rpn"] == Num(n)
  {
    NewFormFactors();
    UnitFormRpnIsTheFactor(NewForm, f, n);
  }

  /** The form after a new record's three factors are chosen holds them and
      their product as its rpn, which is also the server's rpn for it. */
  lemma ChosenFactors(s: real, o: real, d: real)
    requires s != 0.0 && o != 0.0 && d != 0.0
    ensures var form := FactorChange(FactorChange(FactorChange(NewForm, Severity, s), Occurrence, o), Detection, d);
      Get(form, "severity") == Num(s) && Get(form, "occurrence") == Num(o) && Get(form, "detection") == Num(d) &&
      form["rpn"] == Num(s * o * d) == FmeaController.Rpn(form)
  {
    var f1 := FactorChange(NewForm, Severity, s);
    var f2 := FactorChange(f1, Occurrence, o);
    var form := FactorChange(f2, Detection, d);
    assert Get(f1, "severity") == Num(s) && Truthy(Num(s));
    assert Get(f2, "severity") == Num(s) && Get(f2, "occurrence") == Num(o) && Truthy(Num(o));
    assert Get(form, "severity") == Num(s) && Get(form, "occurrence") == Num(o) && Get(form, "detection") == Num(d);
    ShownRpnIsServerRpn(f2, Detection, d);
    CalculateRpnOfNumbers(s, o, d);
    assert FmeaController.Rpn(form) == CalculateRpn(Num(s), Num(o), Num(d));
  }

  /** The API call a submit or delete makes. */
  datatype Call = CreateCall(data: Row) | UpdateCall(id: Value, data: Row) | DeleteCall(recordId: string)

  class Page {
    var records: seq<Row>
    var assets: seq<Row>
    var loading: bool
    var error: Option<string>
    var dialogOpen: bool
    var editing: Option<Row>
    var form: Row

    constructor ()
      ensures records == [] && assets == [] && loading && error == None
      ensures !dialogOpen && editing == None && form == NewForm
    {
      records := [];
      assets := [];
      loading := true;
      error := None;
      dialogOpen := false;
      editing := None;
      form := NewForm;
    }

    /** `fetchData`: both lists are replaced on success, and the error is not
        cleared; on failure the error is set and the lists stay. */
    method Fetch(fetched: Result<(seq<Row>, seq<Row>), Failure>)
      modifies this
      ensures !loading
      ensures fetched.Ok? ==> records == fetched.value.0 && assets == fetched.value.1 && error == old(error)
      ensures fetched.Err? ==> records == old(records) && assets == old(assets) && error == Some(LoadError)
      ensures dialogOpen == old(dialogOpen) && editing == old(editing) && form == old(form)
    {
      loading := true;
      if fetched.Ok? {
        records := fetched.value.0;
        assets := fetched.value.1;
      } else {
        error := Some(LoadError);
      }
      loading := false;
    }

    /** `handleOpenDialog(record?)`: editing a record copies it into the form;
        a new record starts from the new-record form. */
    method OpenDialog(record: Option<Row>)
      modifies this
      ensures dialogOpen && editing == record
      ensures form == if record.Some? then record.value else NewForm
      ensures records == old(records) && assets == old(assets) && loading == old(loading) && error == old(error)
    {
      if record.Some? {
        editing := record;
        form := record.value;
      } else {
        editing := None;
        form := NewForm;
      }
      dialogOpen := true;
    }

    /** `handleCloseDialog`: the dialog closes, nothing is being edited and
        the form is emptied. */
    method CloseDialog()
      modifies this
      ensures !dialogOpen && editing == None && form == map[]
      ensures records == old(records) && assets == old(assets) && loading == old(loading) && error == old(error)
    {
      dialogOpen := false;
      editing := None;
      form := map[];
    }

    /** A factor selector's `onChange`. */
    method ChangeFactor(f: Factor, n: real)
      modifies this
      ensures form == FactorChange(old(form), f, n)
      ensures records == old(records) && assets == old(assets) && loading == old(loading) && error == old(error)
      ensures dialogOpen == old(dialogOpen) && editing == old(editing)
    {
      form := FactorChange(form, f, n);
    }

    /** `handleSubmit`: updates the record being edited, or creates one, with
        the form as it stands. On success the dialog closes (the reload that
        follows is a separate `Fetch`); on failure the save error is set and
        the dialog stays as it was. */
    method Submit(outcome: Result<(), Failure>) returns (call: Call)
      modifies this
      ensures call == if old(editing).Some? then UpdateCall(Get(old(editing).value, "id"), old(form))
                      else CreateCall(old(form))
      ensures !loading && records == old(records) && assets == old(assets)
      ensures outcome.Ok? ==> !dialogOpen && editing == None && form == map[] && error == old(error)
      ensures outcome.Err? ==>
        dialogOpen == old(dialogOpen) && editing == old(editing) && form == old(form) && error == Some(SaveError)
    {
      loading := true;
      if editing.Some? {
        call := UpdateCall(Get(editing.value, "id"), form);
      } else {
        call := CreateCall(form);
      }
      if outcome.Ok? {
        CloseDialog();
      } else {
        error := Some(SaveError);
      }
      loading := false;
    }

    /** `handleDelete(id)`: nothing happens unless the user confirms; then the
        record is deleted, and a failure sets the delete error. */
    method Delete(id: string, confirmed: bool, outcome: Result<(), Failure>) returns (call: Option<Call>)
      modifies this
      ensures call.Some? <==> confirmed
      ensures confirmed ==> call == Some(DeleteCall(id)) && !loading
      ensures confirmed ==> error == if outcome.Err? then Some(DeleteError) else old(error)
      ensures !confirmed ==> loading == old(loading) && error == old(error)
      ensures records == old(records) && assets == old(assets)
      ensures dialogOpen == old(dialogOpen) && editing == old(editing) && form == old(form)
    {
      call := None;
      if confirmed {
        loading := true;
        call := Some(DeleteCall(id));
        if outcome.Err? {
          error := Some(DeleteError);
        }
        loading := false;
      }
    }
  }

  /** Opening the dialog for a new record, changing the factors and
      submitting creates a record whose form RPN is the product of the chosen
      factors, the value the server stores. */
  method NewRecordRpn(p: Page, s: real, o: real, d: real) returns (call: Call)
    requires s != 0.0 && o != 0.0 && d != 0.0
    modifies p
    ensures call.CreateCall?
    ensures "rpn" in call.data && call.data["rpn"] == Num(s * o * d) == FmeaController.Rpn(call.data)
  {
    p.OpenDialog(None);
    p.ChangeFactor(Severity, s);
    p.ChangeFactor(Occurrence, o);
    p.ChangeFactor(Detection, d);
    ChosenFactors(s, o, d);
    call := p.Submit(Ok(()));
  }
}
