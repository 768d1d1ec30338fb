/** The FMEA form: its rules (every field required, the three factors between
    1 and 10) and the read-only RPN it shows, the product of the watched
    factors with an unset factor read as 1. */
module FmeaForm {
  import opened Wrappers
  import opened JsValues
  import opened FormRules
  import FmeaController

  /** A factor input: required, `min` 1 and `max` 10. */
  function Factor(field: string): (r: Rule)
    ensures r.field == field && r.required && r.min == Some(1.0) && r.max == Some(10.0)
  {
    Rule(field, true, Some(1.0), Some(10.0))
  }

  /** The form's fields in the order it registers them. */
  const Rules: seq<Rule> := [
    Required("assetId"), Required("status"), Required("failureMode"), Required("effect"), Required("cause"),
    Factor("severity"), Factor("occurrence"), Factor("detection"), Required("action")
  ]

  /** The options of the status select. */
  const StatusOptions: seq<string> := ["open", "in_progress", "closed"]

  /** `watch(name, 1)`: the field's value, or 1 while it is unset. */
  function Watch(form: Row, name: string): (v: Value)
    ensures Get(form, name) != Undefined ==> v == Get(form, name)
    ensures Get(form, name) == Undefined ==> v == Num(1.0)
  {
    if Get(form, name) == Undefined then Num(1.0) else Get(form, name)
  }

  /** The RPN shown beside the factors. */
  function DisplayedRpn(form: Row): (r: Value)
    ensures r.Num? <==>
      ToNumber(Watch(form, "severity")).Some? && ToNumber(Watch(form, "occurrence")).Some? &&
      ToNumber(Watch(form, "detection")).Some?
    ensures r.Num? ==>
      r.n == ToNumber(Watch(form, "severity")).value * ToNumber(Watch(form, "occurrence")).value *
             ToNumber(Watch(form, "detection")).value
  {
    TimesThree(Watch(form, "severity"), Watch(form, "occurrence"), Watch(form, "detection"))
  }

  /** A fresh form shows RPN 1. */
  lemma EmptyFormShowsOne()
    ensures DisplayedRpn(map[]) == Num(1.0)
  {
    var empty: Row := map[];
    assert Watch(empty, "severity") == Watch(empty, "occurrence") == Watch(empty, "detection") == Num(1.0);
    assert ToNumber(Num(1.0)) == Some(1.0);
    assert 1.0 * 1.0 * 1.0 == 1.0;
  }

  /** Once all three factors are set, the form shows the RPN the server stores
      for the same body on create and update. */
  lemma DisplayedRpnIsServerRpn(form: Row)
    requires Get(form, "severity") != Undefined && Get(form, "occurrence") != Undefined
    requires Get(form, "detection") != Undefined
    ensures DisplayedRpn(form) == FmeaController.Rpn(form)
  {
  }

  /** A numeric factor passes its rule exactly when it lies in 1..10, and an
      unset factor never passes. */
  lemma FactorRule(field: string, form: Row)
    ensures Get(form, field).Num? ==>
      (Passes(Factor(field), form) <==> 1.0 <= Get(form, field).n <= 10.0)
    ensures Get(form, field) == Undefined ==> !Passes(Factor(field), form)
  {
  }

  /** A submitted form with numeric factors shows an RPN between 1 and 1000. */
  lemma SubmittedRpnBounds(form: Row)
    requires Submit(Rules, form).Some?
    requires ToNumber(Get(form, "severity")).Some? && ToNumber(Get(form, "occurrence")).Some?
    requires ToNumber(Get(form, "detection")).Some?
    ensures DisplayedRpn(form).Num? && 1.0 <= DisplayedRpn(form).n <= 1000.0
  {
    SubmittedFactors(form);
    FactorsRpnBounds(form);
  }

  /** Numeric factors that pass their rules give an RPN between 1 and 1000. */
  lemma FactorsRpnBounds(form: Row)
    requires Passes(Factor("severity"), form) && Passes(Factor("occurrence"), form)
    requires Passes(Factor("detection"), form)
    requires ToNumber(Get(form, "severity")).Some? && ToNumber(Get(form, "occurrence")).Some?
    requires ToNumber(Get(form, "detection")).Some?
    ensures DisplayedRpn(form).Num? && 1.0 <= DisplayedRpn(form).n <= 1000.0
  {
    var s, o, d := ToNumber(Get(form, "severity")).value, ToNumber(Get(form, "occurrence")).value,
                   ToNumber(Get(form, "detection")).value;
    assert Watch(form, "severity") == Get(form, "severity");
    assert Watch(form, "occurrence") == Get(form, "occurrence");
    assert Watch(form, "detection") == Get(form, "detection");
    MulBounds(s, o, 1.0, 10.0, 1.0, 10.0);
    MulBounds(s * o, d, 1.0, 100.0, 1.0, 10.0);
  }

  /** A submitted form passed the rules of its three factors. */
  lemma SubmittedFactors(form: Row)
    requires Submit(Rules, form).Some?
    ensures Passes(Factor("severity"), form) && Passes(Factor("occurrence"), form)
    ensures Passes(Factor("detection"), form)
  {
    assert Rules[5] == Factor("severity") && Rules[6] == Factor("occurrence") && Rules[7] == Factor("detection");
    assert Passes(Rules[5], form) && Passes(Rules[6], form) && Passes(Rules[7], form);
  }

  /** Every field the form registers is required. */
  lemma EveryFieldRequired()
    ensures RequiredFields(Rules) ==
      {"assetId", "status", "failureMode", "effect", "cause", "severity", "occurrence", "detection", "action"}
  {
    var fs := RequiredFields(Rules);
    assert Rules[0].required && Rules[1].required && Rules[2].required && Rules[3].required;
    assert Rules[4].required && Rules[5].required && Rules[6].required && Rules[7].required && Rules[8].required;
    assert "assetId" in fs && "status" in fs && "failureMode" in fs && "effect" in fs && "cause" in fs;
    assert "severity" in fs && "occurrence" in fs && "detection" in fs && "action" in fs;
  }

  /** The form requires a value for every field the server's create reads
      except `rpn`, which the server computes. */
  lemma FormCoversServerFields()
    ensures RequiredFields(Rules) == FmeaController.FmeaFields
  {
    EveryFieldRequired();
  }
}
