/** The maintenance form: nine required fields, a cost of at least 0, the
    optional failure details and solution, and the type and status options. */
module MaintenanceForm {
  import opened Wrappers
  import opened JsValues
  import opened FormRules
  import AssetMetrics

  /** The form's fields in the order it registers them; `failureDetails` and
      `solution` are registered without options. */
  const Rules: seq<Rule> := [
    Required("assetId"), Required("type"), Required("description"),
    Rule("cost", true, Some(0.0), None),
    Required("date"), Required("status"), Required("responsible"), Required("deadline"), Required("materials")
  ]

  const TypeOptions: seq<string> := ["preventive", "corrective", "predictive"]
  const StatusOptions: seq<string> := ["scheduled", "in_progress", "completed", "cancelled"]

  /** The optional fields never stop a submission: changing one changes no
      error. */
  lemma OptionalFieldsIgnored(form: Row, f: string, v: Value)
    requires f == "failureDetails" || f == "solution"
    ensures Errors(Rules, form[f := v]) == Errors(Rules, form)
    ensures Submit(Rules, form[f := v]).Some? <==> Submit(Rules, form).Some?
  {
    OptionalFieldsUnruled(f);
    UnruledFieldIgnored(Rules, form, f, v);
  }

  /** No rule names `failureDetails` or `solution`. */
  lemma OptionalFieldsUnruled(f: string)
    requires f == "failureDetails" || f == "solution"
    ensures forall i :: 0 <= i < |Rules| ==> Rules[i].field != f
  {
    forall i | 0 <= i < |Rules|
      ensures Rules[i].field != f
    {
      assert Rules[i].field in
        {"assetId", "type", "description", "cost", "date", "status", "responsible", "deadline", "materials"};
    }
  }

  /** A numeric cost passes exactly when it is not negative; an unset cost
      fails. */
  lemma CostRule(form: Row)
    ensures Get(form, "cost").Num? ==> (Passes(Rules[3], form) <==> Get(form, "cost").n >= 0.0)
    ensures Get(form, "cost") == Undefined ==> !Passes(Rules[3], form)
  {
  }

  /** Every field the form registers with options is required. */
  lemma RequiredOfForm()
    ensures RequiredFields(Rules) ==
      {"assetId", "type", "description", "cost", "date", "status", "responsible", "deadline", "materials"}
  {
    var fs := RequiredFields(Rules);
    assert Rules[0].required && Rules[1].required && Rules[2].required && Rules[3].required;
    assert Rules[4].required && Rules[5].required && Rules[6].required && Rules[7].required && Rules[8].required;
    assert "assetId" in fs && "type" in fs && "description" in fs && "cost" in fs && "date" in fs;
    assert "status" in fs && "responsible" in fs && "deadline" in fs && "materials" in fs;
  }

  /** No type the form offers is the one the metrics engine counts as a
      failure ("corretiva"), so a history entered through the form has no
      failures and, with two or more records, the no-failure metrics. */
  lemma FormHistoriesNeverFail(h: seq<AssetMetrics.Entry>)
    requires |h| >= 2
    requires forall k :: 0 <= k < |h| ==> h[k].kind in TypeOptions
    ensures AssetMetrics.MetricsOf(h) == AssetMetrics.Metrics(0.0, 0.0, 0.855, 1.0, 0.9, 0.95)
  {
    forall k | 1 <= k < |h|
      ensures !AssetMetrics.IsFailure(h[k])
    {
      assert h[k].kind in TypeOptions;
    }
    AssetMetrics.NoFailureMetrics(h);
  }
}
