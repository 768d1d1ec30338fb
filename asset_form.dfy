/** The asset form: eleven required fields, an estimated life of at least 1
    and a cost of at least 0, and the four status options. The form requires
    the same fields as the create endpoint, but it judges them by emptiness
    where the endpoint judges them by truthiness. */
module AssetForm {
  import opened Wrappers
  import opened JsValues
  import opened FormRules
  import AssetController
  import Dashboard
  import Seqs

  /** The form's fields in the order it registers them. */
  const Rules: seq<Rule> := [
    Required("code"), Required("name"), Required("manufacturer"), Required("model"), Required("type"),
    Required("location"), Required("acquisitionDate"),
    Rule("estimatedLife", true, Some(1.0), None),
    Rule("cost", true, Some(0.0), None),
    Required("serialNumber"), Required("status")
  ]

  /** The options of the status select. */
  const StatusOptions: seq<string> := ["active", "inactive", "maintenance", "retired"]

  /** The form requires exactly the fields the create endpoint requires. */
  lemma SameRequiredFields()
    ensures forall f :: f in RequiredFields(Rules) <==> f in AssetController.RequiredFields
  {
    var fs := RequiredFields(Rules);
    forall i | 0 <= i < |Rules|
      ensures Rules[i].required && Rules[i].field == AssetController.RequiredFields[i]
    {
    }
    forall f | f in AssetController.RequiredFields
      ensures f in fs
    {
      var i :| 0 <= i < |AssetController.RequiredFields| && AssetController.RequiredFields[i] == f;
      assert Rules[i].required && Rules[i].field == f;
    }
  }

  /** A cost of 0 passes the form, yet the endpoint reports it missing. The
      number 0 reaches the form only through its default values (the asset
      being edited, `initialData`): an input registered without
      `valueAsNumber` yields a string. */
  lemma ZeroCostPassesFormOnly(form: Row)
    requires Get(form, "cost") == Num(0.0)
    ensures Passes(Rules[8], form) && Rules[8].field == "cost"
    ensures "cost" in AssetController.MissingFields(form)
  {
    AssetController.ZeroIsMissing(form, "cost");
  }

  /** An estimated life of 0 fails the form, as it fails the endpoint. As
      for the cost, the number 0 comes from the form's default values. */
  lemma ZeroLifeFailsBoth(form: Row)
    requires Get(form, "estimatedLife") == Num(0.0)
    ensures Submit(Rules, form).None?
    ensures "estimatedLife" in AssetController.MissingFields(form)
  {
    var life := Rules[7];
    assert life == Rule("estimatedLife", true, Some(1.0), None);
    assert !Passes(life, form);
    AssetController.ZeroIsMissing(form, "estimatedLife");
  }

  /** What the form lets through and the endpoint still rejects: a required
      field holding 0, false or NaN, values that are not empty but falsy. */
  lemma SubmittedFormMissing(form: Row, f: string)
    requires Submit(Rules, form).Some?
    requires f in AssetController.MissingFields(form)
    ensures Get(form, f) in {Num(0.0), Bool(false), NaN}
  {
    SameRequiredFields();
    AssetController.MissingFieldsMembers(form);
    var i :| 0 <= i < |Rules| && Rules[i].required && Rules[i].field == f;
    var v := Get(form, f);
    assert !Empty(v) by { assert Passes(Rules[i], form); }
    assert !Truthy(v);
    NotEmptyButFalsy(v);
  }

  /** The values that are not empty for `required` and still falsy. */
  lemma NotEmptyButFalsy(v: Value)
    requires !Empty(v) && !Truthy(v)
    ensures v in {Num(0.0), Bool(false), NaN}
  {
  }

  /** None of the form's statuses is one the dashboard counts: an asset entered
      through the form is neither "ACTIVE" nor "MAINTENANCE" there. */
  lemma DashboardIgnoresFormStatuses(assets: seq<Dashboard.AssetView>)
    requires forall a :: a in assets ==> a.status in StatusOptions
    ensures Seqs.Count(assets, Dashboard.IsActive) == 0
    ensures Seqs.Count(assets, Dashboard.InMaintenance) == 0
  {
    Seqs.FilterKeepsNone(assets, Dashboard.IsActive);
    Seqs.FilterKeepsNone(assets, Dashboard.InMaintenance);
  }
}
