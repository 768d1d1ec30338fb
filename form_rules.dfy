/** The validation the three react-hook-form forms declare through `register`:
    a field may be `required` and, for number inputs, carry a `min` and a
    `max`. `handleSubmit` calls the form's `onSubmit` only when no field has
    an error. */
module FormRules {
  import opened Wrappers
  import opened JsValues
  import opened Seqs

  /** The options of one `register(field, { required, min, max })`. */
  datatype Rule = Rule(field: string, required: bool, min: Option<real>, max: Option<real>)

  /** `register(field, { required: … })`. */
  function Required(field: string): (r: Rule)
    ensures r.field == field && r.required && r.min.None? && r.max.None?
  {
    Rule(field, true, None, None)
  }

  /** What `required` rejects: an unset field, null or the empty string. */
  predicate Empty(v: Value) {
    v == Undefined || v == Null || v == Str("")
  }

  /** `min` and `max` compare the value as a number; a value that does not
      convert (NaN) violates neither bound. */
  predicate BelowMin(v: Value, m: real) {
    ToNumber(v).Some? && ToNumber(v).value < m
  }

  predicate AboveMax(v: Value, m: real) {
    ToNumber(v).Some? && ToNumber(v).value > m
  }

  /** The field satisfies every option of its rule. */
  predicate Passes(r: Rule, form: Row) {
    var v := Get(form, r.field);
    (r.required ==> !Empty(v)) &&
    (r.min.Some? ==> !BelowMin(v, r.min.value)) &&
    (r.max.Some? ==> !AboveMax(v, r.max.value))
  }

  /** The fields with an error (the keys of `formState.errors`), in the order
      the form registers them. */
  function Errors(rules: seq<Rule>, form: Row): (r: seq<string>)
    ensures |r| <= |rules|
    ensures forall f :: f in r <==> exists i :: 0 <= i < |rules| && rules[i].field == f && !Passes(rules[i], form)
    decreases |rules|
  {
    if rules == [] then []
    else
      var rest := Errors(rules[1..], form);
      assert forall i :: 1 <= i < |rules| ==> rules[i] == rules[1..][i - 1];
      (if Passes(rules[0], form) then [] else [rules[0].field]) + rest
  }

  /** `handleSubmit(onSubmit)`: the form's values reach `onSubmit` exactly when
      every rule passes. */
  function Submit(rules: seq<Rule>, form: Row): (r: Option<Row>)
    ensures r.Some? <==> forall i :: 0 <= i < |rules| ==> Passes(rules[i], form)
    ensures r.Some? ==> r.value == form
  {
    var errors := Errors(rules, form);
    assert forall i :: 0 <= i < |rules| && !Passes(rules[i], form) ==> rules[i].field in errors;
    if errors == [] then Some(form)
    else
      assert errors[0] in errors;
      None
  }

  /** The fields a rule set marks `required`. */
  function RequiredFields(rules: seq<Rule>): (fs: set<string>)
    ensures forall f :: f in fs <==> exists i :: 0 <= i < |rules| && rules[i].required && rules[i].field == f
  {
    set i | 0 <= i < |rules| && rules[i].required :: rules[i].field
  }

  /** A field no rule mentions has no influence on the errors. */
  lemma {:induction false} UnruledFieldIgnored(rules: seq<Rule>, form: Row, f: string, v: Value)
    requires forall i :: 0 <= i < |rules| ==> rules[i].field != f
    ensures Errors(rules, form[f := v]) == Errors(rules, form)
    decreases |rules|
  {
    if rules != [] {
      UnruledFieldIgnored(rules[1..], form, f, v);
      assert Get(form[f := v], rules[0].field) == Get(form, rules[0].field);
    }
  }

  /** Bounds on a product of two non-negative factors. */
  lemma MulBounds(a: real, b: real, lo: real, hi: real, lo': real, hi': real)
    requires 0.0 <= lo <= a <= hi && 0.0 <= lo' <= b <= hi'
    ensures lo * lo' <= a * b <= hi * hi'
  {
    assert a * b - lo * lo' == a * (b - lo') + lo' * (a - lo);
    assert hi * hi' - a * b == hi * (hi' - b) + b * (hi - a);
  }
}
