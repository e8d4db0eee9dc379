// A form (EffectorForms/EffectorForm.swift): fields are registered one by
// one, then `build` derives the form-level flags from theirs and gates the
// `submitted` and `validated` events on the form's filter and validity.
// The form's events reach every registered field; the fields' state
// changes are those of `FormFields.Next`.

module Forms {
  import opened Optional
  import opened Validators
  import opened FormFields
  import opened Values
  import LegacyOperators

  /** `EffectorForm.Meta`. */
  datatype Meta = Meta(isValid: bool, isDirty: bool, isTouched: bool)

  /** The field configuration the convenience `register` overloads build:
      validation on submit only. */
  function FieldConfig<T, W>(name: string, initial: T, rules: seq<Rule<T, W>>): (cfg: Config<T, W>)
    ensures cfg.validateOn == {OnSubmit} && cfg.rules == rules && cfg.initial == initial && cfg.name == name
  {
    Config(name, initial, rules, {OnSubmit})
  }

  /** The rules of `register(name, keyPath, initialValue, rule)`: the one
      validator, named after the field, if any. */
  function SingleRule<T, W>(name: string, rule: Option<(T, W) -> Option<string>>): (rules: seq<Rule<T, W>>)
    ensures rule.None? <==> rules == []
    ensures rule.Some? ==> rules == [Rule(name, rule.value)]
  {
    if rule.Some? then [Rule(name, rule.value)] else []
  }

  class Form<T(==), W> {
    const validateOn: set<Trigger>
    /** The registered fields, in order: `isValidFlags`, `isDirtyFlags`,
        `isTouchedFlags` and `valuesStores` hold one entry per field. */
    var fields: seq<Config<T, W>>
    /** The fields whose validation `build` still has to wire. */
    var validationBindings: seq<Config<T, W>>
    /** How many times `build` has run: each run wires the flags, the
        pending validations and the `submitted`/`validated` chains again. */
    var builds: nat

    /** `EffectorForm.init`. */
    constructor (validateOn: set<Trigger>)
      ensures this.validateOn == validateOn && fields == [] && validationBindings == [] && builds == 0
    {
      this.validateOn := validateOn;
      fields := [];
      validationBindings := [];
      builds := 0;
    }

    /** `register(field)`: the field's flags and value store are appended
        in registration order, and its validation is left for `build`. */
    method Register(cfg: Config<T, W>)
      modifies this
      ensures fields == old(fields) + [cfg]
      ensures validationBindings == old(validationBindings) + [cfg]
      ensures builds == old(builds)
    {
      fields := fields + [cfg];
      validationBindings := validationBindings + [cfg];
    }

    /** `register(name, keyPath, initialValue, rules)`. */
    method RegisterRules(name: string, initial: T, rules: seq<Rule<T, W>>)
      modifies this
      ensures fields == old(fields) + [FieldConfig(name, initial, rules)]
      ensures validationBindings == old(validationBindings) + [FieldConfig(name, initial, rules)]
      ensures builds == old(builds)
    {
      Register(FieldConfig(name, initial, rules));
    }

    /** `register(name, keyPath, initialValue, rule)`. */
    method RegisterRule(name: string, initial: T, rule: Option<(T, W) -> Option<string>>)
      modifies this
      ensures fields == old(fields) + [FieldConfig(name, initial, SingleRule(name, rule))]
      ensures validationBindings == old(validationBindings) + [FieldConfig(name, initial, SingleRule(name, rule))]
      ensures builds == old(builds)
    {
      Register(FieldConfig(name, initial, SingleRule(name, rule)));
    }

    /** `build`: every pending validation is wired and the list emptied. */
    method Build()
      modifies this
      ensures builds == old(builds) + 1 && validationBindings == [] && fields == old(fields)
    {
      validationBindings := [];
      builds := builds + 1;
    }

    /** An event sent to a form built once, with every registered field's
        validation wired: the fields' new states and what `submitted` and
        `validated` carry are those of `Step`. */
    method Send(env: Env<T, W>, states: seq<FieldState<T>>, e: FormEvent<T, W>) returns (r: Result<T, W>)
      requires builds == 1 && validationBindings == [] && |states| == |fields|
      requires e.Field? ==> e.index < |states| && !FormLevel(e.event)
      ensures |r.states| == |states|
      ensures r == Step(fields, validateOn, env, states, e)
    {
      r := Step(fields, validateOn, env, states, e);
    }
  }

  // The form-level flags, from the fields' states.

  function IsTrue(v: Value): bool {
    v == Flag(true)
  }

  function ValidFlags<T>(states: seq<FieldState<T>>): (r: seq<Value>)
    ensures |r| == |states| && forall i :: 0 <= i < |states| ==> r[i] == Flag(IsValid(states[i].errors))
  {
    seq(|states|, i requires 0 <= i < |states| => Flag(IsValid(states[i].errors)))
  }

  function DirtyFlags<T(==), W>(fields: seq<Config<T, W>>, states: seq<FieldState<T>>): (r: seq<Value>)
    requires |fields| == |states|
    ensures |r| == |states| && forall i :: 0 <= i < |states| ==> r[i] == Flag(IsDirty(states[i].value, fields[i].initial))
  {
    seq(|states|, i requires 0 <= i < |states| => Flag(IsDirty(states[i].value, fields[i].initial)))
  }

  function TouchedFlags<T>(states: seq<FieldState<T>>): (r: seq<Value>)
    ensures |r| == |states| && forall i :: 0 <= i < |states| ==> r[i] == Flag(states[i].isTouched)
  {
    seq(|states|, i requires 0 <= i < |states| => Flag(states[i].isTouched))
  }

  /** `isValid = allSatisfy(isValidFlags) { $0 }`, `isDirty` and
      `isTouched` by `contains`, and `meta` combining the three. */
  function FormMeta<T(==), W>(fields: seq<Config<T, W>>, states: seq<FieldState<T>>): Meta
    requires |fields| == |states|
  {
    Meta(LegacyOperators.Every(IsTrue, ValidFlags(states)),
         LegacyOperators.Any(IsTrue, DirtyFlags(fields, states)),
         LegacyOperators.Any(IsTrue, TouchedFlags(states)))
  }

  /** The form is valid exactly when every field has no errors, dirty when
      some field's value differs from its initial one, touched when some
      field is touched. */
  lemma MetaMeans<T, W>(fields: seq<Config<T, W>>, states: seq<FieldState<T>>)
    requires |fields| == |states|
    ensures var m := FormMeta(fields, states);
            (m.isValid <==> forall i :: 0 <= i < |states| ==> states[i].errors == [])
            && (m.isDirty <==> exists i :: 0 <= i < |states| && states[i].value != fields[i].initial)
            && (m.isTouched <==> exists i :: 0 <= i < |states| && states[i].isTouched)
  {
    var m := FormMeta(fields, states);
    if m.isValid {
      forall i | 0 <= i < |states| ensures states[i].errors == [] {
        assert IsTrue(ValidFlags(states)[i]);
      }
    }
    if m.isDirty {
      var i :| 0 <= i < |states| && IsTrue(DirtyFlags(fields, states)[i]);
    }
    if exists i :: 0 <= i < |states| && states[i].value != fields[i].initial {
      var i :| 0 <= i < |states| && states[i].value != fields[i].initial;
      assert IsTrue(DirtyFlags(fields, states)[i]);
    }
    if m.isTouched {
      var i :| 0 <= i < |states| && IsTrue(TouchedFlags(states)[i]);
    }
    if exists i :: 0 <= i < |states| && states[i].isTouched {
      var i :| 0 <= i < |states| && states[i].isTouched;
      assert IsTrue(TouchedFlags(states)[i]);
    }
  }

  // The events of a built form.

  datatype FormEvent<T, W> =
    | Submit | ValidateForm | ResetForm | SetForm(values: W) | ResetFormTouched | ResetValues | ResetFormErrors
    | Field(index: nat, event: FieldEvent<T, W>)

  /** What the field sees of a form event: a form-level event. A field
      event carries only the field's own events. */
  function Lift<T, W>(e: FormEvent<T, W>): (r: FieldEvent<T, W>)
    requires !e.Field?
    ensures FormLevel(r)
  {
    match e
    case Submit => FormSubmit
    case ValidateForm => FormValidate
    case ResetForm => FormReset
    case SetForm(w) => FormSet(w)
    case ResetFormTouched => FormResetTouched
    case ResetValues => FormResetValues
    case ResetFormErrors => FormResetErrors
  }

  /** The surroundings of an event: the form's values as the validations
      and samples read them, the form's filter, each field's filter, and
      how `setForm`'s values give each field's value. */
  datatype Env<T, !W> = Env(values: W, formFilter: bool, fieldFilter: nat -> bool, pick: nat -> W -> Option<T>)

  /** The fields' new states, and what `submitted` and `validated` carry
      (nothing when they do not fire). */
  datatype Result<T, W> = Result(states: seq<FieldState<T>>, submitted: Option<W>, validated: Option<W>)

  /** A form event reaches every registered field. */
  function Broadcast<T, W>(fields: seq<Config<T, W>>, formOn: set<Trigger>, env: Env<T, W>,
                           states: seq<FieldState<T>>, fe: FieldEvent<T, W>): (r: seq<FieldState<T>>)
    requires |fields| == |states|
    ensures |r| == |states|
    ensures forall i :: 0 <= i < |states| ==>
              r[i] == Next(fields[i], formOn, env.fieldFilter(i), env.values, env.pick(i), states[i], fe)
  {
    seq(|states|, i requires 0 <= i < |states| =>
        Next(fields[i], formOn, env.fieldFilter(i), env.values, env.pick(i), states[i], fe))
  }

  /** A form event reaches every field; a field event only its field. The
      validations of `submit` and `validate` run before the samples that
      read the form's validity (they are lower in the queue), so
      `submitted` and `validated` see the validated fields. */
  function Step<T(==), W>(fields: seq<Config<T, W>>, formOn: set<Trigger>, env: Env<T, W>,
                          states: seq<FieldState<T>>, e: FormEvent<T, W>): (r: Result<T, W>)
    requires |fields| == |states|
    requires e.Field? ==> e.index < |states| && !FormLevel(e.event)
    ensures |r.states| == |states|
  {
    if e.Field? then
      var i := e.index;
      Result(states[i := Next(fields[i], formOn, env.fieldFilter(i), env.values, env.pick(i), states[i], e.event)], None, None)
    else
      var next := Broadcast(fields, formOn, env, states, Lift(e));
      var isOk := env.formFilter && FormMeta(fields, next).isValid;
      Result(next,
             if e.Submit? && isOk then Some(env.values) else None,
             if e.ValidateForm? && isOk then Some(env.values) else None)
  }

  /** Every rule of every field passes on the field's value. */
  ghost predicate AllRulesPass<T, W>(fields: seq<Config<T, W>>, states: seq<FieldState<T>>, values: W)
    requires |fields| == |states|
  {
    forall i, k :: 0 <= i < |states| && 0 <= k < |fields[i].rules| ==> fields[i].rules[k].validator(states[i].value, values).None?
  }

  /** The fields after a validation are all valid exactly when every rule
      passes. */
  lemma ValidatedAllValid<T, W>(fields: seq<Config<T, W>>, states: seq<FieldState<T>>, next: seq<FieldState<T>>, values: W)
    requires |fields| == |states| == |next|
    requires forall i :: 0 <= i < |states| ==> next[i].errors == ValidationErrors(fields[i].rules, states[i].value, values)
    ensures (forall i :: 0 <= i < |states| ==> next[i].errors == []) <==> AllRulesPass(fields, states, values)
  {
    forall i | 0 <= i < |states| {
      NoErrorsIffAllPass(fields[i].rules, states[i].value, values);
    }
  }

  /** `submitted` fires on submit exactly when the filter is on and every
      field is valid after the submit's validation, and carries the form's
      values; when the form validates on submit that is exactly when every
      rule of every field passes. */
  lemma SubmitGate<T, W>(fields: seq<Config<T, W>>, formOn: set<Trigger>, env: Env<T, W>, states: seq<FieldState<T>>)
    requires |fields| == |states|
    ensures var r := Step(fields, formOn, env, states, Submit);
            (r.submitted.Some? <==> env.formFilter && forall i :: 0 <= i < |states| ==> r.states[i].errors == [])
            && (r.submitted.Some? ==> r.submitted.value == env.values) && r.validated.None?
    ensures OnSubmit in formOn ==>
            (Step(fields, formOn, env, states, Submit).submitted.Some? <==> env.formFilter && AllRulesPass(fields, states, env.values))
  {
    SubmitFires(fields, formOn, env, states);
    if OnSubmit in formOn {
      ValidatedAllValid(fields, states, Broadcast(fields, formOn, env, states, FormSubmit), env.values);
    }
  }

  /** The submit's field states are the broadcast ones, and `submitted`
      fires exactly when the filter is on and they have no errors. */
  lemma SubmitFires<T, W>(fields: seq<Config<T, W>>, formOn: set<Trigger>, env: Env<T, W>, states: seq<FieldState<T>>)
    requires |fields| == |states|
    ensures var r := Step(fields, formOn, env, states, Submit);
            r.states == Broadcast(fields, formOn, env, states, FormSubmit)
            && (r.submitted.Some? <==> env.formFilter && forall i :: 0 <= i < |states| ==> r.states[i].errors == [])
            && (r.submitted.Some? ==> r.submitted.value == env.values) && r.validated.None?
  {
    var next := Broadcast(fields, formOn, env, states, FormSubmit);
    var isOk := env.formFilter && FormMeta(fields, next).isValid;
    assert Step(fields, formOn, env, states, Submit) == Result(next, if isOk then Some(env.values) else None, None);
    MetaMeans(fields, next);
  }

  /** `validated` fires on validate exactly when the filter is on and every
      rule of every field passes: `validate` always validates. */
  lemma ValidateGate<T, W>(fields: seq<Config<T, W>>, formOn: set<Trigger>, env: Env<T, W>, states: seq<FieldState<T>>)
    requires |fields| == |states|
    ensures var r := Step(fields, formOn, env, states, ValidateForm);
            (r.validated.Some? <==> env.formFilter && AllRulesPass(fields, states, env.values))
            && (r.validated.Some? ==> r.validated.value == env.values) && r.submitted.None?
  {
    ValidateFires(fields, formOn, env, states);
    ValidatedAllValid(fields, states, Broadcast(fields, formOn, env, states, FormValidate), env.values);
  }

  /** The validate's field states are the broadcast ones, and `validated`
      fires exactly when the filter is on and they have no errors. */
  lemma ValidateFires<T, W>(fields: seq<Config<T, W>>, formOn: set<Trigger>, env: Env<T, W>, states: seq<FieldState<T>>)
    requires |fields| == |states|
    ensures var r := Step(fields, formOn, env, states, ValidateForm);
            r.states == Broadcast(fields, formOn, env, states, FormValidate)
            && (r.validated.Some? <==> env.formFilter && forall i :: 0 <= i < |states| ==> r.states[i].errors == [])
            && (r.validated.Some? ==> r.validated.value == env.values) && r.submitted.None?
  {
    var next := Broadcast(fields, formOn, env, states, FormValidate);
    var isOk := env.formFilter && FormMeta(fields, next).isValid;
    assert Step(fields, formOn, env, states, ValidateForm) == Result(next, None, if isOk then Some(env.values) else None);
    MetaMeans(fields, next);
  }

  /** After `resetForm` every field is back to its initial state, so the
      form is valid, clean and untouched. */
  lemma ResetFormRestores<T, W>(fields: seq<Config<T, W>>, formOn: set<Trigger>, env: Env<T, W>, states: seq<FieldState<T>>)
    requires |fields| == |states|
    ensures var r := Step(fields, formOn, env, states, ResetForm);
            (forall i :: 0 <= i < |states| ==> r.states[i] == Initial(fields[i]))
            && FormMeta(fields, r.states) == Meta(true, false, false)
  {
    var next := Broadcast(fields, formOn, env, states, FormReset);
    assert Step(fields, formOn, env, states, ResetForm).states == next;
    forall i | 0 <= i < |states| ensures next[i] == Initial(fields[i]) { }
    InitialMeta(fields, next);
  }

  /** Fields all at their initial state are valid, clean and untouched. */
  lemma InitialMeta<T, W>(fields: seq<Config<T, W>>, states: seq<FieldState<T>>)
    requires |fields| == |states|
    requires forall i :: 0 <= i < |states| ==> states[i] == Initial(fields[i])
    ensures FormMeta(fields, states) == Meta(true, false, false)
  {
    MetaMeans(fields, states);
  }

  /** A field's event leaves the other fields as they were. */
  lemma FieldEventIsLocal<T, W>(fields: seq<Config<T, W>>, formOn: set<Trigger>, env: Env<T, W>,
                                    states: seq<FieldState<T>>, k: nat, e: FieldEvent<T, W>)
    requires |fields| == |states| && k < |states| && !FormLevel(e)
    ensures var r := Step(fields, formOn, env, states, Field(k, e));
            (forall i :: 0 <= i < |states| && i != k ==> r.states[i] == states[i])
            && r.submitted.None? && r.validated.None?
  {
  }
}
