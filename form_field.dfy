// A form field (EffectorForms/EffectorFormField.swift): its value, its
// validation errors and its touched flag, with the flags derived from them
// (first error, valid, dirty), and how each event of the field and of its
// form changes them. The graph `bindChangeEvent` and `bindValidation` wire
// is described by the change it makes to the field's state; the rule
// folding `combineValidationRules` performs is a loop.

module FormFields {
  import opened Optional
  import opened Validators
  import Equality

  /** `ValidationError`: the failing rule's name, the value, the text. */
  datatype ValidationError<T> = ValidationError(rule: string, value: T, errorText: Option<string>)

  /** The errors `rules` give for `value`: one per failing rule, in rule
      order, with the rule's name, the value and the rule's text. */
  function ValidationErrors<T, W>(rules: seq<Rule<T, W>>, value: T, values: W): (r: seq<ValidationError<T>>)
    ensures |r| <= |rules|
    decreases |rules|
  {
    if rules == [] then []
    else
      var rest := ValidationErrors(rules[..|rules| - 1], value, values);
      var last := rules[|rules| - 1];
      match last.validator(value, values)
      case Some(text) => rest + [ValidationError(last.name, value, Some(text))]
      case None => rest
  }

  /** The validator `combineValidationRules(rules)` returns, applied to a
      value and the form's values. */
  method CombineValidationRules<T, W>(rules: seq<Rule<T, W>>, value: T, values: W) returns (errors: seq<ValidationError<T>>)
    ensures errors == ValidationErrors(rules, value, values)
  {
    errors := [];
    var i := 0;
    while i < |rules|
      invariant 0 <= i <= |rules|
      invariant errors == ValidationErrors(rules[..i], value, values)
    {
      var rule := rules[i];
      var answer := rule.validator(value, values);
      if answer.Some? {
        errors := errors + [ValidationError(rule.name, value, answer)];
      }
      assert rules[..i + 1][..i] == rules[..i];
      i := i + 1;
    }
    assert rules[..i] == rules;
  }

  /** There are no errors exactly when every rule passes (so in particular
      for no rules). */
  lemma {:induction false} NoErrorsIffAllPass<T, W>(rules: seq<Rule<T, W>>, value: T, values: W)
    ensures ValidationErrors(rules, value, values) == [] <==> forall i :: 0 <= i < |rules| ==> rules[i].validator(value, values).None?
    decreases |rules|
  {
    if rules != [] {
      var init := rules[..|rules| - 1];
      NoErrorsIffAllPass(init, value, values);
      assert forall i :: 0 <= i < |init| ==> init[i] == rules[i];
    }
  }

  /** The first error comes from the first failing rule, every rule before
      it passing. */
  lemma {:induction false} FirstErrorIsFirstFailure<T, W>(rules: seq<Rule<T, W>>, value: T, values: W)
    requires ValidationErrors(rules, value, values) != []
    ensures exists k :: 0 <= k < |rules| && rules[k].validator(value, values).Some?
              && (forall i :: 0 <= i < k ==> rules[i].validator(value, values).None?)
              && ValidationErrors(rules, value, values)[0]
                 == ValidationError(rules[k].name, value, rules[k].validator(value, values))
    decreases |rules|
  {
    var init := rules[..|rules| - 1];
    var last := rules[|rules| - 1];
    assert forall i :: 0 <= i < |init| ==> init[i] == rules[i];
    if ValidationErrors(init, value, values) != [] {
      FirstErrorIsFirstFailure(init, value, values);
      var k :| 0 <= k < |init| && init[k].validator(value, values).Some?
               && (forall i :: 0 <= i < k ==> init[i].validator(value, values).None?)
               && ValidationErrors(init, value, values)[0]
                  == ValidationError(init[k].name, value, init[k].validator(value, values));
      assert rules[k] == init[k];
    } else {
      NoErrorsIffAllPass(init, value, values);
      assert ValidationErrors(rules, value, values)[0]
             == ValidationError(last.name, value, last.validator(value, values));
      assert forall i :: 0 <= i < |rules| - 1 ==> rules[i].validator(value, values).None?;
    }
  }

  /** `firstError`: nil for no errors, else the first one. */
  function FirstError<T>(errors: seq<ValidationError<T>>): (r: Option<ValidationError<T>>)
    ensures r.None? <==> errors == []
    ensures r.Some? ==> r.value == errors[0]
  {
    if errors == [] then None else Some(errors[0])
  }

  /** `isValid`: there is no first error. */
  function IsValid<T>(errors: seq<ValidationError<T>>): (r: bool)
    ensures r <==> errors == []
  {
    FirstError(errors).None?
  }

  /** `isDirty`: the value differs from the initial one by the Equatable
      `areEqual`. */
  function IsDirty<T(==)>(value: T, initial: T): (r: bool)
    ensures r <==> value != initial
  {
    !Equality.Equatable(value, initial)
  }

  /** `EffectorFormFieldConfig`: the name, the initial value, the rules and
      the events that validate the field. */
  datatype Config<!T, !W> = Config(name: string, initial: T, rules: seq<Rule<T, W>>, validateOn: set<Trigger>)

  /** The field's own state: the value, errors and isTouched stores. */
  datatype FieldState<T> = FieldState(value: T, errors: seq<ValidationError<T>>, isTouched: bool)

  /** `FieldData`: the `field` store combining the state and its flags. */
  datatype FieldData<T> = FieldData(value: T, errors: seq<ValidationError<T>>, firstError: Option<ValidationError<T>>,
                                    isValid: bool, isDirty: bool, isTouched: bool)

  /** `EffectorFormField.init`: the initial value, no errors, untouched. */
  function Initial<T, W>(cfg: Config<T, W>): FieldState<T> {
    FieldState(cfg.initial, [], false)
  }

  function Data<T(==), W>(cfg: Config<T, W>, s: FieldState<T>): FieldData<T> {
    FieldData(s.value, s.errors, FirstError(s.errors), IsValid(s.errors), IsDirty(s.value, cfg.initial), s.isTouched)
  }

  /** A new field is valid, clean and untouched. */
  lemma InitialFlags<T, W>(cfg: Config<T, W>)
    ensures var d := Data(cfg, Initial(cfg));
            d.firstError.None? && d.isValid && !d.isDirty && !d.isTouched && d.value == cfg.initial
  {
  }

  /** The events of a field, and those of its form that reach it. */
  datatype FieldEvent<T, W> =
    | Change(v: T) | Blur | AddError(rule: string, errorText: Option<string>) | Validate | Reset | SetValue(v: T)
    | ResetErrors | ResetTouched | ResetValue
    | FormSubmit | FormValidate | FormReset | FormSet(values: W) | FormResetTouched | FormResetValues | FormResetErrors

  /** The events that come from the form rather than from the field. */
  predicate FormLevel<T, W>(e: FieldEvent<T, W>) {
    e.FormSubmit? || e.FormValidate? || e.FormReset? || e.FormSet? || e.FormResetTouched?
    || e.FormResetValues? || e.FormResetErrors?
  }

  /** The triggers that validate the field: the form's and the field's. */
  function Triggers<T, W>(cfg: Config<T, W>, formOn: set<Trigger>): set<Trigger> {
    formOn + cfg.validateOn
  }

  /** A value reaching `changed`: the value takes it and the field is
      touched; the errors are recomputed when the field validates on
      change, and cleared otherwise. */
  function Changed<T, W>(cfg: Config<T, W>, formOn: set<Trigger>, values: W, s: FieldState<T>, v: T): FieldState<T> {
    FieldState(v, if OnChange in Triggers(cfg, formOn) then ValidationErrors(cfg.rules, v, values) else [], true)
  }

  /** The value going back to the initial one by `resetValue` or the
      form's `resetValues`: the change trigger sees it too. */
  function ValueReset<T, W>(cfg: Config<T, W>, formOn: set<Trigger>, values: W, s: FieldState<T>): FieldState<T> {
    s.(value := cfg.initial,
       errors := if OnChange in Triggers(cfg, formOn) then ValidationErrors(cfg.rules, cfg.initial, values) else s.errors)
  }

  /** The field's state after an event. `filter` is the field's filter
      store, `values` the form's values when the event's validation reads
      them, and `pick` finds the field's value in the values `setForm`
      carries. */
  function Next<T, W>(cfg: Config<T, W>, formOn: set<Trigger>, filter: bool, values: W, pick: W -> Option<T>,
                      s: FieldState<T>, e: FieldEvent<T, W>): FieldState<T>
  {
    var validated := s.(errors := ValidationErrors(cfg.rules, s.value, values));
    match e
    case Change(v) => if filter then Changed(cfg, formOn, values, s, v) else s
    case Blur => if OnBlur in Triggers(cfg, formOn) then validated else s
    case AddError(rule, text) => s.(errors := s.errors + [ValidationError(rule, s.value, text)])
    case Validate => validated
    case Reset => Initial(cfg)
    case SetValue(_) => s
    case ResetErrors => s.(errors := [])
    case ResetTouched => s.(isTouched := false)
    case ResetValue => ValueReset(cfg, formOn, values, s)
    case FormSubmit => if OnSubmit in Triggers(cfg, formOn) then validated else s
    case FormValidate => validated
    case FormReset => Initial(cfg)
    case FormSet(w) => s.(value := pick(w).GetOr(s.value))
    case FormResetTouched => s.(isTouched := false)
    case FormResetValues => ValueReset(cfg, formOn, values, s)
    case FormResetErrors => s.(errors := [])
  }

  /** `change` reaches the value only while the filter is true, and then
      touches the field. */
  lemma ChangeGated<T, W>(cfg: Config<T, W>, formOn: set<Trigger>, filter: bool, values: W, pick: W -> Option<T>,
                          s: FieldState<T>, v: T)
    ensures var t := Next(cfg, formOn, filter, values, pick, s, Change(v));
            (!filter ==> t == s) && (filter ==> t.value == v && t.isTouched)
  {
  }

  /** Without the change trigger a change clears the errors; with it the
      errors are those of the new value. */
  lemma ChangeErrors<T, W>(cfg: Config<T, W>, formOn: set<Trigger>, values: W, pick: W -> Option<T>, s: FieldState<T>, v: T)
    ensures var t := Next(cfg, formOn, true, values, pick, s, Change(v));
            (OnChange !in formOn && OnChange !in cfg.validateOn ==> t.errors == [])
            && (OnChange in formOn || OnChange in cfg.validateOn ==> t.errors == ValidationErrors(cfg.rules, v, values))
  {
  }

  /** Changing back to the initial value leaves the field clean. */
  lemma ChangeBackIsClean<T, W>(cfg: Config<T, W>, formOn: set<Trigger>, values: W, pick: W -> Option<T>, s: FieldState<T>)
    ensures !Data(cfg, Next(cfg, formOn, true, values, pick, s, Change(cfg.initial))).isDirty
  {
  }

  /** The touched flag is set by a change and cleared by the resets of
      the field and the form; the value goes back to the initial one on
      every value reset; the errors are replaced by a validation, grow by
      one on `addError` and are emptied by the error resets. */
  lemma EventEffects<T, W>(cfg: Config<T, W>, formOn: set<Trigger>, filter: bool, values: W, pick: W -> Option<T>,
                           s: FieldState<T>, rule: string, text: Option<string>)
    ensures var next := (e: FieldEvent<T, W>) => Next(cfg, formOn, filter, values, pick, s, e);
            && !next(Reset).isTouched && !next(FormReset).isTouched
            && !next(ResetTouched).isTouched && !next(FormResetTouched).isTouched
            && next(Reset).value == cfg.initial && next(ResetValue).value == cfg.initial
            && next(FormResetValues).value == cfg.initial && next(FormReset).value == cfg.initial
            && next(Validate).errors == ValidationErrors(cfg.rules, s.value, values)
            && next(FormValidate).errors == ValidationErrors(cfg.rules, s.value, values)
            && next(AddError(rule, text)).errors == s.errors + [ValidationError(rule, s.value, text)]
            && next(ResetErrors).errors == [] && next(FormResetErrors).errors == []
            && next(Reset).errors == [] && next(FormReset).errors == []
            && next(SetValue(cfg.initial)) == s
  {
  }

  /** A field whose rules all pass on its value is valid after any
      validation. */
  lemma ValidAfterPassingValidation<T, W>(cfg: Config<T, W>, formOn: set<Trigger>, filter: bool, values: W,
                                          pick: W -> Option<T>, s: FieldState<T>)
    requires forall i :: 0 <= i < |cfg.rules| ==> cfg.rules[i].validator(s.value, values).None?
    ensures IsValid(Next(cfg, formOn, filter, values, pick, s, Validate).errors)
    ensures IsValid(Next(cfg, formOn, filter, values, pick, s, FormValidate).errors)
  {
    NoErrorsIffAllPass(cfg.rules, s.value, values);
  }
}
