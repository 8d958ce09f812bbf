/**
 The validator set (components/types/valitators.go): validators stored by
 non-negative, distinct priority, a `hasValidation` flag recomputed from the
 set, and a validity flag set by the last run over every validator.

 A validator function is known by identity and `eval(fn, value)` is whether
 it accepts `value`. An argument either has the type parameter `T` or not.
 */
module Validation {
  import opened Wrappers
  import opened Strings

  datatype Fn = Fn(id: nat)

  /** `ValidationFunc[T]`: a priority, a possibly nil function, and the result of its last run. */
  datatype Validator = Validator(priority: int, fn: Option<Fn>, result: Option<bool>)

  /** An argument of `Validate`: a value of type `T`, or a value of another type. */
  datatype Arg<T> = OfT(value: T) | Other

  datatype Validation = Validation(isValid: bool, hasValidation: bool, validators: map<int, Validator>)

  /** The invariant the operations keep: every stored validator has a function and sits under its own priority. */
  predicate Wf(v: Validation)
  {
    && (forall p :: p in v.validators ==> v.validators[p].fn.Some? && v.validators[p].priority == p && p >= 0)
    && (v.hasValidation <==> v.validators.Keys != {})
  }

  /** `NewValidation`: not valid, no validators. */
  function NewValidation(): (v: Validation)
    ensures !v.isValid && !v.hasValidation && v.validators == map[]
    ensures Wf(v)
  {
    Validation(false, false, map[])
  }

  /** `checkIfWillValidate`: true iff some int-keyed entry is a validator, i.e. iff the set is non-empty. */
  function CheckIfWillValidate(v: Validation): (r: Validation)
    ensures r.hasValidation <==> v.validators.Keys != {}
    ensures r.(hasValidation := v.hasValidation) == v
  {
    v.(hasValidation := v.validators.Keys != {})
  }

  /**
   `AddValidator(validator)`: a nil receiver, a nil function, a negative
   priority and a taken priority are refused and leave the set unchanged
   (the flag is recomputed first, whatever follows).
   */
  function AddValidator(v: Option<Validation>, val: Validator): (r: (Outcome, Option<Validation>))
    ensures v.None? ==> r == (Fail("validation is nil"), None)
    ensures r.0 == Pass <==> v.Some? && val.fn.Some? && val.priority >= 0 && val.priority !in v.value.validators
    ensures v.Some? ==> r.1.Some?
    ensures v.Some? && r.0.Fail? ==> r.1.value.validators == v.value.validators
    ensures v.Some? && val.fn.None? ==> r.0 == Fail("validator function is nil")
    ensures v.Some? && val.fn.Some? && val.priority < 0 ==> r.0 == Fail("priority must be greater than or equal to 0")
    ensures v.Some? && val.fn.Some? && val.priority >= 0 && val.priority in v.value.validators ==>
              r.0 == Fail("validator with priority " + IntToDecimal(val.priority) + " already exists")
    ensures r.0 == Pass ==> r.1.value.validators == v.value.validators[val.priority := val]
    ensures r.0 == Pass ==> r.1.value.hasValidation
    ensures v.Some? ==> r.1.value.isValid == v.value.isValid
  {
    if v.None? then (Fail("validation is nil"), None)
    else
      var w := CheckIfWillValidate(v.value);
      if val.fn.None? then (Fail("validator function is nil"), Some(w))
      else if val.priority < 0 then (Fail("priority must be greater than or equal to 0"), Some(w))
      else if val.priority in w.validators then
        (Fail("validator with priority " + IntToDecimal(val.priority) + " already exists"), Some(w))
      else
        (Pass, Some(CheckIfWillValidate(w.(validators := w.validators[val.priority := val]))))
  }

  /** `RemoveValidator(priority)`: refuses an absent priority; otherwise deletes it and recomputes the flag. */
  function RemoveValidator(v: Option<Validation>, priority: int): (r: (Outcome, Option<Validation>))
    ensures v.None? ==> r == (Fail("validation is nil"), None)
    ensures r.0 == Pass <==> v.Some? && priority in v.value.validators
    ensures v.Some? && r.0.Fail? ==>
              r == (Fail("validator with priority " + IntToDecimal(priority) + " does not exist"), v)
    ensures r.0 == Pass ==> r.1.Some? && r.1.value.validators == v.value.validators - {priority}
    ensures r.0 == Pass ==> (r.1.value.hasValidation <==> r.1.value.validators.Keys != {})
  {
    if v.None? then (Fail("validation is nil"), None)
    else if priority !in v.value.validators then
      (Fail("validator with priority " + IntToDecimal(priority) + " does not exist"), v)
    else
      (Pass, Some(CheckIfWillValidate(v.value.(validators := v.value.validators - {priority}))))
  }

  /** Every stored validator accepts `x`. */
  predicate AllAccept<T>(v: Validation, x: T, eval: (Fn, T) -> bool)
    requires forall p :: p in v.validators ==> v.validators[p].fn.Some?
  {
    forall p :: p in v.validators ==> eval(v.validators[p].fn.value, x)
  }

  /**
   `vldtFunc` run on `x`: every validator is called and its result stored,
   and the validity flag is true iff all of them accept.
   */
  function RunAll<T>(v: Validation, x: T, eval: (Fn, T) -> bool): (r: Validation)
    requires Wf(v)
    ensures Wf(r)
    ensures r.isValid <==> AllAccept(v, x, eval)
    ensures r.validators.Keys == v.validators.Keys
    ensures forall p :: p in r.validators ==>
              r.validators[p] == v.validators[p].(result := Some(eval(v.validators[p].fn.value, x)))
    ensures r.hasValidation == v.hasValidation
  {
    var vs := map p | p in v.validators :: v.validators[p].(result := Some(eval(v.validators[p].fn.value, x)));
    v.(isValid := AllAccept(v, x, eval), validators := vs)
  }

  /**
   `Validate(args...)`: false with no arguments or no validators; otherwise
   the validator run decides, which is false when the first argument is not
   a `T` and otherwise true iff every validator accepts it.
   */
  function Validate<T>(v: Validation, args: seq<Arg<T>>, eval: (Fn, T) -> bool): (r: (bool, Validation))
    requires Wf(v)
    ensures Wf(r.1)
    ensures r.0 <==> |args| > 0 && v.hasValidation && args[0].OfT? && AllAccept(v, args[0].value, eval)
    ensures !(|args| > 0 && v.hasValidation && args[0].OfT?) ==> r.1 == v
    ensures r.0 ==> IsValid(Some(r.1))
    ensures |args| > 0 && v.hasValidation && args[0].OfT? ==> (IsValid(Some(r.1)) <==> r.0)
  {
    if |args| == 0 || !v.hasValidation then (false, v)
    else if args[0].Other? then (false, v)
    else
      var w := RunAll(v, args[0].value, eval);
      (w.isValid, w)
  }

  /** The run-time panic of comparing two `ValidationFunc[T]` values, which hold a function. */
  const UncomparablePanic := "runtime error: comparing uncomparable type ValidationFunc[T]"

  /**
   `vldtFunc` run on `x` as written: after calling the first validator it
   visits, it writes the result back with `CompareAndSwap(key, value,
   validator)`. That compares the stored struct with itself, and a struct with a
   function field is not comparable, so Go panics. Only an empty set returns.
   */
  function RunAllAsWritten<T>(v: Validation, x: T, eval: (Fn, T) -> bool): (r: Run<Validation>)
    requires Wf(v)
    ensures r.Panics? <==> v.validators.Keys != {}
    ensures r.Panics? ==> r.reason == UncomparablePanic
    ensures r.Returns? ==> r.value == v.(isValid := true)
  {
    if v.validators.Keys != {} then Panics(UncomparablePanic)
    else Returns(v.(isValid := true))
  }

  /**
   `Validate(args...)` as written: the early refusals return false, and any
   run that reaches the validators panics, so it never reports a valid value.
   */
  function ValidateAsWritten<T>(v: Validation, args: seq<Arg<T>>, eval: (Fn, T) -> bool): (r: Run<(bool, Validation)>)
    requires Wf(v)
    ensures r.Panics? <==> |args| > 0 && v.hasValidation && args[0].OfT?
    ensures r.Returns? ==> r.value == (false, v)
  {
    if |args| == 0 || !v.hasValidation then Returns((false, v))
    else if args[0].Other? then Returns((false, v))
    else
      match RunAllAsWritten(v, args[0].value, eval)
      case Panics(why) => Panics(why)
      case Returns(w) => Returns((w.isValid, w))
  }

  /** `IsValid`: false for nil or without validators; otherwise the flag left by the last run. */
  function IsValid(v: Option<Validation>): (b: bool)
    ensures b <==> v.Some? && v.value.hasValidation && v.value.isValid
  {
    if v.None? then false
    else if !v.value.hasValidation then false
    else v.value.isValid
  }

  // ---------------------------------------------------------------------
  // Properties
  // ---------------------------------------------------------------------

  /** Adding and removing validators keep the invariant. */
  lemma OperationsKeepWf(v: Validation, val: Validator, priority: int)
    requires Wf(v)
    ensures AddValidator(Some(v), val).1.Some? && Wf(AddValidator(Some(v), val).1.value)
    ensures RemoveValidator(Some(v), priority).1.Some? && Wf(RemoveValidator(Some(v), priority).1.value)
  {
  }

  /** A successful add makes validation active; removing the only validator deactivates it. */
  lemma AddThenRemove(val: Validator)
    requires val.fn.Some? && val.priority >= 0
    ensures var a := AddValidator(Some(NewValidation()), val);
      && a == (Pass, Some(Validation(false, true, map[val.priority := val])))
      && RemoveValidator(a.1, val.priority) == (Pass, Some(NewValidation()))
  {
    var a := AddValidator(Some(NewValidation()), val);
    assert a.1.value.validators == map[val.priority := val];
    assert a.1.value.validators - {val.priority} == map[];
  }

  /**
   The discrepancy: one accepting validator and one argument of type `T`. The
   corrected run reports the value valid; the run as written panics.
   */
  lemma ValidateAsWrittenPanics<T>(val: Validator, x: T, eval: (Fn, T) -> bool)
    requires val.fn.Some? && val.priority >= 0 && eval(val.fn.value, x)
    ensures var v := AddValidator(Some(NewValidation()), val).1.value;
      && Validate(v, [OfT(x)], eval).0
      && ValidateAsWritten(v, [OfT(x)], eval) == Panics(UncomparablePanic)
  {
    var v := AddValidator(Some(NewValidation()), val).1.value;
    assert v.validators == map[val.priority := val];
    assert val.priority in v.validators.Keys;
  }

  /** The two runs agree exactly when neither reaches a stored validator. */
  lemma ValidateAgreesWithoutValidators<T>(v: Validation, args: seq<Arg<T>>, eval: (Fn, T) -> bool)
    requires Wf(v)
    ensures ValidateAsWritten(v, args, eval) == Returns(Validate(v, args, eval))
            <==> !(|args| > 0 && v.hasValidation && args[0].OfT?)
  {
  }

  /** A fresh validation never validates and is never valid. */
  lemma FreshNeverValid<T>(args: seq<Arg<T>>, eval: (Fn, T) -> bool)
    ensures Validate(NewValidation(), args, eval).0 == false
    ensures !IsValid(Some(NewValidation()))
  {
  }
}
