/**
 The aggregation shared by `LifeCycle.ValidateLifecycle` and
 `ProcessInput.Validate` (internal/components/types/lifecycle.go and
 process_input.go): a map from message to check is ranged over, every
 failing check appends its message and a newline after a one-time header,
 and the result carries that text and an error wrapping it.

 The map's iteration order is the `order` parameter.
 */
module Checks {
  import opened Wrappers

  datatype ValidationResult = ValidationResult(isValid: bool, message: string, error: Outcome)

  /** The names in `order` whose check fails, in that order. */
  function Failed(order: seq<string>, holds: string -> bool): (fs: seq<string>)
    ensures |fs| <= |order|
    ensures forall k :: 0 <= k < |fs| ==> fs[k] in order && !holds(fs[k])
  {
    if order == [] then []
    else Failed(order[..|order| - 1], holds) + (if holds(order[|order| - 1]) then [] else [order[|order| - 1]])
  }

  /** Each name followed by a newline, as the loop writes them. */
  function Lines(names: seq<string>): string
  {
    if names == [] then "" else Lines(names[..|names| - 1]) + names[|names| - 1] + "\n"
  }

  /** The lines `Failed` keeps are exactly the names in `order` whose check fails. */
  lemma {:induction false} FailedExactly(order: seq<string>, holds: string -> bool)
    ensures forall n :: n in Failed(order, holds) <==> n in order && !holds(n)
  {
    if order != [] {
      FailedExactly(order[..|order| - 1], holds);
      assert order == order[..|order| - 1] + [order[|order| - 1]];
    }
  }

  /**
   The result of ranging over the checks in `order`: valid iff every one
   holds; otherwise `header` and one line per failed check, wrapped in an
   error after `errorPrefix`.
   */
  function Aggregate(header: string, validMessage: string, errorPrefix: string, order: seq<string>, holds: string -> bool): (r: ValidationResult)
    ensures r.isValid <==> forall n :: n in order ==> holds(n)
    ensures r.isValid ==> r == ValidationResult(true, validMessage, Pass)
    ensures !r.isValid ==>
              && r.message == header + Lines(Failed(order, holds))
              && r.error == Fail(errorPrefix + r.message)
  {
    var failed := Failed(order, holds);
    FailedExactly(order, holds);
    if failed == [] then ValidationResult(true, validMessage, Pass)
    else
      assert failed[0] in failed;
      var msg := header + Lines(failed);
      ValidationResult(false, msg, Fail(errorPrefix + msg))
  }

  /** Every name of `names` occurs in `order`, and nothing else does: `order` ranges over exactly those checks. */
  ghost predicate Ranges(order: seq<string>, names: set<string>)
  {
    forall n :: n in order <==> n in names
  }
}
