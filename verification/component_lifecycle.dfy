/**
 The component lifecycle of internal/components/types/lifecycle.go: a
 process input (`Object`), a control channel, the `Components` bundle,
 mutexes, a reference, a logger and metadata.

 Pointers that only matter for being nil are booleans. `ValidateLifecycle`
 runs nine named checks from a map; the map's iteration order decides the
 order of the lines in its message and is a parameter.
 */
module ComponentLifecycle {
  import opened Wrappers
  import Seqs
  import Metadata
  import ComponentManagers
  import Checks

  type Components = ComponentManagers.Components

  datatype ObjectId = ObjectId(id: nat)

  datatype LifeCycle = LifeCycle(
    processInput: Option<ObjectId>,
    hasChannelCtl: bool,
    components: Option<Components>,
    hasMutexes: bool,
    hasReference: bool,
    hasLogger: bool,
    metadata: Option<map<string, Metadata.Any>>)

  /** `newLifeCycle(input, logger)`: every field set, with fresh components and empty metadata. */
  function NewLifeCycle(input: Option<ObjectId>, logger: bool): (lc: LifeCycle)
    ensures lc.processInput == input && lc.hasLogger == logger
    ensures lc.components == Some(ComponentManagers.NewComponents())
    ensures lc.hasChannelCtl && lc.hasMutexes && lc.hasReference
    ensures lc.metadata == Some(map[])
  {
    LifeCycle(input, true, Some(ComponentManagers.NewComponents()), true, true, logger, Some(map[]))
  }

  /** The nine check names, each the line reported when its check fails. */
  const CheckNames: set<string> := {
    "ProcessInput is nil", "Control channel is nil", "Components empty",
    "ProcessManager is nil", "EventManager is nil", "StageManager is nil", "SignalManager is nil",
    "Lifecycle without mutexes", "Lifecycle without reference"
  }

  /** Whether the check named `name` holds; the four manager checks read through `components`. */
  predicate Holds(lc: LifeCycle, name: string)
  {
    var c := lc.components;
    match name
    case "ProcessInput is nil" => lc.processInput.Some?
    case "Control channel is nil" => lc.hasChannelCtl
    case "Components empty" => c.Some?
    case "ProcessManager is nil" => c.Some? && c.value.processManager.Some?
    case "EventManager is nil" => c.Some? && c.value.eventManager.Some?
    case "StageManager is nil" => c.Some? && c.value.stageManager.Some?
    case "SignalManager is nil" => c.Some? && c.value.signalManager.Some?
    case "Lifecycle without mutexes" => lc.hasMutexes
    case "Lifecycle without reference" => lc.hasReference
    case _ => true
  }

  /** The checks of `lc`, as the map of closures `ValidateLifecycle` builds. */
  function Check(lc: LifeCycle): string -> bool
  {
    n => Holds(lc, n)
  }

  const InvalidHeader: string := "Lifecycle is invalid:\n"

  /**
   `ValidateLifecycle`: every check runs, in the map's order. With nil
   components the manager checks dereference nil and panic. Otherwise the
   result is valid iff every check holds; an invalid result's message is
   the header and one line per failed check.
   */
  function ValidateLifecycle(lc: LifeCycle, order: seq<string>): (r: Run<Checks.ValidationResult>)
    requires Checks.Ranges(order, CheckNames)
    ensures r.Panics? <==> lc.components.None?
    ensures r.Returns? ==> (r.value.isValid <==> forall n :: n in CheckNames ==> Holds(lc, n))
    ensures r.Returns? && r.value.isValid ==> r.value == Checks.ValidationResult(true, "Lifecycle is valid", Pass)
    ensures r.Returns? && !r.value.isValid ==>
              && r.value.message == InvalidHeader + Checks.Lines(Checks.Failed(order, Check(lc)))
              && r.value.error == Fail("lifecycle validation failed. Error: " + r.value.message)
  {
    if lc.components.None? then Panics("invalid memory address or nil pointer dereference")
    else Returns(Checks.Aggregate(InvalidHeader, "Lifecycle is valid", "lifecycle validation failed. Error: ", order, Check(lc)))
  }

  /**
   `Initialize`: a nil `Object` is refused; an invalid lifecycle returns its
   validation error; otherwise a missing logger and missing metadata get
   defaults.
   */
  function Initialize(lc: LifeCycle, order: seq<string>): (r: Run<(Outcome, LifeCycle)>)
    requires Checks.Ranges(order, CheckNames)
    ensures lc.processInput.None? ==> r == Returns((Fail("erro: O ProcessInput está vazio"), lc))
    ensures lc.processInput.Some? ==> (r.Panics? <==> lc.components.None?)
    ensures r.Returns? && r.value.0 == Pass <==>
              lc.processInput.Some? && lc.components.Some? && forall n :: n in CheckNames ==> Holds(lc, n)
    ensures r.Returns? && r.value.0.Fail? ==> r.value.1 == lc
    ensures r.Returns? && r.value.0 == Pass ==>
              r.value.1 == lc.(hasLogger := true, metadata := Some(lc.metadata.GetOr(map[])))
  {
    if lc.processInput.None? then Returns((Fail("erro: O ProcessInput está vazio"), lc))
    else match ValidateLifecycle(lc, order)
      case Panics(why) => Panics(why)
      case Returns(v) =>
        if !v.isValid then Returns((v.error, lc))
        else Returns((Pass, lc.(hasLogger := true, metadata := Some(lc.metadata.GetOr(map[])))))
  }

  /** `GetComponent(name)`: (nil, false) without components, otherwise the bundle's answer. */
  function GetComponent(lc: LifeCycle, name: string): (r: (Option<ComponentManagers.Component>, bool))
    ensures lc.components.None? ==> r == (None, false)
    ensures lc.components.Some? ==> r == ComponentManagers.GetComponent(lc.components.value, name)
  {
    if lc.components.None? then (None, false) else ComponentManagers.GetComponent(lc.components.value, name)
  }

  /**
   `StartLifecycle`: `Initialize`, then a lookup of "processManager", which
   `GetComponent` never recognises; so the result is `Initialize`'s.
   */
  function StartLifecycle(lc: LifeCycle, order: seq<string>): (r: Run<(Outcome, LifeCycle)>)
    requires Checks.Ranges(order, CheckNames)
    ensures r == Initialize(lc, order)
  {
    match Initialize(lc, order)
    case Panics(why) => Panics(why)
    case Returns((out, lc2)) =>
      assert !GetComponent(lc2, "processManager").1;
      Returns((out, lc2))
  }

  /** `Shutdown` and `StopLifecycle`: every lookup misses, so nothing happens and the result is nil. */
  function StopLifecycle(lc: LifeCycle): (r: (Outcome, LifeCycle))
    ensures r == (Pass, lc)
    ensures !GetComponent(lc, "processManager").1 && !GetComponent(lc, "stageManager").1
    ensures !GetComponent(lc, "eventManager").1
  {
    (Pass, lc)
  }

  /** `RestartLifecycle`: `StopLifecycle` (which cannot fail) and then `StartLifecycle`. */
  function RestartLifecycle(lc: LifeCycle, order: seq<string>): (r: Run<(Outcome, LifeCycle)>)
    requires Checks.Ranges(order, CheckNames)
    ensures r == StartLifecycle(lc, order)
  {
    var (stopped, lc2) := StopLifecycle(lc);
    if stopped.Fail? then Returns((stopped, lc2)) else StartLifecycle(lc2, order)
  }

  /** `StatusLifecycle`: whether an `Object` is present, in the source's wording. */
  function StatusLifecycle(lc: LifeCycle): (s: string)
    ensures lc.processInput.None? <==> s == "Lifecycle não está inicializado"
    ensures lc.processInput.Some? <==> s == "Lifecycle em execução"
  {
    if lc.processInput.None? then "Lifecycle não está inicializado" else "Lifecycle em execução"
  }

  /** `ValidateConfig`: an error iff there is no `Object`. */
  function ValidateConfig(lc: LifeCycle): (r: Outcome)
    ensures r == Pass <==> lc.processInput.Some?
    ensures r.Fail? ==> r.msg == "erro: configuração do Lifecycle não pode estar vazia"
  {
    if lc.processInput.None? then Fail("erro: configuração do Lifecycle não pode estar vazia") else Pass
  }

  // ---------------------------------------------------------------------
  // Properties
  // ---------------------------------------------------------------------

  /**
   No constructed lifecycle initializes: with an input, the signal manager
   `newComponents` never sets fails validation, and its line is in the
   error; without one, the nil input is refused. A restart fails the same way.
   */
  lemma ConstructedNeverInitializes(input: Option<ObjectId>, logger: bool, order: seq<string>)
    requires Checks.Ranges(order, CheckNames)
    ensures var lc := NewLifeCycle(input, logger);
      && Initialize(lc, order).Returns?
      && Initialize(lc, order).value.0.Fail?
      && RestartLifecycle(lc, order).value.0.Fail?
      && (input.Some? ==> "SignalManager is nil" in Checks.Failed(order, Check(lc)))
  {
    var lc := NewLifeCycle(input, logger);
    assert !Holds(lc, "SignalManager is nil");
    Checks.FailedExactly(order, Check(lc));
  }

  /** A lifecycle whose every field is set validates, with the fixed message and no error. */
  lemma CompleteLifecycleValid(lc: LifeCycle, order: seq<string>)
    requires Checks.Ranges(order, CheckNames)
    requires lc.processInput.Some? && lc.hasChannelCtl && lc.hasMutexes && lc.hasReference
    requires lc.components.Some?
    requires var c := lc.components.value;
      c.processManager.Some? && c.stageManager.Some? && c.eventManager.Some? && c.signalManager.Some?
    ensures ValidateLifecycle(lc, order) == Returns(Checks.ValidationResult(true, "Lifecycle is valid", Pass))
    ensures Initialize(lc, order).value.0 == Pass
  {
    forall n | n in CheckNames
      ensures Holds(lc, n)
    {
    }
  }
}
