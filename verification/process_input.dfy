/**
 The process input of internal/components/types/process_input.go: a
 logger, mutexes, a control channel, a reference, the configuration and
 the system part (command, arguments and path).

 Building the command is operating-system work; whether `BuildCmd`
 yields a command is the abstract `commandBuilt`. Pointers that only
 matter for being nil are booleans or options. Locks are no-ops.
 */
module ProcessInput {
  import opened Wrappers
  import Checks
  import Channels
  import ProcessConfig

  /** The system part: what `BuildCmd` makes of it, the command, the arguments (nil or a list) and the path. */
  datatype SystemBase = SystemBase(commandBuilt: bool, command: string, args: Option<seq<string>>, path: string)

  datatype ProcessInput = ProcessInput(
    name: string,
    hasLogger: bool,
    hasMutexes: bool,
    hasReference: bool,
    channelCtl: Option<Channels.ChannelCtl>,
    config: Option<ProcessConfig.Config>,
    system: Option<SystemBase>)

  /**
   `newProcessInput(name, logger, debug)`: logger, mutexes and reference
   set; a configuration of type "system" that is not running, waiting or
   restarting, with empty metadata; no control channel and no system part.
   */
  function NewProcessInput(name: string): (pi: ProcessInput)
    ensures pi.name == name && pi.hasLogger && pi.hasMutexes && pi.hasReference
    ensures pi.channelCtl.None? && pi.system.None?
    ensures pi.config.Some?
    ensures var c := pi.config.value;
      && c.processType == "system" && !c.isRunning && !c.waitFor && !c.restart
      && c.metadata == Some(map[]) && c.hasLogger && c.name == name
  {
    ProcessInput(name, true, true, true, None,
                 Some(ProcessConfig.Config(name, true, false, false, false, "system", Some(map[]))), None)
  }

  /** The seven check names, each the line reported when its check fails. */
  const CheckNames: set<string> := {
    "Command is nil", "Command is empty", "Args is nil", "Path is empty",
    "ProcessType is empty", "Reference is nil", "Mutexes is nil"
  }

  /** Whether the check named `name` holds for a process input with its configuration and system part present. */
  predicate Holds(pi: ProcessInput, name: string)
    requires pi.system.Some? && pi.config.Some?
  {
    var s := pi.system.value;
    match name
    case "Command is nil" => s.commandBuilt
    case "Command is empty" => s.command != ""
    case "Args is nil" => s.args.Some?
    case "Path is empty" => s.path != ""
    case "ProcessType is empty" => pi.config.value.processType != ""
    case "Reference is nil" => pi.hasReference
    case "Mutexes is nil" => pi.hasMutexes
    case _ => true
  }

  /** The checks of `pi`, as the map of closures `Validate` builds. */
  function Check(pi: ProcessInput): string -> bool
    requires pi.system.Some? && pi.config.Some?
  {
    n => Holds(pi, n)
  }

  const InvalidHeader: string := "ProcessInput is invalid:\n"

  /**
   `Validate`: the command, argument and path checks read through the
   system part and the type check through the configuration, so either one
   being nil panics. Otherwise the result is valid iff all seven checks
   hold, and an invalid result lists the failed checks after the header.
   */
  function Validate(pi: ProcessInput, order: seq<string>): (r: Run<Checks.ValidationResult>)
    requires Checks.Ranges(order, CheckNames)
    ensures r.Panics? <==> pi.system.None? || pi.config.None?
    ensures r.Returns? ==> (r.value.isValid <==> forall n :: n in CheckNames ==> Holds(pi, n))
    ensures r.Returns? && r.value.isValid ==> r.value == Checks.ValidationResult(true, "ProcessInput is valid", Pass)
    ensures r.Returns? && !r.value.isValid ==>
              && r.value.message == InvalidHeader + Checks.Lines(Checks.Failed(order, Check(pi)))
              && r.value.error == Fail("ProcessInput validation failed. Error: " + r.value.message)
  {
    if pi.system.None? || pi.config.None? then Panics("invalid memory address or nil pointer dereference")
    else Returns(Checks.Aggregate(InvalidHeader, "ProcessInput is valid", "ProcessInput validation failed. Error: ", order, Check(pi)))
  }

  /** The callback handed to `Send`: nil, a `func(string)`, or a value of another type. */
  datatype Callback = NoCallback | StringCallback(id: nat) | OtherCallback

  /** The main control channel, if both the controller and its channel exist. */
  function MainChannel(pi: ProcessInput): Option<Channels.Chan>
  {
    if pi.channelCtl.Some? then pi.channelCtl.value.main else None
  }

  /**
   `Send(msg, cb)`: errors when there is no control channel; a full buffer
   refuses the message; otherwise it is enqueued at the back, after which
   a `func(string)` callback is called with it and a callback of another
   type is an error. `called` is the callback invocation made, if any.
   */
  function Send(pi: ProcessInput, msg: string, cb: Callback): (r: (Outcome, ProcessInput, Option<nat>))
    ensures MainChannel(pi).None? ==> r == (Fail("channel is not initialized"), pi, None)
    ensures MainChannel(pi).Some? && |MainChannel(pi).value.items| >= MainChannel(pi).value.capacity ==>
              r == (Fail("channel buffer full, message not sent"), pi, None)
    ensures r.0 == Pass <==> MainChannel(pi).Some? && |MainChannel(pi).value.items| < MainChannel(pi).value.capacity && !cb.OtherCallback?
    ensures MainChannel(pi).Some? && |MainChannel(pi).value.items| < MainChannel(pi).value.capacity ==>
              && MainChannel(r.1) == Some(MainChannel(pi).value.(items := MainChannel(pi).value.items + [msg]))
              && r.1 == pi.(channelCtl := Some(pi.channelCtl.value.(main := MainChannel(r.1))))
              && (cb.OtherCallback? ==> r.0 == Fail("callback is not of type func(string)"))
              && (r.2.Some? <==> cb.StringCallback?)
              && (cb.StringCallback? ==> r.2 == Some(cb.id))
  {
    match MainChannel(pi)
    case None => (Fail("channel is not initialized"), pi, None)
    case Some(ch) =>
      if |ch.items| >= ch.capacity then (Fail("channel buffer full, message not sent"), pi, None)
      else
        var pi2 := pi.(channelCtl := Some(pi.channelCtl.value.(main := Some(ch.(items := ch.items + [msg])))));
        match cb
        case NoCallback => (Pass, pi2, None)
        case StringCallback(id) => (Pass, pi2, Some(id))
        case OtherCallback => (Fail("callback is not of type func(string)"), pi2, None)
  }

  // ---------------------------------------------------------------------
  // Properties
  // ---------------------------------------------------------------------

  /** A freshly built input cannot send, having no control channel, and cannot be validated, having no system part. */
  lemma FreshInputCannotSendOrValidate(name: string, msg: string, cb: Callback, order: seq<string>)
    requires Checks.Ranges(order, CheckNames)
    ensures Send(NewProcessInput(name), msg, cb).0 == Fail("channel is not initialized")
    ensures Validate(NewProcessInput(name), order).Panics?
  {
  }

  /** Sending never overfills the buffer: a channel within capacity stays within capacity. */
  lemma SendKeepsCapacity(pi: ProcessInput, msg: string, cb: Callback)
    requires MainChannel(pi).Some? && |MainChannel(pi).value.items| <= MainChannel(pi).value.capacity
    ensures var r := Send(pi, msg, cb).1;
      MainChannel(r).Some? && |MainChannel(r).value.items| <= MainChannel(r).value.capacity
  {
  }

  /** An input with every field set validates, with the fixed message and no error. */
  lemma CompleteInputValid(pi: ProcessInput, order: seq<string>)
    requires Checks.Ranges(order, CheckNames)
    requires pi.hasMutexes && pi.hasReference && pi.config.Some? && pi.config.value.processType != ""
    requires pi.system.Some? && pi.system.value.commandBuilt && pi.system.value.command != ""
    requires pi.system.value.args.Some? && pi.system.value.path != ""
    ensures Validate(pi, order) == Returns(Checks.ValidationResult(true, "ProcessInput is valid", Pass))
  {
    forall n | n in CheckNames
      ensures Holds(pi, n)
    {
    }
  }

  /** An input whose command is empty fails validation, and the failing line is in the message. */
  lemma EmptyCommandReported(pi: ProcessInput, order: seq<string>)
    requires Checks.Ranges(order, CheckNames)
    requires pi.system.Some? && pi.config.Some? && pi.system.value.command == ""
    ensures Validate(pi, order).Returns? && !Validate(pi, order).value.isValid
    ensures "Command is empty" in Checks.Failed(order, Check(pi))
  {
    assert !Holds(pi, "Command is empty");
    Checks.FailedExactly(order, Check(pi));
  }
}
