/**
 The action of internal/routines/taskz/actions/action.go: a task with a
 running flag, an error list, results and a map of named channels.

 The task is known by identity and what it returns for a value comes from
 `eval`. A channel's own send and receive belong to
 internal/routines/agents, which is not part of this model; their outcomes
 are parameters.

 The action keeps two property maps: the exported `Properties`, which
 `GetStatus` and `Execute` read and which the constructor leaves empty, and
 the unexported `properties`, which the constructor fills.
 */
module Action {
  import opened Wrappers
  import Property
  import TypesProperty

  datatype Task = Task(id: nat)

  /** A result stored by an action, known by its key's value. */
  datatype Res = Res(id: nat)

  /** A named channel: present and either nil or set. */
  datatype Chan = NilChan | Chan(capacity: nat)

  datatype Action<T> = Action(
    id: string,
    kind: string,
    running: bool,
    errors: seq<string>,
    results: map<string, Res>,
    channels: map<string, Chan>,
    statusProp: Option<string>,
    dataProp: Option<T>,
    privateProps: set<string>,
    task: Task,
    data: T)

  const ChannelNames: set<string> := {"cancel", "result", "error", "done"}

  /**
   `NewAction(identifier, actionType, data, ev)` as written: the first
   entry of `properties` is `property.NewProperty("status", &status)`, whose
   non-nil value makes it panic (see `Property.NewPropertyAsWritten`).
   */
  function NewActionAsWritten<T>(identifier: string, kind: string, data: Option<T>, task: Task): (r: Run<Action<T>>)
    ensures r.Panics?
  {
    match Property.NewPropertyAsWritten("status", "string", Some("Pending"), Property.SameType)
    case Panics(why) => Panics(why)
    case Returns(_) => assert false; Panics("")
  }

  /**
   `NewAction` with properties built as intended: a nil data pointer is
   dereferenced and panics; otherwise the action is idle, with no errors or
   results, the four channels of capacity 10, an empty `Properties` map and
   the four private properties.
   */
  function NewAction<T>(identifier: string, kind: string, data: Option<T>, task: Task): (r: Run<Action<T>>)
    ensures r.Panics? <==> data.None?
    ensures r.Returns? ==>
              && !r.value.running && r.value.errors == [] && r.value.results == map[]
              && r.value.channels.Keys == ChannelNames
              && (forall n :: n in r.value.channels ==> r.value.channels[n] == Chan(10))
              && r.value.statusProp.None? && r.value.dataProp.None?
              && r.value.privateProps == {"status", "identifier", "actionType", "data"}
              && r.value.id == identifier && r.value.kind == kind && r.value.data == data.value
  {
    if data.None? then Panics("invalid memory address or nil pointer dereference")
    else Returns(Action(identifier, kind, false, [], map[],
                        map["cancel" := Chan(10), "result" := Chan(10), "error" := Chan(10), "done" := Chan(10)],
                        None, None, {"status", "identifier", "actionType", "data"}, task, data.value))
  }

  /** `CanExecute`: exactly when the action is not running. */
  function CanExecute<T>(a: Action<T>): (b: bool)
    ensures b <==> !a.running
  {
    !a.running
  }

  /** `GetStatus`: "Unknown" without a status property, otherwise its value. */
  function GetStatus<T>(a: Action<T>): (s: string)
    ensures a.statusProp.None? ==> s == "Unknown"
    ensures a.statusProp.Some? ==> s == a.statusProp.value
  {
    if a.statusProp.None? then "Unknown" else a.statusProp.value
  }

  /**
   `Execute`: a running action is refused and left alone. Otherwise the
   action is marked running (and never unmarked), the data property is read
   (a missing one is a method call on a nil interface, which panics) and the
   task runs on its value; a task error is appended to the errors and returned.
   */
  function Execute<T>(a: Action<T>, eval: (Task, T) -> Outcome): (r: Run<(Outcome, Action<T>)>)
    ensures a.running ==> r == Returns((Fail("action already running"), a))
    ensures !a.running && a.dataProp.None? ==> r.Panics?
    ensures !a.running && a.dataProp.Some? ==> r.Returns?
    ensures r.Returns? && !a.running ==>
              && r.value.0 == eval(a.task, a.dataProp.value)
              && r.value.1.running
              && r.value.1.errors == a.errors + (if r.value.0.Fail? then [r.value.0.msg] else [])
              && r.value.1.(running := a.running, errors := a.errors) == a
  {
    if a.running then Returns((Fail("action already running"), a))
    else if a.dataProp.None? then Panics("invalid memory address or nil pointer dereference")
    else
      var out := eval(a.task, a.dataProp.value);
      var b := a.(running := true);
      if out.Fail? then Returns((out, b.(errors := a.errors + [out.msg])))
      else Returns((Pass, b))
  }

  /**
   `Execute` as written, for a concrete data type `T` named `typeName`: the
   exported data property's `GetValue` returns a `*T`, which
   `reflect.ValueOf(val).Interface().(T)` asserts to `T`, and that panics; a
   missing property is a method call on a nil interface. So every call that
   gets past the running check panics, after marking the action running.
   */
  function ExecuteAsWritten<T>(a: Action<T>, typeName: string): (r: Run<(Outcome, Action<T>)>)
    ensures r.Panics? <==> !a.running
    ensures a.running ==> r == Returns((Fail("action already running"), a))
    ensures !a.running && a.dataProp.Some? ==>
              r == Panics("interface conversion: interface {} is *" + typeName + ", not " + typeName)
  {
    if a.running then Returns((Fail("action already running"), a))
    else if a.dataProp.None? then Panics("invalid memory address or nil pointer dereference")
    else
      var p := TypesProperty.NewProperty<T>("data", typeName, a.dataProp);
      match TypesProperty.GetValueAsWritten(p)
      case Panics(why) => Panics(why)
      case Returns(_) => assert false; Panics("")
  }

  /** `Cancel`: always nil; a running action stops running, an idle one is unchanged. */
  function Cancel<T>(a: Action<T>): (r: (Outcome, Action<T>))
    ensures r.0 == Pass
    ensures !r.1.running
    ensures r.1 == a.(running := false)
  {
    if !a.running then (Pass, a) else (Pass, a.(running := false))
  }

  /**
   `SafeSend(channel, value)`: an unknown name or a nil channel is refused;
   otherwise the channel's own `Send` decides.
   */
  function SafeSend<T>(a: Action<T>, channel: string, send: Outcome): (r: Outcome)
    ensures channel !in a.channels ==> r == Fail("channel " + channel + " not found")
    ensures channel in a.channels && a.channels[channel].NilChan? ==> r == Fail("channel " + channel + " is closed")
    ensures channel in a.channels && a.channels[channel].Chan? ==> r == send
  {
    if channel !in a.channels then Fail("channel " + channel + " not found")
    else if a.channels[channel].NilChan? then Fail("channel " + channel + " is closed")
    else send
  }

  /**
   `SafeReceive(channel)`: an unknown name or a nil channel is refused.
   Otherwise the channel's `GetChan` decides, given here as `got`: no Go
   channel means closed, a channel whose element type is not `any` is
   refused, and a `chan any` yields the value received from it.
   */
  function SafeReceive<T, V>(a: Action<T>, channel: string, got: Option<bool>, received: V): (r: Result<V>)
    ensures r.Ok? <==> channel in a.channels && a.channels[channel].Chan? && got == Some(true)
    ensures r.Ok? ==> r.value == received
    ensures channel !in a.channels ==> r == Err("channel " + channel + " not found")
    ensures channel in a.channels && (a.channels[channel].NilChan? || got.None?) ==>
              r == Err("channel " + channel + " is closed")
    ensures channel in a.channels && a.channels[channel].Chan? && got == Some(false) ==>
              r == Err("channel " + channel + " is not of type chan any")
  {
    if channel !in a.channels then Err("channel " + channel + " not found")
    else if a.channels[channel].NilChan? then Err("channel " + channel + " is closed")
    else if got.None? then Err("channel " + channel + " is closed")
    else if !got.value then Err("channel " + channel + " is not of type chan any")
    else Ok(received)
  }

  /** Every channel of a fresh action accepts a send and, given a `chan any`, a receive; any other name is refused. */
  lemma FreshChannels<T, V>(identifier: string, kind: string, data: T, task: Task, name: string, send: Outcome, v: V)
    ensures var a := NewAction(identifier, kind, Some(data), task).value;
      && (name in ChannelNames ==> SafeSend(a, name, send) == send && SafeReceive(a, name, Some(true), v) == Ok(v))
      && (name !in ChannelNames ==> SafeSend(a, name, send).Fail? && SafeReceive(a, name, Some(true), v).Err?)
  {
  }

  // ---------------------------------------------------------------------
  // Properties
  // ---------------------------------------------------------------------

  /** A fresh action reports "Unknown", can execute, and its first `Execute` panics on the missing data property. */
  lemma FreshAction<T>(identifier: string, kind: string, data: T, task: Task, eval: (Task, T) -> Outcome)
    ensures var a := NewAction(identifier, kind, Some(data), task).value;
      && GetStatus(a) == "Unknown"
      && CanExecute(a)
      && Execute(a, eval).Panics?
  {
  }

  /** Once executed, an action stays running, so a second `Execute` is refused until `Cancel`. */
  lemma ExecuteIsOneShot<T>(a: Action<T>, eval: (Task, T) -> Outcome)
    requires !a.running && a.dataProp.Some?
    ensures var b := Execute(a, eval).value.1;
      && !CanExecute(b)
      && Execute(b, eval) == Returns((Fail("action already running"), b))
      && CanExecute(Cancel(b).1)
  {
  }

  /**
   The discrepancy: an idle action with its data property set runs its task
   as intended, and panics as written.
   */
  lemma ExecuteAsWrittenPanics<T>(a: Action<T>, typeName: string, eval: (Task, T) -> Outcome)
    requires !a.running && a.dataProp.Some?
    ensures Execute(a, eval).Returns? && Execute(a, eval).value.0 == eval(a.task, a.dataProp.value)
    ensures ExecuteAsWritten(a, typeName).Panics?
  {
  }

  /**
   Nothing an action does fills the exported property map, so an action
   without a status property keeps none through `Execute` and `Cancel`, and
   keeps reporting "Unknown".
   */
  lemma StatusStaysUnknown<T>(a: Action<T>, eval: (Task, T) -> Outcome)
    requires a.statusProp.None?
    ensures GetStatus(a) == "Unknown"
    ensures Execute(a, eval).Returns? ==> GetStatus(Execute(a, eval).value.1) == "Unknown"
    ensures GetStatus(Cancel(a).1) == "Unknown"
  {
  }

  /** `Cancel` is idempotent. */
  lemma CancelIdempotent<T>(a: Action<T>)
    ensures Cancel(Cancel(a).1) == Cancel(a)
  {
  }
}
