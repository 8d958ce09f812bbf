/**
 The three registries a component lifecycle owns
 (internal/components/types/event_manager.go, stage_manager.go,
 process_manager.go) and the `Components` bundle that holds them
 (components.go).

 Registered objects are known by identity. Where Go returns "any entry" by
 ranging over a map, the iteration order is a parameter.
 */
module ComponentManagers {
  import opened Wrappers
  import Seqs

  datatype EventObj = EventObj(id: nat)
  datatype StageObj = StageObj(id: nat)
  datatype ProcessObj = ProcessObj(id: nat)
  datatype SignalManager = SignalManager(id: nat)

  // ---------------------------------------------------------------------
  // EventManager
  // ---------------------------------------------------------------------

  datatype EventManager = EventManager(events: map<string, EventObj>)

  function NewEventManager(): (m: EventManager)
    ensures m.events == map[]
  {
    EventManager(map[])
  }

  function EventNotFound(name: string): string
  {
    "event " + name + " not found"
  }

  /** `GetEvent(name)`: the registered object, or "event %s not found". */
  function GetEvent(m: EventManager, name: string): (r: Result<EventObj>)
    ensures r.Ok? <==> name in m.events
    ensures r.Ok? ==> r.value == m.events[name]
    ensures r.Err? ==> r.msg == EventNotFound(name)
  {
    if name in m.events then Ok(m.events[name]) else Err(EventNotFound(name))
  }

  /** `AddEvent(name, obj)`: an existing name is refused and nothing changes; otherwise it is inserted. */
  function AddEvent(m: EventManager, name: string, obj: EventObj): (r: (Outcome, EventManager))
    ensures r.0 == Pass <==> name !in m.events
    ensures r.0.Fail? ==> r == (Fail("event " + name + " already exists"), m)
    ensures r.0 == Pass ==> r.1.events == m.events[name := obj]
  {
    if name in m.events then (Fail("event " + name + " already exists"), m)
    else (Pass, EventManager(m.events[name := obj]))
  }

  /** `TriggerEvent(name, data)`: an error iff the name is absent; the registry never changes. */
  function TriggerEvent(m: EventManager, name: string): (r: Outcome)
    ensures r == Pass <==> name in m.events
    ensures r.Fail? ==> r.msg == EventNotFound(name)
  {
    if name in m.events then Pass else Fail(EventNotFound(name))
  }

  /** `RemoveEvent(name)`: a missing name is refused; otherwise only that key goes. */
  function RemoveEvent(m: EventManager, name: string): (r: (Outcome, EventManager))
    ensures r.0 == Pass <==> name in m.events
    ensures r.0.Fail? ==> r == (Fail(EventNotFound(name)), m)
    ensures r.0 == Pass ==> r.1.events == m.events - {name}
  {
    if name in m.events then (Pass, EventManager(m.events - {name})) else (Fail(EventNotFound(name)), m)
  }

  // ---------------------------------------------------------------------
  // StageManager
  // ---------------------------------------------------------------------

  datatype StageManager = StageManager(stages: map<string, StageObj>)

  function NewStageManager(): (m: StageManager)
    ensures m.stages == map[]
  {
    StageManager(map[])
  }

  /** `GetStage(name)`: the registered stage, or "stage %s not found". */
  function GetStage(m: StageManager, name: string): (r: Result<StageObj>)
    ensures r.Ok? <==> name in m.stages
    ensures r.Ok? ==> r.value == m.stages[name]
    ensures r.Err? ==> r.msg == "stage " + name + " not found"
  {
    if name in m.stages then Ok(m.stages[name]) else Err("stage " + name + " not found")
  }

  /** `AddStage(name, obj)`: always succeeds, overwriting any entry. */
  function AddStage(m: StageManager, name: string, obj: StageObj): (r: (Outcome, StageManager))
    ensures r.0 == Pass
    ensures r.1.stages == m.stages[name := obj]
  {
    (Pass, StageManager(m.stages[name := obj]))
  }

  /** The first entry met when ranging over `m` in `order`, or nil for an empty map. */
  function FirstInOrder<V>(m: map<string, V>, order: seq<string>): (r: Option<V>)
    requires Seqs.IsOrderOf(order, m)
    ensures r.None? <==> m == map[]
    ensures r.Some? ==> r.value == m[order[0]]
  {
    if |order| == 0 then None else Some(m[order[0]])
  }

  /** `CurrentStage`: some registered stage (the first met in `order`), nil iff none is registered. */
  function CurrentStage(m: StageManager, order: seq<string>): (r: Option<StageObj>)
    requires Seqs.IsOrderOf(order, m.stages)
    ensures r.None? <==> m.stages == map[]
    ensures r.Some? ==> r.value in m.stages.Values
  {
    FirstInOrder(m.stages, order)
  }

  /** `SetCurrentStage(name)`: exactly `GetStage`; no state changes. */
  function SetCurrentStage(m: StageManager, name: string): (r: Result<StageObj>)
    ensures r == GetStage(m, name)
  {
    GetStage(m, name)
  }

  /** `RemoveStage(name)`: always nil, deleting the entry if present. */
  function RemoveStage(m: StageManager, name: string): (r: (Outcome, StageManager))
    ensures r.0 == Pass
    ensures r.1.stages == m.stages - {name}
  {
    (Pass, StageManager(m.stages - {name}))
  }

  // ---------------------------------------------------------------------
  // ProcessManager
  // ---------------------------------------------------------------------

  datatype ProcessManager = ProcessManager(processes: map<string, ProcessObj>)

  function NewProcessManager(): (m: ProcessManager)
    ensures m.processes == map[]
  {
    ProcessManager(map[])
  }

  const NilProcessInput: string := "erro: ProcessInput não pode ser nulo ao adicionar um processo"

  /**
   `AddProcess(name, t)`: `t` is a property that may itself be nil (`None`)
   or hold nil (`Some(None)`); both are refused. Otherwise the value is
   stored under the name, replacing any entry.
   */
  function AddProcess(m: ProcessManager, name: string, t: Option<Option<ProcessObj>>): (r: (Outcome, ProcessManager))
    ensures r.0 == Pass <==> t.Some? && t.value.Some?
    ensures r.0.Fail? ==> r == (Fail(NilProcessInput), m)
    ensures r.0 == Pass ==> r.1.processes == m.processes[name := t.value.value]
  {
    if t.None? || t.value.None? then (Fail(NilProcessInput), m)
    else (Pass, ProcessManager(m.processes[name := t.value.value]))
  }

  /** `GetProcess(name)`: the stored input, or "process %s not found". */
  function GetProcess(m: ProcessManager, name: string): (r: Result<ProcessObj>)
    ensures r.Ok? <==> name in m.processes
    ensures r.Ok? ==> r.value == m.processes[name]
    ensures r.Err? ==> r.msg == "process " + name + " not found"
  {
    if name in m.processes then Ok(m.processes[name]) else Err("process " + name + " not found")
  }

  /** `CurrentProcess`: some stored input (the first met in `order`), nil iff none is stored. */
  function CurrentProcess(m: ProcessManager, order: seq<string>): (r: Option<ProcessObj>)
    requires Seqs.IsOrderOf(order, m.processes)
    ensures r.None? <==> m.processes == map[]
    ensures r.Some? ==> r.value in m.processes.Values
  {
    FirstInOrder(m.processes, order)
  }

  /** `RemoveProcess(name)`: always nil, deleting the entry if present. */
  function RemoveProcess(m: ProcessManager, name: string): (r: (Outcome, ProcessManager))
    ensures r.0 == Pass
    ensures r.1.processes == m.processes - {name}
  {
    (Pass, ProcessManager(m.processes - {name}))
  }

  /** What the process's `Receive` hands back after a successful "start" send. */
  datatype Received = ReceiveError | NilObject | StringObject | OtherObject(typeName: string)

  /**
   `StartProcess(name)`: an unknown name returns the lookup error. A stored
   input is sent "start"; a send error, a receive error, a nil object and a
   string are only logged, so the result is nil. Any other received object
   is logged through `obj.(string)`, which panics.
   */
  function StartProcess(m: ProcessManager, name: string, send: Outcome, received: Received): (r: Run<Outcome>)
    ensures r.Panics? <==> name in m.processes && send == Pass && received.OtherObject?
    ensures r.Panics? ==> r.reason == "interface conversion: interface {} is " + received.typeName + ", not string"
    ensures r.Returns? ==> (r.value == Pass <==> name in m.processes)
    ensures name !in m.processes ==> r == Returns(Fail(GetProcess(m, name).msg))
  {
    match GetProcess(m, name)
    case Err(e) => Returns(Fail(e))
    case Ok(_) =>
      if send.Fail? then Returns(Pass)
      else
        match received
        case OtherObject(t) => Panics("interface conversion: interface {} is " + t + ", not string")
        case _ => Returns(Pass)
  }

  // ---------------------------------------------------------------------
  // Components
  // ---------------------------------------------------------------------

  datatype Components = Components(
    processManager: Option<ProcessManager>,
    stageManager: Option<StageManager>,
    eventManager: Option<EventManager>,
    signalManager: Option<SignalManager>)

  /** What `GetComponent` hands back: the field, which may be a nil pointer. */
  datatype Component =
    | ProcessMgr(pm: Option<ProcessManager>)
    | StageMgr(sm: Option<StageManager>)
    | EventMgr(em: Option<EventManager>)
    | SignalMgr(sig: Option<SignalManager>)

  /** `newComponents(logger)`: the three registries, empty; the signal manager is never set. */
  function NewComponents(): (c: Components)
    ensures c.processManager == Some(NewProcessManager())
    ensures c.stageManager == Some(NewStageManager())
    ensures c.eventManager == Some(NewEventManager())
    ensures c.signalManager.None?
  {
    Components(Some(NewProcessManager()), Some(NewStageManager()), Some(NewEventManager()), None)
  }

  const ComponentNames: set<string> := {"process_manager", "stage_manager", "event_manager", "signal_manager"}

  /**
   `GetComponent(name)`: the four snake_case names give the matching field
   and true, even when that field is nil; any other name gives (nil, false).
   */
  function GetComponent(c: Components, name: string): (r: (Option<Component>, bool))
    ensures r.1 <==> name in ComponentNames
    ensures r.0.Some? <==> r.1
    ensures name == "process_manager" ==> r.0 == Some(ProcessMgr(c.processManager))
    ensures name == "stage_manager" ==> r.0 == Some(StageMgr(c.stageManager))
    ensures name == "event_manager" ==> r.0 == Some(EventMgr(c.eventManager))
    ensures name == "signal_manager" ==> r.0 == Some(SignalMgr(c.signalManager))
  {
    if name == "process_manager" then (Some(ProcessMgr(c.processManager)), true)
    else if name == "stage_manager" then (Some(StageMgr(c.stageManager)), true)
    else if name == "event_manager" then (Some(EventMgr(c.eventManager)), true)
    else if name == "signal_manager" then (Some(SignalMgr(c.signalManager)), true)
    else (None, false)
  }

  // ---------------------------------------------------------------------
  // Properties
  // ---------------------------------------------------------------------

  /** Adding an event and removing it again restores the registry; a second add of the same name fails. */
  lemma AddThenRemoveEvent(m: EventManager, name: string, obj: EventObj)
    requires name !in m.events
    ensures var a := AddEvent(m, name, obj);
      && a.0 == Pass
      && TriggerEvent(a.1, name) == Pass
      && AddEvent(a.1, name, obj).0.Fail?
      && RemoveEvent(a.1, name) == (Pass, m)
  {
    assert AddEvent(m, name, obj).1.events - {name} == m.events;
  }

  /** `RemoveStage` and `RemoveProcess` are idempotent. */
  lemma RemovalsIdempotent(s: StageManager, p: ProcessManager, name: string)
    ensures RemoveStage(RemoveStage(s, name).1, name) == RemoveStage(s, name)
    ensures RemoveProcess(RemoveProcess(p, name).1, name) == RemoveProcess(p, name)
  {
    assert (s.stages - {name}) - {name} == s.stages - {name};
    assert (p.processes - {name}) - {name} == p.processes - {name};
  }

  /**
   A stage added under any name is what `GetStage` and `SetCurrentStage`
   return and makes `CurrentStage` non-nil; adding another under that name
   replaces it, and removing it makes the lookup fail.
   */
  lemma AddThenGetStage(m: StageManager, name: string, obj: StageObj, other: StageObj, order: seq<string>)
    requires Seqs.IsOrderOf(order, AddStage(m, name, obj).1.stages)
    ensures var a := AddStage(m, name, obj).1;
      && GetStage(a, name) == Ok(obj)
      && SetCurrentStage(a, name) == Ok(obj)
      && CurrentStage(a, order).Some?
      && GetStage(AddStage(a, name, other).1, name) == Ok(other)
      && GetStage(RemoveStage(a, name).1, name) == Err("stage " + name + " not found")
    ensures name !in m.stages ==> RemoveStage(AddStage(m, name, obj).1, name).1 == m
  {
    var a := AddStage(m, name, obj).1;
    assert name in a.stages;
    assert a.stages - {name} == m.stages - {name};
  }

  /** A stored process is read back and counted by `CurrentProcess`; starting it passes when a string comes back, and panics on an object of another type. */
  lemma AddThenGetProcess(m: ProcessManager, name: string, obj: ProcessObj, order: seq<string>)
    requires Seqs.IsOrderOf(order, AddProcess(m, name, Some(Some(obj))).1.processes)
    ensures var a := AddProcess(m, name, Some(Some(obj))).1;
      && GetProcess(a, name) == Ok(obj)
      && StartProcess(a, name, Pass, StringObject) == Returns(Pass)
      && StartProcess(a, name, Pass, OtherObject("int")).Panics?
      && CurrentProcess(a, order).Some?
  {
    var a := AddProcess(m, name, Some(Some(obj))).1;
    assert name in a.processes;
  }

  /**
   The names the lifecycle's start and shutdown paths look up are not
   recognised, while "signal_manager" is reported present on fresh
   components although the manager is nil.
   */
  lemma LifecycleLookupsMiss(c: Components)
    ensures !GetComponent(c, "processManager").1
    ensures !GetComponent(c, "stageManager").1
    ensures !GetComponent(c, "eventManager").1
    ensures GetComponent(NewComponents(), "signal_manager") == (Some(SignalMgr(None)), true)
  {
  }
}
