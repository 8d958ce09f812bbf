/**
 The lifecycle manager (internal/lifecycle.go with its initialisers in
 internal/utils.go). After `Initialize` it holds four named registries
 (processes, stages, events, channels), a current process and a current
 stage. Stages form the base graph init -> execute -> end -> init, and the
 current stage moves only along that graph.

 The Go struct keeps everything in `controllers map[string]any`; the model
 gives each entry its own typed field. Locks are no-ops, and the receiver is
 never nil.
 */
module Lifecycle {
  import opened Wrappers
  import opened Strings
  import TaskStage

  /** The data of every stage this manager builds: `nil`. */
  datatype Nil = Nil

  type BaseStage = TaskStage.Stage<Nil>

  /** The main process input, reduced to what the manager reads from it. */
  datatype Input = Input(name: string, command: string, args: seq<string>, waitFor: bool, running: bool)

  /** A managed process as `NewManagedProcess` builds it from an input. */
  datatype Process = Process(name: string, command: string, args: seq<string>, waitFor: bool)

  /** An event object, known by identity. */
  datatype Event = Event(id: nat)

  /** A `*ChannelCtl`: its name and buffer size. */
  datatype Channel = Channel(name: string, buffers: nat)

  datatype Controllers = Controllers(
    mainProcess: Input,
    processes: map<string, Process>,
    stages: map<string, BaseStage>,
    events: map<string, Event>,
    channels: map<string, Channel>,
    currentStage: Option<BaseStage>,
    currentProcess: Option<Process>)

  /**
   The manager. `input`, `hasMutexes` and `hasLogger` say whether those
   fields are non-nil; `controllers` is `None` until `Initialize` creates it.
   */
  datatype LifeCycle = LifeCycle(
    name: string,
    input: Option<Input>,
    hasMutexes: bool,
    hasLogger: bool,
    controllers: Option<Controllers>,
    initialized: bool)

  function ManagedFrom(input: Input): Process
  {
    Process(input.name, input.command, input.args, input.waitFor)
  }

  function Quote(name: string): string
  {
    "'" + name + "'"
  }

  // ---------------------------------------------------------------------
  // Registry rules shared by the four maps
  // ---------------------------------------------------------------------

  /** Lookup that errors on an unknown name. */
  function Lookup<V>(m: map<string, V>, kind: string, name: string): (r: Result<V>)
    ensures r.Ok? <==> name in m
    ensures r.Ok? ==> r.value == m[name]
    ensures r.Err? ==> r.msg == kind + " " + Quote(name) + " does not exist"
  {
    if name in m then Ok(m[name]) else Err(kind + " " + Quote(name) + " does not exist")
  }

  /** Insert that rejects an existing name and leaves the map unchanged then. */
  function InsertNew<V>(m: map<string, V>, kind: string, name: string, v: V): (r: (Outcome, map<string, V>))
    ensures r.0 == Pass <==> name !in m
    ensures r.0.Fail? ==> r.0.msg == kind + " " + Quote(name) + " already exists" && r.1 == m
    ensures r.1.Keys == m.Keys + {name}
    ensures name !in m ==> r.1[name] == v
    ensures forall k :: k in m ==> r.1[k] == m[k]
  {
    if name in m then (Fail(kind + " " + Quote(name) + " already exists"), m) else (Pass, m[name := v])
  }

  /** Insert that keeps an already-registered entry and reports success either way. */
  function InsertKeep<V>(m: map<string, V>, name: string, v: V): (r: map<string, V>)
    ensures r.Keys == m.Keys + {name}
    ensures name !in m ==> r[name] == v
    ensures forall k :: k in m ==> r[k] == m[k]
  {
    if name in m then m else m[name := v]
  }

  /** Delete that errors on an unknown name and otherwise removes only that key. */
  function Delete<V>(m: map<string, V>, kind: string, name: string): (r: (Outcome, map<string, V>))
    ensures r.0 == Pass <==> name in m
    ensures r.0.Fail? ==> r.0.msg == kind + " " + Quote(name) + " does not exist"
    ensures r.1.Keys == m.Keys - {name}
    ensures forall k :: k in r.1 ==> r.1[k] == m[k]
  {
    if name in m then (Pass, m - {name}) else (Fail(kind + " " + Quote(name) + " does not exist"), m)
  }

  // ---------------------------------------------------------------------
  // Processes
  // ---------------------------------------------------------------------

  function GetProcess(c: Controllers, name: string): (r: Result<Process>)
    ensures r.Ok? <==> name in c.processes
    ensures r.Ok? ==> r.value == c.processes[name]
  {
    Lookup(c.processes, "process", name)
  }

  /** `AddProcess(name, input)`: rejects an existing name; otherwise stores a process built from `input`. */
  function AddProcess(c: Controllers, name: string, input: Input): (r: (Outcome, Controllers))
    ensures r.0 == Pass <==> name !in c.processes
    ensures r.0.Fail? ==> r.1 == c && r.0.msg == "process " + Quote(name) + " already exists"
    ensures r.0 == Pass ==> r.1.processes == c.processes[name := ManagedFrom(input)]
    ensures r.1.(processes := c.processes) == c
  {
    var (out, m) := InsertNew(c.processes, "process", name, ManagedFrom(input));
    (out, c.(processes := m))
  }

  /** `RemoveProcess(name)`: rejects a missing name; otherwise deletes only that key. */
  function RemoveProcess(c: Controllers, name: string): (r: (Outcome, Controllers))
    ensures r.0 == Pass <==> name in c.processes
    ensures r.0.Fail? ==> r.1 == c
    ensures r.1.processes == c.processes - {name}
    ensures r.1.(processes := c.processes) == c
  {
    var (out, m) := Delete(c.processes, "process", name);
    (out, c.(processes := m))
  }

  // ---------------------------------------------------------------------
  // Stages
  // ---------------------------------------------------------------------

  function GetStage(c: Controllers, name: string): (r: Result<BaseStage>)
    ensures r.Ok? <==> name in c.stages
    ensures r.Ok? ==> r.value == c.stages[name]
  {
    Lookup(c.stages, "stage", name)
  }

  /**
   `AddStage(name, stage)`: a nil stage or an empty name is an error; a
   registered name is left as it is and nil is returned.
   */
  function AddStage(c: Controllers, name: string, stage: Option<BaseStage>): (r: (Outcome, Controllers))
    ensures stage.None? ==> r == (Fail("stage is nil"), c)
    ensures stage.Some? && name == "" ==> r == (Fail("stage name is empty"), c)
    ensures r.0 == Pass <==> stage.Some? && name != ""
    ensures r.0 == Pass && name in c.stages ==> r.1 == c
    ensures r.0 == Pass && name !in c.stages ==> r.1.stages == c.stages[name := stage.value]
    ensures r.1.(stages := c.stages) == c
  {
    if stage.None? then (Fail("stage is nil"), c)
    else if name == "" then (Fail("stage name is empty"), c)
    else (Pass, c.(stages := InsertKeep(c.stages, name, stage.value)))
  }

  /** `RemoveStage(name)`: rejects a missing name; otherwise deletes only that key. */
  function RemoveStage(c: Controllers, name: string): (r: (Outcome, Controllers))
    ensures r.0 == Pass <==> name in c.stages
    ensures r.0.Fail? ==> r.1 == c
    ensures r.1.stages == c.stages - {name}
    ensures r.1.(stages := c.stages) == c
  {
    var (out, m) := Delete(c.stages, "stage", name);
    (out, c.(stages := m))
  }

  /**
   `SetCurrentStage(name)`. With a current stage: its own name returns it
   unchanged, and a name outside its `PossibleNext` is refused before the
   registry is consulted. Then an unregistered name is refused; otherwise the
   registered stage becomes current. Only the current stage ever changes.
   */
  function SetCurrentStage(c: Controllers, name: string): (r: (Result<BaseStage>, Controllers))
    ensures r.1.(currentStage := c.currentStage) == c
    ensures r.0.Err? ==> r.1 == c
    ensures r.0.Ok? ==> r.1.currentStage == Some(r.0.value)
    ensures c.currentStage.Some? && c.currentStage.value.name == name ==> r == (Ok(c.currentStage.value), c)
    ensures c.currentStage.Some? && c.currentStage.value.name != name && name !in c.currentStage.value.next ==>
              r.0 == Err("stage " + Quote(c.currentStage.value.name) + " cannot transition to " + Quote(name))
    ensures r.0.Ok? <==>
              (c.currentStage.Some? && c.currentStage.value.name == name) ||
              (name in c.stages && (c.currentStage.None? || name in c.currentStage.value.next))
    ensures r.0.Ok? && !(c.currentStage.Some? && c.currentStage.value.name == name) ==> r.0.value == c.stages[name]
  {
    if c.currentStage.Some? && c.currentStage.value.name == name then
      (Ok(c.currentStage.value), c)
    else if c.currentStage.Some? && !TaskStage.CanTransitionTo(c.currentStage.value, name) then
      (Err("stage " + Quote(c.currentStage.value.name) + " cannot transition to " + Quote(name)), c)
    else if name !in c.stages then
      (Err("stage " + Quote(name) + " does not exist"), c)
    else
      (Ok(c.stages[name]), c.(currentStage := Some(c.stages[name])))
  }

  /**
   `StartLifecycle`: refuses an empty stage registry, then moves to "init"
   and on to "execute", stopping at the first refusal.
   */
  function StartLifecycle(c: Controllers): (r: (Outcome, Controllers))
    ensures |c.stages| == 0 ==> r == (Fail("no stages available to start lifecycle"), c)
    ensures r.1.(currentStage := c.currentStage) == c
    ensures r.0 == Pass ==> |c.stages| > 0 && SetCurrentStage(c, "init").0.Ok?
    ensures r.0 == Pass ==> r.1 == SetCurrentStage(SetCurrentStage(c, "init").1, "execute").1
    ensures r.0 == Pass ==> SetCurrentStage(SetCurrentStage(c, "init").1, "execute").0.Ok?
    ensures |c.stages| > 0 && SetCurrentStage(c, "init").0.Err? ==>
              r == (Fail("error setting current stage to 'init': " + SetCurrentStage(c, "init").0.msg), c)
    ensures |c.stages| > 0 && SetCurrentStage(c, "init").0.Ok? &&
            SetCurrentStage(SetCurrentStage(c, "init").1, "execute").0.Err? ==>
              r == (Fail("error setting current stage to 'execute': "
                         + SetCurrentStage(SetCurrentStage(c, "init").1, "execute").0.msg),
                    SetCurrentStage(c, "init").1)
  {
    if |c.stages| == 0 then (Fail("no stages available to start lifecycle"), c)
    else
      var (init, c1) := SetCurrentStage(c, "init");
      if init.Err? then (Fail("error setting current stage to 'init': " + init.msg), c1)
      else
        var (exec, c2) := SetCurrentStage(c1, "execute");
        if exec.Err? then (Fail("error setting current stage to 'execute': " + exec.msg), c2)
        else (Pass, c2)
  }

  // ---------------------------------------------------------------------
  // Events
  // ---------------------------------------------------------------------

  function GetEvent(c: Controllers, name: string): (r: Result<Event>)
    ensures r.Ok? <==> name in c.events
    ensures r.Ok? ==> r.value == c.events[name]
  {
    Lookup(c.events, "event", name)
  }

  /** `AddEvent(name, event)`: rejects a duplicate name, leaving the map unchanged. */
  function AddEvent(c: Controllers, name: string, event: Event): (r: (Outcome, Controllers))
    ensures r.0 == Pass <==> name !in c.events
    ensures r.0.Fail? ==> r.1 == c && r.0.msg == "event " + Quote(name) + " already exists"
    ensures r.0 == Pass ==> r.1.events == c.events[name := event]
    ensures r.1.(events := c.events) == c
  {
    var (out, m) := InsertNew(c.events, "event", name, event);
    (out, c.(events := m))
  }

  /** `RemoveEvent(name)`: rejects a missing name, otherwise deletes only that key. */
  function RemoveEvent(c: Controllers, name: string): (r: (Outcome, Controllers))
    ensures r.0 == Pass <==> name in c.events
    ensures r.0.Fail? ==> r.1 == c && r.0.msg == "event " + Quote(name) + " does not exist"
    ensures r.1.events == c.events - {name}
    ensures r.1.(events := c.events) == c
  {
    var (out, m) := Delete(c.events, "event", name);
    (out, c.(events := m))
  }

  /** `TriggerEvent(name, data)`: errors exactly for an unknown name; the registry is never touched. */
  function TriggerEvent(c: Controllers, name: string): (r: Outcome)
    ensures r == Pass <==> name in c.events
    ensures r.Fail? ==> r.msg == "event " + Quote(name) + " does not exist"
  {
    if name in c.events then Pass else Fail("event " + Quote(name) + " does not exist")
  }

  // ---------------------------------------------------------------------
  // Channels
  // ---------------------------------------------------------------------

  /**
   `GetChannel` as written: it asserts each entry to the struct type
   `ChannelCtl`, but every entry is a `*ChannelCtl` pointer, so the assertion
   fails for every registered name.
   */
  function GetChannelAsWritten(c: Controllers, name: string): (r: Result<Channel>)
    ensures r.Err?
    ensures name in c.channels ==> r.msg == "failed to cast channel " + Quote(name)
    ensures name !in c.channels ==> r.msg == "channel " + Quote(name) + " does not exist"
  {
    if name in c.channels then Err("failed to cast channel " + Quote(name))
    else Err("channel " + Quote(name) + " does not exist")
  }

  /** `AddChannel` as written: the failing lookup makes it overwrite a registered name. */
  function AddChannelAsWritten(c: Controllers, name: string, channel: Option<Channel>): (r: (Outcome, Controllers))
    ensures r.0 == Pass <==> channel.Some? && name != ""
    ensures r.0 == Pass ==> r.1.channels == c.channels[name := channel.value]
    ensures r.0.Fail? ==> r.1 == c
    ensures r.1.(channels := c.channels) == c
  {
    if channel.None? then (Fail("channel is nil"), c)
    else if name == "" then (Fail("channel name is empty"), c)
    else if GetChannelAsWritten(c, name).Err? then (Pass, c.(channels := c.channels[name := channel.value]))
    else (Pass, c)
  }

  /** `RemoveChannel` as written: the failing lookup makes it refuse every name. */
  function RemoveChannelAsWritten(c: Controllers, name: string): (r: (Outcome, Controllers))
    ensures r == (Fail("channel " + Quote(name) + " does not exist"), c)
  {
    if GetChannelAsWritten(c, name).Err? then (Fail("channel " + Quote(name) + " does not exist"), c)
    else (Pass, c.(channels := c.channels - {name}))
  }

  /** `GetChannel` with the assertion made to the pointer type that is stored. */
  function GetChannel(c: Controllers, name: string): (r: Result<Channel>)
    ensures r.Ok? <==> name in c.channels
    ensures r.Ok? ==> r.value == c.channels[name]
  {
    Lookup(c.channels, "channel", name)
  }

  /** `AddChannel` over the corrected lookup: a registered name is kept, as for stages. */
  function AddChannel(c: Controllers, name: string, channel: Option<Channel>): (r: (Outcome, Controllers))
    ensures channel.None? ==> r == (Fail("channel is nil"), c)
    ensures channel.Some? && name == "" ==> r == (Fail("channel name is empty"), c)
    ensures r.0 == Pass <==> channel.Some? && name != ""
    ensures r.0 == Pass && name in c.channels ==> r.1 == c
    ensures r.0 == Pass && name !in c.channels ==> r.1.channels == c.channels[name := channel.value]
    ensures r.1.(channels := c.channels) == c
  {
    if channel.None? then (Fail("channel is nil"), c)
    else if name == "" then (Fail("channel name is empty"), c)
    else if GetChannel(c, name).Err? then (Pass, c.(channels := c.channels[name := channel.value]))
    else (Pass, c)
  }

  /** `RemoveChannel` over the corrected lookup: deletes exactly a registered name. */
  function RemoveChannel(c: Controllers, name: string): (r: (Outcome, Controllers))
    ensures r.0 == Pass <==> name in c.channels
    ensures r.0.Fail? ==> r.1 == c && r.0.msg == "channel " + Quote(name) + " does not exist"
    ensures r.1.channels == c.channels - {name}
    ensures r.1.(channels := c.channels) == c
  {
    if GetChannel(c, name).Err? then (Fail("channel " + Quote(name) + " does not exist"), c)
    else (Pass, c.(channels := c.channels - {name}))
  }

  // ---------------------------------------------------------------------
  // Initialisation (internal/utils.go)
  // ---------------------------------------------------------------------

  /** `GetDefaultBufferSizes`: small, medium and large channel buffers. */
  function DefaultBufferSizes(): (r: (nat, nat, nat))
    ensures r.0 < r.1 < r.2
  {
    (2, 5, 10)
  }

  const ChannelNames: set<string> :=
    {"chanCtl", "chanProcess", "chanStage", "chanEvent", "chanSignal",
     "chanDone", "chanExit", "chanError", "chanMessage"}

  /** `initializeChannels`: registers (or replaces) the nine standard channels. */
  function InitializeChannels(c: Controllers): (r: Controllers)
    ensures r.channels.Keys == c.channels.Keys + ChannelNames
    ensures forall k :: k in c.channels && k !in ChannelNames ==> r.channels[k] == c.channels[k]
    ensures forall k :: k in ChannelNames ==> r.channels[k].name == k
    ensures forall k :: k in {"chanCtl", "chanSignal", "chanDone", "chanExit", "chanError"} ==>
              r.channels[k].buffers == DefaultBufferSizes().0
    ensures r.channels["chanStage"].buffers == DefaultBufferSizes().1
    ensures forall k :: k in {"chanProcess", "chanEvent", "chanMessage"} ==>
              r.channels[k].buffers == DefaultBufferSizes().2
    ensures r.(channels := c.channels) == c
  {
    var (sm, md, lg) := DefaultBufferSizes();
    c.(channels := c.channels
      ["chanCtl" := Channel("chanCtl", sm)]
      ["chanProcess" := Channel("chanProcess", lg)]
      ["chanStage" := Channel("chanStage", md)]
      ["chanEvent" := Channel("chanEvent", lg)]
      ["chanSignal" := Channel("chanSignal", sm)]
      ["chanDone" := Channel("chanDone", sm)]
      ["chanExit" := Channel("chanExit", sm)]
      ["chanError" := Channel("chanError", sm)]
      ["chanMessage" := Channel("chanMessage", lg)])
  }

  /**
   `initializeProcess`: refuses a running main input or a name already
   registered; otherwise registers exactly one process under the input's
   name and records it as the current process.
   */
  function InitializeProcess(c: Controllers): (r: (Outcome, Controllers))
    ensures c.mainProcess.running ==> r == (Fail("main process is already running"), c)
    ensures !c.mainProcess.running && c.mainProcess.name in c.processes ==>
              r == (Fail("main process " + Quote(c.mainProcess.name) + " already exists"), c)
    ensures r.0 == Pass <==> !c.mainProcess.running && c.mainProcess.name !in c.processes
    ensures r.0 == Pass ==> r.1.processes == c.processes[c.mainProcess.name := ManagedFrom(c.mainProcess)]
    ensures r.0 == Pass ==> r.1.currentProcess == Some(ManagedFrom(c.mainProcess))
    ensures r.1.(processes := c.processes, currentProcess := c.currentProcess) == c
  {
    var input := c.mainProcess;
    if input.running then (Fail("main process is already running"), c)
    else if input.name in c.processes then (Fail("main process " + Quote(input.name) + " already exists"), c)
    else
      var p := ManagedFrom(input);
      (Pass, c.(processes := c.processes[input.name := p], currentProcess := Some(p)))
  }

  /** The three stages `setBaseStages` builds, with their transitions and handlers. */
  function InitStage(): BaseStage
  {
    var s := TaskStage.NewStage("init", "Initialization stage", "base", None, Nil);
    var s := s.(next := ["execute"]);
    var s := TaskStage.OnEnter(s, TaskStage.Hook(0));
    var s := TaskStage.OnEvent(s, "start", TaskStage.Handler(0));
    TaskStage.OnEvent(s, "stop", TaskStage.Handler(1))
  }

  function ExecuteStage(): BaseStage
  {
    var s := TaskStage.NewStage("execute", "Execution stage", "base", None, Nil);
    var s := s.(next := ["end"], prev := ["init"]);
    var s := TaskStage.OnEnter(s, TaskStage.Hook(1));
    var s := TaskStage.OnEvent(s, "start", TaskStage.Handler(2));
    TaskStage.OnEvent(s, "stop", TaskStage.Handler(3))
  }

  function EndStage(): BaseStage
  {
    var s := TaskStage.NewStage("end", "End stage", "base", None, Nil);
    s.(next := ["init"], prev := ["execute"])
  }

  function BaseStages(): (m: map<string, BaseStage>)
    ensures m.Keys == {"init", "execute", "end"}
    ensures forall k :: k in m ==> m[k].name == k
  {
    map["init" := InitStage(), "execute" := ExecuteStage(), "end" := EndStage()]
  }

  /** `initializeStages`: adds each base stage whose name is absent and leaves registered names alone. */
  function InitializeStages(c: Controllers): (r: Controllers)
    ensures r.stages.Keys == c.stages.Keys + BaseStages().Keys
    ensures forall k :: k in c.stages ==> r.stages[k] == c.stages[k]
    ensures forall k :: k in BaseStages() && k !in c.stages ==> r.stages[k] == BaseStages()[k]
    ensures r.(stages := c.stages) == c
  {
    var base := BaseStages();
    KeepThenAdd(c.stages, base);
    c.(stages := InsertKeep(InsertKeep(InsertKeep(c.stages, "init", base["init"]), "execute", base["execute"]), "end", base["end"]))
  }

  /** The three keep-inserts of `initializeStages` on any registry: old entries stay, missing base entries are added. */
  lemma KeepThenAdd<V>(m: map<string, V>, base: map<string, V>)
    requires base.Keys == {"init", "execute", "end"}
    ensures var r := InsertKeep(InsertKeep(InsertKeep(m, "init", base["init"]), "execute", base["execute"]), "end", base["end"]);
      && r.Keys == m.Keys + base.Keys
      && (forall k :: k in m ==> r[k] == m[k])
      && (forall k :: k in base && k !in m ==> r[k] == base[k])
  {
  }

  /** `getBaseEvents`: a fresh "start" and "stop" event. */
  function BaseEvents(): (m: map<string, Event>)
    ensures m.Keys == {"start", "stop"}
  {
    map["start" := Event(0), "stop" := Event(1)]
  }

  /**
   `initializeEvents`: adds "start" and "stop" through `AddEvent`; a
   duplicate is only logged, so the call always succeeds.
   */
  function InitializeEvents(c: Controllers): (r: (Outcome, Controllers))
    ensures r.0 == Pass
    ensures r.1.events.Keys == c.events.Keys + {"start", "stop"}
    ensures forall k :: k in c.events ==> r.1.events[k] == c.events[k]
    ensures r.1.(events := c.events) == c
  {
    var c1 := AddEvent(c, "start", BaseEvents()["start"]).1;
    (Pass, AddEvent(c1, "stop", BaseEvents()["stop"]).1)
  }

  /** The registries `Initialize` creates before filling them. */
  function EmptyControllers(input: Input): Controllers
  {
    Controllers(input, map[], map[], map[], map[], None, None)
  }

  /**
   `Initialize`: checks the input, the mutexes and the logger, refuses a
   manager whose controllers already exist, then creates the registries and
   runs the process, stage and channel initialisers (never the event one).
   A failing process step leaves the new controllers in place.
   */
  function Initialize(lc: LifeCycle): (r: (LifeCycle, Outcome))
    ensures lc.input.None? ==> r == (lc, Fail("LifeCycle process input is nil"))
    ensures lc.input.Some? && !lc.hasMutexes ==> r == (lc, Fail("LifeCycle mutexes is nil"))
    ensures lc.input.Some? && lc.hasMutexes && !lc.hasLogger ==> r == (lc, Fail("LifeCycle logger is nil"))
    ensures lc.input.Some? && lc.hasMutexes && lc.hasLogger && lc.controllers.Some? ==>
              r == (lc, Fail("lifecycle manager controllers already initialized"))
    ensures r.1 == Pass <==>
              lc.input.Some? && lc.hasMutexes && lc.hasLogger && lc.controllers.None? && !lc.input.value.running
    ensures lc.input.Some? && lc.hasMutexes && lc.hasLogger ==> r.0.controllers.Some?
    ensures r.1 == Pass ==> r.0.initialized
    ensures r.0.(controllers := lc.controllers, initialized := lc.initialized) == lc
  {
    if lc.input.None? then (lc, Fail("LifeCycle process input is nil"))
    else if !lc.hasMutexes then (lc, Fail("LifeCycle mutexes is nil"))
    else if !lc.hasLogger then (lc, Fail("LifeCycle logger is nil"))
    else if lc.controllers.Some? then (lc, Fail("lifecycle manager controllers already initialized"))
    else
      var (p, c1) := InitializeProcess(EmptyControllers(lc.input.value));
      if p.Fail? then (lc.(controllers := Some(c1)), Fail("error initializing process: " + p.msg))
      else
        var c3 := InitializeChannels(InitializeStages(c1));
        (lc.(controllers := Some(c3), initialized := true), Pass)
  }

  /** The snapshot line with the four counts already written out. */
  function SnapshotTemplate(name: string, p: string, s: string, e: string, ch: string): string
  {
    "Lifecycle [" + name + "]: Processes: " + p + ", Stages: " + s + ", Events: " + e + ", Channels: " + ch
  }

  /**
   `Snapshot`: "Lifecycle [{name}]: Processes: {p}, Stages: {s}, Events: {e},
   Channels: {c}", the four registry sizes as `%d` prints them.
   */
  function Snapshot(name: string, c: Controllers): (r: string)
    ensures |r| > |"Lifecycle [" + name + "]: Processes: "|
    ensures r[..|"Lifecycle [" + name + "]: Processes: "|] == "Lifecycle [" + name + "]: Processes: "
    ensures exists p: string, s: string, e: string, ch: string {:trigger SnapshotTemplate(name, p, s, e, ch)} ::
              && IsNumeral(p) && IsNumeral(s) && IsNumeral(e) && IsNumeral(ch)
              && DecimalValue(p) == |c.processes| && DecimalValue(s) == |c.stages|
              && DecimalValue(e) == |c.events| && DecimalValue(ch) == |c.channels|
              && r == SnapshotTemplate(name, p, s, e, ch)
  {
    SnapshotTemplate(name, NatToDecimal(|c.processes|), NatToDecimal(|c.stages|),
                     NatToDecimal(|c.events|), NatToDecimal(|c.channels|))
  }

  // ---------------------------------------------------------------------
  // Properties
  // ---------------------------------------------------------------------

  /** The base graph: init -> execute -> end -> init, with the back links the source records. */
  lemma BaseGraph()
    ensures BaseStages()["init"].next == ["execute"]
    ensures BaseStages()["execute"].next == ["end"] && BaseStages()["execute"].prev == ["init"]
    ensures BaseStages()["end"].next == ["init"] && BaseStages()["end"].prev == ["execute"]
    ensures forall a, b :: a in BaseStages() && b in BaseStages() ==>
              (TaskStage.CanTransitionTo(BaseStages()[a], b) <==>
                 (a, b) in {("init", "execute"), ("execute", "end"), ("end", "init")})
    ensures TaskStage.EventExists(BaseStages()["init"], "start") && TaskStage.EventExists(BaseStages()["execute"], "start")
    ensures !TaskStage.EventExists(BaseStages()["end"], "start")
  {
  }

  /** What a successful `Initialize` leaves behind: one process, the three base stages, no events, nine channels. */
  lemma InitializeContents(lc: LifeCycle)
    requires Initialize(lc).1 == Pass
    ensures var c := Initialize(lc).0.controllers.value;
      && c.processes == map[lc.input.value.name := ManagedFrom(lc.input.value)]
      && c.currentProcess == Some(ManagedFrom(lc.input.value))
      && c.stages == BaseStages()
      && c.events == map[]
      && c.channels.Keys == ChannelNames
      && c.currentStage.None?
  {
  }

  /** Once the controllers exist, every later `Initialize` fails, whether the first succeeded or not. */
  lemma InitializeTwiceFails(lc: LifeCycle)
    requires lc.input.Some? && lc.hasMutexes && lc.hasLogger
    ensures Initialize(Initialize(lc).0).1 == Fail("lifecycle manager controllers already initialized")
  {
  }

  /** From the base stages with no current stage, `StartLifecycle` passes through "init" and ends in "execute". */
  lemma StartFromBase(c: Controllers)
    requires c.stages == BaseStages() && c.currentStage.None?
    ensures StartLifecycle(c) == (Pass, c.(currentStage := Some(ExecuteStage())))
  {
    var c1 := c.(currentStage := Some(InitStage()));
    assert |c.stages.Keys| == 3;
    assert SetCurrentStage(c, "init") == (Ok(InitStage()), c1);
    assert InitStage().name == "init" && InitStage().next == ["execute"];
    assert SetCurrentStage(c1, "execute") == (Ok(ExecuteStage()), c1.(currentStage := Some(ExecuteStage())));
  }

  /** Stage `name` can be made current: it already is, or it is registered and reachable from the current stage. */
  predicate CanEnter(c: Controllers, name: string)
  {
    || (c.currentStage.Some? && c.currentStage.value.name == name)
    || (name in c.stages && (c.currentStage.None? || name in c.currentStage.value.next))
  }

  /** The stage that entering `name` makes current. */
  function Entered(c: Controllers, name: string): BaseStage
    requires CanEnter(c, name)
  {
    if c.currentStage.Some? && c.currentStage.value.name == name then c.currentStage.value else c.stages[name]
  }

  /** Every registered stage sits under its own name, as `initializeStages` registers them. */
  predicate StagesNamed(c: Controllers)
  {
    forall n :: n in c.stages ==> c.stages[n].name == n
  }

  /**
   `StartLifecycle` over any registry keyed by stage name: it succeeds exactly
   when there are stages, "init" can be entered, and "execute" is registered
   and a successor of the "init" stage entered; it then leaves the registered
   "execute" stage current and changes nothing else.
   */
  lemma StartLifecycleOutcome(c: Controllers)
    requires StagesNamed(c)
    ensures StartLifecycle(c).0 == Pass <==>
              |c.stages| > 0 && CanEnter(c, "init") && "execute" in c.stages && "execute" in Entered(c, "init").next
    ensures StartLifecycle(c).0 == Pass ==> StartLifecycle(c).1 == c.(currentStage := Some(c.stages["execute"]))
  {
    if |c.stages| > 0 && CanEnter(c, "init") {
      var c1 := c.(currentStage := Some(Entered(c, "init")));
      assert SetCurrentStage(c, "init") == (Ok(Entered(c, "init")), c1);
      assert Entered(c, "init").name == "init";
      assert SetCurrentStage(c1, "execute").0.Ok? <==> "execute" in c.stages && "execute" in Entered(c, "init").next;
    }
  }

  /** Once in "execute", starting again is refused: execute cannot go back to init. */
  lemma StartFromExecuteRefused(c: Controllers)
    requires |c.stages| > 0 && c.currentStage == Some(ExecuteStage())
    ensures StartLifecycle(c).0
         == Fail("error setting current stage to 'init': " + ("stage " + Quote("execute") + " cannot transition to " + Quote("init")))
  {
    var e := ExecuteStage();
    assert e.name == "execute" && e.next == ["end"];
    var msg := "stage " + Quote("execute") + " cannot transition to " + Quote("init");
    assert SetCurrentStage(c, "init").0 == Err(msg);
    assert StartLifecycle(c).0 == Fail("error setting current stage to 'init': " + msg);
  }

  /** Starting a freshly initialised manager ends in "execute"; starting it again is refused at "init". */
  lemma StartAfterInitialize(lc: LifeCycle)
    requires Initialize(lc).1 == Pass
    ensures var c := Initialize(lc).0.controllers.value;
      && StartLifecycle(c) == (Pass, c.(currentStage := Some(ExecuteStage())))
      && StartLifecycle(StartLifecycle(c).1).0
           == Fail("error setting current stage to 'init': " + ("stage " + Quote("execute") + " cannot transition to " + Quote("init")))
  {
    InitializeContents(lc);
    var c := Initialize(lc).0.controllers.value;
    StartFromBase(c);
    StartFromExecuteRefused(c.(currentStage := Some(ExecuteStage())));
  }

  /** A one-digit count prints as that digit. */
  lemma OneDigit(n: nat)
    requires n < 10
    ensures NatToDecimal(n) == ["0123456789"[n]]
  {
  }

  lemma BaseStagesCount()
    ensures |BaseStages()| == 3
  {
    assert BaseStages().Keys == {"init", "execute", "end"};
  }

  lemma ChannelNamesCount()
    ensures |ChannelNames| == 9
  {
  }

  /** The registry sizes of a freshly initialised manager. */
  lemma InitializeCounts(lc: LifeCycle)
    requires Initialize(lc).1 == Pass
    ensures var c := Initialize(lc).0.controllers.value;
      |c.processes| == 1 && |c.stages| == 3 && |c.events| == 0 && |c.channels| == 9
  {
    InitializeContents(lc);
    BaseStagesCount();
    ChannelNamesCount();
    var c := Initialize(lc).0.controllers.value;
    assert |c.channels| == |c.channels.Keys|;
  }

  /** The snapshot text for registries of sizes 1, 3, 0 and 9. */
  lemma SnapshotOfCounts(name: string, c: Controllers)
    requires |c.processes| == 1 && |c.stages| == 3 && |c.events| == 0 && |c.channels| == 9
    ensures Snapshot(name, c) == "Lifecycle [" + name + "]: Processes: 1, Stages: 3, Events: 0, Channels: 9"
  {
    OneDigit(1);
    OneDigit(3);
    OneDigit(0);
    OneDigit(9);
    SnapshotText(name, NatToDecimal(|c.processes|), NatToDecimal(|c.stages|),
                 NatToDecimal(|c.events|), NatToDecimal(|c.channels|));
  }

  /** The snapshot template filled with the digits 1, 3, 0 and 9. */
  lemma SnapshotText(name: string, p: string, s: string, e: string, ch: string)
    requires p == "1" && s == "3" && e == "0" && ch == "9"
    ensures "Lifecycle [" + name + "]: Processes: " + p + ", Stages: " + s + ", Events: " + e + ", Channels: " + ch
         == "Lifecycle [" + name + "]: Processes: 1, Stages: 3, Events: 0, Channels: 9"
  {
  }

  /** Two snapshots under one name are equal exactly when the four registry sizes are. */
  lemma SnapshotDeterminesCounts(name: string, c1: Controllers, c2: Controllers)
    ensures Snapshot(name, c1) == Snapshot(name, c2) <==>
              && |c1.processes| == |c2.processes| && |c1.stages| == |c2.stages|
              && |c1.events| == |c2.events| && |c1.channels| == |c2.channels|
  {
    if Snapshot(name, c1) == Snapshot(name, c2) {
      SnapshotReadsCounts(name, c1, c2);
    }
  }

  /** Equal snapshots under one name come from registries of equal sizes. */
  lemma SnapshotReadsCounts(name: string, c1: Controllers, c2: Controllers)
    requires Snapshot(name, c1) == Snapshot(name, c2)
    ensures |c1.processes| == |c2.processes| && |c1.stages| == |c2.stages|
    ensures |c1.events| == |c2.events| && |c1.channels| == |c2.channels|
  {
    var p1, p2 := NatToDecimal(|c1.processes|), NatToDecimal(|c2.processes|);
    var s1, s2 := NatToDecimal(|c1.stages|), NatToDecimal(|c2.stages|);
    var e1, e2 := NatToDecimal(|c1.events|), NatToDecimal(|c2.events|);
    var h1, h2 := NatToDecimal(|c1.channels|), NatToDecimal(|c2.channels|);
    SnapshotFields("Lifecycle [" + name + "]: Processes: ", p1, s1, e1, h1, p2, s2, e2, h2);
    NatToDecimalInjective(|c1.processes|, |c2.processes|);
    NatToDecimalInjective(|c1.stages|, |c2.stages|);
    NatToDecimalInjective(|c1.events|, |c2.events|);
    NatToDecimalInjective(|c1.channels|, |c2.channels|);
  }

  /** The four decimal fields of the snapshot template are read back from the text. */
  lemma SnapshotFields(pre: string, p1: string, s1: string, e1: string, h1: string,
                       p2: string, s2: string, e2: string, h2: string)
    requires IsDecimal(p1) && IsDecimal(s1) && IsDecimal(e1) && IsDecimal(h1)
    requires IsDecimal(p2) && IsDecimal(s2) && IsDecimal(e2) && IsDecimal(h2)
    requires pre + p1 + ", Stages: " + s1 + ", Events: " + e1 + ", Channels: " + h1
          == pre + p2 + ", Stages: " + s2 + ", Events: " + e2 + ", Channels: " + h2
    ensures p1 == p2 && s1 == s2 && e1 == e2 && h1 == h2
  {
    var x1, x2 := ", Channels: " + h1, ", Channels: " + h2;
    var w1, w2 := ", Events: " + (e1 + x1), ", Events: " + (e2 + x2);
    var v1, v2 := ", Stages: " + (s1 + w1), ", Stages: " + (s2 + w2);
    SnapshotRegroup(pre, p1, s1, e1, h1);
    SnapshotRegroup(pre, p2, s2, e2, h2);
    DecimalField(pre, p1, v1, p2, v2);
    DecimalField(", Stages: ", s1, w1, s2, w2);
    DecimalField(", Events: ", e1, x1, e2, x2);
    PeelPrefix(", Channels: ", h1, h2);
  }

  /** After a common prefix, a decimal field ends where a non-digit begins. */
  lemma DecimalField(k: string, a: string, x: string, b: string, y: string)
    requires IsDecimal(a) && IsDecimal(b)
    requires |x| > 0 && |y| > 0 && !('0' <= x[0] <= '9') && !('0' <= y[0] <= '9')
    requires k + (a + x) == k + (b + y)
    ensures a == b && x == y
  {
    PeelPrefix(k, a + x, b + y);
    DecimalSplit(a, x, b, y);
  }

  /** The snapshot text regrouped: the fixed prefix, then the rest nested to the right. */
  lemma SnapshotRegroup(pre: string, p: string, s: string, e: string, h: string)
    ensures pre + p + ", Stages: " + s + ", Events: " + e + ", Channels: " + h
         == pre + (p + (", Stages: " + (s + (", Events: " + (e + (", Channels: " + h))))))
  {
  }

  /** Equal strings with a common prefix agree after it. */
  lemma PeelPrefix(k: string, a: string, b: string)
    requires k + a == k + b
    ensures a == b
  {
    assert a == (k + a)[|k|..];
    assert b == (k + b)[|k|..];
  }

  /** The snapshot of a freshly initialised manager. */
  lemma SnapshotAfterInitialize(lc: LifeCycle)
    requires Initialize(lc).1 == Pass
    ensures Snapshot(lc.name, Initialize(lc).0.controllers.value)
         == "Lifecycle [" + lc.name + "]: Processes: 1, Stages: 3, Events: 0, Channels: 9"
  {
    InitializeCounts(lc);
    SnapshotOfCounts(lc.name, Initialize(lc).0.controllers.value);
  }

  /** `initializeEvents` on a fresh manager registers exactly "start" and "stop"; a second run changes nothing. */
  lemma InitializeEventsIdempotent(c: Controllers)
    ensures InitializeEvents(InitializeEvents(c).1).1 == InitializeEvents(c).1
  {
  }

  /** Adding a process and removing it again restores the registry. */
  lemma AddThenRemoveProcess(c: Controllers, name: string, input: Input)
    requires name !in c.processes
    ensures RemoveProcess(AddProcess(c, name, input).1, name) == (Pass, c)
  {
    assert AddProcess(c, name, input).1.processes - {name} == c.processes;
  }

  /**
   A stage added under a fresh non-empty name is read back; adding any stage
   under that name again passes and keeps the first one; removing it restores
   the registry.
   */
  lemma AddThenRemoveStage(c: Controllers, name: string, stage: BaseStage, other: BaseStage)
    requires name != "" && name !in c.stages
    ensures var a := AddStage(c, name, Some(stage));
      && a.0 == Pass
      && GetStage(a.1, name) == Ok(stage)
      && AddStage(a.1, name, Some(other)) == (Pass, a.1)
      && RemoveStage(a.1, name) == (Pass, c)
      && GetStage(RemoveStage(a.1, name).1, name).Err?
  {
    assert AddStage(c, name, Some(stage)).1.stages - {name} == c.stages;
  }

  /**
   An unknown event cannot be triggered; once added it is read back and can
   be triggered, a second add is refused, and removing it restores the
   registry.
   */
  lemma AddThenRemoveEvent(c: Controllers, name: string, event: Event, other: Event)
    requires name !in c.events
    ensures TriggerEvent(c, name).Fail?
    ensures var a := AddEvent(c, name, event);
      && a.0 == Pass
      && GetEvent(a.1, name) == Ok(event)
      && TriggerEvent(a.1, name) == Pass
      && AddEvent(a.1, name, other) == (Fail("event " + Quote(name) + " already exists"), a.1)
      && RemoveEvent(a.1, name) == (Pass, c)
      && TriggerEvent(RemoveEvent(a.1, name).1, name).Fail?
  {
    assert AddEvent(c, name, event).1.events - {name} == c.events;
  }

  /** The channel lookup bug: after initialisation "chanCtl" is registered, yet removing it is refused. */
  lemma RemoveChannelNeverSucceeds(lc: LifeCycle)
    requires Initialize(lc).1 == Pass
    ensures "chanCtl" in Initialize(lc).0.controllers.value.channels
    ensures RemoveChannelAsWritten(Initialize(lc).0.controllers.value, "chanCtl").0.Fail?
    ensures RemoveChannel(Initialize(lc).0.controllers.value, "chanCtl").0 == Pass
  {
    InitializeContents(lc);
  }

  /** The same bug lets `AddChannel` replace a registered channel; the corrected one keeps it. */
  lemma AddChannelOverwrites(c: Controllers, ch: Channel)
    requires "chanCtl" in c.channels && c.channels["chanCtl"] != ch
    ensures AddChannelAsWritten(c, "chanCtl", Some(ch)).1.channels["chanCtl"] == ch
    ensures AddChannel(c, "chanCtl", Some(ch)).1.channels["chanCtl"] == c.channels["chanCtl"]
  {
  }
}
