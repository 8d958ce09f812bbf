/**
 The process/stage/event manager of internal/life_cycle.go (`gWebLifeCycle`):
 a map of managed processes, a map of stages and a list of registered event
 bundles.

 A process is known by its registration arguments; starting and stopping it
 is the operating system's business and comes in as a parameter. A stage
 is the internal/stage.go stage plus the `Data` it carries. An event bundle
 is modelled by its `Name` (what `Event()` returns), the event keys it
 handles and the stage it was registered for.
 */
module WebLifecycle {
  import opened Wrappers
  import Seqs
  import Metadata
  import InternalStage

  datatype Process = Process(name: string, command: string, args: seq<string>, restart: bool, customFn: nat)

  datatype StageEntry = StageEntry(stage: InternalStage.Stage, data: Option<Metadata.Any>)

  datatype EventBundle = EventBundle(name: string, keys: set<string>, stage: string)

  datatype Web = Web(
    processes: map<string, Process>,
    stages: map<string, StageEntry>,
    events: seq<EventBundle>)

  /** `RegisterProcess(name, command, args, restart, customFn)`: stores under the name, replacing any entry; never errors. */
  function RegisterProcess(w: Web, name: string, command: string, args: seq<string>, restart: bool, customFn: nat): (r: (Outcome, Web))
    ensures r.0 == Pass
    ensures r.1.processes == w.processes[name := Process(name, command, args, restart, customFn)]
    ensures r.1.(processes := w.processes) == w
  {
    (Pass, w.(processes := w.processes[name := Process(name, command, args, restart, customFn)]))
  }

  /**
   `RegisterEvent(event, stage)` as written: appends one bundle whose only
   handler key is `event`; `NewManagedProcessEvents` never sets the
   bundle's `Name`, so its `Event()` is "".
   */
  function RegisterEventAsWritten(w: Web, event: string, stage: string): (r: (Outcome, Web))
    ensures r.0 == Pass
    ensures r.1.events == w.events + [EventBundle("", {event}, stage)]
    ensures r.1.(events := w.events) == w
  {
    (Pass, w.(events := w.events + [EventBundle("", {event}, stage)]))
  }

  /** `RegisterEvent` as evidently intended: the appended bundle answers `Event()` with its event name. */
  function RegisterEvent(w: Web, event: string, stage: string): (r: (Outcome, Web))
    ensures r.0 == Pass
    ensures r.1.events == w.events + [EventBundle(event, {event}, stage)]
    ensures r.1.(events := w.events) == w
  {
    (Pass, w.(events := w.events + [EventBundle(event, {event}, stage)]))
  }

  /** The names `Event()` reports, in list order. */
  function EventNames(events: seq<EventBundle>): (ns: seq<string>)
    ensures |ns| == |events|
    ensures forall i :: 0 <= i < |events| ==> ns[i] == events[i].name
  {
    seq(|events|, i requires 0 <= i < |events| => events[i].name)
  }

  /**
   `RemoveEvent(event, stage)`: removes the first bundle whose `Event()` is
   `event`, keeping the rest in order; the stage plays no part in the match
   and only appears in the error.
   */
  function RemoveEvent(w: Web, event: string, stage: string): (r: (Outcome, Web))
    ensures r.0 == Pass <==> exists i :: 0 <= i < |w.events| && w.events[i].name == event
    ensures r.0.Fail? ==> r == (Fail("evento " + event + " não encontrado em " + stage), w)
    ensures r.0 == Pass ==> exists i :: 0 <= i < |w.events| && w.events[i].name == event
                              && (forall k :: 0 <= k < i ==> w.events[k].name != event)
                              && r.1.events == w.events[..i] + w.events[i + 1..]
    ensures r.1.(events := w.events) == w
  {
    var names := EventNames(w.events);
    var i := Seqs.IndexOf(names, event);
    if i == |w.events| then
      assert forall k :: 0 <= k < |w.events| ==> w.events[k].name == names[k];
      (Fail("evento " + event + " não encontrado em " + stage), w)
    else (Pass, w.(events := Seqs.RemoveAt(w.events, i)))
  }

  /**
   `Trigger(stage, event, data)`: when the stage is registered and has a
   handler for the event, that handler is called with `data`; otherwise
   nothing happens. The result is the call made, if any.
   */
  function Trigger(w: Web, stage: string, event: string): (r: Option<InternalStage.Handler>)
    ensures r.Some? <==> stage in w.stages && event in w.stages[stage].stage.eventFns
    ensures r.Some? ==> r.value == w.stages[stage].stage.eventFns[event]
  {
    if stage !in w.stages then None else InternalStage.GetEvent(w.stages[stage].stage, event)
  }

  /** `Receive(stage)`: the stage's `Data`, or nil for an unknown stage. */
  function Receive(w: Web, stage: string): (r: Option<Metadata.Any>)
    ensures stage !in w.stages ==> r.None?
    ensures stage in w.stages ==> r == w.stages[stage].data
  {
    if stage in w.stages then w.stages[stage].data else None
  }

  /**
   `DefineStage(name)`: a new stage whose name and description are `name`
   and whose type is "stage"; `id` stands for the generated UUID. It is not
   registered.
   */
  function DefineStage(id: string, name: string): (s: InternalStage.Stage)
    ensures s.name == name && s.desc == name && s.kind == "stage" && s.id == id
    ensures s.eventFns == map[] && s.pool.None?
    ensures forall target :: !InternalStage.CanTransitionTo(s, target)
  {
    InternalStage.NewStage(id, name, name, "stage")
  }

  /**
   `StopAll`: visits the processes in `order`, deleting each one that stops;
   the first failure is returned at once, leaving the failing process and
   every one not yet visited.
   */
  method StopAll(w: Web, order: seq<string>, stop: (string, Process) -> Outcome) returns (out: Outcome, r: Web)
    requires Seqs.IsOrderOf(order, w.processes)
    ensures r.(processes := w.processes) == w
    ensures out == Pass <==> forall i :: 0 <= i < |order| ==> stop(order[i], w.processes[order[i]]) == Pass
    ensures out == Pass ==> r.processes == map[]
    ensures out.Fail? ==> exists k :: 0 <= k < |order|
                                      && (forall i :: 0 <= i < k ==> stop(order[i], w.processes[order[i]]) == Pass)
                                      && out == stop(order[k], w.processes[order[k]])
                                      && r.processes == w.processes - set i | 0 <= i < k :: order[i]
  {
    var procs := w.processes;
    var i := 0;
    while i < |order|
      invariant 0 <= i <= |order|
      invariant procs == w.processes - set j | 0 <= j < i :: order[j]
      invariant forall j :: 0 <= j < i ==> stop(order[j], w.processes[order[j]]) == Pass
    {
      var name := order[i];
      assert name in procs && procs[name] == w.processes[name] by {
        assert forall j :: 0 <= j < i ==> order[j] != name;
      }
      var o := stop(name, procs[name]);
      if o.Fail? {
        return o, w.(processes := procs);
      }
      procs := procs - {name};
      assert (set j | 0 <= j < i + 1 :: order[j]) == (set j | 0 <= j < i :: order[j]) + {name};
      i := i + 1;
    }
    assert forall k :: k in w.processes ==> k in (set j | 0 <= j < |order| :: order[j]) by {
      forall k | k in w.processes
        ensures k in (set j | 0 <= j < |order| :: order[j])
      {
        var j :| 0 <= j < |order| && order[j] == k;
      }
    }
    assert procs.Keys == {};
    return Pass, w.(processes := procs);
  }

  // ---------------------------------------------------------------------
  // Properties
  // ---------------------------------------------------------------------

  /** As written, an event registered under a non-empty name can never be removed by that name. */
  lemma RegisteredEventNotRemovable(w: Web, event: string, stage: string)
    requires event != ""
    requires forall i :: 0 <= i < |w.events| ==> w.events[i].name == ""
    ensures var v := RegisterEventAsWritten(w, event, stage).1;
      RemoveEvent(v, event, stage) == (Fail("evento " + event + " não encontrado em " + stage), v)
  {
  }

  /** As intended, removing an event just registered under a fresh name restores the list. */
  lemma RegisterThenRemove(w: Web, event: string, stage: string, other: string)
    requires forall i :: 0 <= i < |w.events| ==> w.events[i].name != event
    ensures RemoveEvent(RegisterEvent(w, event, stage).1, event, other) == (Pass, w)
  {
    var v := RegisterEvent(w, event, stage).1;
    var r := RemoveEvent(v, event, other).1;
    var i :| 0 <= i < |v.events| && v.events[i].name == event
             && (forall k :: 0 <= k < i ==> v.events[k].name != event)
             && r.events == v.events[..i] + v.events[i + 1..];
    assert i == |w.events|;
    assert r.events == w.events;
  }

  /** Registering a process twice keeps only the later registration. */
  lemma RegisterProcessReplaces(w: Web, name: string, c1: string, c2: string, a1: seq<string>, a2: seq<string>, r1: bool, r2: bool, f1: nat, f2: nat)
    ensures var v := RegisterProcess(RegisterProcess(w, name, c1, a1, r1, f1).1, name, c2, a2, r2, f2).1;
      && v.processes[name] == Process(name, c2, a2, r2, f2)
      && v.processes.Keys == w.processes.Keys + {name}
  {
  }
}
