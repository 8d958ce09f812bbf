/**
 The generic stage of the task runner (internal/routines/taskz/stage/stage.go).
 A stage is a named node of a transition graph that carries data, two hooks,
 a table of event handlers and an optional worker pool.

 Go function values cannot be compared, so handlers and hooks are modelled by
 an identity; the stage record is immutable and every "setter" returns the
 updated record (the Go methods mutate the receiver and return it).
 */
module TaskStage {
  import opened Wrappers
  import Seqs

  /** A `func(interface{})` event handler, known by identity. */
  datatype Handler = Handler(id: nat)

  /** A `func()` hook; `NoOp` is the empty closure `NewStage` installs. */
  datatype Hook = NoOp | Hook(id: nat)

  datatype Stage<T> = Stage(
    name: string,
    desc: string,
    kind: string,
    data: T,
    meta: map<string, string>,
    tags: seq<string>,
    next: seq<string>,
    prev: seq<string>,
    onEnter: Hook,
    onExit: Hook,
    eventFns: map<string, Handler>,
    hasPool: bool)

  /**
   `NewStage(name, desc, stageType, data)`: a nil `data` stores `zero`, the
   zero value of `T`; otherwise a copy of `*data`.
   */
  function NewStage<T>(name: string, desc: string, kind: string, data: Option<T>, zero: T): (s: Stage<T>)
    ensures s.name == name && s.desc == desc && s.kind == kind
    ensures data.None? ==> s.data == zero
    ensures data.Some? ==> s.data == data.value
    ensures s.next == [] && s.prev == [] && s.tags == [] && s.meta == map[]
    ensures s.onEnter == NoOp && s.onExit == NoOp
    ensures !s.hasPool
    ensures forall e :: !EventExists(s, e)
    ensures forall id :: !CanTransitionTo(s, id)
  {
    Stage(name, desc, kind, if data.Some? then data.value else zero,
          map[], [], [], [], NoOp, NoOp, map[], false)
  }

  /** `CanTransitionTo`: a linear scan of `PossibleNext`. */
  function CanTransitionTo<T>(s: Stage<T>, id: string): (b: bool)
    ensures b <==> id in s.next
  {
    Seqs.Contains(s.next, id)
  }

  predicate EventExists<T>(s: Stage<T>, event: string)
  {
    event in s.eventFns
  }

  /** `GetEvent`: the registered handler, or nil. */
  function GetEvent<T>(s: Stage<T>, event: string): (r: Option<Handler>)
    ensures r.Some? <==> EventExists(s, event)
    ensures r.Some? ==> r.value == s.eventFns[event]
  {
    if event in s.eventFns then Some(s.eventFns[event]) else None
  }

  /** `OnEvent(event, fn)`: installs or replaces the handler for `event`. */
  function OnEvent<T>(s: Stage<T>, event: string, fn: Handler): (r: Stage<T>)
    ensures r.eventFns.Keys == s.eventFns.Keys + {event}
    ensures r.(eventFns := s.eventFns) == s
  {
    s.(eventFns := s.eventFns[event := fn])
  }

  /** `OnEnter(fn)`: replaces the entry hook and leaves everything else. */
  function OnEnter<T>(s: Stage<T>, fn: Hook): (r: Stage<T>)
    ensures r.onEnter == fn
    ensures r.(onEnter := s.onEnter) == s
  {
    s.(onEnter := fn)
  }

  /** `OnExit(fn)`: replaces the exit hook and leaves everything else. */
  function OnExit<T>(s: Stage<T>, fn: Hook): (r: Stage<T>)
    ensures r.onExit == fn
    ensures r.(onExit := s.onExit) == s
  {
    s.(onExit := fn)
  }

  /**
   `Dispatch(task)`: without a worker pool it fails; with one it reports
   success (the send to the pool is commented out in the source).
   */
  function Dispatch<T>(s: Stage<T>): (r: Outcome)
    ensures r.Fail? <==> !s.hasPool
    ensures r.Fail? ==> r.msg == "WorkerPool not initialized for stage " + s.name
  {
    if !s.hasPool then Fail("WorkerPool not initialized for stage " + s.name) else Pass
  }

  /**
   `AutoScale(size)`: without a pool it only logs; with one it asks the pool to
   add a worker. Either way the stage itself is returned as it was.
   */
  function AutoScale<T>(s: Stage<T>, size: int): (r: Stage<T>)
    ensures r == s
  {
    s
  }

  /** After `OnEvent(e, f)`, `e` exists with handler `f`, and every other event is as before. */
  lemma OnEventThenGet<T>(s: Stage<T>, e: string, f: Handler, other: string)
    ensures EventExists(OnEvent(s, e, f), e)
    ensures GetEvent(OnEvent(s, e, f), e) == Some(f)
    ensures other != e ==> GetEvent(OnEvent(s, e, f), other) == GetEvent(s, other)
  {
  }

  /** The hooks and handler table do not affect where a stage may go next. */
  lemma SettersKeepTransitions<T>(s: Stage<T>, e: string, f: Handler, h: Hook, id: string)
    ensures CanTransitionTo(OnEvent(s, e, f), id) == CanTransitionTo(s, id)
    ensures CanTransitionTo(OnEnter(s, h), id) == CanTransitionTo(s, id)
    ensures CanTransitionTo(OnExit(s, h), id) == CanTransitionTo(s, id)
  {
  }
}
