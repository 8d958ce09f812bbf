/**
 The untyped stage of package `internal` (internal/stage.go). Unlike the
 task-runner stage it is built with nil `PossibleNext`, nil tags and meta,
 and no data; `AutoScale` really installs a worker pool.
 */
module InternalStage {
  import opened Wrappers
  import Seqs
  import TaskStage

  type Handler = TaskStage.Handler
  type Hook = TaskStage.Hook

  /** The worker pool `AutoScale` creates: only the capacity of its task channel matters here. */
  datatype Pool = Pool(capacity: nat)

  datatype Stage = Stage(
    id: string,
    name: string,
    kind: string,
    desc: string,
    next: seq<string>,
    prev: seq<string>,
    onEnter: Option<Hook>,
    onExit: Option<Hook>,
    eventFns: map<string, Handler>,
    pool: Option<Pool>)

  /**
   `NewStage(name, desc, stageType)`; `id` stands for the generated UUID.
   Nil slices and nil hooks are modelled as empty sequences and `None`.
   */
  function NewStage(id: string, name: string, desc: string, kind: string): (s: Stage)
    ensures s.id == id && s.name == name && s.desc == desc && s.kind == kind
    ensures s.eventFns == map[] && s.pool.None?
    ensures s.onEnter.None? && s.onExit.None?
    ensures forall target :: !CanTransitionTo(s, target)
  {
    Stage(id, name, kind, desc, [], [], None, None, map[], None)
  }

  function CanTransitionTo(s: Stage, target: string): (b: bool)
    ensures b <==> target in s.next
  {
    Seqs.Contains(s.next, target)
  }

  predicate EventExists(s: Stage, event: string)
  {
    event in s.eventFns
  }

  function GetEvent(s: Stage, event: string): (r: Option<Handler>)
    ensures r.Some? <==> EventExists(s, event)
    ensures r.Some? ==> r.value == s.eventFns[event]
  {
    if event in s.eventFns then Some(s.eventFns[event]) else None
  }

  function OnEvent(s: Stage, event: string, fn: Handler): (r: Stage)
    ensures r.eventFns.Keys == s.eventFns.Keys + {event}
    ensures r.(eventFns := s.eventFns) == s
  {
    s.(eventFns := s.eventFns[event := fn])
  }

  function OnEnter(s: Stage, fn: Hook): (r: Stage)
    ensures r.onEnter == Some(fn)
    ensures r.(onEnter := s.onEnter) == s
  {
    s.(onEnter := Some(fn))
  }

  function OnExit(s: Stage, fn: Hook): (r: Stage)
    ensures r.onExit == Some(fn)
    ensures r.(onExit := s.onExit) == s
  {
    s.(onExit := Some(fn))
  }

  /**
   `AutoScale(size)`: replaces the pool by a fresh one whose task channel
   holds `size` tasks; `make` panics on a negative channel size.
   */
  function AutoScale(s: Stage, size: int): (r: Run<Stage>)
    ensures r.Panics? <==> size < 0
    ensures r.Panics? ==> r.reason == "makechan: size out of range"
    ensures r.Returns? ==> r.value.pool == Some(Pool(size)) && r.value.(pool := s.pool) == s
  {
    if size < 0 then Panics("makechan: size out of range")
    else Returns(s.(pool := Some(Pool(size))))
  }

  /** How a call that may wait forever ends: it returns `outcome`, or it never returns. */
  datatype Completion = Done(outcome: Outcome) | Blocks

  /**
   `Dispatch(task)`: an error without a pool; otherwise the task is sent on
   the pool's channel and nil returned. A pool of size 0 has an unbuffered
   channel and no worker goroutine to receive, so that send never completes.
   */
  function Dispatch(s: Stage): (r: Completion)
    ensures r.Blocks? <==> s.pool == Some(Pool(0))
    ensures r.Done? ==> (r.outcome.Fail? <==> s.pool.None?)
    ensures r.Done? && r.outcome.Fail? ==> r.outcome.msg == "WorkerPool não inicializado para o estágio " + s.name
  {
    if s.pool.None? then Done(Fail("WorkerPool não inicializado para o estágio " + s.name))
    else if s.pool.value.capacity == 0 then Blocks
    else Done(Pass)
  }

  /** After `OnEvent(e, f)`, `e` exists with handler `f`; other events keep their handler. */
  lemma OnEventThenGet(s: Stage, e: string, f: Handler, other: string)
    ensures EventExists(OnEvent(s, e, f), e)
    ensures GetEvent(OnEvent(s, e, f), e) == Some(f)
    ensures other != e ==> GetEvent(OnEvent(s, e, f), other) == GetEvent(s, other)
  {
  }

  /**
   A fresh stage refuses to dispatch. Once `AutoScale(size)` has returned, a
   dispatch succeeds when `size` is positive and never returns when it is 0.
   */
  lemma DispatchNeedsAutoScale(id: string, name: string, desc: string, kind: string, size: nat)
    ensures Dispatch(NewStage(id, name, desc, kind)).Done?
    ensures Dispatch(NewStage(id, name, desc, kind)).outcome.Fail?
    ensures AutoScale(NewStage(id, name, desc, kind), size).Returns?
    ensures size > 0 ==> Dispatch(AutoScale(NewStage(id, name, desc, kind), size).value) == Done(Pass)
    ensures size == 0 ==> Dispatch(AutoScale(NewStage(id, name, desc, kind), size).value) == Blocks
  {
  }
}
