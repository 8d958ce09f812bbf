/**
 The worker pool of internal/routines/workers/workerpool.go: a fixed-length
 array of worker slots, each empty (nil) or holding a worker, plus the
 integer properties workerLimit, workerCount and buffers.

 The properties are internal/types properties, whose `SetValue` panics on
 every well-typed value (see `TypesProperty.SetValueAsWritten`), so the
 constructor as written cannot return, and whose `GetValue` hands back a
 boxed `*int` that every `.(int)` read of the limit fails on. The members
 named `...AsWritten` record those; everything else here models the pool the
 code evidently intends, with each property holding a plain integer.
 */
module WorkerPool {
  import opened Wrappers
  import TypesProperty

  /** A worker, by its id, and whether its job queue is set. */
  datatype Worker = Worker(id: int, hasJobQueue: bool)

  /** A channel handed out by the pool: a worker's job or result channel. */
  datatype Chan = JobChannel(worker: int) | ResultChannel(worker: int) | JobQueue(worker: int)

  datatype Pool = Pool(
    workers: seq<Option<Worker>>,
    limit: int,
    count: int,
    buffers: int,
    listeners: map<string, set<string>>)

  /** The property names the constructor creates. */
  const PropertyNames: set<string> := {"workerLimit", "workerCount", "buffers"}

  /**
   `NewWorkerPool(workerLimit, logger)` as written: `make` panics on a
   negative length, and otherwise the first `SetValue` on the workerLimit
   property panics.
   */
  function NewWorkerPoolAsWritten(limit: int): (r: Run<Pool>)
    ensures r.Panics?
  {
    if limit < 0 then Panics("makeslice: len out of range")
    else
      var p := TypesProperty.NewProperty<int>("workerLimit", "int", None);
      match TypesProperty.SetValueAsWritten(p, TypesProperty.Value(limit), (f, x) => Pass)
      case Panics(why) => Panics(why)
      case Returns(_) => assert false; Panics("")
  }

  /**
   `NewWorkerPool` as intended: `workerLimit` empty slots, limit as given,
   count 0, buffers 100, no listeners.
   */
  function NewWorkerPool(limit: int): (r: Run<Pool>)
    ensures r.Panics? <==> limit < 0
    ensures r.Returns? ==> |r.value.workers| == limit
    ensures r.Returns? ==> forall i :: 0 <= i < |r.value.workers| ==> r.value.workers[i].None?
    ensures r.Returns? ==> r.value.limit == limit && r.value.count == 0 && r.value.buffers == 100
    ensures r.Returns? ==> Wf(r.value)
  {
    if limit < 0 then Panics("makeslice: len out of range")
    else Returns(Pool(seq(limit, i => None), limit, 0, 100,
                      map["workerLimit" := {}, "workerCount" := {}, "buffers" := {}]))
  }

  /** The properties are exactly the three the constructor creates. */
  predicate Wf(p: Pool)
  {
    p.listeners.Keys == PropertyNames
  }

  /** `GetWorkerCount`: the number of slots, filled or not. */
  function GetWorkerCount(p: Pool): (n: nat)
    ensures n == |p.workers|
  {
    |p.workers|
  }

  /** `GetWorkerLimit`, as intended: the bound `SetWorkerPool` holds a slice to. */
  function GetWorkerLimit(p: Pool): (n: int)
    ensures forall ws :: SetWorkerPool(p, Some(ws)).0 == Pass <==> |ws| <= n
  {
    p.limit
  }

  /** The panic of every `.(int)` read of the workerLimit property. */
  const BoxedIntPanic: string := TypesProperty.BoxedValuePanic("int")

  /** `GetWorkerLimit` as written: `GetValue().(int)` on the workerLimit property. */
  function GetWorkerLimitAsWritten(p: Pool): (r: Run<int>)
    ensures r == Panics("interface conversion: interface {} is *int, not int")
  {
    TypesProperty.GetValueAsWritten(TypesProperty.NewProperty<int>("workerLimit", "int", Some(p.limit)))
  }

  /** The validator the constructor tries to attach to workerLimit, `ValidateWorkerLimit`. */
  const LimitValidator: TypesProperty.VFn := TypesProperty.VFn(0)

  /**
   The constructor with only the `SetValue` panic repaired: attaching the
   limit validator fails, since an `int` property takes no function, and that
   branch resets the limit to 0 and returns nil.
   */
  function NewWorkerPoolValidatorAsWritten(limit: int): (r: Run<Option<Pool>>)
    ensures r.Panics? <==> limit < 0
    ensures r.Returns? ==> r.value.None?
  {
    if limit < 0 then Panics("makeslice: len out of range")
    else
      var lp := TypesProperty.NewProperty<int>("workerLimit", "int", Some(limit));
      var added := TypesProperty.AddValidator(lp, Some(LimitValidator)).0;
      if added.Fail? then Returns(None)
      else assert false; Returns(None)
  }

  predicate InRange(p: Pool, id: int)
  {
    0 <= id < |p.workers|
  }

  const OutOfRange: string := "worker ID out of range"

  /** `GetWorker(id)`: the slot, possibly nil, for an id in range. */
  function GetWorker(p: Pool, id: int): (r: Result<Option<Worker>>)
    ensures r.Err? <==> !InRange(p, id)
    ensures r.Err? ==> r.msg == OutOfRange
    ensures r.Ok? ==> r.value == p.workers[id]
  {
    if !InRange(p, id) then Err(OutOfRange) else Ok(p.workers[id])
  }

  /**
   `GetJobQueue(id)`: out of range, then an empty slot, then a worker
   without a queue are refused, in that order.
   */
  function GetJobQueue(p: Pool, id: int): (r: Result<Chan>)
    ensures r.Ok? <==> InRange(p, id) && p.workers[id].Some? && p.workers[id].value.hasJobQueue
    ensures !InRange(p, id) ==> r == Err(OutOfRange)
    ensures InRange(p, id) && p.workers[id].None? ==> r == Err("worker not found")
    ensures r.Ok? ==> r.value == JobQueue(p.workers[id].value.id)
  {
    if !InRange(p, id) then Err(OutOfRange)
    else if p.workers[id].None? then Err("worker not found")
    else if !p.workers[id].value.hasJobQueue then Err("failed to get job queue")
    else Ok(JobQueue(p.workers[id].value.id))
  }

  /**
   `GetWorkerChannel(id)` and `GetResultChannel(id)`: out of range is
   refused; an empty slot is a method call on a nil worker, which panics.
   */
  function GetWorkerChannel(p: Pool, id: int, results: bool): (r: Run<Result<Chan>>)
    ensures r.Panics? <==> InRange(p, id) && p.workers[id].None?
    ensures !InRange(p, id) ==> r == Returns(Err(OutOfRange))
    ensures r.Returns? && r.value.Ok? ==>
              r.value.value == (if results then ResultChannel(p.workers[id].value.id) else JobChannel(p.workers[id].value.id))
  {
    if !InRange(p, id) then Returns(Err(OutOfRange))
    else if p.workers[id].None? then Panics("invalid memory address or nil pointer dereference")
    else
      var w := p.workers[id].value.id;
      Returns(Ok(if results then ResultChannel(w) else JobChannel(w)))
  }

  /**
   `SendToWorker(id, job)`: out of range is refused, an empty slot panics,
   and otherwise the result is whatever the worker's channel `Send` returns.
   */
  function SendToWorker(p: Pool, id: int, send: Outcome): (r: Run<Outcome>)
    ensures r.Panics? <==> InRange(p, id) && p.workers[id].None?
    ensures !InRange(p, id) ==> r == Returns(Fail(OutOfRange))
    ensures r.Returns? && InRange(p, id) ==> r.value == send
  {
    if !InRange(p, id) then Returns(Fail(OutOfRange))
    else if p.workers[id].None? then Panics("invalid memory address or nil pointer dereference")
    else Returns(send)
  }

  /** `AddWorker(id, worker)`: out of range is refused; otherwise slot `id`, and only it, is overwritten. */
  function AddWorker(p: Pool, id: int, w: Option<Worker>): (r: (Outcome, Pool))
    ensures r.0 == Pass <==> InRange(p, id)
    ensures r.0.Fail? ==> r == (Fail(OutOfRange), p)
    ensures |r.1.workers| == |p.workers|
    ensures r.0 == Pass ==> r.1.workers[id] == w
    ensures forall i :: 0 <= i < |p.workers| && i != id ==> r.1.workers[i] == p.workers[i]
    ensures r.1.(workers := p.workers) == p
  {
    if !InRange(p, id) then (Fail(OutOfRange), p)
    else (Pass, p.(workers := p.workers[id := w]))
  }

  /** `SetWorkerLimit(limit)`: negative limits are refused; otherwise the limit is stored. */
  function SetWorkerLimit(p: Pool, limit: int): (r: (Outcome, Pool))
    ensures r.0 == Pass <==> limit >= 0
    ensures r.0.Fail? ==> r == (Fail("worker limit cannot be negative"), p)
    ensures r.0 == Pass ==> r.1 == p.(limit := limit)
  {
    if limit < 0 then (Fail("worker limit cannot be negative"), p)
    else (Pass, p.(limit := limit))
  }

  /**
   `SetWorkerPool(workers)`: nil is refused, so is a slice longer than the
   limit; otherwise it replaces the slots.
   */
  function SetWorkerPool(p: Pool, ws: Option<seq<Option<Worker>>>): (r: (Outcome, Pool))
    ensures r.0 == Pass <==> ws.Some? && |ws.value| <= p.limit
    ensures ws.None? ==> r == (Fail("worker pool cannot be nil"), p)
    ensures ws.Some? && |ws.value| > p.limit ==> r == (Fail("worker pool exceeds worker limit"), p)
    ensures r.0 == Pass ==> r.1 == p.(workers := ws.value)
  {
    if ws.None? then (Fail("worker pool cannot be nil"), p)
    else if |ws.value| > p.limit then (Fail("worker pool exceeds worker limit"), p)
    else (Pass, p.(workers := ws.value))
  }

  /**
   `SetWorkerPool(workers)` as written: nil is refused, and any other slice
   reaches the `.(int)` read of the limit, which panics.
   */
  function SetWorkerPoolAsWritten(p: Pool, ws: Option<seq<Option<Worker>>>): (r: Run<(Outcome, Pool)>)
    ensures ws.None? ==> r == Returns((Fail("worker pool cannot be nil"), p))
    ensures ws.Some? ==> r == Panics(BoxedIntPanic)
  {
    if ws.None? then Returns((Fail("worker pool cannot be nil"), p))
    else
      match GetWorkerLimitAsWritten(p)
      case Panics(why) => Panics(why)
      case Returns(_) => assert false; Panics("")
  }

  /**
   `AddListener(event, listener)`: for a known property the listener is
   registered under the event name (refused if that name is taken), and
   the call then returns "event %s not found" whether or not it stored it.
   */
  function AddListener(p: Pool, event: string): (r: (Outcome, Pool))
    ensures r.0.Fail?
    ensures event !in p.listeners ==> r == (Fail("event " + event + " not found"), p)
    ensures event in p.listeners && event in p.listeners[event] ==>
              r == (Fail("listener with name " + event + " already exists"), p)
    ensures event in p.listeners && event !in p.listeners[event] ==>
              r == (Fail("event " + event + " not found"), p.(listeners := p.listeners[event := p.listeners[event] + {event}]))
  {
    if event !in p.listeners then (Fail("event " + event + " not found"), p)
    else if event in p.listeners[event] then (Fail("listener with name " + event + " already exists"), p)
    else (Fail("event " + event + " not found"), p.(listeners := p.listeners[event := p.listeners[event] + {event}]))
  }

  /**
   `RemoveListener(event)`: an unknown event gives "event %s not found". The
   internal/types property does not implement `RemoveListener`; the call
   reaches its nil embedded interface and panics.
   */
  function RemoveListener(p: Pool, event: string): (r: Run<Outcome>)
    ensures r.Panics? <==> event in p.listeners
    ensures r.Returns? ==> r.value == Fail("event " + event + " not found")
  {
    if event in p.listeners then Panics("invalid memory address or nil pointer dereference")
    else Returns(Fail("event " + event + " not found"))
  }

  // ---------------------------------------------------------------------
  // Properties
  // ---------------------------------------------------------------------

  /** Every slot of a fresh pool is in range and empty, and every id outside is refused. */
  lemma FreshPoolSlots(limit: nat, id: int)
    ensures var p := NewWorkerPool(limit).value;
      && GetWorkerCount(p) == limit
      && (0 <= id < limit ==> GetWorker(p, id) == Ok(None) && GetJobQueue(p, id) == Err("worker not found"))
      && (!(0 <= id < limit) ==> GetWorker(p, id) == Err(OutOfRange) && AddWorker(p, id, None).0.Fail?)
  {
  }

  /** A worker written into a slot is read back from that slot. */
  lemma AddThenGet(p: Pool, id: int, w: Worker)
    requires InRange(p, id)
    ensures GetWorker(AddWorker(p, id, Some(w)).1, id) == Ok(Some(w))
    ensures GetWorkerCount(AddWorker(p, id, Some(w)).1) == GetWorkerCount(p)
  {
  }

  /** A slice accepted by `SetWorkerPool` fits under the limit, and a higher limit accepts it again. */
  lemma SetWorkerPoolRespectsLimit(p: Pool, ws: seq<Option<Worker>>, limit: int)
    requires SetWorkerPool(p, Some(ws)).0 == Pass
    requires limit >= p.limit
    ensures GetWorkerCount(SetWorkerPool(p, Some(ws)).1) <= p.limit
    ensures SetWorkerPool(SetWorkerLimit(p, limit).1, Some(ws)).0 == Pass
  {
  }

  /**
   The limit reads: on a fresh pool of `limit` slots the intended limit is
   `limit` and a slice that fits is accepted, while as written both reads panic.
   */
  lemma BoxedLimitReads(limit: nat, ws: seq<Option<Worker>>)
    requires |ws| <= limit
    ensures var p := NewWorkerPool(limit).value;
      && GetWorkerLimit(p) == limit && SetWorkerPool(p, Some(ws)).0 == Pass
      && GetWorkerLimitAsWritten(p).Panics? && SetWorkerPoolAsWritten(p, Some(ws)).Panics?
  {
  }

  /**
   Even with `SetValue` repaired, the constructor returns nil for every
   non-negative limit, while the intended constructor returns a pool.
   */
  lemma ValidatorBranchReturnsNil(limit: nat)
    ensures NewWorkerPoolValidatorAsWritten(limit) == Returns(None)
    ensures NewWorkerPool(limit).Returns?
  {
    var lp := TypesProperty.NewProperty<int>("workerLimit", "int", Some(limit));
    TypesProperty.ValidatorsNeverAttach(lp, Some(LimitValidator));
  }

  /** The operations keep the property set the constructor made. */
  lemma OperationsKeepWf(p: Pool, id: int, w: Option<Worker>, limit: int, ws: Option<seq<Option<Worker>>>, event: string)
    requires Wf(p)
    ensures Wf(AddWorker(p, id, w).1) && Wf(SetWorkerLimit(p, limit).1) && Wf(SetWorkerPool(p, ws).1)
    ensures Wf(AddListener(p, event).1)
  {
  }
}
