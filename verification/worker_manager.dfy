/**
 The worker manager of internal/routines/workers/manager.go: it owns an
 internal worker pool and keeps status, workerCount and monitorInterval
 properties of its own.

 Its properties are modelled by the values they hold and by their type
 names (which is all `AddValidator` looks at). The manager reads a
 "workerLimit" property of its own that the constructor never creates;
 reading a missing property calls a method on a nil interface and panics.
 As with the pool, the constructor as written panics on its first
 `SetValue`; everything after `NewWorkerManagerAsWritten` models the
 manager the constructor evidently intends.
 */
module WorkerManager {
  import opened Wrappers
  import Seqs
  import TypesProperty
  import WorkerPool

  type Worker = WorkerPool.Worker

  datatype Manager = Manager(
    status: string,
    workerCount: int,
    monitorInterval: int,
    ownLimit: Option<int>,
    propTypes: map<string, string>,
    pool: WorkerPool.Pool)

  const NilInterfacePanic: string := "invalid memory address or nil pointer dereference"

  /** The manager's own properties are the three of the constructor, plus workerLimit exactly when it holds a limit. */
  predicate Wf(m: Manager)
  {
    && (forall n :: n in m.propTypes ==> m.propTypes[n] == "int" || m.propTypes[n] == "string")
    && (m.ownLimit.Some? <==> "workerLimit" in m.propTypes)
  }

  /**
   `NewWorkerManager(pool, logger)` as written: the first `SetValue`, of
   "Stopped" on the status property, goes through the internal/types
   `validateAndSet` and panics, so no manager is ever returned.
   */
  function NewWorkerManagerAsWritten(pool: WorkerPool.Pool): (r: Run<Manager>)
    ensures r.Panics?
  {
    var status := TypesProperty.NewProperty<string>("status", "string", None);
    match TypesProperty.SetValueAsWritten(status, TypesProperty.Value("Stopped"), (f, x) => Pass)
    case Panics(why) => Panics(why)
    case Returns(_) => assert false; Panics("")
  }

  /** `NewWorkerManager` as intended: status "Stopped", workerCount 0, monitorInterval 500, no workerLimit. */
  function NewWorkerManager(pool: WorkerPool.Pool): (m: Manager)
    ensures m.status == "Stopped" && m.workerCount == 0 && m.monitorInterval == 500
    ensures m.ownLimit.None? && m.pool == pool
    ensures m.propTypes.Keys == {"status", "workerCount", "monitorInterval"}
    ensures Wf(m)
  {
    Manager("Stopped", 0, 500, None,
            map["status" := "string", "workerCount" := "int", "monitorInterval" := "int"], pool)
  }

  /**
   `AddWorkerObj(worker)`: nil is refused; the manager's own limit is read
   (a panic when it was never set); at or over that limit the worker is
   refused; otherwise the worker is appended through the pool's
   `SetWorkerPool`, whose own limit check can still refuse it, and
   workerCount becomes the new slot count.
   */
  function AddWorkerObj(m: Manager, w: Option<Worker>): (r: Run<(Outcome, Manager)>)
    ensures w.None? ==> r == Returns((Fail("worker cannot be nil"), m))
    ensures w.Some? && m.ownLimit.None? ==> r.Panics?
    ensures w.Some? && m.ownLimit.Some? && |m.pool.workers| >= m.ownLimit.value ==>
              r == Returns((Fail("worker limit reached"), m))
    ensures r.Returns? && r.value.0 == Pass <==>
              w.Some? && m.ownLimit.Some? && |m.pool.workers| < m.ownLimit.value && |m.pool.workers| + 1 <= m.pool.limit
    ensures r.Returns? && r.value.0.Fail? ==> r.value.1 == m
    ensures r.Returns? && r.value.0 == Pass ==>
              && r.value.1.pool.workers == m.pool.workers + [w]
              && r.value.1.workerCount == |m.pool.workers| + 1
              && r.value.1.(pool := m.pool, workerCount := m.workerCount) == m
  {
    if w.None? then Returns((Fail("worker cannot be nil"), m))
    else if m.ownLimit.None? then Panics(NilInterfacePanic)
    else if |m.pool.workers| >= m.ownLimit.value then Returns((Fail("worker limit reached"), m))
    else
      var (out, pool) := WorkerPool.SetWorkerPool(m.pool, Some(m.pool.workers + [w]));
      if out.Fail? then Returns((out, m))
      else Returns((Pass, m.(pool := pool, workerCount := |pool.workers|)))
  }

  /**
   `AddWorker()`: the manager's own limit is read (a panic when unset); at
   or over it nothing is added; otherwise a new worker with id workerCount
   is written into slot workerCount, which must be in range.
   */
  function AddWorker(m: Manager): (r: Run<(Result<Worker>, Manager)>)
    ensures m.ownLimit.None? ==> r.Panics?
    ensures m.ownLimit.Some? && |m.pool.workers| >= m.ownLimit.value ==>
              r == Returns((Err("worker limit reached"), m))
    ensures r.Returns? && r.value.0.Ok? <==>
              m.ownLimit.Some? && |m.pool.workers| < m.ownLimit.value && 0 <= m.workerCount < |m.pool.workers|
    ensures r.Returns? && r.value.0.Ok? ==>
              && r.value.0.value.id == m.workerCount
              && r.value.1.pool.workers == m.pool.workers[m.workerCount := Some(r.value.0.value)]
              && r.value.1.workerCount == |m.pool.workers|
  {
    if m.ownLimit.None? then Panics(NilInterfacePanic)
    else if |m.pool.workers| >= m.ownLimit.value then Returns((Err("worker limit reached"), m))
    else
      var w := WorkerPool.Worker(m.workerCount, true);
      var (out, pool) := WorkerPool.AddWorker(m.pool, m.workerCount, Some(w));
      if out.Fail? then Returns((Err(out.msg), m))
      else Returns((Ok(w), m.(pool := pool, workerCount := |pool.workers|)))
  }

  /**
   `RemoveWorker(id)`: out of range is refused; otherwise slot `id` is cut
   out, the others keep their order, and workerCount becomes the new length.
   */
  function RemoveWorker(m: Manager, id: int): (r: (Outcome, Manager))
    ensures r.0 == Pass <==> 0 <= id < |m.pool.workers|
    ensures r.0.Fail? ==> r == (Fail("worker ID out of range"), m)
    ensures r.0 == Pass ==>
              && |r.1.pool.workers| == |m.pool.workers| - 1
              && (forall k :: 0 <= k < id ==> r.1.pool.workers[k] == m.pool.workers[k])
              && (forall k :: id <= k < |r.1.pool.workers| ==> r.1.pool.workers[k] == m.pool.workers[k + 1])
              && r.1.workerCount == |r.1.pool.workers|
              && r.1.pool.limit == m.pool.limit
  {
    if !(0 <= id < |m.pool.workers|) then (Fail("worker ID out of range"), m)
    else
      var ws := Seqs.RemoveAt(m.pool.workers, id);
      (Pass, m.(pool := m.pool.(workers := ws), workerCount := |ws|))
  }

  /**
   `AddValidator(name, validator)`: an unknown property is refused;
   otherwise the property's own `AddValidator` decides.
   */
  function AddValidator(m: Manager, name: string, validator: TypesProperty.VFn): (r: Outcome)
    ensures name !in m.propTypes ==> r == Fail("property " + name + " does not exist")
    ensures name in m.propTypes ==>
              r == TypesProperty.AddValidator(TypesProperty.NewProperty<int>(name, m.propTypes[name], None), Some(validator)).0
  {
    if name !in m.propTypes then Fail("property " + name + " does not exist")
    else TypesProperty.AddValidator(TypesProperty.NewProperty<int>(name, m.propTypes[name], None), Some(validator)).0
  }

  /**
   `SetWorkerLimit(limit)`: a limit that is not positive, or below the
   current slot count, is refused; otherwise it becomes the pool's limit.
   */
  function SetWorkerLimit(m: Manager, limit: int): (r: (Outcome, Manager))
    ensures r.0 == Pass <==> limit > 0 && limit >= |m.pool.workers|
    ensures limit <= 0 ==> r == (Fail("worker limit must be greater than 0"), m)
    ensures limit > 0 && limit < |m.pool.workers| ==>
              r == (Fail("worker limit cannot be less than current worker count"), m)
    ensures r.0 == Pass ==> r.1 == m.(pool := m.pool.(limit := limit))
  {
    if limit <= 0 then (Fail("worker limit must be greater than 0"), m)
    else if limit < |m.pool.workers| then (Fail("worker limit cannot be less than current worker count"), m)
    else (Pass, m.(pool := WorkerPool.SetWorkerLimit(m.pool, limit).1))
  }

  /** `ValidatePool`: an error iff the pool has more slots than its limit. */
  function ValidatePool(m: Manager): (r: Outcome)
    ensures r == Pass <==> |m.pool.workers| <= m.pool.limit
    ensures r.Fail? ==> r.msg == "worker count exceeds worker limit"
  {
    if |m.pool.workers| > m.pool.limit then Fail("worker count exceeds worker limit") else Pass
  }

  /**
   The read of the manager's own limit as written: a missing property is a
   method call on a nil interface, and a present one is `GetValue().(int)` on
   a boxed `*int`. Either way it panics.
   */
  function ReadOwnLimitAsWritten(m: Manager): (r: Run<int>)
    ensures r.Panics?
    ensures m.ownLimit.None? ==> r.reason == NilInterfacePanic
    ensures m.ownLimit.Some? ==> r.reason == WorkerPool.BoxedIntPanic
  {
    match m.ownLimit
    case None => Panics(NilInterfacePanic)
    case Some(l) => TypesProperty.GetValueAsWritten(TypesProperty.NewProperty<int>("workerLimit", "int", Some(l)))
  }

  /** `AddWorkerObj(worker)` as written: nil is refused; any worker reaches the limit read, which panics. */
  function AddWorkerObjAsWritten(m: Manager, w: Option<Worker>): (r: Run<Outcome>)
    ensures r.Panics? <==> w.Some?
    ensures w.None? ==> r == Returns(Fail("worker cannot be nil"))
    ensures w.Some? && m.ownLimit.Some? ==> r == Panics(WorkerPool.BoxedIntPanic)
  {
    if w.None? then Returns(Fail("worker cannot be nil"))
    else
      match ReadOwnLimitAsWritten(m)
      case Panics(why) => Panics(why)
      case Returns(_) => assert false; Panics("")
  }

  /** `AddWorker()` as written: the limit read comes first and always panics. */
  function AddWorkerAsWritten(m: Manager): (r: Run<Result<Worker>>)
    ensures r.Panics?
    ensures m.ownLimit.Some? ==> r == Panics(WorkerPool.BoxedIntPanic)
  {
    match ReadOwnLimitAsWritten(m)
    case Panics(why) => Panics(why)
    case Returns(_) => assert false; Panics("")
  }

  /** `ValidatePool` as written: it compares with the pool's limit read through `.(int)`, which panics. */
  function ValidatePoolAsWritten(m: Manager): (r: Run<Outcome>)
    ensures r == Panics(WorkerPool.BoxedIntPanic)
  {
    match WorkerPool.GetWorkerLimitAsWritten(m.pool)
    case Panics(why) => Panics(why)
    case Returns(_) => assert false; Panics("")
  }

  // ---------------------------------------------------------------------
  // Properties
  // ---------------------------------------------------------------------

  /** A fresh manager cannot take a worker: the limit it reads was never created. */
  lemma FreshManagerPanicsOnAdd(pool: WorkerPool.Pool, w: Worker)
    ensures AddWorkerObj(NewWorkerManager(pool), Some(w)).Panics?
    ensures AddWorker(NewWorkerManager(pool)).Panics?
  {
  }

  /**
   A manager with room under both limits takes a worker and passes
   validation as intended; as written, the same calls panic.
   */
  lemma BoxedLimitReadsPanic(m: Manager, w: Worker)
    requires m.ownLimit.Some? && |m.pool.workers| < m.ownLimit.value && |m.pool.workers| < m.pool.limit
    ensures AddWorkerObj(m, Some(w)).Returns? && AddWorkerObj(m, Some(w)).value.0 == Pass
    ensures ValidatePool(m) == Pass
    ensures AddWorkerObjAsWritten(m, Some(w)) == Panics(WorkerPool.BoxedIntPanic)
    ensures AddWorkerAsWritten(m) == Panics(WorkerPool.BoxedIntPanic)
    ensures ValidatePoolAsWritten(m) == Panics(WorkerPool.BoxedIntPanic)
  {
  }

  /** No validator can be attached to any of the manager's properties. */
  lemma AddValidatorAlwaysFails(m: Manager, name: string, validator: TypesProperty.VFn)
    requires Wf(m)
    ensures AddValidator(m, name, validator).Fail?
  {
    if name in m.propTypes {
      TypesProperty.ValidatorsNeverAttach(TypesProperty.NewProperty<int>(name, m.propTypes[name], None), Some(validator));
    }
  }

  /** Adding, removing and re-limiting keep a valid pool valid. */
  lemma OperationsKeepPoolValid(m: Manager, w: Option<Worker>, id: int, limit: int)
    requires ValidatePool(m) == Pass
    ensures AddWorkerObj(m, w).Returns? ==> ValidatePool(AddWorkerObj(m, w).value.1) == Pass
    ensures ValidatePool(RemoveWorker(m, id).1) == Pass
    ensures ValidatePool(SetWorkerLimit(m, limit).1) == Pass
  {
  }

  /** Appending a worker and removing the last slot restores the slots, with workerCount in step. */
  lemma AddObjThenRemove(m: Manager, w: Worker)
    requires AddWorkerObj(m, Some(w)).Returns? && AddWorkerObj(m, Some(w)).value.0 == Pass
    ensures var a := AddWorkerObj(m, Some(w)).value.1;
      && RemoveWorker(a, |m.pool.workers|).0 == Pass
      && RemoveWorker(a, |m.pool.workers|).1.pool == m.pool
      && RemoveWorker(a, |m.pool.workers|).1.workerCount == |m.pool.workers|
  {
    var a := AddWorkerObj(m, Some(w)).value.1;
    var r := RemoveWorker(a, |m.pool.workers|).1;
    assert r.pool.workers == m.pool.workers;
  }
}
