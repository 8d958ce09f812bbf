/**
 The worker pool of components/workers/pool.go. It has the same slot array
 as the internal pool, but its properties sit in a map of `any`, and every
 read or write of workerLimit sits behind a lookup whose condition is
 inverted: it acts only when the key is ABSENT, and then reflects on a nil
 value.

 A property is modelled by the integer it holds. A reflection on a missing
 entry (`reflect.ValueOf(nil).Interface()`) panics.
 */
module ComponentPool {
  import opened Wrappers
  import WorkerPool

  type Worker = WorkerPool.Worker

  datatype Pool = Pool(workers: seq<Option<Worker>>, props: map<string, int>)

  const OutOfRange: string := "worker ID out of range"
  const ZeroValuePanic: string := "reflect: call of reflect.Value.Interface on zero Value"

  /**
   `NewWorkerPool(workerLimit, logger)`: `workerLimit` empty slots and the
   properties workerLimit, workerCount 0 and buffers 10.
   */
  function NewWorkerPool(limit: int): (r: Run<Pool>)
    ensures r.Panics? <==> limit < 0
    ensures r.Returns? ==> |r.value.workers| == limit
    ensures r.Returns? ==> forall i :: 0 <= i < |r.value.workers| ==> r.value.workers[i].None?
    ensures r.Returns? ==> r.value.props == map["workerLimit" := limit, "workerCount" := 0, "buffers" := 10]
  {
    if limit < 0 then Panics("makeslice: len out of range")
    else Returns(Pool(seq(limit, i => None), map["workerLimit" := limit, "workerCount" := 0, "buffers" := 10]))
  }

  predicate InRange(p: Pool, id: int)
  {
    0 <= id < |p.workers|
  }

  /** `GetWorkerCount`: the number of slots. */
  function GetWorkerCount(p: Pool): (n: nat)
    ensures n == |p.workers|
  {
    |p.workers|
  }

  /**
   `GetWorkerLimit` as written: with the key present the guarded branch is
   skipped and 0 is returned; with it absent the reflection on nil panics.
   */
  function GetWorkerLimitAsWritten(p: Pool): (r: Run<int>)
    ensures "workerLimit" in p.props ==> r == Returns(0)
    ensures "workerLimit" !in p.props ==> r.Panics?
  {
    if "workerLimit" in p.props then Returns(0) else Panics(ZeroValuePanic)
  }

  /** `GetWorkerLimit` as evidently intended: the stored limit, or 0 when there is none. */
  function GetWorkerLimit(p: Pool): (n: int)
    ensures "workerLimit" in p.props ==> n == p.props["workerLimit"]
    ensures "workerLimit" !in p.props ==> n == 0
  {
    if "workerLimit" in p.props then p.props["workerLimit"] else 0
  }

  /**
   `SetWorkerLimit(limit)` as written: negatives are refused; with the key
   present nothing happens; with it absent the reflection panics.
   */
  function SetWorkerLimitAsWritten(p: Pool, limit: int): (r: Run<(Outcome, Pool)>)
    ensures limit < 0 ==> r == Returns((Fail("worker limit cannot be negative"), p))
    ensures limit >= 0 && "workerLimit" in p.props ==> r == Returns((Pass, p))
    ensures limit >= 0 && "workerLimit" !in p.props ==> r.Panics?
  {
    if limit < 0 then Returns((Fail("worker limit cannot be negative"), p))
    else if "workerLimit" in p.props then Returns((Pass, p))
    else Panics(ZeroValuePanic)
  }

  /** `SetWorkerLimit` as intended: negatives are refused; otherwise the limit is stored. */
  function SetWorkerLimit(p: Pool, limit: int): (r: (Outcome, Pool))
    ensures r.0 == Pass <==> limit >= 0
    ensures r.0.Fail? ==> r == (Fail("worker limit cannot be negative"), p)
    ensures r.0 == Pass ==> r.1 == p.(props := p.props["workerLimit" := limit]) && GetWorkerLimit(r.1) == limit
  {
    if limit < 0 then (Fail("worker limit cannot be negative"), p)
    else (Pass, p.(props := p.props["workerLimit" := limit]))
  }

  /** The length check of `SetWorkerPool`, against a given limit. */
  function ReplaceSlots(p: Pool, ws: seq<Option<Worker>>, limit: int): (r: (Outcome, Pool))
    ensures r.0 == Pass <==> |ws| <= limit
    ensures r.0.Fail? ==> r == (Fail("worker pool exceeds worker limit"), p)
    ensures r.0 == Pass ==> r.1 == p.(workers := ws)
  {
    if |ws| > limit then (Fail("worker pool exceeds worker limit"), p) else (Pass, p.(workers := ws))
  }

  /** `SetWorkerPool(workers)` as written: nil is refused, then the length is checked against `GetWorkerLimitAsWritten`'s reading. */
  function SetWorkerPoolAsWritten(p: Pool, ws: Option<seq<Option<Worker>>>): (r: Run<(Outcome, Pool)>)
    ensures ws.None? ==> r == Returns((Fail("worker pool cannot be nil"), p))
    ensures ws.Some? && "workerLimit" in p.props ==> r == Returns(ReplaceSlots(p, ws.value, 0))
    ensures ws.Some? && "workerLimit" !in p.props ==> r.Panics?
  {
    if ws.None? then Returns((Fail("worker pool cannot be nil"), p))
    else match GetWorkerLimitAsWritten(p)
      case Panics(why) => Panics(why)
      case Returns(limit) => Returns(ReplaceSlots(p, ws.value, limit))
  }

  /** `SetWorkerPool` as intended: nil is refused, and so is a slice longer than the stored limit. */
  function SetWorkerPool(p: Pool, ws: Option<seq<Option<Worker>>>): (r: (Outcome, Pool))
    ensures r.0 == Pass <==> ws.Some? && |ws.value| <= GetWorkerLimit(p)
    ensures ws.None? ==> r == (Fail("worker pool cannot be nil"), p)
    ensures r.0 == Pass ==> r.1 == p.(workers := ws.value)
  {
    if ws.None? then (Fail("worker pool cannot be nil"), p)
    else ReplaceSlots(p, ws.value, GetWorkerLimit(p))
  }

  /** `GetWorker(id)`: the slot for an id in range. */
  function GetWorker(p: Pool, id: int): (r: Result<Option<Worker>>)
    ensures r.Err? <==> !InRange(p, id)
    ensures r.Ok? ==> r.value == p.workers[id]
  {
    if !InRange(p, id) then Err(OutOfRange) else Ok(p.workers[id])
  }

  /** `GetJobQueue(id)`: out of range or an empty slot is refused, and with the queue lookup removed every other id fails too. */
  function GetJobQueue(p: Pool, id: int): (r: Outcome)
    ensures r.Fail?
    ensures !InRange(p, id) ==> r == Fail(OutOfRange)
    ensures InRange(p, id) && p.workers[id].None? ==> r == Fail("worker not found")
    ensures InRange(p, id) && p.workers[id].Some? ==> r == Fail("failed to get job queue")
  {
    if !InRange(p, id) then Fail(OutOfRange)
    else if p.workers[id].None? then Fail("worker not found")
    else Fail("failed to get job queue")
  }

  /** `GetWorkerChannel(id)` and `GetResultChannel(id)`: (nil, nil) for an id in range. */
  function GetWorkerChannel(p: Pool, id: int): (r: Outcome)
    ensures r == Pass <==> InRange(p, id)
    ensures r.Fail? ==> r.msg == OutOfRange
  {
    if !InRange(p, id) then Fail(OutOfRange) else Pass
  }

  /** `SendToWorker(id, job)`: nil for an id in range; the send itself is gone. */
  function SendToWorker(p: Pool, id: int): (r: Outcome)
    ensures r == Pass <==> InRange(p, id)
    ensures r.Fail? ==> r.msg == OutOfRange
  {
    if !InRange(p, id) then Fail(OutOfRange) else Pass
  }

  /** `AddWorker(id, worker)`: out of range is refused; otherwise slot `id`, and only it, is overwritten. */
  function AddWorker(p: Pool, id: int, w: Option<Worker>): (r: (Outcome, Pool))
    ensures r.0 == Pass <==> InRange(p, id)
    ensures r.0.Fail? ==> r == (Fail(OutOfRange), p)
    ensures r.0 == Pass ==> |r.1.workers| == |p.workers| && r.1.workers[id] == w
    ensures forall i :: 0 <= i < |p.workers| && i != id ==> r.1.workers[i] == p.workers[i]
  {
    if !InRange(p, id) then (Fail(OutOfRange), p)
    else (Pass, p.(workers := p.workers[id := w]))
  }

  /** `AddListener` and `RemoveListener`: the bodies are commented out, leaving only the error. */
  function AddListener(p: Pool, event: string): (r: Outcome)
    ensures r == Fail("event " + event + " not found")
  {
    Fail("event " + event + " not found")
  }

  /** `GetPoolJobChannel` and `GetPoolResultChannel`: always an error. */
  function GetPoolChannel(results: bool): (r: Outcome)
    ensures r.Fail?
    ensures r.msg == if results then "failed to get result channel" else "failed to get job channel"
  {
    if results then Fail("failed to get result channel") else Fail("failed to get job channel")
  }

  // ---------------------------------------------------------------------
  // Properties
  // ---------------------------------------------------------------------

  /**
   As written, a constructed pool reports a limit of 0, so `SetWorkerPool`
   refuses every non-empty slice (even one that fits the slots) and
   `SetWorkerLimit` changes nothing.
   */
  lemma ConstructedPoolAsWritten(limit: nat, ws: seq<Option<Worker>>, newLimit: nat)
    requires |ws| > 0
    ensures var p := NewWorkerPool(limit).value;
      && GetWorkerLimitAsWritten(p) == Returns(0)
      && SetWorkerPoolAsWritten(p, Some(ws)) == Returns((Fail("worker pool exceeds worker limit"), p))
      && SetWorkerPoolAsWritten(p, Some([])).value.0 == Pass
      && SetWorkerLimitAsWritten(p, newLimit) == Returns((Pass, p))
  {
    var p := NewWorkerPool(limit).value;
    assert "workerLimit" in p.props;
  }

  /**
   As intended, a constructed pool reports its limit, accepts a slice up to
   that length and refuses a longer one, and a new limit is read back.
   */
  lemma ConstructedPoolAsIntended(limit: nat, ws: seq<Option<Worker>>, newLimit: nat)
    ensures var p := NewWorkerPool(limit).value;
      && GetWorkerLimit(p) == limit
      && (SetWorkerPool(p, Some(ws)).0 == Pass <==> |ws| <= limit)
      && GetWorkerLimit(SetWorkerLimit(p, newLimit).1) == newLimit
  {
    var p := NewWorkerPool(limit).value;
    assert p.props["workerLimit"] == limit;
  }

  /** A worker written into a slot is read back; the slot count stays. */
  lemma AddThenGet(p: Pool, id: int, w: Worker)
    requires InRange(p, id)
    ensures GetWorker(AddWorker(p, id, Some(w)).1, id) == Ok(Some(w))
    ensures GetWorkerCount(AddWorker(p, id, Some(w)).1) == GetWorkerCount(p)
  {
  }
}
