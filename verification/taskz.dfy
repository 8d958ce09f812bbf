/**
 The task runner of internal/routines/taskz/taskz_manager.go: a request
 value, a list of serial handlers and a list of parallel handlers.

 A handler is known by identity; what it does to the request and whether it
 errors comes from `step`. The parallel handlers run as goroutines that
 share the request under a mutex they take themselves, so their combined
 effect on the request and the order their errors arrive in come from the
 environment (`par`).
 */
module Taskz {
  import opened Wrappers

  datatype Handler = Handler(id: nat)

  datatype Taskz<T> = Taskz(req: T, tasks: seq<Handler>, parallel: seq<Handler>)

  /** `NewTaskz(ctx, taskReq)`: no handlers yet. */
  function NewTaskz<T>(req: T): (t: Taskz<T>)
    ensures t.req == req && t.tasks == [] && t.parallel == []
  {
    Taskz(req, [], [])
  }

  /** `Then(taskExec)`: appends a serial handler. */
  function Then<T>(t: Taskz<T>, h: Handler): (r: Taskz<T>)
    ensures r.tasks == t.tasks + [h]
    ensures r.(tasks := t.tasks) == t
  {
    t.(tasks := t.tasks + [h])
  }

  /** `Parallel(parallelExec)`: appends a parallel handler. */
  function Parallel<T>(t: Taskz<T>, h: Handler): (r: Taskz<T>)
    ensures r.parallel == t.parallel + [h]
    ensures r.(parallel := t.parallel) == t
  {
    t.(parallel := t.parallel + [h])
  }

  // ---------------------------------------------------------------------
  // Serial execution
  // ---------------------------------------------------------------------

  /** The request after the first `n` handlers have each been applied to it, errors aside. */
  function StateAfter<T>(tasks: seq<Handler>, req: T, step: (Handler, T) -> (Outcome, T), n: nat): T
    requires n <= |tasks|
  {
    if n == 0 then req else step(tasks[n - 1], StateAfter(tasks, req, step, n - 1)).1
  }

  /** Handler `i` succeeds on the request its predecessors left. */
  predicate Passes<T>(tasks: seq<Handler>, req: T, step: (Handler, T) -> (Outcome, T), i: nat)
    requires i < |tasks|
  {
    step(tasks[i], StateAfter(tasks, req, step, i)).0 == Pass
  }

  /** Handler `k` is the first serial handler to fail. */
  predicate FirstFailAt<T>(tasks: seq<Handler>, req: T, step: (Handler, T) -> (Outcome, T), k: int)
  {
    0 <= k < |tasks| && (forall i :: 0 <= i < k ==> Passes(tasks, req, step, i)) && !Passes(tasks, req, step, k)
  }

  /** A serial run that does not pass everywhere fails first at exactly one handler. */
  lemma FirstFailUnique<T>(tasks: seq<Handler>, req: T, step: (Handler, T) -> (Outcome, T))
    ensures (exists k :: FirstFailAt(tasks, req, step, k)) <==> !forall i :: 0 <= i < |tasks| ==> Passes(tasks, req, step, i)
    ensures forall k, l :: FirstFailAt(tasks, req, step, k) && FirstFailAt(tasks, req, step, l) ==> k == l
  {
    if !forall i :: 0 <= i < |tasks| ==> Passes(tasks, req, step, i) {
      var k := FirstFail(tasks, req, step, 0);
      assert FirstFailAt(tasks, req, step, k);
    }
  }

  /** The first failing handler at or after `n`, given that all before `n` pass and some handler fails. */
  function FirstFail<T>(tasks: seq<Handler>, req: T, step: (Handler, T) -> (Outcome, T), n: nat): (k: nat)
    requires n <= |tasks|
    requires forall i :: 0 <= i < n ==> Passes(tasks, req, step, i)
    requires !forall i :: 0 <= i < |tasks| ==> Passes(tasks, req, step, i)
    ensures FirstFailAt(tasks, req, step, k)
    decreases |tasks| - n
  {
    if !Passes(tasks, req, step, n) then n else FirstFail(tasks, req, step, n + 1)
  }

  /**
   `ExecSerial`: runs the serial handlers in order, each on the request the
   previous ones left, and stops at the first error, which it returns; the
   request keeps what that handler did to it.
   */
  method ExecSerial<T>(t: Taskz<T>, step: (Handler, T) -> (Outcome, T)) returns (out: Outcome, r: Taskz<T>)
    ensures r.tasks == t.tasks && r.parallel == t.parallel
    ensures out == Pass <==> forall i :: 0 <= i < |t.tasks| ==> Passes(t.tasks, t.req, step, i)
    ensures out == Pass ==> r.req == StateAfter(t.tasks, t.req, step, |t.tasks|)
    ensures out.Fail? ==> exists k :: FirstFailAt(t.tasks, t.req, step, k)
                                      && step(t.tasks[k], StateAfter(t.tasks, t.req, step, k)) == (out, r.req)
  {
    var i := 0;
    var req := t.req;
    while i < |t.tasks|
      invariant 0 <= i <= |t.tasks|
      invariant req == StateAfter(t.tasks, t.req, step, i)
      invariant forall k :: 0 <= k < i ==> Passes(t.tasks, t.req, step, k)
    {
      var (o, q) := step(t.tasks[i], req);
      if o.Fail? {
        assert !Passes(t.tasks, t.req, step, i);
        return o, t.(req := q);
      }
      req := q;
      i := i + 1;
    }
    return Pass, t.(req := req);
  }

  /** Appending a handler leaves the states its predecessors produce unchanged. */
  lemma {:induction false} StateAfterPrefix<T>(tasks: seq<Handler>, h: Handler, req: T, step: (Handler, T) -> (Outcome, T), n: nat)
    requires n <= |tasks|
    ensures StateAfter(tasks + [h], req, step, n) == StateAfter(tasks, req, step, n)
  {
    if n > 0 {
      StateAfterPrefix(tasks, h, req, step, n - 1);
      assert (tasks + [h])[n - 1] == tasks[n - 1];
    }
  }

  /**
   Serial runs compose with `Then`: after `Then(t, h)` every handler
   succeeds exactly when every handler of `t` does and `h` succeeds on the
   request they leave.
   */
  lemma ThenRunsLast<T>(t: Taskz<T>, h: Handler, step: (Handler, T) -> (Outcome, T))
    ensures var u := Then(t, h);
      (forall i :: 0 <= i < |u.tasks| ==> Passes(u.tasks, u.req, step, i)) <==>
      (forall i :: 0 <= i < |t.tasks| ==> Passes(t.tasks, t.req, step, i))
      && step(h, StateAfter(t.tasks, t.req, step, |t.tasks|)).0 == Pass
  {
    var u := Then(t, h);
    forall i | 0 <= i <= |t.tasks|
      ensures StateAfter(u.tasks, u.req, step, i) == StateAfter(t.tasks, t.req, step, i)
    {
      StateAfterPrefix(t.tasks, h, t.req, step, i);
    }
    forall i | 0 <= i < |t.tasks|
      ensures Passes(u.tasks, u.req, step, i) == Passes(t.tasks, t.req, step, i)
    {
      assert u.tasks[i] == t.tasks[i];
    }
    assert u.tasks[|t.tasks|] == h;
    assert Passes(u.tasks, u.req, step, |t.tasks|) == (step(h, StateAfter(t.tasks, t.req, step, |t.tasks|)).0 == Pass);
  }

  // ---------------------------------------------------------------------
  // Joining errors
  // ---------------------------------------------------------------------

  /** `errors.Join(a, b)`: nil when both are nil, otherwise the non-nil messages joined by a newline. */
  function Join2(a: Outcome, b: Outcome): (r: Outcome)
    ensures r == Pass <==> a == Pass && b == Pass
  {
    if a == Pass then b else if b == Pass then a else Fail(a.msg + "\n" + b.msg)
  }

  /** The loop of `ExecParallel`: every arriving error joined onto the accumulated one, in arrival order. */
  function JoinAll(errs: seq<Outcome>): Outcome
  {
    if errs == [] then Pass else Join2(JoinAll(errs[..|errs| - 1]), errs[|errs| - 1])
  }

  /** The messages of the errors, in order. */
  function Messages(errs: seq<Outcome>): (ms: seq<string>)
    ensures |ms| <= |errs|
  {
    if errs == [] then []
    else Messages(errs[..|errs| - 1]) + (if errs[|errs| - 1].Fail? then [errs[|errs| - 1].msg] else [])
  }

  /** Lines joined by newlines. */
  function Lines(ms: seq<string>): string
    requires ms != []
  {
    if |ms| == 1 then ms[0] else Lines(ms[..|ms| - 1]) + "\n" + ms[|ms| - 1]
  }

  /** A first line before at least one more. */
  lemma {:induction false} LinesCons(a: string, ms: seq<string>)
    requires ms != []
    ensures Lines([a] + ms) == a + "\n" + Lines(ms)
    decreases |ms|
  {
    if |ms| > 1 {
      var init := ms[..|ms| - 1];
      LinesCons(a, init);
      assert ([a] + ms)[..|[a] + ms| - 1] == [a] + init;
      assert ([a] + ms)[|[a] + ms| - 1] == ms[|ms| - 1];
      assert Lines(ms) == Lines(init) + "\n" + ms[|ms| - 1];
    } else {
      assert [a] + ms == [a, ms[0]];
      assert [a, ms[0]][..1] == [a];
    }
  }

  /** `ExecParallel`'s error is nil iff every handler returned nil, and otherwise lists every message in arrival order. */
  lemma {:induction false} JoinAllLines(errs: seq<Outcome>)
    ensures JoinAll(errs) == Pass <==> forall i :: 0 <= i < |errs| ==> errs[i] == Pass
    ensures JoinAll(errs) == Pass <==> Messages(errs) == []
    ensures JoinAll(errs).Fail? ==> Messages(errs) != [] && JoinAll(errs).msg == Lines(Messages(errs))
  {
    if errs != [] {
      var init := errs[..|errs| - 1];
      JoinAllLines(init);
      assert forall i :: 0 <= i < |init| ==> init[i] == errs[i];
      var ms := Messages(init);
      var last := errs[|errs| - 1];
      if last.Fail? {
        assert Messages(errs) == ms + [last.msg];
        assert Messages(errs)[..|Messages(errs)| - 1] == ms;
        if JoinAll(init) == Pass {
          assert Messages(errs) == [last.msg];
        }
      } else {
        assert Messages(errs) == ms;
      }
    }
  }

  /**
   `Result`: the serial handlers run first; the parallel ones run afterwards
   even when a serial one failed, on the request the serial ones left. The
   request is returned with both errors joined.
   */
  method Result<T>(t: Taskz<T>, step: (Handler, T) -> (Outcome, T), par: T -> (seq<Outcome>, T))
    returns (req: T, err: Outcome)
    ensures err == Pass ==> forall i :: 0 <= i < |t.tasks| ==> Passes(t.tasks, t.req, step, i)
    ensures err == Pass ==> req == par(StateAfter(t.tasks, t.req, step, |t.tasks|)).1
    ensures err == Pass ==> forall i :: 0 <= i < |par(StateAfter(t.tasks, t.req, step, |t.tasks|)).0| ==>
                              par(StateAfter(t.tasks, t.req, step, |t.tasks|)).0[i] == Pass
    ensures (forall i :: 0 <= i < |t.tasks| ==> Passes(t.tasks, t.req, step, i)) ==>
              var (errs, q) := par(StateAfter(t.tasks, t.req, step, |t.tasks|));
              && req == q
              && (err == Pass <==> forall i :: 0 <= i < |errs| ==> errs[i] == Pass)
              && (err.Fail? ==> Messages(errs) != [] && err.msg == Lines(Messages(errs)))
    ensures !(forall i :: 0 <= i < |t.tasks| ==> Passes(t.tasks, t.req, step, i)) ==>
              exists k :: FirstFailAt(t.tasks, t.req, step, k) &&
                var (o, q) := step(t.tasks[k], StateAfter(t.tasks, t.req, step, k));
                && req == par(q).1
                && err == Fail(Lines([o.msg] + Messages(par(q).0)))
  {
    var serial, u := ExecSerial(t, step);
    var (errs, q) := par(u.req);
    JoinAllLines(errs);
    err := Join2(serial, JoinAll(errs));
    req := q;
    if serial.Fail? {
      assert Lines([serial.msg]) == serial.msg;
      if JoinAll(errs).Fail? {
        LinesCons(serial.msg, Messages(errs));
      } else {
        assert [serial.msg] + Messages(errs) == [serial.msg];
      }
    }
  }
}
