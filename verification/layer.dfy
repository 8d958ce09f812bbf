/**
 The access layer (components/types/layer.go, and its copy
 internal/layers/layer_access.go, which differs only in taking no object):
 a table of validation events keyed first by event name, then by priority.
 Events are never overwritten, and a name whose last priority is removed
 disappears from the table.

 Event functions are known by identity; what a function returns when called
 is supplied by `eval`. Go's random map iteration order is an explicit
 `order` argument listing the keys of the map being walked.
 */
module Layer {
  import opened Wrappers
  import opened Strings

  /** `*ValidationResult`: validity, message and an optional error text. */
  datatype VResult = VResult(isValid: bool, message: string, error: Option<string>)

  /** A function stored in a `ValidationFunc`, known by identity. */
  datatype Fn = Fn(id: nat)

  /** `ValidationFunc[any]`: a priority and a possibly nil function. */
  datatype VFunc = VFunc(priority: int, fn: Option<Fn>)

  type Table = map<int, VFunc>

  datatype Layer<T> = Layer(
    scope: string,
    events: map<string, Table>,
    listeners: Option<Table>,
    state: VResult,
    obj: Option<T>)

  /** What `ExecuteLayerEvent` returns: the boolean and the result pointer. */
  datatype Exec = Exec(ok: bool, result: Option<VResult>)

  const InitState: VResult := VResult(true, "Access layer initialized successfully", None)

  /** `NewLayer(scope, obj)`: no events, nil listeners, a valid state. */
  function NewLayer<T>(scope: string, obj: Option<T>): (l: Layer<T>)
    ensures l.scope == scope && l.obj == obj
    ensures l.events == map[] && l.listeners.None?
    ensures l.state.isValid && l.state.message == "Access layer initialized successfully"
  {
    Layer(scope, map[], None, InitState, obj)
  }

  /** The `internal/layers` constructor: the same layer with a nil object. */
  function NewAccessLayer<T>(scope: string): (l: Layer<T>)
    ensures l.obj.None? && l.listeners.None? && l.events == map[]
    ensures l.state.isValid
  {
    NewLayer(scope, None)
  }

  /**
   `AddLayerEvent(name, event)`: a nil event is ignored; otherwise the inner
   table for `name` is created if needed and the event is stored under its
   priority, unless that priority is already taken.
   */
  function AddLayerEvent<T>(l: Layer<T>, name: string, event: Option<VFunc>): (r: Layer<T>)
    ensures event.None? ==> r == l
    ensures event.Some? ==> r.events.Keys == l.events.Keys + {name}
    ensures event.Some? ==> event.value.priority in r.events[name]
    ensures event.Some? && name in l.events && event.value.priority in l.events[name] ==> r == l
    ensures event.Some? && !(name in l.events && event.value.priority in l.events[name]) ==>
              r.events[name][event.value.priority] == event.value
    ensures event.Some? && name in l.events ==>
              r.events[name].Keys == l.events[name].Keys + {event.value.priority}
    ensures event.Some? && name in l.events ==>
              forall p :: p in l.events[name] ==> r.events[name][p] == l.events[name][p]
    ensures forall n :: n in l.events && n != name ==> r.events[n] == l.events[n]
    ensures r.(events := l.events) == l
  {
    if event.None? then l
    else
      var inner := if name in l.events then l.events[name] else map[];
      if event.value.priority in inner then l
      else l.(events := l.events[name := inner[event.value.priority := event.value]])
  }

  /** `GetLayerEvents(name)`: nil for an unknown name, otherwise the inner table. */
  function GetLayerEvents<T>(l: Layer<T>, name: string): (r: Option<Table>)
    ensures r.None? <==> name !in l.events
    ensures r.Some? ==> r.value == l.events[name]
  {
    if name in l.events then Some(l.events[name]) else None
  }

  /**
   `RemoveLayerEvent(name, priority)`: an unknown name is a no-op; otherwise
   the priority is deleted and the name dropped once its table is empty.
   */
  function RemoveLayerEvent<T>(l: Layer<T>, name: string, priority: int): (r: Layer<T>)
    ensures name !in l.events ==> r == l
    ensures name in l.events && l.events[name].Keys - {priority} == {} ==> r.events == l.events - {name}
    ensures name in l.events && l.events[name].Keys - {priority} != {} ==>
              r.events == l.events[name := l.events[name] - {priority}]
    ensures r.(events := l.events) == l
  {
    if name !in l.events then l
    else
      var inner := l.events[name] - {priority};
      if |inner| == 0 then l.(events := l.events - {name})
      else
        l.(events := l.events[name := inner])
  }

  /** Go's guarantee about `for k := range m`: every key exactly once, in some order. */
  predicate Enumerates(order: seq<int>, keys: set<int>)
  {
    && (forall i :: 0 <= i < |order| ==> order[i] in keys)
    && (forall k :: k in keys ==> k in order)
    && (forall i, j :: 0 <= i < j < |order| ==> order[i] != order[j])
  }

  /** Key `k` holds an event with a function. */
  predicate Runnable(m: Table, k: int)
  {
    k in m && m[k].fn.Some?
  }

  /** Calling the function stored under `k`: `(result != nil, result)`. */
  function Call(m: Table, k: int, eval: Fn -> Option<VResult>): Exec
    requires Runnable(m, k)
  {
    Exec(eval(m[k].fn.value).Some?, eval(m[k].fn.value))
  }

  /** Position `i` of `order` is the first whose key holds a function. */
  predicate FirstRunnableAt(m: Table, order: seq<int>, i: int)
  {
    0 <= i < |order| && Runnable(m, order[i]) && forall j :: 0 <= j < i ==> !Runnable(m, order[j])
  }

  /** The first entry in `order` with a function, called; `Exec(false, nil)` if there is none. */
  function {:induction false} FirstRunnable(m: Table, order: seq<int>, eval: Fn -> Option<VResult>): (r: Exec)
    ensures (forall i :: 0 <= i < |order| ==> !Runnable(m, order[i])) ==> r == Exec(false, None)
    ensures forall i :: FirstRunnableAt(m, order, i) ==> r == Call(m, order[i], eval)
    decreases |order|
  {
    if |order| == 0 then Exec(false, None)
    else if Runnable(m, order[0]) then Call(m, order[0], eval)
    else
      var r := FirstRunnable(m, order[1..], eval);
      assert forall i :: 0 <= i < |order| - 1 ==> order[1..][i] == order[i + 1];
      assert forall i :: FirstRunnableAt(m, order, i) ==> FirstRunnableAt(m, order[1..], i - 1) by {
        forall i | FirstRunnableAt(m, order, i) ensures FirstRunnableAt(m, order[1..], i - 1) {
          forall j | 0 <= j < i - 1 ensures !Runnable(m, order[1..][j]) {
            assert order[1..][j] == order[j + 1];
          }
        }
      }
      r
  }

  /**
   `ExecuteLayerEvent(name, args...)`: an unknown name gives false and an
   invalid result; otherwise the first entry met in map order that has a
   function decides the outcome, and a table without functions gives (false, nil).
   */
  function ExecuteLayerEvent<T>(l: Layer<T>, name: string, order: seq<int>, eval: Fn -> Option<VResult>): (r: Exec)
    requires name in l.events ==> Enumerates(order, l.events[name].Keys)
    ensures name !in l.events ==>
              r == Exec(false, Some(VResult(false, "Access events for " + name + " not found",
                                            Some("access event " + name + " not found"))))
    ensures name in l.events && (forall p :: p in l.events[name] ==> l.events[name][p].fn.None?) ==>
              r == Exec(false, None)
    ensures name in l.events ==>
              forall i :: FirstRunnableAt(l.events[name], order, i) ==> r == Call(l.events[name], order[i], eval)
  {
    if name !in l.events then
      Exec(false, Some(VResult(false, "Access events for " + name + " not found",
                               Some("access event " + name + " not found"))))
    else
      FirstRunnable(l.events[name], order, eval)
  }

  /**
   `sortByPriority`: copies the values into a slice, sorts it by priority
   and re-inserts each value under its own priority. Ties are ordered
   arbitrarily, so the outcome is described as a relation.
   */
  predicate IsPriorityRebuild(m: Table, r: Table)
  {
    && (forall k :: k in m ==> m[k].priority in r)
    && (forall p :: p in r ==> exists k :: k in m && m[k].priority == p && r[p] == m[k])
  }

  /** Every entry is stored under its own priority, as `AddLayerEvent` does. */
  predicate Keyed(m: Table)
  {
    forall p :: p in m ==> m[p].priority == p
  }

  /** The table invariant: no empty inner table, every entry under its own priority. */
  predicate Wf<T>(l: Layer<T>)
  {
    forall n :: n in l.events ==> l.events[n].Keys != {} && Keyed(l.events[n])
  }

  /** The listener count `len` reports: a nil map has none. */
  function ListenerCount<T>(l: Layer<T>): nat
  {
    if l.listeners.Some? then |l.listeners.value| else 0
  }

  function ValidWord(isValid: bool): string
  {
    if isValid then "valid" else "invalid"
  }

  /**
   `Snapshot`: "Layer {scope} ({valid|invalid}): {n} events, {m} listeners. ",
   the counts as `%d` prints them.
   */
  function Snapshot<T>(l: Layer<T>): (s: string)
    ensures exists ev: string, ls: string {:trigger DecimalValue(ev), DecimalValue(ls)} ::
              && IsNumeral(ev) && IsNumeral(ls)
              && DecimalValue(ev) == |l.events| && DecimalValue(ls) == ListenerCount(l)
              && s == "Layer " + l.scope + " (" + ValidWord(l.state.isValid) + "): "
                      + ev + " events, " + ls + " listeners. "
  {
    var ev := NatToDecimal(|l.events|);
    var ls := NatToDecimal(ListenerCount(l));
    "Layer " + l.scope + " (" + ValidWord(l.state.isValid) + "): " + ev + " events, " + ls + " listeners. "
  }

  // ---------------------------------------------------------------------
  // Properties
  // ---------------------------------------------------------------------

  /** Adding an event keeps the table invariant. */
  lemma AddKeepsWf<T>(l: Layer<T>, name: string, event: Option<VFunc>)
    requires Wf(l)
    ensures Wf(AddLayerEvent(l, name, event))
  {
    if event.Some? {
      var r := AddLayerEvent(l, name, event);
      assert event.value.priority in r.events[name].Keys;
    }
  }

  /** Removing an event keeps the table invariant. */
  lemma RemoveKeepsWf<T>(l: Layer<T>, name: string, priority: int)
    requires Wf(l)
    ensures Wf(RemoveLayerEvent(l, name, priority))
  {
  }

  /** On a table kept by `AddLayerEvent`, sorting by priority gives back the same table, and only it. */
  lemma SortByPriorityKeepsKeyedTable(m: Table, r: Table)
    requires Keyed(m)
    ensures IsPriorityRebuild(m, m)
    ensures IsPriorityRebuild(m, r) ==> r == m
  {
    if IsPriorityRebuild(m, r) {
      forall p | p in r ensures p in m && r[p] == m[p] {
        var k :| k in m && m[k].priority == p && r[p] == m[k];
      }
      forall p | p in m ensures p in r {
        assert m[p].priority == p;
      }
    }
  }

  /** Adding an event and removing its priority restores a layer where that name was absent. */
  lemma AddThenRemove<T>(l: Layer<T>, name: string, event: VFunc)
    requires name !in l.events
    ensures RemoveLayerEvent(AddLayerEvent(l, name, Some(event)), name, event.priority) == l
  {
    var a := AddLayerEvent(l, name, Some(event));
    assert a.events[name].Keys == {event.priority};
    assert a.events - {name} == l.events;
  }

  /** A second event at a taken priority is ignored: the first one stays. */
  lemma NoOverwrite<T>(l: Layer<T>, name: string, e1: VFunc, e2: VFunc)
    requires e1.priority == e2.priority
    requires !(name in l.events && e1.priority in l.events[name])
    ensures AddLayerEvent(AddLayerEvent(l, name, Some(e1)), name, Some(e2)).events[name][e1.priority] == e1
  {
  }

  /**
   On an enumeration where exactly one key holds a function, the outcome is
   that function's call, whatever the order.
   */
  lemma {:induction false} SingleRunnableDecides(m: Table, order: seq<int>, k: int, eval: Fn -> Option<VResult>)
    requires Enumerates(order, m.Keys)
    requires Runnable(m, k) && forall p :: p in m && p != k ==> !Runnable(m, p)
    ensures FirstRunnable(m, order, eval) == Call(m, k, eval)
  {
    var i :| 0 <= i < |order| && order[i] == k;
    forall j | 0 <= j < i ensures !Runnable(m, order[j]) {
      assert order[j] != order[i];
    }
    assert FirstRunnableAt(m, order, i);
  }

  /** An event with a function added under a new name is what executing that name runs. */
  lemma AddThenExecute<T>(l: Layer<T>, name: string, e: VFunc, eval: Fn -> Option<VResult>)
    requires name !in l.events && e.fn.Some?
    ensures var a := AddLayerEvent(l, name, Some(e));
      && Enumerates([e.priority], a.events[name].Keys)
      && ExecuteLayerEvent(a, name, [e.priority], eval) == Exec(eval(e.fn.value).Some?, eval(e.fn.value))
  {
    var a := AddLayerEvent(l, name, Some(e));
    assert a.events[name] == map[e.priority := e];
    assert Runnable(a.events[name], [e.priority][0]);
  }

  /**
   The snapshot reports the counts: two layers with the same scope and
   validity print alike exactly when they have as many event names and as
   many listeners.
   */
  lemma SnapshotDeterminesCounts<T>(l1: Layer<T>, l2: Layer<T>)
    requires l1.scope == l2.scope && l1.state.isValid == l2.state.isValid
    ensures Snapshot(l1) == Snapshot(l2) <==>
              |l1.events| == |l2.events| && ListenerCount(l1) == ListenerCount(l2)
  {
    if Snapshot(l1) == Snapshot(l2) {
      var pre := "Layer " + l1.scope + " (" + ValidWord(l1.state.isValid) + "): ";
      var e1, e2 := NatToDecimal(|l1.events|), NatToDecimal(|l2.events|);
      var s1, s2 := NatToDecimal(ListenerCount(l1)), NatToDecimal(ListenerCount(l2));
      var t1 := e1 + (" events, " + (s1 + " listeners. "));
      var t2 := e2 + (" events, " + (s2 + " listeners. "));
      SnapshotSplits(pre, e1, s1);
      SnapshotSplits(pre, e2, s2);
      assert t1 == (pre + t1)[|pre|..];
      assert t2 == (pre + t2)[|pre|..];
      DecimalSplit(e1, " events, " + (s1 + " listeners. "), e2, " events, " + (s2 + " listeners. "));
      var u1, u2 := " events, " + (s1 + " listeners. "), " events, " + (s2 + " listeners. ");
      assert s1 + " listeners. " == u1[|" events, "|..];
      assert s2 + " listeners. " == u2[|" events, "|..];
      DecimalSplit(s1, " listeners. ", s2, " listeners. ");
      NatToDecimalInjective(|l1.events|, |l2.events|);
      NatToDecimalInjective(ListenerCount(l1), ListenerCount(l2));
    }
  }

  /** The snapshot text regrouped: the fixed prefix, then the rest. */
  lemma SnapshotSplits(pre: string, e: string, s: string)
    ensures pre + e + " events, " + s + " listeners. " == pre + (e + (" events, " + (s + " listeners. ")))
  {
  }

  /** A fresh layer reads "Layer {scope} (valid): 0 events, 0 listeners. ". */
  lemma NewLayerSnapshot<T>(scope: string, obj: Option<T>)
    ensures Snapshot(NewLayer(scope, obj)) == "Layer " + scope + " (valid): 0 events, 0 listeners. "
  {
    assert NatToDecimal(0) == "0";
    SnapshotText(scope, "valid", NatToDecimal(0), NatToDecimal(0));
  }

  /** The snapshot template of a valid layer with no events and no listeners. */
  lemma SnapshotText(scope: string, v: string, e: string, l: string)
    requires v == "valid" && e == "0" && l == "0"
    ensures "Layer " + scope + " (" + v + "): " + e + " events, " + l + " listeners. "
         == "Layer " + scope + " (valid): 0 events, 0 listeners. "
  {
  }
}
