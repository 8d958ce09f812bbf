/**
 The browser dashboard (web/app.js): every server-sent message is parsed as
 JSON, then five display regions are cleared and refilled, in a fixed order,
 with one text row per item of the matching collection.
 */
module Dashboard {
  import opened Wrappers
  import opened Strings

  /** A scalar field of an item, as a template literal renders it. Metric values are opaque text. */
  datatype Scalar = Text(s: string) | Count(n: nat)

  /** One element of a collection: a JSON object, reduced to its scalar fields. */
  type Item = map<string, Scalar>

  /**
   An element of an array: `null`, on which reading a property throws, or any
   other JSON value, reduced to the properties a template reads from it (an
   object's fields; a string or an array shows only its `length`; a number or
   a boolean shows none).
   */
  datatype Element = Null | Obj(item: Item)

  /** A field of the payload: an array of elements, or any other JSON value (null, a number, an object). */
  datatype Member = List(elems: seq<Element>) | NonList

  /**
   `JSON.parse(event.data)`: either it throws, or it yields the payload's
   top-level fields. A payload that parses to `null` behaves as `Malformed`:
   reading `data.stages` throws before any region is cleared. A number, a
   string, a boolean or an array has none of the five fields, so it behaves
   as `Parsed(map[])`.
   */
  datatype Payload = Malformed | Parsed(fields: map<string, Member>)

  /** A child element of a region: its tag name and its text content. */
  datatype Row = Row(tag: string, text: string)

  datatype Region = Stages | Workers | Queues | Metrics | Notifications

  datatype View = View(stages: seq<Row>, workers: seq<Row>, queues: seq<Row>,
                       metrics: seq<Row>, notifications: seq<Row>)

  /** The outcome of one handler run: the regions afterwards, and whether it ended by throwing. */
  datatype Step = Step(view: View, threw: bool)

  /** The order in which `onmessage` calls the five updaters. */
  const Order: seq<Region> := [Stages, Workers, Queues, Metrics, Notifications]

  /** The payload field each updater reads. */
  function Key(region: Region): string
  {
    match region
    case Stages => "stages"
    case Workers => "workers"
    case Queues => "eventQueues"
    case Metrics => "performanceMetrics"
    case Notifications => "notifications"
  }

  function Get(v: View, region: Region): seq<Row>
  {
    match region
    case Stages => v.stages
    case Workers => v.workers
    case Queues => v.queues
    case Metrics => v.metrics
    case Notifications => v.notifications
  }

  function Put(v: View, region: Region, rows: seq<Row>): (w: View)
    ensures Get(w, region) == rows
    ensures forall other :: other != region ==> Get(w, other) == Get(v, other)
  {
    match region
    case Stages => v.(stages := rows)
    case Workers => v.(workers := rows)
    case Queues => v.(queues := rows)
    case Metrics => v.(metrics := rows)
    case Notifications => v.(notifications := rows)
  }

  /** `${item.key}`: a missing property renders as "undefined". */
  function Show(item: Item, key: string): string
  {
    if key in item then
      match item[key]
      case Text(s) => s
      case Count(n) => NatToDecimal(n)
    else "undefined"
  }

  /** The element one updater appends for one item. */
  function RowOf(region: Region, item: Item): Row
  {
    match region
    case Stages => Row("li", "Stage: " + Show(item, "name") + ", Status: " + Show(item, "status"))
    case Workers => Row("li", "Worker: " + Show(item, "name") + ", Status: " + Show(item, "status"))
    case Queues => Row("li", "Queue: " + Show(item, "name") + ", Length: " + Show(item, "length"))
    case Metrics => Row("li", "Metric: " + Show(item, "name") + ", Value: " + Show(item, "value"))
    case Notifications => Row("div", "Notification: " + Show(item, "message"))
  }

  /** The children `forEach` appends, one per item, in item order. */
  function Rows(region: Region, items: seq<Item>): (r: seq<Row>)
    ensures |r| == |items|
    ensures forall i :: 0 <= i < |items| ==> r[i] == RowOf(region, items[i])
  {
    if |items| == 0 then [] else [RowOf(region, items[0])] + Rows(region, items[1..])
  }

  /** The position of each region in the order `onmessage` updates them. */
  function Index(region: Region): (i: nat)
    ensures i < |Order| && Order[i] == region
  {
    match region
    case Stages => 0
    case Workers => 1
    case Queues => 2
    case Metrics => 3
    case Notifications => 4
  }

  /** True when the updater for `region` can iterate its argument. */
  predicate Iterable(fields: map<string, Member>, region: Region)
  {
    Key(region) in fields && fields[Key(region)].List?
  }

  /** The position of the first `null` in `elems`, or `|elems|` if there is none. */
  function FirstNull(elems: seq<Element>): (k: nat)
    ensures k <= |elems|
    ensures forall i :: 0 <= i < k ==> elems[i].Obj?
    ensures k < |elems| ==> elems[k].Null?
  {
    if |elems| == 0 || elems[0].Null? then 0 else 1 + FirstNull(elems[1..])
  }

  /** The items before the first `null`: the ones `forEach` renders before the callback throws. */
  function Leading(elems: seq<Element>): (items: seq<Item>)
    ensures |items| == FirstNull(elems)
    ensures forall i :: 0 <= i < |items| ==> elems[i] == Obj(items[i])
  {
    if |elems| == 0 || elems[0].Null? then [] else [elems[0].item] + Leading(elems[1..])
  }

  /** True when the updater for `region` runs to the end: its argument is an array without `null`. */
  predicate Renders(fields: map<string, Member>, region: Region)
  {
    Iterable(fields, region) && FirstNull(fields[Key(region)].elems) == |fields[Key(region)].elems|
  }

  /** The items an updater renders; empty when it cannot iterate at all. */
  function ItemsOf(fields: map<string, Member>, region: Region): seq<Item>
  {
    if Iterable(fields, region) then Leading(fields[Key(region)].elems) else []
  }

  /**
   One updater: `innerHTML = ""`, then `forEach` over the argument. A missing
   or non-array argument makes `forEach` throw after the region was cleared;
   a `null` element makes the callback throw after the rows before it were
   appended.
   */
  function Update(v: View, fields: map<string, Member>, region: Region): (s: Step)
    ensures s.threw <==> !Renders(fields, region)
    ensures Get(s.view, region) == Rows(region, ItemsOf(fields, region))
    ensures forall other :: other != region ==> Get(s.view, other) == Get(v, other)
  {
    if !Iterable(fields, region) then Step(Put(v, region, []), true)
    else
      var elems := fields[Key(region)].elems;
      var k := FirstNull(elems);
      Step(Put(v, region, Rows(region, Leading(elems))), k < |elems|)
  }

  /** Runs the updaters from position `i` of `Order` on; an exception skips the rest. */
  function UpdateFrom(v: View, fields: map<string, Member>, i: nat): Step
    decreases |Order| - i
  {
    if i >= |Order| then Step(v, false)
    else
      var s := Update(v, fields, Order[i]);
      if s.threw then s else UpdateFrom(s.view, fields, i + 1)
  }

  /** The `onmessage` handler. */
  function OnMessage(v: View, p: Payload): (s: Step)
    ensures p.Malformed? ==> s == Step(v, true)
  {
    match p
    case Malformed => Step(v, true)
    case Parsed(fields) => UpdateFrom(v, fields, 0)
  }

  /** The first position at or after `i` whose updater throws, or `|Order|` if none. */
  function FirstBadFrom(fields: map<string, Member>, i: nat): (b: nat)
    requires i <= |Order|
    ensures i <= b <= |Order|
    ensures forall j :: i <= j < b ==> Renders(fields, Order[j])
    ensures b < |Order| ==> !Renders(fields, Order[b])
    decreases |Order| - i
  {
    if i == |Order| then i
    else if !Renders(fields, Order[i]) then i
    else FirstBadFrom(fields, i + 1)
  }

  /**
   What a region shows after a parsed payload, stated independently of the
   update sequence: regions up to the first one whose updater throws show the
   rows of their items (for that one, the rows before its first `null`, none
   when it is not an array), and later regions keep what they showed.
   */
  function Expected(v: View, fields: map<string, Member>, region: Region): seq<Row>
  {
    if Index(region) <= FirstBadFrom(fields, 0) then Rows(region, ItemsOf(fields, region))
    else Get(v, region)
  }

  lemma {:induction false} UpdateFromSpec(v: View, fields: map<string, Member>, i: nat)
    requires i <= |Order|
    ensures UpdateFrom(v, fields, i).threw <==> FirstBadFrom(fields, i) < |Order|
    ensures forall region :: Index(region) < i ==> Get(UpdateFrom(v, fields, i).view, region) == Get(v, region)
    ensures forall region :: i <= Index(region) <= FirstBadFrom(fields, i) ==>
              Get(UpdateFrom(v, fields, i).view, region) == Rows(region, ItemsOf(fields, region))
    ensures forall region :: Index(region) > FirstBadFrom(fields, i) ==> Get(UpdateFrom(v, fields, i).view, region) == Get(v, region)
    decreases |Order| - i
  {
    if i < |Order| {
      var r := Order[i];
      assert Index(r) == i;
      var s := Update(v, fields, r);
      if !s.threw {
        UpdateFromSpec(s.view, fields, i + 1);
        var u := UpdateFrom(v, fields, i);
        assert u == UpdateFrom(s.view, fields, i + 1);
        assert FirstBadFrom(fields, i) == FirstBadFrom(fields, i + 1);
        forall region | Index(region) <= i
          ensures Get(u.view, region) == Get(s.view, region)
        {
        }
      }
    }
  }

  /** The handler's effect on every region, against the reference definition. */
  lemma OnMessageSpec(v: View, fields: map<string, Member>)
    ensures OnMessage(v, Parsed(fields)).threw <==> FirstBadFrom(fields, 0) < |Order|
    ensures forall region :: Get(OnMessage(v, Parsed(fields)).view, region) == Expected(v, fields, region)
  {
    UpdateFromSpec(v, fields, 0);
  }

  /** Every collection in the payload is an array without `null`. */
  predicate Complete(fields: map<string, Member>)
  {
    forall region :: Renders(fields, region)
  }

  /** The exact text of each row kind. */
  predicate Formatted(region: Region, row: Row, item: Item)
  {
    match region
    case Stages => row.tag == "li" && row.text == "Stage: " + Show(item, "name") + ", Status: " + Show(item, "status")
    case Workers => row.tag == "li" && row.text == "Worker: " + Show(item, "name") + ", Status: " + Show(item, "status")
    case Queues => row.tag == "li" && row.text == "Queue: " + Show(item, "name") + ", Length: " + Show(item, "length")
    case Metrics => row.tag == "li" && row.text == "Metric: " + Show(item, "name") + ", Value: " + Show(item, "value")
    case Notifications => row.tag == "div" && row.text == "Notification: " + Show(item, "message")
  }

  /**
   A complete payload gives every region exactly one row per item, in item
   order, in the region's row format, whatever the region showed before.
   */
  lemma CompleteMessageRendersRows(v: View, fields: map<string, Member>, region: Region)
    requires Complete(fields)
    ensures !OnMessage(v, Parsed(fields)).threw
    ensures |Get(OnMessage(v, Parsed(fields)).view, region)| == |fields[Key(region)].elems|
    ensures forall i :: 0 <= i < |fields[Key(region)].elems| ==>
              Formatted(region, Get(OnMessage(v, Parsed(fields)).view, region)[i], fields[Key(region)].elems[i].item)
  {
    OnMessageSpec(v, fields);
    assert FirstBadFrom(fields, 0) == |Order|;
    assert Renders(fields, region);
    var elems := fields[Key(region)].elems;
    var items := ItemsOf(fields, region);
    assert |items| == |elems|;
    forall i | 0 <= i < |items|
      ensures Formatted(region, Rows(region, items)[i], elems[i].item)
    {
      assert elems[i] == Obj(items[i]);
      assert Rows(region, items)[i] == RowOf(region, items[i]);
    }
  }

  /** After a complete payload the regions do not depend on what was shown before. */
  lemma CompleteMessageReplacesAll(v1: View, v2: View, fields: map<string, Member>)
    requires Complete(fields)
    ensures OnMessage(v1, Parsed(fields)) == OnMessage(v2, Parsed(fields))
  {
    OnMessageSpec(v1, fields);
    OnMessageSpec(v2, fields);
    assert FirstBadFrom(fields, 0) == |Order|;
    var w1, w2 := OnMessage(v1, Parsed(fields)).view, OnMessage(v2, Parsed(fields)).view;
    assert Get(w1, Stages) == Get(w2, Stages) && Get(w1, Workers) == Get(w2, Workers);
    assert Get(w1, Queues) == Get(w2, Queues) && Get(w1, Metrics) == Get(w2, Metrics);
    assert Get(w1, Notifications) == Get(w2, Notifications);
  }

  /** The handler throws exactly when the payload is malformed or some collection is not an array or holds `null`. */
  lemma ThrowsIff(v: View, p: Payload)
    ensures OnMessage(v, p).threw <==> (p.Malformed? || !Complete(p.fields))
  {
    if p.Parsed? {
      OnMessageSpec(v, p.fields);
      if !Complete(p.fields) {
        var bad :| !Renders(p.fields, bad);
        assert Order[Index(bad)] == bad;
      }
    }
  }

  /** An empty collection leaves its region empty, whatever else the payload holds. */
  lemma EmptyCollectionEmptiesRegion(v: View, fields: map<string, Member>, region: Region)
    requires Key(region) in fields && fields[Key(region)] == List([])
    ensures Get(OnMessage(v, Parsed(fields)).view, region) == [] || Get(OnMessage(v, Parsed(fields)).view, region) == Get(v, region)
    ensures (forall j :: 0 <= j < Index(region) ==> Renders(fields, Order[j])) ==>
              Get(OnMessage(v, Parsed(fields)).view, region) == []
  {
    OnMessageSpec(v, fields);
  }

  /**
   A `null` element stops its region's updater after the rows of the
   elements before it: the handler throws, those rows stay, and the regions
   after it keep what they showed.
   */
  lemma NullElementStopsRegion(v: View, fields: map<string, Member>, region: Region, k: nat)
    requires forall j :: 0 <= j < Index(region) ==> Renders(fields, Order[j])
    requires Key(region) in fields && fields[Key(region)].List?
    requires k < |fields[Key(region)].elems| && fields[Key(region)].elems[k].Null?
    requires forall i :: 0 <= i < k ==> fields[Key(region)].elems[i].Obj?
    ensures OnMessage(v, Parsed(fields)).threw
    ensures |Get(OnMessage(v, Parsed(fields)).view, region)| == k
    ensures forall i :: 0 <= i < k ==>
              Get(OnMessage(v, Parsed(fields)).view, region)[i] == RowOf(region, fields[Key(region)].elems[i].item)
    ensures forall later :: Index(later) > Index(region) ==> Get(OnMessage(v, Parsed(fields)).view, later) == Get(v, later)
  {
    var elems := fields[Key(region)].elems;
    assert FirstNull(elems) == k;
    assert !Renders(fields, region);
    FirstBadIsFirst(fields, 0, Index(region));
    OnMessageSpec(v, fields);
    var items := ItemsOf(fields, region);
    assert Get(OnMessage(v, Parsed(fields)).view, region) == Rows(region, items);
    forall i | 0 <= i < k
      ensures Rows(region, items)[i] == RowOf(region, elems[i].item)
    {
      assert elems[i] == Obj(items[i]);
    }
  }

  /** `FirstBadFrom` lands on the first region that does not render. */
  lemma {:induction false} FirstBadIsFirst(fields: map<string, Member>, i: nat, b: nat)
    requires i <= b < |Order|
    requires forall j :: i <= j < b ==> Renders(fields, Order[j])
    requires !Renders(fields, Order[b])
    ensures FirstBadFrom(fields, i) == b
    decreases b - i
  {
    if i < b {
      FirstBadIsFirst(fields, i + 1, b);
    }
  }

  /** Handling the same message twice leaves the regions as handling it once. */
  lemma HandleTwiceSameAsOnce(v: View, p: Payload)
    ensures OnMessage(OnMessage(v, p).view, p) == OnMessage(v, p)
  {
    if p.Parsed? {
      var w := OnMessage(v, p).view;
      OnMessageSpec(v, p.fields);
      OnMessageSpec(w, p.fields);
      var w2 := OnMessage(w, p).view;
      assert Get(w2, Stages) == Get(w, Stages) && Get(w2, Workers) == Get(w, Workers);
      assert Get(w2, Queues) == Get(w, Queues) && Get(w2, Metrics) == Get(w, Metrics);
      assert Get(w2, Notifications) == Get(w, Notifications);
    }
  }
}
