/**
 The channel bundle of internal/components/types/channels.go: a
 `ChannelBase` (a named, typed channel with a recorded buffer count) and a
 `ChannelCtl` (a main channel plus a map of named sub-channels).

 A Go channel is known by its capacity and the values waiting in it, in
 arrival order and by their printed form; a fresh channel holds none. The element type of a `ChannelBase[T]` is
 `Elem`; only a `ChannelBase[any]` satisfies the interface
 `IChannelBase[any]` that the sub-channel accessors assert to, because
 Go generic instances do not convert into one another. The buffer sizes
 are the (2, 5, 10) of `GetDefaultBufferSizes`.
 */
module Channels {
  import opened Wrappers

  const SmBuf: int := 2
  const MdBuf: int := 5
  const LgBuf: int := 10

  datatype Chan = Chan(capacity: nat, items: seq<string>)

  /** The `T` of a `ChannelBase[T]`. */
  datatype Elem = BoolElem | StringElem | AnyElem

  datatype ChannelBase = ChannelBase(name: string, elem: Elem, channel: Option<Chan>, buffers: int)

  /** A value stored in the sub-channel map: a channel base, a nil interface, or anything else. */
  datatype Sub = Base(base: ChannelBase) | NilSub | Opaque(id: nat)

  datatype ChannelCtl = ChannelCtl(
    name: string,
    withMetrics: bool,
    main: Option<Chan>,
    buffers: int,
    hasProperty: bool,
    channels: Option<map<string, Sub>>)

  /** `make(chan T, n)`: a fresh, empty channel; a negative size panics. */
  function MakeChan(n: int): (r: Run<Chan>)
    ensures r.Returns? <==> n >= 0
    ensures r.Returns? ==> r.value.capacity == n && r.value.items == []
  {
    if n < 0 then Panics("makechan: size out of range") else Returns(Chan(n, []))
  }

  // ---------------------------------------------------------------------
  // ChannelBase
  // ---------------------------------------------------------------------

  /** `NewChannelBase[T](name, buffers, logger)`: a non-positive buffer count becomes the large default. */
  function NewChannelBase(name: string, elem: Elem, buffers: int): (c: ChannelBase)
    ensures c.name == name && c.elem == elem
    ensures c.buffers == (if buffers <= 0 then LgBuf else buffers)
    ensures c.buffers > 0 && c.channel == Some(Chan(c.buffers, []))
  {
    var b := if buffers <= 0 then LgBuf else buffers;
    ChannelBase(name, elem, Some(Chan(b, [])), b)
  }

  /** `SetBuffers(n)`: records n and installs a fresh channel of that capacity (a negative n panics). */
  function SetBuffers(c: ChannelBase, n: int): (r: Run<(int, ChannelBase)>)
    ensures r.Returns? <==> n >= 0
    ensures r.Returns? ==> r.value.0 == n && r.value.1 == c.(buffers := n, channel := Some(Chan(n, [])))
  {
    match MakeChan(n)
    case Panics(why) => Panics(why)
    case Returns(ch) => Returns((n, c.(buffers := n, channel := Some(ch))))
  }

  /** `SetChannel(ch)`: the argument is ignored; a fresh channel of the recorded capacity replaces the old one. */
  function SetChannel(c: ChannelBase, ignored: Option<Chan>): (r: Run<(Chan, ChannelBase)>)
    ensures r.Returns? <==> c.buffers >= 0
    ensures r.Returns? ==> r.value.0 == Chan(c.buffers, []) && r.value.1 == c.(channel := Some(r.value.0))
  {
    match MakeChan(c.buffers)
    case Panics(why) => Panics(why)
    case Returns(ch) => Returns((ch, c.(channel := Some(ch))))
  }

  // ---------------------------------------------------------------------
  // Sub-channel maps
  // ---------------------------------------------------------------------

  const BaseNames: set<string> := {"done", "ctl", "condition"}

  /**
   `getDefaultChannelsMap(withMetrics, logger)`: done, ctl and condition
   (the last one named "cond"), plus metrics and monitor with metrics;
   every entry is built by `NewChannelBase`.
   */
  function DefaultChannelsMap(withMetrics: bool): (m: map<string, Sub>)
    ensures m.Keys == BaseNames + (if withMetrics then {"metrics", "monitor"} else {})
    ensures m["done"] == Base(NewChannelBase("done", BoolElem, SmBuf))
    ensures m["ctl"] == Base(NewChannelBase("ctl", StringElem, MdBuf))
    ensures m["condition"] == Base(NewChannelBase("cond", StringElem, SmBuf))
    ensures withMetrics ==> m["metrics"] == Base(NewChannelBase("metrics", StringElem, MdBuf))
                            && m["monitor"] == Base(NewChannelBase("monitor", StringElem, MdBuf))
  {
    var base := map[
      "done" := Base(NewChannelBase("done", BoolElem, SmBuf)),
      "ctl" := Base(NewChannelBase("ctl", StringElem, MdBuf)),
      "condition" := Base(NewChannelBase("cond", StringElem, SmBuf))];
    if withMetrics then
      base["metrics" := Base(NewChannelBase("metrics", StringElem, MdBuf))]
          ["monitor" := Base(NewChannelBase("monitor", StringElem, MdBuf))]
    else base
  }

  /**
   `initChannelsMap`: done, ctl and condition built directly (done's
   channel holds one value though it records the small buffer count), plus
   telemetry and monitor when the controller has metrics on.
   */
  function InitChannelsMap(withMetrics: bool): (m: map<string, Sub>)
    ensures m.Keys == BaseNames + (if withMetrics then {"telemetry", "monitor"} else {})
    ensures m["done"] == Base(ChannelBase("done", BoolElem, Some(Chan(1, [])), SmBuf))
    ensures m["ctl"] == Base(ChannelBase("ctl", StringElem, Some(Chan(MdBuf, [])), MdBuf))
    ensures m["condition"] == Base(ChannelBase("condition", StringElem, Some(Chan(SmBuf, [])), SmBuf))
  {
    var base := map[
      "done" := Base(ChannelBase("done", BoolElem, Some(Chan(1, [])), SmBuf)),
      "ctl" := Base(ChannelBase("ctl", StringElem, Some(Chan(MdBuf, [])), MdBuf)),
      "condition" := Base(ChannelBase("condition", StringElem, Some(Chan(SmBuf, [])), SmBuf))];
    if withMetrics then
      base["telemetry" := Base(ChannelBase("telemetry", StringElem, Some(Chan(MdBuf, [])), MdBuf))]
          ["monitor" := Base(ChannelBase("monitor", StringElem, Some(Chan(MdBuf, [])), MdBuf))]
    else base
  }

  /** The lazy initialisation almost every accessor starts with: a nil map becomes `initChannelsMap`'s. */
  function Ensured(c: ChannelCtl): (r: ChannelCtl)
    ensures r.channels.Some?
    ensures c.channels.Some? ==> r == c
    ensures c.channels.None? ==> r == c.(channels := Some(InitChannelsMap(c.withMetrics)))
  {
    if c.channels.Some? then c else c.(channels := Some(InitChannelsMap(c.withMetrics)))
  }

  // ---------------------------------------------------------------------
  // ChannelCtl
  // ---------------------------------------------------------------------

  /** `NewChannelCtl(name, logger)`: a large main channel and the default map without metrics; `Buffers` stays 0. */
  function NewChannelCtl(name: string): (c: ChannelCtl)
    ensures c.name == name && !c.withMetrics && !c.hasProperty
    ensures c.main == Some(Chan(LgBuf, [])) && c.buffers == 0
    ensures c.channels == Some(DefaultChannelsMap(false))
  {
    ChannelCtl(name, false, Some(Chan(LgBuf, [])), 0, false, Some(DefaultChannelsMap(false)))
  }

  /**
   `NewChannelCtlWithProperty(name, buffers, property, withMetrics, logger)`:
   the main channel holds 3 values when `buffers` is nil and `*buffers`
   otherwise (a negative one panics). `withMetrics` shapes the map but is
   not stored, and `Buffers` stays 0.
   */
  function NewChannelCtlWithProperty(name: string, buffers: Option<int>, withMetrics: bool): (r: Run<ChannelCtl>)
    ensures r.Returns? <==> buffers.GetOr(3) >= 0
    ensures r.Returns? ==> r.value.main == Some(Chan(buffers.GetOr(3), []))
    ensures r.Returns? ==> r.value.channels == Some(DefaultChannelsMap(withMetrics))
    ensures r.Returns? ==> r.value.name == name && r.value.hasProperty && !r.value.withMetrics && r.value.buffers == 0
  {
    var buf := if buffers.Some? then buffers.value else 3;
    match MakeChan(buf)
    case Panics(why) => Panics(why)
    case Returns(ch) => Returns(ChannelCtl(name, false, Some(ch), 0, true, Some(DefaultChannelsMap(withMetrics))))
  }

  /** `GetSubChannels`: the map, initialised first if nil. */
  function GetSubChannels(c: ChannelCtl): (r: (map<string, Sub>, ChannelCtl))
    ensures r.1 == Ensured(c) && r.0 == r.1.channels.value
  {
    var c2 := Ensured(c);
    (c2.channels.value, c2)
  }

  /** `SetSubChannels(channels)`: every supplied entry is inserted or overwritten; the rest of the (initialised) map stays. */
  function SetSubChannels(c: ChannelCtl, channels: map<string, Sub>): (r: (map<string, Sub>, ChannelCtl))
    ensures var old_ := Ensured(c).channels.value;
      && r.0.Keys == old_.Keys + channels.Keys
      && (forall k :: k in channels ==> r.0[k] == channels[k])
      && (forall k :: k in old_ && k !in channels ==> r.0[k] == old_[k])
    ensures r.1 == Ensured(c).(channels := Some(r.0))
  {
    var c2 := Ensured(c);
    var m := c2.channels.value + channels;
    (m, c2.(channels := Some(m)))
  }

  /** `SetSubChannelByName(name, channel)`: inserts or overwrites and never errors; the argument is an `IChannelBase[any]` or nil. */
  function SetSubChannelByName(c: ChannelCtl, name: string, channel: Option<ChannelBase>): (r: (Option<ChannelBase>, Outcome, ChannelCtl))
    requires channel.Some? ==> channel.value.elem == AnyElem
    ensures r.0 == channel && r.1 == Pass
    ensures r.2 == Ensured(c).(channels := Some(Ensured(c).channels.value[name := if channel.Some? then Base(channel.value) else NilSub]))
  {
    var c2 := Ensured(c);
    var v := if channel.Some? then Base(channel.value) else NilSub;
    (channel, Pass, c2.(channels := Some(c2.channels.value[name := v])))
  }

  /** Whether a stored value passes the `.(ci.IChannelBase[any])` assertion. */
  predicate IsAnyBase(s: Sub)
  {
    s.Base? && s.base.elem == AnyElem
  }

  /**
   `GetSubChannelByName(name)` as written: the entry is returned only when
   it asserts to `IChannelBase[any]`; a `ChannelBase[bool]` or
   `ChannelBase[string]` does not, so every entry the constructors and
   `initChannelsMap` create reads as missing.
   */
  function GetSubChannelByNameAsWritten(c: ChannelCtl, name: string): (r: (Option<ChannelBase>, Option<Elem>, bool, ChannelCtl))
    ensures r.3 == Ensured(c)
    ensures r.2 <==> name in r.3.channels.value && IsAnyBase(r.3.channels.value[name])
    ensures r.2 ==> r.0 == Some(r.3.channels.value[name].base) && r.1 == Some(AnyElem)
    ensures !r.2 ==> r.0.None? && r.1.None?
  {
    var c2 := Ensured(c);
    var m := c2.channels.value;
    if name in m && IsAnyBase(m[name]) then (Some(m[name].base), Some(m[name].base.elem), true, c2)
    else (None, None, false, c2)
  }

  /** `GetSubChannelByName(name)` as evidently intended: any stored channel base is found, with its element type. */
  function GetSubChannelByName(c: ChannelCtl, name: string): (r: (Option<ChannelBase>, Option<Elem>, bool, ChannelCtl))
    ensures r.3 == Ensured(c)
    ensures r.2 <==> name in r.3.channels.value && r.3.channels.value[name].Base?
    ensures r.2 ==> r.0 == Some(r.3.channels.value[name].base) && r.1 == Some(r.0.value.elem)
    ensures !r.2 ==> r.0.None? && r.1.None?
  {
    var c2 := Ensured(c);
    var m := c2.channels.value;
    if name in m && m[name].Base? then (Some(m[name].base), Some(m[name].base.elem), true, c2)
    else (None, None, false, c2)
  }

  /**
   `GetSubChannelBuffersByName(name)`: (0, false) for a missing name; a
   present entry is asserted to `IChannelBase[any]` without a check, so
   anything else panics.
   */
  function GetSubChannelBuffersByName(c: ChannelCtl, name: string): (r: Run<(int, bool, ChannelCtl)>)
    ensures var m := Ensured(c).channels.value;
      && (r.Panics? <==> name in m && !IsAnyBase(m[name]))
      && (name !in m ==> r == Returns((0, false, Ensured(c))))
      && (name in m && IsAnyBase(m[name]) ==> r == Returns((m[name].base.buffers, true, Ensured(c))))
  {
    var c2 := Ensured(c);
    var m := c2.channels.value;
    if name !in m then Returns((0, false, c2))
    else if !IsAnyBase(m[name]) then Panics("interface conversion")
    else Returns((m[name].base.buffers, true, c2))
  }

  /**
   `SetSubChannelBuffersByName(name, buffers)`: (0, nil) and no change for
   a missing name; otherwise the unchecked assertion (panicking on anything
   but an `IChannelBase[any]`) and that channel's `SetBuffers`.
   */
  function SetSubChannelBuffersByName(c: ChannelCtl, name: string, buffers: int): (r: Run<(int, Outcome, ChannelCtl)>)
    ensures var m := Ensured(c).channels.value;
      && (name !in m ==> r == Returns((0, Pass, Ensured(c))))
      && (r.Panics? <==> name in m && (!IsAnyBase(m[name]) || buffers < 0))
      && (r.Returns? && name in m ==>
            && r.value.0 == buffers && r.value.1 == Pass
            && r.value.2 == Ensured(c).(channels := Some(m[name := Base(m[name].base.(buffers := buffers, channel := Some(Chan(buffers, []))))])))
  {
    var c2 := Ensured(c);
    var m := c2.channels.value;
    if name !in m then Returns((0, Pass, c2))
    else if !IsAnyBase(m[name]) then Panics("interface conversion")
    else match SetBuffers(m[name].base, buffers)
      case Panics(why) => Panics(why)
      case Returns((_, b)) => Returns((buffers, Pass, c2.(channels := Some(m[name := Base(b)]))))
  }

  // ---------------------------------------------------------------------
  // Properties
  // ---------------------------------------------------------------------

  /** As written, none of the sub-channels a controller is built with can be looked up, and asking for their buffers panics. */
  lemma DefaultSubChannelsHidden(name: string, buffers: Option<int>, withMetrics: bool, sub: string)
    requires sub in DefaultChannelsMap(withMetrics)
    ensures !GetSubChannelByNameAsWritten(NewChannelCtl(name), "done").2
    ensures var r := NewChannelCtlWithProperty(name, buffers, withMetrics);
      r.Returns? ==> !GetSubChannelByNameAsWritten(r.value, sub).2 && GetSubChannelBuffersByName(r.value, sub).Panics?
  {
  }

  /** As intended, every sub-channel a controller is built with is found, with the buffer count it was built with. */
  lemma DefaultSubChannelsVisible(name: string, sub: string)
    requires sub in BaseNames
    ensures var r := GetSubChannelByName(NewChannelCtl(name), sub);
      && r.2
      && r.0.value.buffers == (if sub == "ctl" then MdBuf else SmBuf)
      && r.1 == Some(if sub == "done" then BoolElem else StringElem)
  {
  }

  /** A channel stored by name is found by name, with its element type, and other names read as before. */
  lemma SetThenGetSubChannel(c: ChannelCtl, name: string, ch: ChannelBase, other: string)
    requires ch.elem == AnyElem && other != name
    ensures var c2 := SetSubChannelByName(c, name, Some(ch)).2;
      && GetSubChannelByNameAsWritten(c2, name) == (Some(ch), Some(AnyElem), true, c2)
      && GetSubChannelByName(c2, name) == (Some(ch), Some(AnyElem), true, c2)
      && GetSubChannelByName(c2, other).0 == GetSubChannelByName(c, other).0
  {
  }

  /** Resizing a stored sub-channel is read back by the buffer accessor. */
  lemma SetThenGetSubChannelBuffers(c: ChannelCtl, name: string, ch: ChannelBase, n: nat)
    requires ch.elem == AnyElem
    ensures var c2 := SetSubChannelByName(c, name, Some(ch)).2;
      && SetSubChannelBuffersByName(c2, name, n).Returns?
      && GetSubChannelBuffersByName(SetSubChannelBuffersByName(c2, name, n).value.2, name).value.0 == n
  {
  }

  /** Merging a map in twice is merging it once. */
  lemma SetSubChannelsIdempotent(c: ChannelCtl, channels: map<string, Sub>)
    ensures var c2 := SetSubChannels(c, channels).1;
      SetSubChannels(c2, channels).1 == c2
  {
    var c2 := SetSubChannels(c, channels).1;
    assert c2.channels.value + channels == c2.channels.value;
  }
}
