/**
 The property of internal/property/property.go, used by actions: a named
 value with metadata and a registry of named change listeners.

 A listener function is known by identity. The registry remembers what was
 stored under each name: the wrapper `AddListener` builds around a nil
 listener, or the wrapper `AddChainedListener` builds around a given one.
 */
module Property {
  import opened Wrappers
  import Metadata
  import TypesProperty

  datatype LFn = LFn(id: nat)

  datatype Listener = NilWrapper | Chained(fn: LFn)

  datatype KubexProperty<T> = KubexProperty(
    name: string,
    typeName: string,
    metadata: map<string, Metadata.Any>,
    value: Option<T>,
    listeners: map<string, Listener>)

  /**
   How the initial value looks once `SetValue` hands it to `validateAndSet`
   as `any`: for a concrete `T` its dynamic type is `T` itself; for an
   interface `T` it is some other type, or the value is a nil interface.
   */
  datatype AsAny = SameType | OtherDynamic(dynType: string) | NilInterface

  /**
   `NewProperty(name, value)` as written: a nil pointer gives an empty
   property. Otherwise `*value` goes through `SetValue` to `validateAndSet`,
   which compares `T` with the value's dynamic type. A concrete `T` matches
   and is then asserted to `*T`, which panics. An interface `T` never matches;
   the mismatch error is built from the dynamic type and discarded, so the
   property stays empty, except that a nil value has no type to print and
   panics.
   */
  function NewPropertyAsWritten<T>(name: string, typeName: string, value: Option<T>, asAny: AsAny): (r: Run<KubexProperty<T>>)
    ensures value.None? || asAny.OtherDynamic? ==> r == Returns(KubexProperty(name, typeName, map[], None, map[]))
    ensures value.Some? ==> (r.Panics? <==> !asAny.OtherDynamic?)
    ensures value.Some? && asAny.SameType? ==>
              r == Panics("interface conversion: interface {} is " + typeName + ", not *" + typeName)
  {
    if value.None? then Returns(KubexProperty(name, typeName, map[], None, map[]))
    else
      match asAny
      case SameType => Panics("interface conversion: interface {} is " + typeName + ", not *" + typeName)
      case OtherDynamic(_) => Returns(KubexProperty(name, typeName, map[], None, map[]))
      case NilInterface => Panics("invalid memory address or nil pointer dereference")
  }

  /** `NewProperty` as evidently intended: empty metadata and listeners, holding `*value` if given. */
  function NewProperty<T>(name: string, typeName: string, value: Option<T>): (p: KubexProperty<T>)
    ensures p.name == name && p.typeName == typeName && p.value == value
    ensures p.metadata == map[] && p.listeners == map[]
  {
    KubexProperty(name, typeName, map[], value, map[])
  }

  /** The type `AddListener` compares `T` with: its parameter is a `*ChangeListener[T]`. */
  function ListenerPointerType(typeName: string): string
  {
    "*property.ChangeListener[" + typeName + "]"
  }

  /**
   `AddListener(name, listener)`: a taken name is refused. For a fresh name
   a nil listener first gets a wrapper stored under the name; then `T` is
   compared with the listener's pointer type, which never matches, so the
   call errors and a non-nil listener is never stored.
   */
  function AddListener<T>(p: KubexProperty<T>, name: string, listener: Option<LFn>): (r: (Outcome, KubexProperty<T>))
    ensures r.0.Fail?
    ensures name in p.listeners ==> r == (Fail("listener with name " + name + " already exists"), p)
    ensures name !in p.listeners && listener.None? ==> r.1 == p.(listeners := p.listeners[name := NilWrapper])
    ensures name !in p.listeners && listener.Some? ==> r.1 == p
    ensures name !in p.listeners ==>
              r.0 == Fail(TypesProperty.Mismatch(p.typeName, ListenerPointerType(p.typeName)))
  {
    if name in p.listeners then (Fail("listener with name " + name + " already exists"), p)
    else
      var q := if listener.None? then p.(listeners := p.listeners[name := NilWrapper]) else p;
      (Fail(TypesProperty.Mismatch(p.typeName, ListenerPointerType(p.typeName))), q)
  }

  /**
   `AddChainedListener(name, base, listener)`: refused when `name` is taken
   or `base` is not registered; otherwise only `name` is added.
   */
  function AddChainedListener<T>(p: KubexProperty<T>, name: string, base: string, listener: LFn): (r: (Outcome, KubexProperty<T>))
    ensures r.0 == Pass <==> name !in p.listeners && base in p.listeners
    ensures name in p.listeners ==> r == (Fail("listener with name " + name + " already exists"), p)
    ensures name !in p.listeners && base !in p.listeners ==>
              r == (Fail("listener with name " + base + " does not exist"), p)
    ensures r.0 == Pass ==> r.1 == p.(listeners := p.listeners[name := Chained(listener)])
  {
    if name in p.listeners then (Fail("listener with name " + name + " already exists"), p)
    else if base !in p.listeners then (Fail("listener with name " + base + " does not exist"), p)
    else (Pass, p.(listeners := p.listeners[name := Chained(listener)]))
  }

  /** `RemoveListener(name)`: refused for a missing name; otherwise only that name goes. */
  function RemoveListener<T>(p: KubexProperty<T>, name: string): (r: (Outcome, KubexProperty<T>))
    ensures r.0 == Pass <==> name in p.listeners
    ensures r.0.Fail? ==> r == (Fail("listener with name " + name + " does not exist"), p)
    ensures r.0 == Pass ==> r.1 == p.(listeners := p.listeners - {name})
  {
    if name !in p.listeners then (Fail("listener with name " + name + " does not exist"), p)
    else (Pass, p.(listeners := p.listeners - {name}))
  }

  /** `RemoveAllListeners`: deletes every registered name. */
  function RemoveAllListeners<T>(p: KubexProperty<T>): (r: KubexProperty<T>)
    ensures r.listeners == map[]
    ensures r.(listeners := p.listeners) == p
  {
    p.(listeners := map[])
  }

  /** `GetMetadata(key)`: "" asks for the whole map, any other key for its entry. */
  function GetMetadata<T>(p: KubexProperty<T>, key: string): (r: (Metadata.Lookup, bool))
    ensures key == "" ==> (r.1 <==> p.metadata != map[]) && (r.1 ==> r.0 == Metadata.Whole(p.metadata))
    ensures key != "" ==> (r.1 <==> key in p.metadata)
    ensures key != "" && key in p.metadata ==> r.0 == Metadata.One(p.metadata[key])
  {
    Metadata.Get(p.metadata, key)
  }

  function SetMetadata<T>(p: KubexProperty<T>, key: string, value: Metadata.Any): (r: KubexProperty<T>)
    ensures Metadata.Get(r.metadata, key).1
    ensures r.(metadata := p.metadata) == p
  {
    Metadata.WholeAfterSet(p.metadata, key, value);
    p.(metadata := Metadata.Set(p.metadata, key, value))
  }

  // ---------------------------------------------------------------------
  // Properties
  // ---------------------------------------------------------------------

  /**
   A fresh property can only ever hold nil-listener wrappers, so
   `AddChainedListener` can only chain onto one of those.
   */
  lemma OnlyNilWrappersFromAddListener<T>(p: KubexProperty<T>, name: string, listener: Option<LFn>)
    requires forall n :: n in p.listeners ==> p.listeners[n] == NilWrapper
    ensures forall n :: n in AddListener(p, name, listener).1.listeners ==>
              AddListener(p, name, listener).1.listeners[n] == NilWrapper
  {
  }

  /** A chained listener can be removed again, restoring the registry. */
  lemma ChainThenRemove<T>(p: KubexProperty<T>, name: string, base: string, listener: LFn)
    requires name !in p.listeners && base in p.listeners
    ensures var a := AddChainedListener(p, name, base, listener);
      a.0 == Pass && RemoveListener(a.1, name) == (Pass, p)
  {
    var a := AddChainedListener(p, name, base, listener);
    assert a.1.listeners - {name} == p.listeners;
  }

  /** After `RemoveAllListeners`, removing any name fails and chaining onto any base fails. */
  lemma NothingLeftAfterRemoveAll<T>(p: KubexProperty<T>, name: string, base: string, listener: LFn)
    ensures RemoveListener(RemoveAllListeners(p), name).0.Fail?
    ensures AddChainedListener(RemoveAllListeners(p), name, base, listener).0.Fail?
  {
  }
}
