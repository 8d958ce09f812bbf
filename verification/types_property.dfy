/**
 The property of internal/types/property.go, used by the internal worker
 pool and worker manager: a named value of type `T` with metadata,
 validators and named change listeners.

 Go passes the value to `SetValue` and `SetDefaultValue` as `any`; `Dyn`
 records what dynamic type it has. `T`'s own name (as `reflect` prints it)
 is stored in the property as `typeName`.
 */
module TypesProperty {
  import opened Wrappers
  import Metadata

  /** A value passed as Go's `any`: nil, a `T`, a `*T`, or a value of some other type. */
  datatype Dyn<T> = NilValue | Value(x: T) | Pointer(x: T) | OtherType(typeName: string)

  /** A validator function, known by identity. */
  datatype VFn = VFn(id: nat)

  /** The dynamic type of every validator handed to `AddValidator`, whose parameter is `func(any) error`. */
  const FuncType: string := "func(interface {}) error"

  datatype Property<T> = Property(
    name: string,
    typeName: string,
    metadata: map<string, Metadata.Any>,
    value: Option<T>,
    validators: seq<VFn>,
    listeners: set<string>)

  /** The error `validateAndSet`, `SetDefaultValue` and `AddValidator` build for a type mismatch. */
  function Mismatch(expected: string, got: string): string
  {
    "type mismatch: expected " + expected + ", got " + got
  }

  /**
   `NewPropertyWithType(name, value)` and `NewProperty`: empty metadata,
   validators and listeners; a nil pointer leaves the value unset, otherwise
   `*value` is stored (`TypeOf(value)` is `*T`, never `T`).
   */
  function NewProperty<T>(name: string, typeName: string, value: Option<T>): (p: Property<T>)
    ensures p.name == name && p.typeName == typeName
    ensures p.metadata == map[] && p.validators == [] && p.listeners == {}
    ensures p.value == value
  {
    Property(name, typeName, map[], value, [], {})
  }

  /** The first validator's error for `x`, in registration order, if any. */
  function FirstFailure<T>(vs: seq<VFn>, x: T, eval: (VFn, T) -> Outcome): (r: Option<string>)
    ensures r.None? <==> forall i :: 0 <= i < |vs| ==> eval(vs[i], x) == Pass
    ensures r.Some? ==> exists i :: 0 <= i < |vs| && eval(vs[i], x) == Fail(r.value)
    decreases |vs|
  {
    if |vs| == 0 then None
    else if eval(vs[0], x).Fail? then Some(eval(vs[0], x).msg)
    else
      var r := FirstFailure(vs[1..], x, eval);
      assert forall i :: 1 <= i < |vs| ==> vs[i] == vs[1..][i - 1];
      r
  }

  /**
   `SetValue(value, cb)` as written. `validateAndSet` first requires the
   value's dynamic type to be exactly `T`, then stores `value.(*T)`, an
   assertion that fails for every value of type `T`. So no call stores
   anything: a `T` that passes the validators panics, a nil value panics
   while formatting its missing type, and everything else is a type error.
   */
  function SetValueAsWritten<T>(p: Property<T>, v: Dyn<T>, eval: (VFn, T) -> Outcome): (r: Run<Outcome>)
    ensures v.NilValue? ==> r.Panics?
    ensures v.Pointer? ==> r == Returns(Fail(Mismatch(p.typeName, "*" + p.typeName)))
    ensures v.OtherType? ==> r == Returns(Fail(Mismatch(p.typeName, v.typeName)))
    ensures v.Value? ==> (r.Panics? <==> FirstFailure(p.validators, v.x, eval).None?)
    ensures r.Returns? ==> r.value.Fail?
  {
    match v
    case NilValue => Panics("invalid memory address or nil pointer dereference")
    case Pointer(_) => Returns(Fail(Mismatch(p.typeName, "*" + p.typeName)))
    case OtherType(n) => Returns(Fail(Mismatch(p.typeName, n)))
    case Value(x) =>
      match FirstFailure(p.validators, x, eval)
      case Some(e) => Returns(Fail(e))
      case None => Panics("interface conversion: interface {} is " + p.typeName + ", not *" + p.typeName)
  }

  /**
   `SetValue` as evidently intended: a value of type `T` that passes every
   validator is stored; then the callback's error, if a callback is given,
   is the result. Anything else is refused with the type-mismatch error and
   leaves the property as it was.
   */
  function SetValue<T>(p: Property<T>, v: Dyn<T>, cb: Option<Outcome>, eval: (VFn, T) -> Outcome): (r: (Outcome, Property<T>))
    ensures !v.Value? ==> r.0.Fail? && r.1 == p
    ensures r.0 == Pass ==> v.Value? && r.1 == p.(value := Some(v.x))
    ensures v.Value? && FirstFailure(p.validators, v.x, eval).Some? ==>
              r == (Fail(FirstFailure(p.validators, v.x, eval).value), p)
    ensures v.Value? && FirstFailure(p.validators, v.x, eval).None? ==>
              r.0 == cb.GetOr(Pass) && r.1 == p.(value := Some(v.x))
  {
    match v
    case NilValue => (Fail(Mismatch(p.typeName, "<nil>")), p)
    case Pointer(_) => (Fail(Mismatch(p.typeName, "*" + p.typeName)), p)
    case OtherType(n) => (Fail(Mismatch(p.typeName, n)), p)
    case Value(x) =>
      match FirstFailure(p.validators, x, eval)
      case Some(e) => (Fail(e), p)
      case None => (cb.GetOr(Pass), p.(value := Some(x)))
  }

  /**
   `SetDefaultValue(value)`: nil is refused; a value of type `T` is then
   asserted to `*T`, which panics; any other value is a type error.
   */
  function SetDefaultValue<T>(p: Property<T>, v: Dyn<T>): (r: Run<Outcome>)
    ensures v.NilValue? ==> r == Returns(Fail("value cannot be nil"))
    ensures v.Value? ==> r.Panics?
    ensures r.Returns? ==> r.value.Fail?
  {
    match v
    case NilValue => Returns(Fail("value cannot be nil"))
    case Value(_) => Panics("interface conversion: interface {} is " + p.typeName + ", not *" + p.typeName)
    case Pointer(_) => Returns(Fail(Mismatch(p.typeName, "*" + p.typeName)))
    case OtherType(n) => Returns(Fail(Mismatch(p.typeName, n)))
  }

  /**
   `AddValidator(name, validator)`: nil is refused; otherwise `T` is compared
   with the validator's own function type, so only a property whose `T` is
   that function type accepts one.
   */
  function AddValidator<T>(p: Property<T>, validator: Option<VFn>): (r: (Outcome, Property<T>))
    ensures validator.None? ==> r == (Fail("validator cannot be nil"), p)
    ensures r.0 == Pass <==> validator.Some? && p.typeName == FuncType
    ensures r.0.Fail? ==> r.1 == p
    ensures r.0 == Pass ==> r.1 == p.(validators := p.validators + [validator.value])
  {
    if validator.None? then (Fail("validator cannot be nil"), p)
    else if p.typeName != FuncType then (Fail(Mismatch(p.typeName, FuncType)), p)
    else (Pass, p.(validators := p.validators + [validator.value]))
  }

  /** `AddListener(name, listener)`: a taken name is refused; otherwise a wrapper is stored under it. */
  function AddListener<T>(p: Property<T>, name: string): (r: (Outcome, Property<T>))
    ensures r.0 == Pass <==> name !in p.listeners
    ensures r.0.Fail? ==> r == (Fail("listener with name " + name + " already exists"), p)
    ensures r.0 == Pass ==> r.1 == p.(listeners := p.listeners + {name})
  {
    if name in p.listeners then (Fail("listener with name " + name + " already exists"), p)
    else (Pass, p.(listeners := p.listeners + {name}))
  }

  /** The panic of asserting the `any` that `GetValue` returns, a boxed `*T`, to `T`. */
  function BoxedValuePanic(typeName: string): string
  {
    "interface conversion: interface {} is *" + typeName + ", not " + typeName
  }

  /**
   `GetValue().(T)`, as every caller writes it: `GetValue` returns what the
   `atomic.Pointer[T]` holds, a `*T` (nil when nothing was stored) boxed in
   `any`, so the assertion to `T` fails whatever the property holds.
   */
  function GetValueAsWritten<T>(p: Property<T>): (r: Run<T>)
    ensures r.Panics? && r.reason == BoxedValuePanic(p.typeName)
  {
    Panics(BoxedValuePanic(p.typeName))
  }

  /** `GetMetadata(key)`: "" asks for the whole map, any other key for its entry. */
  function GetMetadata<T>(p: Property<T>, key: string): (r: (Metadata.Lookup, bool))
    ensures key == "" ==> (r.1 <==> p.metadata != map[]) && (r.1 ==> r.0 == Metadata.Whole(p.metadata))
    ensures key != "" ==> (r.1 <==> key in p.metadata)
    ensures key != "" && key in p.metadata ==> r.0 == Metadata.One(p.metadata[key])
  {
    Metadata.Get(p.metadata, key)
  }

  function SetMetadata<T>(p: Property<T>, key: string, value: Metadata.Any): (r: Property<T>)
    ensures Metadata.Get(r.metadata, key).1
    ensures r.(metadata := p.metadata) == p
  {
    Metadata.WholeAfterSet(p.metadata, key, value);
    p.(metadata := Metadata.Set(p.metadata, key, value))
  }

  // ---------------------------------------------------------------------
  // Properties
  // ---------------------------------------------------------------------

  /** As written, no validator ever reaches an `int` or `string` property. */
  lemma ValidatorsNeverAttach<T>(p: Property<T>, validator: Option<VFn>)
    requires p.typeName == "int" || p.typeName == "string"
    ensures AddValidator(p, validator).0.Fail?
    ensures AddValidator(p, validator).1 == p
  {
  }

  /**
   As written, a well-typed value on a property without validators (every
   property, since `AddValidator` never attaches one to a data type) panics.
   */
  lemma WellTypedSetPanics<T>(p: Property<T>, x: T, eval: (VFn, T) -> Outcome)
    requires p.validators == []
    ensures SetValueAsWritten(p, Value(x), eval).Panics?
  {
  }

  /** As intended, a value that passes the validators is what the property then holds. */
  lemma SetThenGet<T>(p: Property<T>, x: T, cb: Option<Outcome>, eval: (VFn, T) -> Outcome)
    requires forall i :: 0 <= i < |p.validators| ==> eval(p.validators[i], x) == Pass
    ensures SetValue(p, Value(x), cb, eval).1.value == Some(x)
    ensures SetValue(p, Value(x), cb, eval).0 == cb.GetOr(Pass)
  {
  }

  /** A second listener under the same name is refused. */
  lemma ListenerNamesUnique<T>(p: Property<T>, name: string)
    requires name !in p.listeners
    ensures AddListener(AddListener(p, name).1, name).0.Fail?
  {
  }
}
