/**
 The extra header fields of email/common.go: a map from header name to
 value, which may be nil (`NewEmailHeaderWithData(nil)` or
 `SetAllData(nil)` leave it so). Go's zero value of `T` is the parameter
 `zero`.
 */
module EmailFields {
  import opened Wrappers

  datatype ExtraFields<T> = ExtraFields(data: Option<map<string, T>>)

  /** `GetData(key)`: the stored value, or the zero value with "key not found: {key}"; a nil map holds no key. */
  function GetData<T>(e: ExtraFields<T>, key: string, zero: T): (r: (T, Outcome))
    ensures r.1 == Pass <==> e.data.Some? && key in e.data.value
    ensures r.1 == Pass ==> r.0 == e.data.value[key]
    ensures r.1.Fail? ==> r == (zero, Fail("key not found: " + key))
  {
    if e.data.Some? && key in e.data.value then (e.data.value[key], Pass)
    else (zero, Fail("key not found: " + key))
  }

  /** `SetData(key, value)`: writes into the map and returns nil; a nil map panics on the write. */
  function SetData<T>(e: ExtraFields<T>, key: string, value: T): (r: Run<(Outcome, ExtraFields<T>)>)
    ensures r.Panics? <==> e.data.None?
    ensures r.Returns? ==> r.value.0 == Pass && r.value.1.data == Some(e.data.value[key := value])
  {
    match e.data
    case None => Panics("assignment to entry in nil map")
    case Some(m) => Returns((Pass, ExtraFields(Some(m[key := value]))))
  }

  /** `GetAllData`: the map itself (nil stays nil). */
  function GetAllData<T>(e: ExtraFields<T>): (r: Option<map<string, T>>)
    ensures r == e.data
  {
    e.data
  }

  /** `SetAllData(data)`: replaces the whole map and returns nil. */
  function SetAllData<T>(e: ExtraFields<T>, data: Option<map<string, T>>): (r: (Outcome, ExtraFields<T>))
    ensures r.0 == Pass && r.1.data == data
  {
    (Pass, ExtraFields(data))
  }

  /** `DeleteData(key)`: removes the key; absent keys and a nil map are no-ops; never errors. */
  function DeleteData<T>(e: ExtraFields<T>, key: string): (r: (Outcome, ExtraFields<T>))
    ensures r.0 == Pass
    ensures e.data.None? ==> r.1 == e
    ensures e.data.Some? ==> r.1.data.Some? && r.1.data.value.Keys == e.data.value.Keys - {key}
    ensures e.data.Some? ==> forall k :: k in r.1.data.value ==> r.1.data.value[k] == e.data.value[k]
  {
    match e.data
    case None => (Pass, e)
    case Some(m) => (Pass, ExtraFields(Some(m - {key})))
  }

  /** After `SetData(k, v)`, `GetData(k)` is v and every other key reads as before. */
  lemma SetThenGet<T>(e: ExtraFields<T>, key: string, value: T, other: string, zero: T)
    requires e.data.Some? && other != key
    ensures SetData(e, key, value).Returns?
    ensures var e2 := SetData(e, key, value).value.1;
      GetData(e2, key, zero) == (value, Pass) && GetData(e2, other, zero) == GetData(e, other, zero)
  {
  }

  /** Deleting a key makes it missing, leaves the others, and deleting twice is deleting once. */
  lemma DeleteThenGet<T>(e: ExtraFields<T>, key: string, other: string, zero: T)
    requires other != key
    ensures var e2 := DeleteData(e, key).1;
      && GetData(e2, key, zero) == (zero, Fail("key not found: " + key))
      && GetData(e2, other, zero) == GetData(e, other, zero)
      && DeleteData(e2, key) == (Pass, e2)
  {
    var e2 := DeleteData(e, key).1;
    if e.data.Some? {
      assert e2.data.value - {key} == e2.data.value;
    }
  }

  /** `GetAllData` after `SetAllData(d)` is exactly d. */
  lemma SetAllThenGetAll<T>(e: ExtraFields<T>, data: Option<map<string, T>>)
    ensures GetAllData(SetAllData(e, data).1) == data
  {
  }
}
