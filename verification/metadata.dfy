/**
 The metadata map shared by both property implementations
 (internal/property/property.go and internal/types/property.go): an empty
 key asks for the whole map, any other key is an ordinary lookup.
 */
module Metadata {

  /** A Go `any` stored as metadata, known by its printed form. */
  datatype Any = Any(repr: string)

  /** What `GetMetadata` hands back besides its boolean. */
  datatype Lookup = Nothing | One(value: Any) | Whole(all: map<string, Any>)

  /**
   `GetMetadata(key)`: for "" the whole map, or (nil, false) when it is
   empty; otherwise the stored value and whether the key exists.
   */
  function Get(m: map<string, Any>, key: string): (r: (Lookup, bool))
    ensures key == "" && m == map[] ==> r == (Nothing, false)
    ensures key == "" && m != map[] ==> r == (Whole(m), true)
    ensures key != "" ==> (r.1 <==> key in m)
    ensures key != "" && key in m ==> r.0 == One(m[key])
    ensures key != "" && key !in m ==> r.0 == Nothing
  {
    if key == "" then
      if |m| == 0 then (Nothing, false) else (Whole(m), true)
    else if key in m then (One(m[key]), true)
    else (Nothing, false)
  }

  /** `SetMetadata(key, value)`: a nil map is created first, so this is an insert-or-overwrite. */
  function Set(m: map<string, Any>, key: string, value: Any): (r: map<string, Any>)
    ensures r.Keys == m.Keys + {key}
    ensures r[key] == value
    ensures forall k :: k in m && k != key ==> r[k] == m[k]
  {
    m[key := value]
  }

  /** A value set under a non-empty key is read back; other keys are unaffected. */
  lemma GetAfterSet(m: map<string, Any>, key: string, value: Any, other: string)
    requires key != "" && other != "" && other != key
    ensures Get(Set(m, key, value), key) == (One(value), true)
    ensures Get(Set(m, key, value), other) == Get(m, other)
  {
  }

  /** After any `Set` the empty key yields the whole, non-empty map. */
  lemma WholeAfterSet(m: map<string, Any>, key: string, value: Any)
    ensures Get(Set(m, key, value), "") == (Whole(m[key := value]), true)
  {
    assert key in Set(m, key, value);
  }
}
