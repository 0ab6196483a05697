/**
 * The browser's key/value storage, with typed values in place of JSON text.
 * `StoredUser` and `StoredProfile` stand for the JSON encodings of a record;
 * `StoredString` is any other text, including text that is not JSON at all.
 */
module LocalStorage {
  import opened Wrappers
  import opened Records

  datatype Value =
    | StoredString(text: string)
    | StoredUser(user: User)
    | StoredProfile(profile: Profile)

  /** The outcome of reading a stored record: `getItem`, a truthiness test, then `JSON.parse`. */
  datatype Read<+T> = Missing | Parsed(value: T) | Unparseable

  /** `getItem(key)`: the stored value, or nothing. */
  function Lookup(entries: map<string, Value>, key: string): Option<Value>
  {
    if key in entries then Some(entries[key]) else None
  }

  /** What `getItem` returns is truthy: present and not the empty string. */
  predicate IsTruthy(v: Option<Value>)
  {
    v.Some? && v.value != StoredString("")
  }

  /** Reading a stored user record. */
  function ReadUser(v: Option<Value>): (r: Read<User>)
    ensures r.Missing? <==> !IsTruthy(v)
    ensures r.Parsed? <==> v.Some? && v.value.StoredUser?
    ensures r.Parsed? ==> v == Some(StoredUser(r.value))
  {
    if !IsTruthy(v) then Missing
    else if v.value.StoredUser? then Parsed(v.value.user)
    else Unparseable
  }

  /** Reading a stored profile record. */
  function ReadProfile(v: Option<Value>): (r: Read<Profile>)
    ensures r.Missing? <==> !IsTruthy(v)
    ensures r.Parsed? <==> v.Some? && v.value.StoredProfile?
    ensures r.Parsed? ==> v == Some(StoredProfile(r.value))
  {
    if !IsTruthy(v) then Missing
    else if v.value.StoredProfile? then Parsed(v.value.profile)
    else Unparseable
  }

  /** The storage area shared by every component of the page. */
  class Store {
    var entries: map<string, Value>

    constructor (initial: map<string, Value>)
      ensures entries == initial
    {
      entries := initial;
    }

    method GetItem(key: string) returns (v: Option<Value>)
      ensures v == Lookup(entries, key)
      ensures v.Some? <==> key in entries
    {
      v := if key in entries then Some(entries[key]) else None;
    }

    method SetItem(key: string, v: Value)
      modifies this
      ensures entries == old(entries)[key := v]
    {
      entries := entries[key := v];
    }

    method RemoveItem(key: string)
      modifies this
      ensures entries == old(entries) - {key}
      ensures key !in entries
    {
      entries := entries - {key};
    }
  }
}
