/**
 * Browser local storage as an abstract string-to-string map. The source writes through
 * it without any guard, so the model has no "storage unavailable" mode either.
 */
module Storage {
  import opened Wrappers

  /** `getItem`: the stored string, or nothing for a key never written. */
  function Lookup(entries: map<string, string>, key: string): (r: Option<string>)
    ensures r.Some? <==> key in entries
    ensures r.Some? ==> r.value == entries[key]
  {
    if key in entries then Some(entries[key]) else None
  }

  /** A value saved under a key is what a later load of that key returns. */
  lemma SaveThenLoad(entries: map<string, string>, key: string, value: string)
    ensures Lookup(entries[key := value], key) == Some(value)
  {
  }

  /** Saving under one key leaves every other key's load as it was. */
  lemma SaveLeavesOtherKeys(entries: map<string, string>, key: string, value: string, other: string)
    requires other != key
    ensures Lookup(entries[key := value], other) == Lookup(entries, other)
  {
  }

  /** One browser storage area, shared by both selection providers. */
  class LocalStorage {
    var entries: map<string, string>

    constructor (initial: map<string, string>)
      ensures entries == initial
    {
      entries := initial;
    }

    method GetItem(key: string) returns (v: Option<string>)
      ensures v == Lookup(entries, key)
    {
      v := if key in entries then Some(entries[key]) else None;
    }

    method SetItem(key: string, value: string)
      modifies this
      ensures entries == old(entries)[key := value]
    {
      entries := entries[key := value];
    }
  }
}
