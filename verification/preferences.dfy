/**
 * The key-value settings store the registrar persists its cache in
 * (Android's `SharedPreferences` and its `Editor`). Only the value kinds the
 * registrar uses are given typed getters.
 */
module Preferences {
  import opened JavaTypes

  /** A stored value, tagged with the kind it was put with. */
  datatype PrefValue =
    | StringPref(s: string)
    | IntPref(i: Int32)
    | LongPref(l: Int64)
    | BooleanPref(b: bool)

  type Entries = map<string, PrefValue>

  /** A typed getter may read `key`: it is absent or was put with that kind. */
  predicate HoldsString(entries: Entries, key: string) { key in entries ==> entries[key].StringPref? }
  predicate HoldsInt(entries: Entries, key: string) { key in entries ==> entries[key].IntPref? }
  predicate HoldsLong(entries: Entries, key: string) { key in entries ==> entries[key].LongPref? }

  /** `getString(key, default)`: the stored string, or `default` when the key is absent. */
  function GetString(entries: Entries, key: string, default: string): string
    requires HoldsString(entries, key)
  {
    if key in entries then entries[key].s else default
  }

  /** `getInt(key, default)`. */
  function GetInt(entries: Entries, key: string, default: Int32): Int32
    requires HoldsInt(entries, key)
  {
    if key in entries then entries[key].i else default
  }

  /** `getLong(key, default)`. */
  function GetLong(entries: Entries, key: string, default: Int64): Int64
    requires HoldsLong(entries, key)
  {
    if key in entries then entries[key].l else default
  }

  /** A settings file. Edits are collected in an editor and applied together on commit. */
  class SharedPreferences {
    var entries: Entries

    constructor (initial: Entries)
      ensures entries == initial
    {
      entries := initial;
    }

    /** `Editor.commit()`: every pending put overrides the stored value of its key. */
    method Commit(edits: Entries)
      modifies this
      ensures entries.Keys == old(entries).Keys + edits.Keys
      ensures forall k :: k in edits ==> entries[k] == edits[k]
      ensures forall k :: k in old(entries) && k !in edits ==> entries[k] == old(entries)[k]
    {
      entries := entries + edits;
    }
  }
}
