/** The JSON-shaped dictionaries the visit pipeline passes around: built by
    the metadata builder, handed to the tracking task, enriched in place and
    stored in a JSON column. */
module Json {
  import opened Wrappers

  /** The JSON values visit metadata holds: strings, booleans and null. */
  datatype Value = Null | Str(text: string) | Bool(flag: bool)

  type Object = map<string, Value>

  /** A Python `dict` of JSON values. Callers share it by reference, so an
      update made by the task is visible to whoever passed it in. */
  class Dict {
    var entries: Object

    constructor (entries: Object)
      ensures this.entries == entries
    {
      this.entries := entries;
    }

    /** `d.get(key)`: the value under `key`, or None when the key is absent. */
    function Get(key: string): Option<Value>
      reads this
    {
      if key in entries then Some(entries[key]) else None
    }

    /** `d.update(other)`: adds the keys of `other`, overwriting those already present. */
    method Update(other: Object)
      modifies this
      ensures entries.Keys == old(entries).Keys + other.Keys
      ensures forall k :: k in other ==> entries[k] == other[k]
      ensures forall k :: k in old(entries) && k !in other ==> entries[k] == old(entries)[k]
      ensures forall k :: Get(k) == (if k in other then Some(other[k]) else old(Get(k)))
    {
      entries := entries + other;
    }
  }
}
