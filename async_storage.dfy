/**
  AsyncStorage, the device's persistent key-value store, as the two
  services use it. Each call can be rejected by the platform; whether it is
  is an input (`fails`), since the store itself is not part of this model.
*/
module AsyncStorage {
  import opened Wrappers
  import opened StoredData

  function Lookup(entries: map<string, Entry>, key: string): Option<Entry> {
    if key in entries then Some(entries[key]) else None
  }

  class Storage {
    var entries: map<string, Entry>

    constructor ()
      ensures entries == map[]
    {
      entries := map[];
    }

    /** `getItem`: None for a missing key; `ok` is false when the read is rejected. */
    method GetItem(key: string, fails: bool) returns (ok: bool, value: Option<Entry>)
      ensures ok == !fails
      ensures value == if ok then Lookup(entries, key) else None
    {
      ok := !fails;
      value := if ok then Lookup(entries, key) else None;
    }

    /** `setItem`: a rejected write leaves the store as it was. */
    method SetItem(key: string, value: Entry, fails: bool) returns (ok: bool)
      modifies this
      ensures ok == !fails
      ensures entries == if ok then old(entries)[key := value] else old(entries)
    {
      ok := !fails;
      if ok {
        entries := entries[key := value];
      }
    }

    /** `removeItem`: a rejected removal leaves the store as it was. */
    method RemoveItem(key: string, fails: bool) returns (ok: bool)
      modifies this
      ensures ok == !fails
      ensures entries == if ok then old(entries) - {key} else old(entries)
    {
      ok := !fails;
      if ok {
        entries := entries - {key};
      }
    }
  }
}
