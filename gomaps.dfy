/** Go's built-in `map[string]string`. A Go map value is a reference to a
    table: every struct copy that holds it sees the same entries, which is
    what the query-parameter stores and the header store rely on. */
module GoMaps {

  class StringMap {
    var entries: map<string, string>

    /** `make(map[string]string)` */
    constructor ()
      ensures entries == map[]
    {
      entries := map[];
    }

    /** `m[key]`: a missing key reads as Go's zero value, the empty string. */
    function Lookup(key: string): (v: string)
      reads this
      ensures key in entries ==> v == entries[key]
      ensures key !in entries ==> v == ""
    {
      if key in entries then entries[key] else ""
    }

    /** `m[key] = value` */
    method Put(key: string, value: string)
      modifies this
      ensures entries == old(entries)[key := value]
    {
      entries := entries[key := value];
    }

    /** `delete(m, key)`: deleting a missing key is a no-op. */
    method Delete(key: string)
      modifies this
      ensures entries == old(entries) - {key}
    {
      entries := entries - {key};
    }
  }
}
