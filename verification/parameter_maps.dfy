/** The mutable `Map<String, Object>` that rendering code fills with bound values. */
module ParameterMaps {

  /** A map object that callers share by reference; `entries` is its current content. */
  class ParameterMap<V> {
    var entries: map<string, V>

    constructor (entries: map<string, V>)
      ensures this.entries == entries
    {
      this.entries := entries;
    }
  }
}
