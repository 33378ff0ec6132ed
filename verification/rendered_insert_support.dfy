/**
  The rendered pieces of an insert statement: the fields phrase, the values
  phrase and the parameters they bind, frozen at construction.
*/
module InsertRender {
  import opened Wrappers
  import opened ParameterMaps

  /** `fieldsPhrase`, `valuesPhrase` and `parameters` are its three getters; being a value, it never changes. */
  datatype RenderedInsertSupport<V> = RenderedInsertSupport(fieldsPhrase: string, valuesPhrase: string, parameters: map<string, V>)

  /**
    Takes a snapshot of the caller's map as it is now. A `null` map makes the
    copy throw `NullPointerException`, given here as `None`.
  */
  function Of<V>(fieldsPhrase: string, valuesPhrase: string, parameters: ParameterMap?<V>)
    : (r: Option<RenderedInsertSupport<V>>)
    reads parameters
    ensures r.None? <==> parameters == null
    ensures r.Some? ==> r.value.fieldsPhrase == fieldsPhrase && r.value.valuesPhrase == valuesPhrase
    ensures r.Some? ==> r.value.parameters.Keys == parameters.entries.Keys
    ensures r.Some? ==> forall k :: k in parameters.entries ==> r.value.parameters[k] == parameters.entries[k]
  {
    if parameters == null then None
    else Some(RenderedInsertSupport(fieldsPhrase, valuesPhrase, parameters.entries))
  }

  /** A caller that changes its map after `Of` does not change what `Of` returned. */
  method PutAfterOf<V>(fieldsPhrase: string, valuesPhrase: string, parameters: ParameterMap<V>, key: string, value: V)
    returns (support: RenderedInsertSupport<V>)
    modifies parameters
    ensures parameters.entries == old(parameters.entries)[key := value]
    ensures support.fieldsPhrase == fieldsPhrase && support.valuesPhrase == valuesPhrase
    ensures support.parameters == old(parameters.entries)
  {
    var snapshot := Of(fieldsPhrase, valuesPhrase, parameters);
    support := snapshot.value;
    parameters.entries := parameters.entries[key := value];
  }
}
