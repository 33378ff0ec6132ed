/**
  The `set` clause of an update statement: an ordered list of field/value
  pairs, accumulated by a builder and frozen into a clause by copying.
*/
module SetClauses {
  import opened Wrappers
  import opened FieldValuePairs

  /** Every pair of `pairs`, in the same order, with its field's alias stripped. */
  function IgnoringAliasAll<F, V>(pairs: seq<FieldValuePair<F, V>>, ignoringAlias: F -> F)
    : (r: seq<FieldValuePair<F, V>>)
    ensures |r| == |pairs|
    ensures forall i :: 0 <= i < |pairs| ==> r[i] == pairs[i].IgnoringAlias(ignoringAlias)
  {
    if pairs == [] then []
    else [pairs[0].IgnoringAlias(ignoringAlias)] + IgnoringAliasAll(pairs[1..], ignoringAlias)
  }

  /**
    The state a consumer reaches when it is applied to each pair of `pairs`,
    first to last, starting from `init`. A Java `Consumer` acts by side
    effect; here its effect is a state transformer.
  */
  function Visited<F, V, S>(pairs: seq<FieldValuePair<F, V>>, consumer: (S, FieldValuePair<F, V>) -> S, init: S): S
  {
    if pairs == [] then init
    else consumer(Visited(pairs[..|pairs| - 1], consumer, init), pairs[|pairs| - 1])
  }

  /** A consumer that records every pair it is given. */
  function Record<F, V>(trace: seq<FieldValuePair<F, V>>, pair: FieldValuePair<F, V>): seq<FieldValuePair<F, V>>
  {
    trace + [pair]
  }

  /** Visiting calls the consumer exactly once per pair, in insertion order. */
  lemma {:induction false} VisitedInInsertionOrder<F, V>(pairs: seq<FieldValuePair<F, V>>, trace: seq<FieldValuePair<F, V>>)
    ensures Visited(pairs, Record, trace) == trace + pairs
  {
    if pairs != [] {
      var n := |pairs| - 1;
      VisitedInInsertionOrder(pairs[..n], trace);
      assert pairs[..n] + [pairs[n]] == pairs;
    }
  }

  class SetClause<F, V> {
    var fieldValuePairs: seq<FieldValuePair<F, V>>

    /** Copies the pairs of `source`, one at a time, into the clause's own list. */
    constructor (source: seq<FieldValuePair<F, V>>)
      ensures fieldValuePairs == source
    {
      fieldValuePairs := [];
      new;
      for i := 0 to |source|
        invariant fieldValuePairs == source[..i]
      {
        fieldValuePairs := fieldValuePairs + [source[i]];
      }
      assert source[..|source|] == source;
    }

    /** Hands every pair to `consumer`, in insertion order. */
    method VisitFieldValuePairs<S>(consumer: (S, FieldValuePair<F, V>) -> S, init: S) returns (state: S)
      ensures state == Visited(fieldValuePairs, consumer, init)
    {
      state := init;
      for i := 0 to |fieldValuePairs|
        invariant state == Visited(fieldValuePairs[..i], consumer, init)
      {
        assert fieldValuePairs[..i + 1][..i] == fieldValuePairs[..i];
        state := consumer(state, fieldValuePairs[i]);
      }
      assert fieldValuePairs[..|fieldValuePairs|] == fieldValuePairs;
    }
  }

  /** Accumulates assignments in call order; every builder starts with one. */
  class Builder<F, V> {
    var fieldValuePairs: seq<FieldValuePair<F, V>>

    /** A builder whose first assignment sets `field` to NULL. */
    constructor (field: F)
      ensures fieldValuePairs == [OfNull(field)]
    {
      fieldValuePairs := [OfNull(field)];
    }

    /** A builder whose first assignment sets `field` to `value`. */
    constructor WithValue(field: F, value: Option<V>)
      ensures fieldValuePairs == [Of(field, value)]
    {
      fieldValuePairs := [Of(field, value)];
    }

    method Set(field: F, value: Option<V>) returns (self: Builder<F, V>)
      modifies this
      ensures self == this
      ensures fieldValuePairs == old(fieldValuePairs) + [Of(field, value)]
    {
      fieldValuePairs := fieldValuePairs + [Of(field, value)];
      self := this;
    }

    method SetNull(field: F) returns (self: Builder<F, V>)
      modifies this
      ensures self == this
      ensures fieldValuePairs == old(fieldValuePairs) + [OfNull(field)]
    {
      fieldValuePairs := fieldValuePairs + [OfNull(field)];
      self := this;
    }

    method Build() returns (clause: SetClause<F, V>)
      ensures fresh(clause)
      ensures clause.fieldValuePairs == fieldValuePairs
    {
      clause := new SetClause(fieldValuePairs);
    }

    method BuildIgnoringAlias(ignoringAlias: F -> F) returns (clause: SetClause<F, V>)
      ensures fresh(clause)
      ensures |clause.fieldValuePairs| == |fieldValuePairs|
      ensures forall i :: 0 <= i < |fieldValuePairs| ==>
                clause.fieldValuePairs[i] == fieldValuePairs[i].IgnoringAlias(ignoringAlias)
    {
      clause := new SetClause(IgnoringAliasAll(fieldValuePairs, ignoringAlias));
    }
  }

  /**
    A clause built from a builder keeps its pairs when the builder is extended
    afterwards: the clause owns a copy.
  */
  method ExtendAfterBuild<F, V>(builder: Builder<F, V>, field: F, value: Option<V>) returns (clause: SetClause<F, V>)
    modifies builder
    ensures clause.fieldValuePairs == old(builder.fieldValuePairs)
    ensures builder.fieldValuePairs == old(builder.fieldValuePairs) + [Of(field, value), OfNull(field)]
  {
    clause := builder.Build();
    var _ := builder.Set(field, value);
    var _ := builder.SetNull(field);
  }
}
