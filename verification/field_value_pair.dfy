/**
  An immutable (field, optional value) pair used when rendering update and
  insert statements. The field type `F` stands for `SqlField<T>` and the value
  type `V` for `T`; a value of `None` is Java's `null`, rendered as SQL NULL.
*/
module FieldValuePairs {
  import opened Wrappers

  /** `field` and `value` are the pair's two getters. */
  datatype FieldValuePair<F, V> = FieldValuePair(field: F, value: Option<V>)
  {
    /**
      A new pair whose field is this field with its alias stripped and whose
      value is this value. Stripping the alias belongs to `SqlField`, which is
      not part of this model, so it is passed in as `ignoringAlias`.
    */
    function IgnoringAlias(ignoringAlias: F -> F): (r: FieldValuePair<F, V>)
      ensures r.field == ignoringAlias(field)
      ensures r.value == value
    {
      Of(ignoringAlias(field), value)
    }
  }

  /** The pair of `field` and `value` (`value` may be `None`, Java's `null`). */
  function Of<F, V>(field: F, value: Option<V>): (p: FieldValuePair<F, V>)
    ensures p.field == field
    ensures p.value == value
  {
    FieldValuePair(field, value)
  }

  /** The pair that assigns SQL NULL to `field`. */
  function OfNull<F, V>(field: F): (p: FieldValuePair<F, V>)
    ensures p.field == field
    ensures p.value.None?
    ensures p == Of(field, None)
  {
    FieldValuePair(field, None)
  }
}
