# mybatis-dynamic-sql rendering core, in Dafny

This project models the bookkeeping that turns mybatis-dynamic-sql statement
models into SQL text plus a map of bound parameters:

- `SelectRender` (`select_renderer.dfy`): the `SelectRenderer` and its builder.
  Every query expression of a select model is rendered in model order with one
  shared `ParameterSequence` counter. The counter starts at 1 unless the caller
  supplies one. The renderer then builds the `order by` clause from the sort
  specifications. A limit and an offset bind their values under the fixed keys
  `_limit` and `_offset` in the working parameter map and yield
  `limit <placeholder>` / `offset <placeholder>`.
- `SetClauses` (`set_clause.dfy`): the `set` clause of an update. A builder
  appends field/value and field/NULL pairs in call order. It freezes them into a
  `SetClause` that owns a copy, with aliases kept (`Build`) or stripped
  (`BuildIgnoringAlias`). A clause is visited in insertion order.
- `FieldValuePairs` (`field_value_pair.dfy`): the immutable (field, optional value)
  pair and its alias-stripping transform.
- `InsertRender` (`rendered_insert_support.dfy`): `RenderedInsertSupport`, the
  fields phrase, the values phrase and a snapshot of the parameter map.
- `ParameterMaps` (`parameter_maps.dfy`): the mutable `Map<String, Object>` that
  callers share by reference. `Wrappers` (`wrappers.dfy`): `Option` and `Result`.

Collaborators whose code is not part of this model are parameters:
- the field's own alias stripping is `ignoringAlias: F -> F`, with no idempotence assumed;
- the placeholder formatter is `RenderingStrategy.formattedJdbcPlaceholder(columnName, namespace, parameterName)`;
- the query-expression renderer and collector are `ExpressionRendering.render` and `ExpressionRendering.collect`.
  `render` receives the counter's current value and returns the counter's value after it has drawn its numbers.
- the text the `order by` joining collector yields for an empty list of sort specifications is `ExpressionRendering.joiningEmptyValue`.

A Java `null` value is `None`: `OfNull(field)` has the same field and value as `Of(field, None)`. The model cannot tell apart two Java objects with equal getters, and nothing in the source compares pairs by identity.

## Model

| member | source | states |
|---|---|---|
| FieldValuePairs.Of | src/main/java/org/mybatis/qbe/sql/FieldValuePair.java:25-30 | the pair's field getter is `field` and its value getter is `value` |
| FieldValuePairs.OfNull | src/main/java/org/mybatis/qbe/sql/FieldValuePair.java:32-36 | the pair's field is `field` and its value is absent (SQL NULL); it has the same field and value as `Of(field, null)` |
| FieldValuePairs.FieldValuePair.IgnoringAlias | src/main/java/org/mybatis/qbe/sql/FieldValuePair.java:21-23 | a new pair whose field is the receiver's field with its alias stripped and whose value is the receiver's value; value-absent exactly when the receiver is |
| SetClauses.IgnoringAliasAll | src/main/java/org/mybatis/qbe/sql/set/SetClause.java:47-48 | mapping `ignoringAlias` over the builder's pairs keeps the length, and element i is element i with its alias stripped |
| SetClauses.VisitedInInsertionOrder | src/main/java/org/mybatis/qbe/sql/set/SetClause.java:18-20 | a recording consumer ends up with exactly the clause's pairs, each once, in insertion order |
| SetClauses.SetClause.constructor | src/main/java/org/mybatis/qbe/sql/set/SetClause.java:14-16 | the pair-by-pair copy loop leaves the clause holding exactly the source pairs, in order |
| SetClauses.SetClause.VisitFieldValuePairs | src/main/java/org/mybatis/qbe/sql/set/SetClause.java:18-20 | the consumer is applied to every pair of the clause, first to last, and to nothing else |
| SetClauses.Builder.constructor | src/main/java/org/mybatis/qbe/sql/set/SetClause.java:25-27 | a new builder holds exactly one pair: the field with no value |
| SetClauses.Builder.WithValue | src/main/java/org/mybatis/qbe/sql/set/SetClause.java:29-31 | a new builder holds exactly one pair: the field with the value |
| SetClauses.Builder.Set | src/main/java/org/mybatis/qbe/sql/set/SetClause.java:33-36 | appends `(field, value)` at the end, keeps the earlier pairs and returns the same builder |
| SetClauses.Builder.SetNull | src/main/java/org/mybatis/qbe/sql/set/SetClause.java:38-41 | appends a value-absent pair at the end, keeps the earlier pairs and returns the same builder |
| SetClauses.Builder.Build | src/main/java/org/mybatis/qbe/sql/set/SetClause.java:43-45 | a new clause holding the builder's pairs, same length and same order |
| SetClauses.Builder.BuildIgnoringAlias | src/main/java/org/mybatis/qbe/sql/set/SetClause.java:47-49 | a new clause of the same length whose element i is the builder's element i with its alias stripped |
| SetClauses.ExtendAfterBuild | src/main/java/org/mybatis/qbe/sql/set/SetClause.java:12-16 | a clause built earlier keeps its pairs while the builder goes on growing |
| InsertRender.Of | src/main/java/org/mybatis/qbe/sql/insert/render/RenderedInsertSupport.java:13-17 | a null map fails as the copy does; otherwise the fields and values phrase getters return the arguments, and the parameters have the same keys and values as the caller's map at construction |
| InsertRender.PutAfterOf | src/main/java/org/mybatis/qbe/sql/insert/render/RenderedInsertSupport.java:16 | a later `put` into the caller's map is not visible in the constructed object |
| SelectRender.OrderByPhrase | src/main/java/org/mybatis/dynamic/sql/select/render/SelectRenderer.java:75-81 | the phrase starts with `aliasOrName()`, and ` DESC` follows if and only if the specification is descending; otherwise nothing follows |
| SelectRender.JoinLayout | src/main/java/org/mybatis/dynamic/sql/select/render/SelectRenderer.java:72 | in a joined string, part i sits at its offset, the delimiter follows it unless it is the last part, and the string ends with the last part |
| SelectRender.RenderOrderBy | src/main/java/org/mybatis/dynamic/sql/select/render/SelectRenderer.java:70-73 | with at least one sort specification the clause starts with `order by `; with none it is the joining collector's empty value |
| SelectRender.OrderByClauseLayout | src/main/java/org/mybatis/dynamic/sql/select/render/SelectRenderer.java:70-73 | after `order by `, the phrase of every sort specification appears in its original order, separated from the next by `, ` |
| SelectRender.RenderAll | src/main/java/org/mybatis/dynamic/sql/select/render/SelectRenderer.java:46-48 | rendering the query expressions yields one expression per model |
| SelectRender.RenderedInModelOrder | src/main/java/org/mybatis/dynamic/sql/select/render/SelectRenderer.java:62-67 | expression i is model i rendered with the same strategy and the counter value the i earlier renders left |
| SelectRender.ParametersAfter | src/main/java/org/mybatis/dynamic/sql/select/render/SelectRenderer.java:50-52 | the final map adds `_limit` exactly when there is a limit and `_offset` exactly when there is an offset; each is bound to its value and every other entry is the collector's; with neither, it is the collector's map |
| SelectRender.SelectRenderer.constructor | src/main/java/org/mybatis/dynamic/sql/select/render/SelectRenderer.java:39-43 | keeps the model and strategy; uses the supplied counter, or a fresh one starting at 1 |
| SelectRender.SelectRenderer.RenderQueryExpression | src/main/java/org/mybatis/dynamic/sql/select/render/SelectRenderer.java:62-68 | renders one expression with the renderer's strategy and shared counter, and leaves the counter where the expression renderer left it |
| SelectRender.SelectRenderer.RenderQueryExpressions | src/main/java/org/mybatis/dynamic/sql/select/render/SelectRenderer.java:46-48 | renders every expression in model order, threading the one counter through them |
| SelectRender.SelectRenderer.RenderLimit | src/main/java/org/mybatis/dynamic/sql/select/render/SelectRenderer.java:83-88 | binds `_limit` to the limit value, leaves all other keys unchanged and returns `limit ` plus the strategy's placeholder |
| SelectRender.SelectRenderer.RenderOffset | src/main/java/org/mybatis/dynamic/sql/select/render/SelectRenderer.java:90-95 | binds `_offset` to the offset value, leaves all other keys unchanged and returns `offset ` plus the strategy's placeholder |
| SelectRender.SelectRenderer.Render | src/main/java/org/mybatis/dynamic/sql/select/render/SelectRenderer.java:45-60 | the provider carries the collected expression text and parameters plus limit/offset entries; each of the order-by, limit and offset clauses is present exactly when its part of the model is |
| SelectRender.Builder.constructor | src/main/java/org/mybatis/dynamic/sql/select/render/SelectRenderer.java:101-104 | a new builder has no model, no strategy and no sequence |
| SelectRender.Builder.WithSelectModel | src/main/java/org/mybatis/dynamic/sql/select/render/SelectRenderer.java:106-109 | records the model, possibly null, changes nothing else and returns the same builder |
| SelectRender.Builder.WithRenderingStrategy | src/main/java/org/mybatis/dynamic/sql/select/render/SelectRenderer.java:111-114 | records the strategy, possibly null, changes nothing else and returns the same builder |
| SelectRender.Builder.WithSequence | src/main/java/org/mybatis/dynamic/sql/select/render/SelectRenderer.java:116-119 | a null sequence fails with `NullSequence` and leaves the builder unchanged; otherwise records the sequence, changes nothing else and returns the same builder |
| SelectRender.Builder.Build | src/main/java/org/mybatis/dynamic/sql/select/render/SelectRenderer.java:121-123 | fails on a missing model, then on a missing strategy; otherwise a renderer with the builder's inputs and the sequence default |

## Left out

- Atomicity of the `AtomicInteger` counter: it is a plain shared mutable counter, and single-threaded rendering is assumed.
- 32-bit wrap-around of the counter is not modelled: its value is an unbounded `int`, and only the expression renderer advances it.
- `QueryExpressionRenderer` and `QueryExpressionCollector` are not part of this model. They are the function parameters `render` and `collect`, so the model states nothing about parameter-key uniqueness or the fail-fast collision check.
- `DefaultSelectStatementProvider` is not part of this model. `Render` returns its ingredients, and the spacing of the final SQL text is not modelled.
- Whether `collector.parameters()` returns the collector's own map or a copy is not visible. The model gives `Render` a fresh map object holding the collector's entries.
- `CustomCollectors.joining` is not part of this model. `Join` is a plain join with a prefix.
- SelectRender.RenderOrderBy: for an empty list of sort specifications the clause is `joiningEmptyValue`, a parameter, because the code of `CustomCollectors.joining` is not part of this model.
- `SqlField.ignoringAlias`, `SortSpecification.aliasOrName`/`isDescending` and `SqlColumn.of` are not part of this model. The first is a function parameter, the second two are the fields of `SortSpecification`, and a column is given by its name.
- `RenderingStrategy.getFormattedJdbcPlaceholder` is not part of this model: it is an arbitrary function of (column name, namespace, parameter name).
- Java generics (`SqlField<T>`, `BindableColumn<Integer>`, `Long` vs `Integer`) are erased. Every pair of one builder shares one field type and one value type.
- SetClauses.ExtendAfterBuild: a Java `ArrayList` shared by builder and clause cannot be represented, since a Dafny `seq` is a value. The lemma therefore does not check the copy at src/main/java/org/mybatis/qbe/sql/set/SetClause.java:15; the copy loop in the `SetClause` constructor models that copy.
- InsertRender.Of: a null fields or values phrase is not represented; Java stores either as given.
- The `Consumer` passed to `visitFieldValuePairs` acts by side effect; the model gives it as a state transformer.
- The unmodifiable wrapper of `RenderedInsertSupport`'s map is not modelled; the value semantics of Dafny maps give the same guarantee.
- The limit and offset keys are the fixed names `_limit` and `_offset`, as the code uses. Drawing them from the shared counter is not what the code does, so the model does not.
