/**
  Rendering of a select statement: every query expression is rendered in
  model order with one shared parameter counter, then the `order by`,
  `limit` and `offset` clauses are added, the last two binding their values
  under fixed parameter names.
*/
module SelectRender {
  import opened Wrappers
  import opened ParameterMaps

  /** Java's `Long`: limit and offset values. */
  newtype Long = x: int | -0x8000_0000_0000_0000 <= x < 0x8000_0000_0000_0000

  /**
    A value bound to a parameter: a limit or offset, or a value bound while
    rendering a query expression, which this model knows only by an identity.
  */
  datatype Value = LongValue(n: Long) | BoundValue(id: nat)

  const LIMIT_PARAMETER: string := "_limit"
  const OFFSET_PARAMETER: string := "_offset"
  /** The binding namespace given to the strategy for the limit and offset placeholders. */
  const PARAMETERS_NAMESPACE: string := "parameters"
  const ORDER_BY_PREFIX: string := "order by "
  const ORDER_BY_DELIMITER: string := ", "

  /**
    The placeholder syntax of the target driver. Its formatter takes the name of
    the column being bound, the binding namespace and the parameter name.
  */
  datatype RenderingStrategy = RenderingStrategy(formattedJdbcPlaceholder: (string, string, string) -> string)

  /** What an `order by` entry exposes: the token to emit and its direction. */
  datatype SortSpecification = SortSpecification(aliasOrName: string, isDescending: bool)

  datatype OrderByModel = OrderByModel(columns: seq<SortSpecification>)

  /** A select statement over query-expression models of type `M`. */
  datatype SelectModel<M> = SelectModel(
    queryExpressions: seq<M>,
    orderByModel: Option<OrderByModel>,
    limit: Option<Long>,
    offset: Option<Long>)

  /** One rendered query expression: its text and the parameters it binds. */
  datatype QueryExpression = QueryExpression(text: string, parameters: map<string, Value>)

  /** All rendered query expressions merged into one phrase and one parameter map. */
  datatype QueryExpressionCollector = QueryExpressionCollector(queryExpression: string, parameters: map<string, Value>)

  /**
    The collaborators whose code is not part of this model. `render` is the
    query-expression renderer: it gets the model, the strategy and the shared
    counter's current value, and returns the rendered expression with the
    counter's value after it has drawn its parameter numbers. `collect` is the
    query-expression collector. `joiningEmptyValue` is the text the `order by`
    joining collector yields when there is no sort specification.
  */
  datatype ExpressionRendering<!M> = ExpressionRendering(
    render: (M, RenderingStrategy, int) -> (QueryExpression, int),
    collect: seq<QueryExpression> -> QueryExpressionCollector,
    joiningEmptyValue: string)

  /** What `render` hands to the statement provider. */
  datatype SelectStatementProvider = SelectStatementProvider(
    queryExpression: string,
    parameters: map<string, Value>,
    orderByClause: Option<string>,
    limitClause: Option<string>,
    offsetClause: Option<string>)

  /** The `NullPointerException`s of building a renderer, by the argument that was null. */
  datatype NullArgument = NullSelectModel | NullRenderingStrategy | NullSequence

  // ----- order by -----

  /** The token of one sort specification, marked ` DESC` exactly when it sorts descending. */
  function OrderByPhrase(column: SortSpecification): (phrase: string)
    ensures |column.aliasOrName| <= |phrase|
    ensures phrase[..|column.aliasOrName|] == column.aliasOrName
    ensures column.isDescending <==> phrase[|column.aliasOrName|..] == " DESC"
    ensures !column.isDescending ==> phrase == column.aliasOrName
  {
    var phrase := column.aliasOrName;
    if column.isDescending then phrase + " DESC" else phrase
  }

  function OrderByPhrases(columns: seq<SortSpecification>): (phrases: seq<string>)
    ensures |phrases| == |columns|
    ensures forall i :: 0 <= i < |columns| ==> phrases[i] == OrderByPhrase(columns[i])
  {
    seq(|columns|, i requires 0 <= i < |columns| => OrderByPhrase(columns[i]))
  }

  /** The strings of `parts` with `delimiter` between neighbours. */
  function Join(parts: seq<string>, delimiter: string): string
  {
    if |parts| == 0 then ""
    else if |parts| == 1 then parts[0]
    else parts[0] + delimiter + Join(parts[1..], delimiter)
  }

  /** Where part `i` starts in `Join(parts, delimiter)`: after every earlier part and its delimiter. */
  function Offset(parts: seq<string>, delimiter: string, i: nat): nat
    requires i < |parts|
  {
    if i == 0 then 0 else |parts[0]| + |delimiter| + Offset(parts[1..], delimiter, i - 1)
  }

  /**
    The layout of a joined string: part `i` sits at `Offset(i)`, a delimiter
    follows it when another part comes next, and the string ends with the last part.
  */
  lemma {:induction false} JoinLayout(parts: seq<string>, delimiter: string, i: nat)
    requires i < |parts|
    ensures Offset(parts, delimiter, i) + |parts[i]| <= |Join(parts, delimiter)|
    ensures Join(parts, delimiter)[Offset(parts, delimiter, i)..Offset(parts, delimiter, i) + |parts[i]|] == parts[i]
    ensures i + 1 < |parts| ==>
              && Offset(parts, delimiter, i + 1) == Offset(parts, delimiter, i) + |parts[i]| + |delimiter|
              && Offset(parts, delimiter, i + 1) <= |Join(parts, delimiter)|
              && Join(parts, delimiter)[Offset(parts, delimiter, i) + |parts[i]|..Offset(parts, delimiter, i + 1)] == delimiter
    ensures i + 1 == |parts| ==> |Join(parts, delimiter)| == Offset(parts, delimiter, i) + |parts[i]|
  {
    var joined := Join(parts, delimiter);
    if |parts| > 1 {
      var head := parts[0] + delimiter;
      var rest := Join(parts[1..], delimiter);
      assert joined == head + rest;
      if i == 0 {
        assert Offset(parts[1..], delimiter, 0) == 0;
        assert joined[..|parts[0]|] == parts[0];
        assert joined[|parts[0]|..|head|] == delimiter;
      } else {
        assert parts[1..][i - 1] == parts[i];
        JoinLayout(parts[1..], delimiter, i - 1);
        var o := Offset(parts[1..], delimiter, i - 1);
        SliceAfterPrefix(head, rest, o, o + |parts[i]|);
        if i + 1 < |parts| {
          SliceAfterPrefix(head, rest, o + |parts[i]|, Offset(parts[1..], delimiter, i));
        }
      }
    }
  }

  lemma SliceAfterPrefix(prefix: string, s: string, from: nat, to: nat)
    requires from <= to <= |s|
    ensures (prefix + s)[|prefix| + from..|prefix| + to] == s[from..to]
  {
  }

  /**
    `order by ` followed by the phrases of the sort specifications, in order,
    separated by `, `; with no sort specification, the joining collector's
    empty value `emptyValue`.
  */
  function RenderOrderBy(orderByModel: OrderByModel, emptyValue: string): (clause: string)
    ensures |orderByModel.columns| > 0 ==> |ORDER_BY_PREFIX| <= |clause| && clause[..|ORDER_BY_PREFIX|] == ORDER_BY_PREFIX
    ensures |orderByModel.columns| == 0 ==> clause == emptyValue
  {
    if |orderByModel.columns| == 0 then emptyValue
    else ORDER_BY_PREFIX + Join(OrderByPhrases(orderByModel.columns), ORDER_BY_DELIMITER)
  }

  /**
    Sort specification `i` appears in the clause as its phrase, at its
    position among the others, followed by `, ` unless it is the last one.
  */
  lemma {:induction false} OrderByClauseLayout(orderByModel: OrderByModel, emptyValue: string, i: nat)
    requires i < |orderByModel.columns|
    ensures var phrases := OrderByPhrases(orderByModel.columns);
            var clause := RenderOrderBy(orderByModel, emptyValue);
            var start := |ORDER_BY_PREFIX| + Offset(phrases, ORDER_BY_DELIMITER, i);
            var end := start + |phrases[i]|;
            && end <= |clause|
            && clause[start..end] == OrderByPhrase(orderByModel.columns[i])
            && (i + 1 < |phrases| ==> end + |ORDER_BY_DELIMITER| <= |clause| && clause[end..end + |ORDER_BY_DELIMITER|] == ORDER_BY_DELIMITER)
            && (i + 1 == |phrases| ==> end == |clause|)
  {
    var phrases := OrderByPhrases(orderByModel.columns);
    var joined := Join(phrases, ORDER_BY_DELIMITER);
    var clause := RenderOrderBy(orderByModel, emptyValue);
    assert clause == ORDER_BY_PREFIX + joined;
    JoinLayout(phrases, ORDER_BY_DELIMITER, i);
    var o := Offset(phrases, ORDER_BY_DELIMITER, i);
    SliceAfterPrefix(ORDER_BY_PREFIX, joined, o, o + |phrases[i]|);
    if i + 1 < |phrases| {
      SliceAfterPrefix(ORDER_BY_PREFIX, joined, o + |phrases[i]|, o + |phrases[i]| + |ORDER_BY_DELIMITER|);
    }
  }

  // ----- query expressions -----

  /**
    The expressions obtained by rendering `models` in order, each with the
    counter value the previous one left, starting from `start`; and the
    counter value after the last.
  */
  function RenderAll<M>(render: (M, RenderingStrategy, int) -> (QueryExpression, int), models: seq<M>,
                        strategy: RenderingStrategy, start: int): (r: (seq<QueryExpression>, int))
    ensures |r.0| == |models|
  {
    if models == [] then ([], start)
    else
      var before := RenderAll(render, models[..|models| - 1], strategy, start);
      var last := render(models[|models| - 1], strategy, before.1);
      (before.0 + [last.0], last.1)
  }

  /**
    Expression `i` is model `i` rendered with the same strategy and with the
    counter value that rendering the `i` earlier models left behind.
  */
  lemma {:induction false} RenderedInModelOrder<M>(render: (M, RenderingStrategy, int) -> (QueryExpression, int),
                                                   models: seq<M>, strategy: RenderingStrategy, start: int, i: nat)
    requires i < |models|
    ensures RenderAll(render, models, strategy, start).0[i]
            == render(models[i], strategy, RenderAll(render, models[..i], strategy, start).1).0
  {
    var n := |models| - 1;
    if i < n {
      RenderedInModelOrder(render, models[..n], strategy, start, i);
      assert models[..n][..i] == models[..i];
    } else {
      assert models[..n] == models[..i];
    }
  }

  // ----- limit and offset -----

  /** The placeholder the strategy formats for the fixed parameter `name`. */
  function Placeholder(strategy: RenderingStrategy, name: string): string
  {
    strategy.formattedJdbcPlaceholder(name, PARAMETERS_NAMESPACE, name)
  }

  /**
    The collected parameters after binding the limit and then the offset, each
    only when present: the two fixed keys are added, nothing else changes.
  */
  function ParametersAfter(collected: map<string, Value>, limit: Option<Long>, offset: Option<Long>)
    : (r: map<string, Value>)
    ensures r.Keys == collected.Keys + (if limit.Some? then {LIMIT_PARAMETER} else {})
                                     + (if offset.Some? then {OFFSET_PARAMETER} else {})
    ensures limit.Some? ==> r[LIMIT_PARAMETER] == LongValue(limit.value)
    ensures offset.Some? ==> r[OFFSET_PARAMETER] == LongValue(offset.value)
    ensures forall k :: (k in collected && !(k == LIMIT_PARAMETER && limit.Some?)
                         && !(k == OFFSET_PARAMETER && offset.Some?)) ==> r[k] == collected[k]
    ensures limit.None? && offset.None? ==> r == collected
  {
    var afterLimit := if limit.Some? then collected[LIMIT_PARAMETER := LongValue(limit.value)] else collected;
    if offset.Some? then afterLimit[OFFSET_PARAMETER := LongValue(offset.value)] else afterLimit
  }

  // ----- the renderer -----

  /** The shared, mutable parameter counter (Java's `AtomicInteger`). */
  class ParameterSequence {
    var value: int

    constructor (initial: int)
      ensures value == initial
    {
      value := initial;
    }
  }

  class SelectRenderer<M> {
    const selectModel: SelectModel<M>
    const renderingStrategy: RenderingStrategy
    const sequence: ParameterSequence
    const expressions: ExpressionRendering<M>

    /** Uses the supplied counter, or a fresh one starting at 1. */
    constructor (selectModel: SelectModel<M>, renderingStrategy: RenderingStrategy,
                 sequence: Option<ParameterSequence>, expressions: ExpressionRendering<M>)
      ensures this.selectModel == selectModel && this.renderingStrategy == renderingStrategy
      ensures this.expressions == expressions
      ensures sequence.Some? ==> this.sequence == sequence.value
      ensures sequence.None? ==> fresh(this.sequence) && this.sequence.value == 1
    {
      this.selectModel := selectModel;
      this.renderingStrategy := renderingStrategy;
      this.expressions := expressions;
      if sequence.Some? {
        this.sequence := sequence.value;
      } else {
        this.sequence := new ParameterSequence(1);
      }
    }

    /** Renders one expression with this renderer's strategy and shared counter. */
    method RenderQueryExpression(model: M) returns (expression: QueryExpression)
      modifies sequence
      ensures (expression, sequence.value) == expressions.render(model, renderingStrategy, old(sequence.value))
    {
      var rendered := expressions.render(model, renderingStrategy, sequence.value);
      expression := rendered.0;
      sequence.value := rendered.1;
    }

    /** Renders every query expression of the model, in model order. */
    method RenderQueryExpressions() returns (rendered: seq<QueryExpression>)
      modifies sequence
      ensures (rendered, sequence.value)
              == RenderAll(expressions.render, selectModel.queryExpressions, renderingStrategy, old(sequence.value))
    {
      var models := selectModel.queryExpressions;
      rendered := [];
      for i := 0 to |models|
        invariant (rendered, sequence.value)
                  == RenderAll(expressions.render, models[..i], renderingStrategy, old(sequence.value))
      {
        assert models[..i + 1][..i] == models[..i];
        var expression := RenderQueryExpression(models[i]);
        rendered := rendered + [expression];
      }
      assert models[..|models|] == models;
    }

    /** Binds the limit under `_limit` in `parameters` and returns the limit clause. */
    method RenderLimit(parameters: ParameterMap<Value>, limit: Long) returns (clause: string)
      modifies parameters
      ensures parameters.entries == old(parameters.entries)[LIMIT_PARAMETER := LongValue(limit)]
      ensures clause == "limit " + Placeholder(renderingStrategy, LIMIT_PARAMETER)
    {
      var placeholder := Placeholder(renderingStrategy, LIMIT_PARAMETER);
      parameters.entries := parameters.entries[LIMIT_PARAMETER := LongValue(limit)];
      clause := "limit " + placeholder;
    }

    /** Binds the offset under `_offset` in `parameters` and returns the offset clause. */
    method RenderOffset(parameters: ParameterMap<Value>, offset: Long) returns (clause: string)
      modifies parameters
      ensures parameters.entries == old(parameters.entries)[OFFSET_PARAMETER := LongValue(offset)]
      ensures clause == "offset " + Placeholder(renderingStrategy, OFFSET_PARAMETER)
    {
      var placeholder := Placeholder(renderingStrategy, OFFSET_PARAMETER);
      parameters.entries := parameters.entries[OFFSET_PARAMETER := LongValue(offset)];
      clause := "offset " + placeholder;
    }

    method Render() returns (provider: SelectStatementProvider)
      modifies sequence
      ensures var all := RenderAll(expressions.render, selectModel.queryExpressions, renderingStrategy, old(sequence.value));
              var collected := expressions.collect(all.0);
              && sequence.value == all.1
              && provider.queryExpression == collected.queryExpression
              && provider.parameters == ParametersAfter(collected.parameters, selectModel.limit, selectModel.offset)
      ensures provider.orderByClause.Some? <==> selectModel.orderByModel.Some?
      ensures provider.orderByClause.Some? ==> provider.orderByClause.value == RenderOrderBy(selectModel.orderByModel.value, expressions.joiningEmptyValue)
      ensures provider.limitClause.Some? <==> selectModel.limit.Some?
      ensures provider.limitClause.Some? ==> provider.limitClause.value == "limit " + Placeholder(renderingStrategy, LIMIT_PARAMETER)
      ensures provider.offsetClause.Some? <==> selectModel.offset.Some?
      ensures provider.offsetClause.Some? ==> provider.offsetClause.value == "offset " + Placeholder(renderingStrategy, OFFSET_PARAMETER)
    {
      var rendered := RenderQueryExpressions();
      var collector := expressions.collect(rendered);
      var parameters := new ParameterMap(collector.parameters);
      var limitClause: Option<string> := None;
      if selectModel.limit.Some? {
        var clause := RenderLimit(parameters, selectModel.limit.value);
        limitClause := Some(clause);
      }
      var offsetClause: Option<string> := None;
      if selectModel.offset.Some? {
        var clause := RenderOffset(parameters, selectModel.offset.value);
        offsetClause := Some(clause);
      }
      var orderByClause := if selectModel.orderByModel.Some? then Some(RenderOrderBy(selectModel.orderByModel.value, expressions.joiningEmptyValue)) else None;
      provider := SelectStatementProvider(collector.queryExpression, parameters.entries, orderByClause, limitClause, offsetClause);
    }
  }

  /** Collects the renderer's inputs; the model and the strategy are mandatory. */
  class Builder<M> {
    var selectModel: Option<SelectModel<M>>
    var renderingStrategy: Option<RenderingStrategy>
    var sequence: Option<ParameterSequence>
    const expressions: ExpressionRendering<M>

    constructor (expressions: ExpressionRendering<M>)
      ensures selectModel.None? && renderingStrategy.None? && sequence.None?
      ensures this.expressions == expressions
    {
      selectModel, renderingStrategy, sequence := None, None, None;
      this.expressions := expressions;
    }

    /** Records the model; `None` is Java's `null`, which `Build` rejects. */
    method WithSelectModel(selectModel: Option<SelectModel<M>>) returns (self: Builder<M>)
      modifies this
      ensures self == this && this.selectModel == selectModel
      ensures renderingStrategy == old(renderingStrategy) && sequence == old(sequence)
    {
      this.selectModel := selectModel;
      self := this;
    }

    /** Records the strategy; `None` is Java's `null`, which `Build` rejects. */
    method WithRenderingStrategy(renderingStrategy: Option<RenderingStrategy>) returns (self: Builder<M>)
      modifies this
      ensures self == this && this.renderingStrategy == renderingStrategy
      ensures selectModel == old(selectModel) && sequence == old(sequence)
    {
      this.renderingStrategy := renderingStrategy;
      self := this;
    }

    /** Records a caller's counter; a `null` counter fails at once and leaves the builder as it was. */
    method WithSequence(sequence: Option<ParameterSequence>) returns (r: Result<Builder<M>, NullArgument>)
      modifies this
      ensures sequence.None? ==> r == Failure(NullSequence) && this.sequence == old(this.sequence)
      ensures sequence.Some? ==> r == Success(this) && this.sequence == sequence
      ensures selectModel == old(selectModel) && renderingStrategy == old(renderingStrategy)
    {
      if sequence.None? {
        return Failure(NullSequence);
      }
      this.sequence := sequence;
      r := Success(this);
    }

    /** Fails on a missing model first, then on a missing strategy. */
    method Build() returns (r: Result<SelectRenderer<M>, NullArgument>)
      ensures selectModel.None? ==> r == Failure(NullSelectModel)
      ensures selectModel.Some? && renderingStrategy.None? ==> r == Failure(NullRenderingStrategy)
      ensures selectModel.Some? && renderingStrategy.Some? ==>
                && r.Success?
                && r.value.selectModel == selectModel.value
                && r.value.renderingStrategy == renderingStrategy.value
                && r.value.expressions == expressions
                && (sequence.Some? ==> r.value.sequence == sequence.value)
                && (sequence.None? ==> fresh(r.value.sequence) && r.value.sequence.value == 1)
    {
      if selectModel.None? {
        return Failure(NullSelectModel);
      }
      if renderingStrategy.None? {
        return Failure(NullRenderingStrategy);
      }
      var renderer := new SelectRenderer(selectModel.value, renderingStrategy.value, sequence, expressions);
      r := Success(renderer);
    }
  }
}
