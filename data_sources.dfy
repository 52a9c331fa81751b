/** The immutable query builder: a data source pairs a provider with the query
    built so far, and `filter` returns a new data source instead of changing
    the receiver. */
module DataSources {
  import opened JsValues
  import opened Operations

  /** A parameter of a reflected lambda expression. */
  datatype LambdaParameter = LambdaParameter(name: string)

  /** The reflected expression tree the external expression library supplies;
      only the lambda shape is inspected here, every other node kind is kept
      abstract behind its kind number. */
  datatype Expression =
    | Lambda(parameters: seq<LambdaParameter>, body: Expression)
    | OtherExpression(kind: nat)

  /** The first argument of `filter`: a parameter name (to be paired with a
      ready-made operation), a reflected expression, or a plain function that
      was never reflected. */
  datatype FilterArgument =
    | ParameterName(name: string)
    | ExpressionArgument(expression: Expression)
    | PlainFunction

  /** The normalised form of both call shapes. */
  datatype LambdaProperties = LambdaProperties(parameterName: string, body: QueryOperation)

  const InvalidPredicateMessage: string := "Predicate must be a lambda expression or a query operation"

  /** The call shapes `extractLambdaProperties` accepts: a name, or a lambda of
      exactly one parameter. */
  predicate IsAcceptedArgument(arg: FilterArgument) {
    arg.ParameterName? ||
    (arg.ExpressionArgument? && arg.expression.Lambda? && |arg.expression.parameters| == 1)
  }

  /** Normalises the two call shapes into a parameter name and a predicate
      operation; `convert` stands for the conversion of a lambda body into an
      operation tree. */
  function ExtractLambdaProperties(
    bodyOrParameterName: FilterArgument,
    bodyOperation: Option<QueryOperation>,
    convert: Expression -> QueryOperation
  ): (r: Result<LambdaProperties>)
    requires bodyOrParameterName.ParameterName? ==> bodyOperation.Some?
    ensures r.Ok? <==> IsAcceptedArgument(bodyOrParameterName)
    ensures r.Err? ==> r.error == Thrown(InvalidPredicateMessage)
    ensures bodyOrParameterName.ParameterName? ==>
      r == Ok(LambdaProperties(bodyOrParameterName.name, bodyOperation.value))
    ensures bodyOrParameterName.ExpressionArgument? && r.Ok? ==>
      r.value.parameterName == bodyOrParameterName.expression.parameters[0].name &&
      r.value.body == convert(bodyOrParameterName.expression.body)
  {
    match bodyOrParameterName
    case ParameterName(name) => Ok(LambdaProperties(name, bodyOperation.value))
    case ExpressionArgument(e) =>
      if e.Lambda? && |e.parameters| == 1 then
        Ok(LambdaProperties(e.parameters[0].name, convert(e.body)))
      else
        Err(Thrown(InvalidPredicateMessage))
    case PlainFunction => Err(Thrown(InvalidPredicateMessage))
  }

  /** A data source: the provider that will run the query and the query
      itself. Both are fixed at construction. */
  datatype DataSourceBase<P> = DataSourceBase(provider: P, query: QueryOperation) {

    /** A new data source over the same provider whose query filters this
        one's query; this data source is left as it was. */
    function Filter(
      predicateOrParameterName: FilterArgument,
      predicateOperation: Option<QueryOperation>,
      convert: Expression -> QueryOperation
    ): (r: Result<DataSourceBase<P>>)
      requires predicateOrParameterName.ParameterName? ==> predicateOperation.Some?
      ensures r.Ok? <==> IsAcceptedArgument(predicateOrParameterName)
      ensures r.Err? ==> r.error == Thrown(InvalidPredicateMessage)
      ensures r.Ok? ==>
        var props := ExtractLambdaProperties(predicateOrParameterName, predicateOperation, convert).value;
        r.value.provider == provider &&
        r.value.query == QueryOperation.Filter(query, props.parameterName, props.body)
    {
      var props :- ExtractLambdaProperties(predicateOrParameterName, predicateOperation, convert);
      Ok(DataSourceBase(provider, QueryOperation.Filter(query, props.parameterName, props.body)))
    }
  }

  /** One `filter` call: its first argument and its optional operation. */
  datatype FilterCall = FilterCall(arg: FilterArgument, operation: Option<QueryOperation>)

  /** A call whose operation is present whenever its first argument is a
      parameter name. */
  predicate HasOperationForName(call: FilterCall) {
    call.arg.ParameterName? ==> call.operation.Some?
  }

  /** The data source reached by making the calls in order, first call
      first; the first call that throws ends the chain with its error. */
  function FilterChain<P>(ds: DataSourceBase<P>, calls: seq<FilterCall>, convert: Expression -> QueryOperation): Result<DataSourceBase<P>>
    requires forall i :: 0 <= i < |calls| ==> HasOperationForName(calls[i])
    decreases |calls|
  {
    if calls == [] then Ok(ds)
    else
      var previous :- FilterChain(ds, calls[..|calls| - 1], convert);
      var last := calls[|calls| - 1];
      assert HasOperationForName(last);
      previous.Filter(last.arg, last.operation, convert)
  }

  /** The query under `k` enclosing filter nodes, if there are that many. */
  function PeelFilters(q: QueryOperation, k: nat): Option<QueryOperation> {
    if k == 0 then Some(q)
    else if q.Filter? then PeelFilters(q.source, k - 1)
    else None
  }

  /** A chain of `k` calls succeeds exactly when every call has an accepted
      shape, and then keeps the provider and nests the original query `k`
      filter nodes deep, the last call outermost, each layer carrying its
      call's normalised name and predicate. */
  lemma {:induction false} FilterChainNests<P>(ds: DataSourceBase<P>, calls: seq<FilterCall>, convert: Expression -> QueryOperation)
    requires forall i :: 0 <= i < |calls| ==> HasOperationForName(calls[i])
    ensures FilterChain(ds, calls, convert).Ok? <==> forall i :: 0 <= i < |calls| ==> IsAcceptedArgument(calls[i].arg)
    ensures FilterChain(ds, calls, convert).Ok? ==>
      FilterChain(ds, calls, convert).value.provider == ds.provider &&
      PeelFilters(FilterChain(ds, calls, convert).value.query, |calls|) == Some(ds.query)
    ensures FilterChain(ds, calls, convert).Ok? ==> forall j :: 0 <= j < |calls| ==>
      var call := calls[|calls| - 1 - j];
      var props := ExtractLambdaProperties(call.arg, call.operation, convert).value;
      var layer := PeelFilters(FilterChain(ds, calls, convert).value.query, j);
      layer.Some? && layer.value.Filter? &&
      layer.value.parameterName == props.parameterName &&
      layer.value.predicateOperation == props.body
    decreases |calls|
  {
    if calls != [] {
      var init := calls[..|calls| - 1];
      var last := calls[|calls| - 1];
      FilterChainNests(ds, init, convert);
      var chain := FilterChain(ds, calls, convert);
      if FilterChain(ds, init, convert).Ok? {
        var previous := FilterChain(ds, init, convert).value;
        assert chain == previous.Filter(last.arg, last.operation, convert);
        if chain.Ok? {
          var q := chain.value.query;
          var props := ExtractLambdaProperties(last.arg, last.operation, convert).value;
          assert q == QueryOperation.Filter(previous.query, props.parameterName, props.body);
          forall j | 0 < j < |calls|
            ensures PeelFilters(q, j) == PeelFilters(previous.query, j - 1)
          {
          }
        }
      } else {
        var i :| 0 <= i < |init| && !IsAcceptedArgument(init[i].arg);
        assert calls[i] == init[i];
      }
    }
  }
}
