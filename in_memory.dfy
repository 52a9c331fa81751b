/** The in-memory provider: an interpreter that runs a query directly against
    a stored sequence of rows. Only `dataSourceReference` and `filter` are
    understood at the top level, and inside a predicate only `parameter` and
    `fieldReference`. */
module InMemory {
  import opened JsValues
  import opened Operations
  import DataSources

  /** A provider holding its rows; they are set at construction and only
      read afterwards. */
  datatype InMemoryProvider = InMemoryProvider(data: seq<Value>)

  /** The exception `throw new Error()` raises for a node kind the
      interpreter does not understand. */
  const UnsupportedNode: JsError := Thrown("")

  // ---------------------------------------------------------------------------
  // Reference definitions

  /** The elements of `s` that satisfy `f`, in their original order. */
  function KeepWhere<T>(s: seq<T>, f: T -> bool): (r: seq<T>)
    ensures |r| <= |s|
    ensures multiset(r) <= multiset(s)
  {
    if s == [] then []
    else
      assert s == [s[0]] + s[1..];
      if f(s[0]) then [s[0]] + KeepWhere(s[1..], f)
    else KeepWhere(s[1..], f)
  }

  /** `idx` lists, in strictly increasing order, positions of `s` whose
      elements make up `r`. */
  ghost predicate IsOrderedSelection<T>(r: seq<T>, s: seq<T>, idx: seq<int>) {
    |idx| == |r| &&
    (forall j :: 0 <= j < |idx| ==> 0 <= idx[j] < |s| && r[j] == s[idx[j]]) &&
    (forall j, k :: 0 <= j < k < |idx| ==> idx[j] < idx[k])
  }

  /** Every position in `idx` moved one place to the right. */
  ghost function Shift(idx: seq<int>): (r: seq<int>)
    ensures |r| == |idx|
    ensures forall j :: 0 <= j < |r| ==> r[j] == idx[j] + 1
  {
    if idx == [] then [] else [idx[0] + 1] + Shift(idx[1..])
  }

  /** The positions of `s` whose element satisfies `f`, in increasing order. */
  ghost function KeptIndices<T>(s: seq<T>, f: T -> bool): (idx: seq<int>)
    ensures forall j :: 0 <= j < |idx| ==> 0 <= idx[j] < |s|
  {
    if s == [] then []
    else if f(s[0]) then [0] + Shift(KeptIndices(s[1..], f))
    else Shift(KeptIndices(s[1..], f))
  }

  lemma ShiftSelection<T>(r: seq<T>, s: seq<T>, idx: seq<int>)
    requires s != [] && IsOrderedSelection(r, s[1..], idx)
    ensures IsOrderedSelection(r, s, Shift(idx))
    ensures forall j :: 0 <= j < |idx| ==> Shift(idx)[j] > 0
  {
    var sh := Shift(idx);
    forall j | 0 <= j < |sh| ensures 0 < sh[j] < |s| && r[j] == s[sh[j]] {
      assert s[1..][idx[j]] == s[idx[j] + 1];
    }
    ShiftOrdered(idx);
  }

  lemma ShiftOrdered(idx: seq<int>)
    requires forall j, k :: 0 <= j < k < |idx| ==> idx[j] < idx[k]
    ensures forall j, k :: 0 <= j < k < |idx| ==> Shift(idx)[j] < Shift(idx)[k]
  {
    var sh := Shift(idx);
    forall j, k | 0 <= j < k < |idx| ensures sh[j] < sh[k] {
      assert sh[j] == idx[j] + 1 && sh[k] == idx[k] + 1;
    }
  }

  lemma ConsSelection<T>(r: seq<T>, s: seq<T>, idx: seq<int>)
    requires s != [] && IsOrderedSelection(r, s, idx)
    requires forall j :: 0 <= j < |idx| ==> idx[j] > 0
    ensures IsOrderedSelection([s[0]] + r, s, [0] + idx)
  {
  }

  lemma {:induction false} KeptIndicesSelect<T>(s: seq<T>, f: T -> bool)
    ensures IsOrderedSelection(KeepWhere(s, f), s, KeptIndices(s, f))
  {
    if s != [] {
      KeptIndicesSelect(s[1..], f);
      ShiftSelection(KeepWhere(s[1..], f), s, KeptIndices(s[1..], f));
      if f(s[0]) {
        ConsSelection(KeepWhere(s[1..], f), s, Shift(KeptIndices(s[1..], f)));
      }
    }
  }

  lemma ShiftMember(idx: seq<int>, i: int)
    ensures i in Shift(idx) <==> (i - 1) in idx
  {
    if (i - 1) in idx {
      var j :| 0 <= j < |idx| && idx[j] == i - 1;
      assert Shift(idx)[j] == i;
    }
  }

  lemma {:induction false} KeptIndicesExactly<T>(s: seq<T>, f: T -> bool, i: int)
    requires 0 <= i < |s|
    ensures i in KeptIndices(s, f) <==> f(s[i])
  {
    var rest := KeptIndices(s[1..], f);
    ShiftMember(rest, i);
    if i > 0 {
      KeptIndicesExactly(s[1..], f, i - 1);
      assert s[i] == s[1..][i - 1];
    }
  }

  /** `KeepWhere` picks out, in order, exactly the positions whose element
      satisfies `f`. */
  lemma KeepWhereSelects<T>(s: seq<T>, f: T -> bool)
    ensures exists idx: seq<int> ::
      IsOrderedSelection(KeepWhere(s, f), s, idx) &&
      forall i :: 0 <= i < |s| ==> (i in idx <==> f(s[i]))
  {
    KeptIndicesSelect(s, f);
    forall i | 0 <= i < |s| ensures i in KeptIndices(s, f) <==> f(s[i]) {
      KeptIndicesExactly(s, f, i);
    }
  }

  /** Keeping what satisfies `f` and then what satisfies `g` keeps what
      satisfies both, in order. */
  lemma {:induction false} KeepWhereTwice<T>(s: seq<T>, f: T -> bool, g: T -> bool, both: T -> bool)
    requires forall x :: both(x) == (f(x) && g(x))
    ensures KeepWhere(KeepWhere(s, f), g) == KeepWhere(s, both)
  {
    if s != [] {
      KeepWhereTwice(s[1..], f, g, both);
      if f(s[0]) {
        assert ([s[0]] + KeepWhere(s[1..], f))[1..] == KeepWhere(s[1..], f);
      }
    }
  }

  // ---------------------------------------------------------------------------
  // Predicates: `operationVisit`

  /** A chain of field references ending in a parameter, as the list of field
      names read from the current element, first read first. */
  function FieldPath(op: QueryOperation): Option<seq<string>> {
    match op
    case Parameter(_) => Some([])
    case FieldReference(element, fieldName) =>
      (match FieldPath(element)
       case None => None
       case Some(path) => Some(path + [fieldName]))
    case _ => None
  }

  /** Reads the properties `path` one after another, starting from `v`. */
  function Lookup(v: Value, path: seq<string>): Result<Value>
    decreases |path|
  {
    if path == [] then Ok(v)
    else
      var w :- GetProperty(v, path[0]);
      Lookup(w, path[1..])
  }

  /** The predicate of a filter evaluated for the current element `e`. */
  function Evaluate(op: QueryOperation, e: Value): (r: Result<Value>)
    ensures r.Ok? ==> FieldPath(op).Some?
    ensures r.Err? ==> r.error == UnsupportedNode || r.error == TypeError
  {
    match op
    case Parameter(_) => Ok(e)
    case FieldReference(element, fieldName) =>
      var v :- Evaluate(element, e);
      GetProperty(v, fieldName)
    case _ => Err(UnsupportedNode)
  }

  lemma {:induction false} LookupSnoc(v: Value, path: seq<string>, f: string)
    ensures Lookup(v, path + [f]) ==
      match Lookup(v, path)
      case Err(x) => Err(x)
      case Ok(w) => GetProperty(w, f)
    decreases |path|
  {
    if path != [] {
      match GetProperty(v, path[0])
      case Err(_) =>
      case Ok(w) =>
        assert (path + [f])[1..] == path[1..] + [f];
        LookupSnoc(w, path[1..], f);
    }
  }

  /** A predicate evaluates to the element itself for a `parameter` node,
      whatever its name, to a property read along the path for a chain of
      `fieldReference` nodes, and throws for every other node kind. */
  lemma {:induction false} EvaluateIsLookup(op: QueryOperation, e: Value)
    ensures Evaluate(op, e) ==
      match FieldPath(op)
      case None => Err(UnsupportedNode)
      case Some(path) => Lookup(e, path)
  {
    match op
    case Parameter(_) =>
    case FieldReference(element, fieldName) =>
      EvaluateIsLookup(element, e);
      match FieldPath(element) {
        case None =>
        case Some(path) => LookupSnoc(e, path, fieldName);
      }
    case _ =>
  }

  /** Whether the predicate evaluates, without throwing, to a truthy value. */
  predicate Satisfies(pred: QueryOperation, e: Value) {
    Evaluate(pred, e).Ok? && Truthy(Evaluate(pred, e).value)
  }

  function SatisfiedBy(pred: QueryOperation): Value -> bool {
    e => Satisfies(pred, e)
  }

  // ---------------------------------------------------------------------------
  // Queries: `visit` and `visitFilter`

  /** `Array.prototype.filter` with the predicate's evaluation as callback:
      the callback runs on each row in turn and the first exception ends the
      whole call. */
  function FilterRows(rows: seq<Value>, pred: QueryOperation): (r: Result<seq<Value>>)
    ensures r.Ok? <==> forall i :: 0 <= i < |rows| ==> Evaluate(pred, rows[i]).Ok?
    ensures r.Ok? ==> r.value == KeepWhere(rows, SatisfiedBy(pred))
    ensures r.Err? ==> exists i :: 0 <= i < |rows| && Evaluate(pred, rows[i]) == Err(r.error) &&
                               (forall j :: 0 <= j < i ==> Evaluate(pred, rows[j]).Ok?)
  {
    if rows == [] then Ok([])
    else
      var v :- Evaluate(pred, rows[0]);
      var rest :- FilterRows(rows[1..], pred);
      if Truthy(v) then Ok([rows[0]] + rest) else Ok(rest)
  }

  /** Runs a query against the stored rows. */
  function Visit(p: InMemoryProvider, query: QueryOperation): (r: Result<seq<Value>>)
    ensures !(query.DataSourceReference? || query.Filter?) ==> r == Err(UnsupportedNode)
    ensures r.Ok? ==> |r.value| <= |p.data|
    ensures r.Ok? ==> multiset(r.value) <= multiset(p.data)
    decreases query, 1
  {
    match query
    case DataSourceReference => Ok(p.data)
    case Filter(_, _, _) => VisitFilter(p, query)
    case _ => Err(UnsupportedNode)
  }

  /** Runs the source of a filter node, then keeps the rows its predicate
      accepts. */
  function VisitFilter(p: InMemoryProvider, query: QueryOperation): (r: Result<seq<Value>>)
    requires query.Filter?
    ensures r.Ok? ==> |r.value| <= |p.data|
    ensures r.Ok? ==> multiset(r.value) <= multiset(p.data)
    decreases query, 0
  {
    var source :- Visit(p, query.source);
    FilterRows(source, query.predicateOperation)
  }

  // ---------------------------------------------------------------------------
  // Properties of the interpreter

  /** A filter succeeds exactly when its source succeeds and its predicate
      evaluates without throwing for every source row; it then keeps, in
      order, exactly the source rows whose predicate is truthy. */
  lemma FilterMeaning(p: InMemoryProvider, source: QueryOperation, name: string, pred: QueryOperation)
    ensures Visit(p, Filter(source, name, pred)).Ok? <==>
      Visit(p, source).Ok? && forall i :: 0 <= i < |Visit(p, source).value| ==> Evaluate(pred, Visit(p, source).value[i]).Ok?
    ensures Visit(p, Filter(source, name, pred)).Ok? ==>
      Visit(p, source).Ok? &&
      exists idx: seq<int> ::
        IsOrderedSelection(Visit(p, Filter(source, name, pred)).value, Visit(p, source).value, idx) &&
        forall i :: 0 <= i < |Visit(p, source).value| ==> (i in idx <==> Satisfies(pred, Visit(p, source).value[i]))
  {
    var q := Filter(source, name, pred);
    assert Visit(p, q) == VisitFilter(p, q);
    if Visit(p, q).Ok? {
      assert Visit(p, source).Ok?;
      KeepWhereSelects(Visit(p, source).value, SatisfiedBy(pred));
    }
  }

  /** The data source reference yields the stored rows. */
  lemma DataSourceReferenceYieldsData(p: InMemoryProvider)
    ensures Visit(p, DataSourceReference) == Ok(p.data)
  {
  }

  /** A predicate is only evaluated for existing rows: filtering an empty
      source never throws, whatever the predicate. */
  lemma EmptySourceNeverThrows(p: InMemoryProvider, source: QueryOperation, name: string, pred: QueryOperation)
    requires Visit(p, source) == Ok([])
    ensures Visit(p, Filter(source, name, pred)) == Ok([])
  {
  }

  /** A predicate that is not a `parameter`/`fieldReference` chain throws as
      soon as the source has a row. */
  lemma UnsupportedPredicateThrows(p: InMemoryProvider, source: QueryOperation, name: string, pred: QueryOperation)
    requires FieldPath(pred).None?
    requires Visit(p, source).Ok? && Visit(p, source).value != []
    ensures Visit(p, Filter(source, name, pred)) == Err(UnsupportedNode)
  {
    EvaluateIsLookup(pred, Visit(p, source).value[0]);
  }

  /** The filter's parameter name and the `parameter` node's own name play no
      part: a bare parameter predicate keeps the truthy rows. */
  lemma ParameterPredicateKeepsTruthy(p: InMemoryProvider, source: QueryOperation, name: string, other: string)
    requires Visit(p, source).Ok?
    ensures Visit(p, Filter(source, name, Parameter(other))) == Ok(KeepWhere(Visit(p, source).value, Truthy))
  {
    var q := Filter(source, name, Parameter(other));
    assert Visit(p, q) == VisitFilter(p, q);
    FilterRowsByParameter(Visit(p, source).value, other);
  }

  lemma {:induction false} FilterRowsByParameter(rows: seq<Value>, other: string)
    ensures FilterRows(rows, Parameter(other)) == Ok(KeepWhere(rows, Truthy))
  {
    if rows != [] {
      FilterRowsByParameter(rows[1..], other);
      assert Evaluate(Parameter(other), rows[0]) == Ok(rows[0]);
    }
  }

  /** A filter of a filter keeps, in order, exactly the rows that satisfy both
      predicates. */
  lemma NestedFilters(p: InMemoryProvider, source: QueryOperation, n1: string, p1: QueryOperation, n2: string, p2: QueryOperation)
    requires Visit(p, Filter(Filter(source, n1, p1), n2, p2)).Ok?
    ensures Visit(p, source).Ok?
    ensures Visit(p, Filter(Filter(source, n1, p1), n2, p2)).value ==
      KeepWhere(Visit(p, source).value, e => Satisfies(p1, e) && Satisfies(p2, e))
  {
    var inner := Filter(source, n1, p1);
    assert Visit(p, Filter(inner, n2, p2)) == VisitFilter(p, Filter(inner, n2, p2));
    assert Visit(p, inner).Ok?;
    assert Visit(p, inner) == VisitFilter(p, inner);
    assert Visit(p, source).Ok?;
    KeepWhereTwice(Visit(p, source).value, SatisfiedBy(p1), SatisfiedBy(p2), e => Satisfies(p1, e) && Satisfies(p2, e));
  }

  /** Running the query of a filtered data source over this provider keeps
      the rows of the original query that satisfy the filter's predicate. */
  lemma FilteredDataSourceRuns(
    ds: DataSources.DataSourceBase<InMemoryProvider>,
    arg: DataSources.FilterArgument,
    operation: Option<QueryOperation>,
    convert: DataSources.Expression -> QueryOperation
  )
    requires arg.ParameterName? ==> operation.Some?
    requires ds.Filter(arg, operation, convert).Ok?
    requires Visit(ds.provider, ds.Filter(arg, operation, convert).value.query).Ok?
    ensures Visit(ds.provider, ds.query).Ok?
    ensures
      var props := DataSources.ExtractLambdaProperties(arg, operation, convert).value;
      Visit(ds.provider, ds.Filter(arg, operation, convert).value.query).value ==
        KeepWhere(Visit(ds.provider, ds.query).value, SatisfiedBy(props.body))
  {
  }
}
