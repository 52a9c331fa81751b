# data-sorcerer query core in Dafny

This project models the query core of data-sorcerer. A caller builds a query
over a data source as an immutable tree of operation nodes. Each `filter`
call wraps the current tree in a new `filter` node and returns a new data
source. An in-memory provider can then run such a tree against a stored
sequence of rows.

The model has four modules:

- `JsValues` (`js_values.dfy`): a closed model of the JavaScript values that
  rows and literals hold (`undefined`, `null`, booleans, numbers, strings,
  objects as property maps), JavaScript truthiness and property access. It
  also holds the exceptions: `new Error(message)`, which
  `extractLambdaProperties` raises with its message and the interpreter raises
  with an empty message for an unsupported node, and the `TypeError` of reading
  a property of `undefined`/`null`.
- `Operations` (`operations.dfy`): the `QueryOperationNodeType` enumeration
  (`NodeType`, numbered in declaration order by `Tag`) and the `QueryOperation`
  union as one datatype with thirty constructors. Each constructor carries the
  fields of its interface under the same names, except that the filter's
  `predicate` field is called `predicateOperation`, because `predicate` is a
  Dafny keyword. Children are held by value, so the tree is finite
  and acyclic, and every child ranks below its parent.
- `DataSources` (`data_sources.dfy`): `DataSourceBase` as an immutable
  datatype holding a provider and a query. The datatype's own constructor is
  the source's constructor: it stores both unchanged. This module also holds
  `extractLambdaProperties`, which normalises the two call shapes (a parameter
  name with an operation, or a one-parameter lambda), and `filter`.
- `InMemory` (`in_memory.dfy`): `InMemoryProvider` and its `visit`,
  `visitFilter` and inner `operationVisit` as recursive functions. They are
  specified against `KeepWhere`, an order-preserving comprehension, and
  against `Lookup`, a plain read of a property path. `KeepWhere` is in turn
  characterised by an ordered index selection. `Lookup` serves as the
  reference definition that `Evaluate` is compared against.

The provider inside a data source is a type parameter. The conversion of a
lambda body into an operation tree is a function parameter (`convert`): in
src/datasource.ts:73-75 its body is empty, and the expression library it would
use is not part of this model.

`map` is commented out in src/datasource.ts:37-51. `DataSourceBase` has no
result-schema member, and src/schema.ts only declares types. Result-schema
inference and `map` are therefore not modelled.

## Model

| member | source | states |
|---|---|---|
| `Operations.Kind` | src/operation.ts:55-186 | the `operation` field each interface fixes; `NodeOfKind`, `KindIdentifiesOperatorNodes` and `KindIdentifiesOtherNodes` prove it a one-to-one correspondence between the thirty constructors and the thirty enumeration members |
| `Operations.Tag` | src/operation.ts:18-49 | every node type has a number below thirty |
| `Operations.KindOfTag` | src/operation.ts:18-49 | the enumeration's reverse mapping: a number names a node type exactly when it is below thirty, and the node type it names has that number |
| `Operations.TagRoundTrip` | src/operation.ts:18-49 | numbering and decoding are mutually inverse: every node type decodes back from its number, and every number below thirty is some node type's number |
| `Operations.TagInjective` | src/operation.ts:18-49 | two node types have the same number only if they are the same type |
| `Operations.NodeOfKind` | src/operation.ts:18-49 | every member of the enumeration is the `operation` tag of some node |
| `Operations.KindIdentifiesOperatorNodes` | src/operation.ts:55-100 | each binary and unary interface carries its own enumeration member as its tag, and no other interface carries that member |
| `Operations.KindIdentifiesOtherNodes` | src/operation.ts:102-186 | each collection, string, data-source, element and miscellaneous interface carries its own enumeration member as its tag, and no other interface carries that member |
| `Operations.BinaryNodes` | src/operation.ts:51-90 | a node carries left and right operands exactly when its type is one of twelve distinct binary types, and those two operands are then all its children |
| `Operations.NodeShapes` | src/operation.ts:92-181 | `negate`/`not` have one operand; `count`/`takePage` only a source; `filter` a source and a predicate; `map` a source and a projection; `sort` a source and its keys; `dataSourceReference`, `parameter` and `literal` have no children |
| `Operations.Children` | src/operation.ts:1-16 | every child operation is structurally smaller than its parent, so every operation tree is finite and well-founded |
| `JsValues.Truthy` | src/providers/InMemoryProvider.ts:24-34 | the coercion `Array.prototype.filter` applies to the callback result; `FalsyValues` gives its exact table |
| `JsValues.FalsyValues` | src/providers/InMemoryProvider.ts:24-34 | the callback result of `Array.prototype.filter` coerces to `false` exactly for `undefined`, `null`, `false`, `0` and the empty string |
| `JsValues.GetProperty` | src/providers/InMemoryProvider.ts:29-30 | reading a property throws a TypeError exactly on `undefined`/`null`; an object yields the property's value or `undefined` if absent; other values yield `undefined` |
| `DataSources.ExtractLambdaProperties` | src/datasource.ts:56-72 | succeeds exactly for a string or a lambda with one parameter; a string gives that name and the supplied operation unchanged; a lambda gives its parameter's name and its converted body; anything else throws the "Predicate must be a lambda expression or a query operation" error |
| `DataSources.DataSourceBase.Filter` | src/datasource.ts:27-36 | succeeds exactly for the accepted call shapes; the new data source has the same provider and a `filter` node whose source is exactly the receiver's query, with the normalised name and predicate; otherwise it fails with the argument error and builds nothing |
| `DataSources.FilterChainNests` | src/datasource.ts:27-36 | a chain of `k` `filter` calls of any call shape (a name with an operation, a lambda, anything else) succeeds exactly when every call has an accepted shape; it then keeps the provider, the original query sits exactly `k` filter nodes deep, and the `j`-th layer from the outside carries the normalised name and predicate of the `j`-th call from the end |
| `InMemory.KeepWhere` | src/providers/InMemoryProvider.ts:24 | a comprehension's result is never longer than its input and holds no element more often than the input |
| `InMemory.KeepWhereSelects` | src/providers/InMemoryProvider.ts:24 | the comprehension picks, in increasing position order, exactly the positions whose element passes the test |
| `InMemory.KeepWhereTwice` | src/providers/InMemoryProvider.ts:22-36 | comprehending twice keeps exactly the elements passing both tests, in order |
| `InMemory.Evaluate` | src/providers/InMemoryProvider.ts:25-32 | a predicate evaluates only if it is a field-reference chain over a parameter; its only exceptions are the unsupported-node error and the property TypeError |
| `InMemory.EvaluateIsLookup` | src/providers/InMemoryProvider.ts:25-32 | a `parameter` node is the current element whatever its name; a `fieldReference` chain reads its field names from the element in order; every other node throws |
| `InMemory.FilterRows` | src/providers/InMemoryProvider.ts:24-35 | filtering rows succeeds exactly when the predicate evaluates for every row; it then keeps, in order, the rows whose predicate is truthy; on failure it raises the exception of the first row whose evaluation throws |
| `InMemory.Visit` | src/providers/InMemoryProvider.ts:12-20 | any top-level node other than `dataSourceReference` or `filter` throws; a result is never longer than the stored rows and holds no row more often than they do |
| `InMemory.VisitFilter` | src/providers/InMemoryProvider.ts:22-36 | a filter's result is never longer than the stored rows and is drawn from them |
| `InMemory.FilterMeaning` | src/providers/InMemoryProvider.ts:22-36 | a filter succeeds exactly when its source succeeds and its predicate evaluates for every source row; its result is then exactly the source rows whose predicate is truthy, in their original order |
| `InMemory.DataSourceReferenceYieldsData` | src/providers/InMemoryProvider.ts:14-15 | the data source reference yields the stored rows |
| `InMemory.EmptySourceNeverThrows` | src/providers/InMemoryProvider.ts:24-34 | filtering an empty source yields an empty result, whatever the predicate |
| `InMemory.UnsupportedPredicateThrows` | src/providers/InMemoryProvider.ts:25-32 | a predicate that is not a field-reference chain over a parameter throws once the source has a row |
| `InMemory.ParameterPredicateKeepsTruthy` | src/providers/InMemoryProvider.ts:27-28 | with a bare `parameter` predicate, neither the filter's parameter name nor the node's name matters, and the truthy rows are kept |
| `InMemory.NestedFilters` | src/providers/InMemoryProvider.ts:16-17 | a filter of a filter keeps, in order, exactly the rows satisfying both predicates |
| `InMemory.FilteredDataSourceRuns` | src/datasource.ts:27-36 | running the query of a filtered data source over an in-memory provider keeps the rows of the original query that satisfy the normalised predicate |

## Left out

- `DataSourceBase.toArray` and `InMemoryProvider.execute` only wrap the result in a promise. The model evaluates `Visit` directly. Because `execute` (src/providers/InMemoryProvider.ts:10) calls `visit` before `Promise.resolve`, a query that throws makes `execute` and `toArray` throw synchronously rather than return a rejected promise; the model's `Err` result stands for that synchronous exception.
- `convertExpressionToQueryOperation` has an empty body in the source, so it returns `undefined`. It is a `convert` parameter here, and the predicate it would produce is not modelled.
- `isLambdaExpression` and the expression library are reduced to the `Expression` datatype: a lambda with its parameters and body, or some other node.
- `DataSources.ExtractLambdaProperties`: with a string first argument the source reads the second argument with a non-null assertion. The signature of `filter` (src/datasource.ts:27) declares `predicateOperation?` optional, so `filter("x")` type-checks and builds a filter node whose predicate is `undefined`. The model requires the operation, as the `filter(name, operation)` call shape supplies it, and does not model an omitted one.
- `DataSources.DataSourceBase.Filter`: carries the same requirement, for the same reason, so `filter("x")` without an operation is not modelled.
- `InMemory.FilteredDataSourceRuns`: carries the same requirement, so running a filter node with an `undefined` predicate is not modelled.
- `InMemory.Visit`: `dataSourceReference` returns the provider's own array object, so the caller and the provider share it. The model returns the rows as a value, without this aliasing.
- `JsValues.Truthy`: numbers are reals, so `NaN` and the infinities are not modelled.
- `JsValues.GetProperty`: reading a property of a boolean, number or string yields `undefined` in the model. Properties from prototypes, such as a string's `length`, are not modelled.
- Arrays and functions as row values are not modelled.
- Result-schema inference, `map` and the types in src/schema.ts: `map` is commented out in src/datasource.ts:37-51, `DataSourceBase` has no result-schema member, and src/schema.ts only declares types. None of them is modelled.
- The HTTP provider (src/providers/FetchProvider.ts) is network I/O and is not part of this model.
