/** The query operation tree: a closed union of thirty node kinds, each node
    holding its children by value, and the numeric node-type enumeration. */
module Operations {
  import opened JsValues

  /** The node-type enumeration; its numbering is the declaration order. */
  datatype NodeType =
    | ParameterNode
    | DataSourceReferenceNode
    | LiteralNode
    | CountNode
    | FilterNode
    | MapNode
    | SortNode
    | TakePageNode
    | ElementLiteralNode
    | FieldReferenceNode
    | AddNode
    | SubtractNode
    | DivideNode
    | MultiplyNode
    | NegateNode
    | EqualNode
    | NotEqualNode
    | GreaterNode
    | GreaterOrEqualNode
    | LessNode
    | LessOrEqualNode
    | AndNode
    | OrNode
    | NotNode
    | IfNode
    | ContainsNode
    | StartsWithNode
    | EndsWithNode
    | ToUpperCaseNode
    | ToLowerCaseNode

  /** One key of a sort: the expression to sort by and its direction. */
  datatype SortStep = SortStep(sortBy: QueryOperation, ascending: bool)

  /** One named field of an element literal. */
  datatype ElementLiteralField = ElementLiteralField(name: string, value: QueryOperation)

  /** A query operation node. */
  datatype QueryOperation =
      // binary
    | Add(leftOperand: QueryOperation, rightOperand: QueryOperation)
    | And(leftOperand: QueryOperation, rightOperand: QueryOperation)
    | Divide(leftOperand: QueryOperation, rightOperand: QueryOperation)
    | Equal(leftOperand: QueryOperation, rightOperand: QueryOperation)
    | Greater(leftOperand: QueryOperation, rightOperand: QueryOperation)
    | GreaterOrEqual(leftOperand: QueryOperation, rightOperand: QueryOperation)
    | Less(leftOperand: QueryOperation, rightOperand: QueryOperation)
    | LessOrEqual(leftOperand: QueryOperation, rightOperand: QueryOperation)
    | Multiply(leftOperand: QueryOperation, rightOperand: QueryOperation)
    | NotEqual(leftOperand: QueryOperation, rightOperand: QueryOperation)
    | Or(leftOperand: QueryOperation, rightOperand: QueryOperation)
    | Subtract(leftOperand: QueryOperation, rightOperand: QueryOperation)
      // unary
    | Negate(operand: QueryOperation)
    | Not(operand: QueryOperation)
      // collection
    | Count(source: QueryOperation)
    | Filter(source: QueryOperation, parameterName: string, predicateOperation: QueryOperation)
    | Map(source: QueryOperation, parameterName: string, projection: QueryOperation)
    | Sort(source: QueryOperation, parameterName: string, steps: seq<SortStep>)
    | TakePage(source: QueryOperation, start: real, count: real)
      // string
    | Contains(source: QueryOperation, search: QueryOperation)
    | EndsWith(source: QueryOperation, fragment: QueryOperation)
    | StartsWith(source: QueryOperation, fragment: QueryOperation)
    | ToLowerCase(text: QueryOperation)
    | ToUpperCase(text: QueryOperation)
      // data source / element
    | DataSourceReference
    | ElementLiteral(fields: seq<ElementLiteralField>)
    | FieldReference(element: QueryOperation, fieldName: string)
      // misc
    | Literal(value: Value)
    | Parameter(name: string)
    | If(condition: QueryOperation, trueOperation: QueryOperation, falseOperation: QueryOperation)

  /** The `operation` tag of a node. */
  function Kind(q: QueryOperation): NodeType {
    match q
    case Add(_, _) => AddNode
    case And(_, _) => AndNode
    case Divide(_, _) => DivideNode
    case Equal(_, _) => EqualNode
    case Greater(_, _) => GreaterNode
    case GreaterOrEqual(_, _) => GreaterOrEqualNode
    case Less(_, _) => LessNode
    case LessOrEqual(_, _) => LessOrEqualNode
    case Multiply(_, _) => MultiplyNode
    case NotEqual(_, _) => NotEqualNode
    case Or(_, _) => OrNode
    case Subtract(_, _) => SubtractNode
    case Negate(_) => NegateNode
    case Not(_) => NotNode
    case Count(_) => CountNode
    case Filter(_, _, _) => FilterNode
    case Map(_, _, _) => MapNode
    case Sort(_, _, _) => SortNode
    case TakePage(_, _, _) => TakePageNode
    case Contains(_, _) => ContainsNode
    case EndsWith(_, _) => EndsWithNode
    case StartsWith(_, _) => StartsWithNode
    case ToLowerCase(_) => ToLowerCaseNode
    case ToUpperCase(_) => ToUpperCaseNode
    case DataSourceReference => DataSourceReferenceNode
    case ElementLiteral(_) => ElementLiteralNode
    case FieldReference(_, _) => FieldReferenceNode
    case Literal(_) => LiteralNode
    case Parameter(_) => ParameterNode
    case If(_, _, _) => IfNode
  }

  /** The numeric value of a node type, as the enumeration assigns it. */
  function Tag(k: NodeType): (n: nat)
    ensures n < 30
  {
    match k
    case ParameterNode => 0
    case DataSourceReferenceNode => 1
    case LiteralNode => 2
    case CountNode => 3
    case FilterNode => 4
    case MapNode => 5
    case SortNode => 6
    case TakePageNode => 7
    case ElementLiteralNode => 8
    case FieldReferenceNode => 9
    case AddNode => 10
    case SubtractNode => 11
    case DivideNode => 12
    case MultiplyNode => 13
    case NegateNode => 14
    case EqualNode => 15
    case NotEqualNode => 16
    case GreaterNode => 17
    case GreaterOrEqualNode => 18
    case LessNode => 19
    case LessOrEqualNode => 20
    case AndNode => 21
    case OrNode => 22
    case NotNode => 23
    case IfNode => 24
    case ContainsNode => 25
    case StartsWithNode => 26
    case EndsWithNode => 27
    case ToUpperCaseNode => 28
    case ToLowerCaseNode => 29
  }

  /** The node type a number stands for, if any: the enumeration's reverse
      mapping, in declaration order. */
  function KindOfTag(n: nat): (r: Option<NodeType>)
    ensures r.Some? <==> n < 30
    ensures r.Some? ==> Tag(r.value) == n
  {
    if n < 10 then Some(KindOfTagFrom0(n))
    else if n < 20 then Some(KindOfTagFrom10(n - 10))
    else if n < 30 then Some(KindOfTagFrom20(n - 20))
    else None
  }

  function KindOfTagFrom0(d: nat): (k: NodeType)
    requires d < 10
    ensures Tag(k) == 0 + d
  {
    match d
    case 0 => ParameterNode
    case 1 => DataSourceReferenceNode
    case 2 => LiteralNode
    case 3 => CountNode
    case 4 => FilterNode
    case 5 => MapNode
    case 6 => SortNode
    case 7 => TakePageNode
    case 8 => ElementLiteralNode
    case _ => FieldReferenceNode
  }

  function KindOfTagFrom10(d: nat): (k: NodeType)
    requires d < 10
    ensures Tag(k) == 10 + d
  {
    match d
    case 0 => AddNode
    case 1 => SubtractNode
    case 2 => DivideNode
    case 3 => MultiplyNode
    case 4 => NegateNode
    case 5 => EqualNode
    case 6 => NotEqualNode
    case 7 => GreaterNode
    case 8 => GreaterOrEqualNode
    case _ => LessNode
  }

  function KindOfTagFrom20(d: nat): (k: NodeType)
    requires d < 10
    ensures Tag(k) == 20 + d
  {
    match d
    case 0 => LessOrEqualNode
    case 1 => AndNode
    case 2 => OrNode
    case 3 => NotNode
    case 4 => IfNode
    case 5 => ContainsNode
    case 6 => StartsWithNode
    case 7 => EndsWithNode
    case 8 => ToUpperCaseNode
    case _ => ToLowerCaseNode
  }

  lemma DecodedTag(k: NodeType)
    ensures KindOfTag(Tag(k)) == Some(k)
  {
    match k
    case ParameterNode =>
    case DataSourceReferenceNode =>
    case LiteralNode =>
    case CountNode =>
    case FilterNode =>
    case MapNode =>
    case SortNode =>
    case TakePageNode =>
    case ElementLiteralNode =>
    case FieldReferenceNode =>
    case AddNode =>
    case SubtractNode =>
    case DivideNode =>
    case MultiplyNode =>
    case NegateNode =>
    case EqualNode =>
    case NotEqualNode =>
    case GreaterNode =>
    case GreaterOrEqualNode =>
    case LessNode =>
    case LessOrEqualNode =>
    case AndNode =>
    case OrNode =>
    case NotNode =>
    case IfNode =>
    case ContainsNode =>
    case StartsWithNode =>
    case EndsWithNode =>
    case ToUpperCaseNode =>
    case ToLowerCaseNode =>
  }

  /** Numbering and decoding are inverse: every node type's number decodes
      back to it, and every number that decodes is the number of what it
      decodes to. */
  lemma TagRoundTrip(k: NodeType, n: nat)
    ensures KindOfTag(Tag(k)) == Some(k)
    ensures KindOfTag(n).Some? ==> Tag(KindOfTag(n).value) == n
  {
    DecodedTag(k);
  }

  lemma TagInjective(k1: NodeType, k2: NodeType)
    ensures Tag(k1) == Tag(k2) <==> k1 == k2
  {
    DecodedTag(k1);
    DecodedTag(k2);
  }

  /** A node of each type: every enumeration member tags some node. */
  function NodeOfKind(k: NodeType): (q: QueryOperation)
    ensures Kind(q) == k
  {
    var leaf := DataSourceReference;
    match k
    case ParameterNode => Parameter("")
    case DataSourceReferenceNode => leaf
    case LiteralNode => Literal(Undefined)
    case CountNode => Count(leaf)
    case FilterNode => Filter(leaf, "", leaf)
    case MapNode => Map(leaf, "", leaf)
    case SortNode => Sort(leaf, "", [])
    case TakePageNode => TakePage(leaf, 0.0, 0.0)
    case ElementLiteralNode => ElementLiteral([])
    case FieldReferenceNode => FieldReference(leaf, "")
    case AddNode => Add(leaf, leaf)
    case SubtractNode => Subtract(leaf, leaf)
    case DivideNode => Divide(leaf, leaf)
    case MultiplyNode => Multiply(leaf, leaf)
    case NegateNode => Negate(leaf)
    case EqualNode => Equal(leaf, leaf)
    case NotEqualNode => NotEqual(leaf, leaf)
    case GreaterNode => Greater(leaf, leaf)
    case GreaterOrEqualNode => GreaterOrEqual(leaf, leaf)
    case LessNode => Less(leaf, leaf)
    case LessOrEqualNode => LessOrEqual(leaf, leaf)
    case AndNode => And(leaf, leaf)
    case OrNode => Or(leaf, leaf)
    case NotNode => Not(leaf)
    case IfNode => If(leaf, leaf, leaf)
    case ContainsNode => Contains(leaf, leaf)
    case StartsWithNode => StartsWith(leaf, leaf)
    case EndsWithNode => EndsWith(leaf, leaf)
    case ToUpperCaseNode => ToUpperCase(leaf)
    case ToLowerCaseNode => ToLowerCase(leaf)
  }

  /** The union and the enumeration correspond one to one: each node's tag
      is its own interface's member, so nodes built by different
      constructors carry different tags (with `KindIdentifiesOtherNodes`),
      and every member tags some node (`NodeOfKind`). */
  lemma KindIdentifiesOperatorNodes(q: QueryOperation)
    ensures (Kind(q) == AddNode <==> q.Add?) && (Kind(q) == AndNode <==> q.And?)
    ensures (Kind(q) == DivideNode <==> q.Divide?) && (Kind(q) == EqualNode <==> q.Equal?)
    ensures (Kind(q) == GreaterNode <==> q.Greater?) && (Kind(q) == GreaterOrEqualNode <==> q.GreaterOrEqual?)
    ensures (Kind(q) == LessNode <==> q.Less?) && (Kind(q) == LessOrEqualNode <==> q.LessOrEqual?)
    ensures (Kind(q) == MultiplyNode <==> q.Multiply?) && (Kind(q) == NotEqualNode <==> q.NotEqual?)
    ensures (Kind(q) == OrNode <==> q.Or?) && (Kind(q) == SubtractNode <==> q.Subtract?)
    ensures (Kind(q) == NegateNode <==> q.Negate?) && (Kind(q) == NotNode <==> q.Not?)
  {
  }

  lemma KindIdentifiesOtherNodes(q: QueryOperation)
    ensures (Kind(q) == CountNode <==> q.Count?) && (Kind(q) == FilterNode <==> q.Filter?)
    ensures (Kind(q) == MapNode <==> q.Map?) && (Kind(q) == SortNode <==> q.Sort?)
    ensures (Kind(q) == TakePageNode <==> q.TakePage?) && (Kind(q) == ContainsNode <==> q.Contains?)
    ensures (Kind(q) == EndsWithNode <==> q.EndsWith?) && (Kind(q) == StartsWithNode <==> q.StartsWith?)
    ensures (Kind(q) == ToLowerCaseNode <==> q.ToLowerCase?) && (Kind(q) == ToUpperCaseNode <==> q.ToUpperCase?)
    ensures (Kind(q) == DataSourceReferenceNode <==> q.DataSourceReference?) && (Kind(q) == ElementLiteralNode <==> q.ElementLiteral?)
    ensures (Kind(q) == FieldReferenceNode <==> q.FieldReference?) && (Kind(q) == LiteralNode <==> q.Literal?)
    ensures (Kind(q) == ParameterNode <==> q.Parameter?) && (Kind(q) == IfNode <==> q.If?)
  {
  }

  /** The nodes that carry exactly a `leftOperand` and a `rightOperand`. */
  predicate IsBinary(q: QueryOperation) {
    q.Add? || q.And? || q.Divide? || q.Equal? || q.Greater? || q.GreaterOrEqual? ||
    q.Less? || q.LessOrEqual? || q.Multiply? || q.NotEqual? || q.Or? || q.Subtract?
  }

  /** The twelve binary node types. */
  const BinaryKinds: seq<NodeType> := [
    AddNode, AndNode, DivideNode, EqualNode, GreaterNode, GreaterOrEqualNode,
    LessNode, LessOrEqualNode, MultiplyNode, NotEqualNode, OrNode, SubtractNode
  ]

  /** The direct sub-operations of a node, in field order. */
  function Children(q: QueryOperation): (cs: seq<QueryOperation>)
    ensures forall c :: c in cs ==> c < q
  {
    match q
    case Add(l, r) => [l, r]
    case And(l, r) => [l, r]
    case Divide(l, r) => [l, r]
    case Equal(l, r) => [l, r]
    case Greater(l, r) => [l, r]
    case GreaterOrEqual(l, r) => [l, r]
    case Less(l, r) => [l, r]
    case LessOrEqual(l, r) => [l, r]
    case Multiply(l, r) => [l, r]
    case NotEqual(l, r) => [l, r]
    case Or(l, r) => [l, r]
    case Subtract(l, r) => [l, r]
    case Negate(o) => [o]
    case Not(o) => [o]
    case Count(s) => [s]
    case Filter(s, _, p) => [s, p]
    case Map(s, _, p) => [s, p]
    case Sort(s, _, steps) => [s] + SortKeys(steps, q)
    case TakePage(s, _, _) => [s]
    case Contains(s, x) => [s, x]
    case EndsWith(s, x) => [s, x]
    case StartsWith(s, x) => [s, x]
    case ToLowerCase(t) => [t]
    case ToUpperCase(t) => [t]
    case DataSourceReference => []
    case ElementLiteral(fields) => FieldValues(fields, q)
    case FieldReference(e, _) => [e]
    case Literal(_) => []
    case Parameter(_) => []
    case If(c, t, f) => [c, t, f]
  }

  /** The `sortBy` operations of the steps of sort node `q`. */
  function SortKeys(steps: seq<SortStep>, ghost q: QueryOperation): (ks: seq<QueryOperation>)
    requires q.Sort? && forall st :: st in steps ==> st in q.steps
    ensures |ks| == |steps|
    ensures forall i :: 0 <= i < |ks| ==> ks[i] == steps[i].sortBy && ks[i] < q
  {
    if steps == [] then []
    else
      assert steps[0] in q.steps;
      [steps[0].sortBy] + SortKeys(steps[1..], q)
  }

  /** The `value` operations of the fields of element literal `q`. */
  function FieldValues(fields: seq<ElementLiteralField>, ghost q: QueryOperation): (vs: seq<QueryOperation>)
    requires q.ElementLiteral? && forall f :: f in fields ==> f in q.fields
    ensures |vs| == |fields|
    ensures forall i :: 0 <= i < |vs| ==> vs[i] == fields[i].value && vs[i] < q
  {
    if fields == [] then []
    else
      assert fields[0] in q.fields;
      [fields[0].value] + FieldValues(fields[1..], q)
  }

  /** Exactly the twelve binary node types carry two operands, and those two
      operands are all their children. */
  lemma BinaryNodes(q: QueryOperation)
    ensures IsBinary(q) <==> Kind(q) in BinaryKinds
    ensures IsBinary(q) ==> Children(q) == [q.leftOperand, q.rightOperand]
    ensures |BinaryKinds| == 12
    ensures forall i, j :: 0 <= i < j < |BinaryKinds| ==> BinaryKinds[i] != BinaryKinds[j]
  {
  }

  /** `negate` and `not` have a single operand; `count` and `takePage` only a
      source; `filter` and `map` a source and a body bound to their parameter;
      `dataSourceReference`, `parameter` and `literal` are leaves. */
  lemma NodeShapes(q: QueryOperation)
    ensures q.Negate? || q.Not? ==> Children(q) == [q.operand]
    ensures q.Count? || q.TakePage? ==> Children(q) == [q.source]
    ensures q.Filter? ==> Children(q) == [q.source, q.predicateOperation]
    ensures q.Map? ==> Children(q) == [q.source, q.projection]
    ensures q.Sort? ==> |Children(q)| == 1 + |q.steps| && Children(q)[0] == q.source
    ensures q.DataSourceReference? || q.Parameter? || q.Literal? ==> Children(q) == []
  {
  }
}
