/** The expression half of ASTConverter: each raw expression becomes the
    mypy expression node its visit_* method builds. The expression visitors
    report no diagnostics, so this is a pure translation. Every node gets
    the raw position through `set_line`, except where the source never
    calls it (NameConstant, Slice, ExtSlice). */
module ExprConverter {
  import opened Common
  import opened RawAst
  import opened Nodes

  /** `op_map`: the text of a binary operator. */
  function OperatorText(op: Operator): string {
    match op
    case Add => "+"
    case Sub => "-"
    case Mult => "*"
    case MatMult => "@"
    case Div => "/"
    case Mod => "%"
    case Pow => "**"
    case LShift => "<<"
    case RShift => ">>"
    case BitOr => "|"
    case BitXor => "^"
    case BitAnd => "&"
    case FloorDiv => "//"
  }

  /** `comp_op_map`: the text of a comparison operator. */
  function CompOperatorText(op: CmpOperator): string {
    match op
    case Gt => ">"
    case Lt => "<"
    case Eq => "=="
    case GtE => ">="
    case LtE => "<="
    case NotEq => "!="
    case Is => "is"
    case IsNot => "is not"
    case In => "in"
    case NotIn => "not in"
  }

  function UnaryOperatorText(op: UnaryOperator): string {
    match op
    case Invert => "~"
    case Not => "not"
    case UAdd => "+"
    case USub => "-"
  }

  function BoolOperatorText(op: BoolOperator): string {
    match op
    case And => "and"
    case Or => "or"
  }

  // ---- the shape of a boolean chain ----

  /** `e` is a right-nested chain of `k` OpExpr nodes, all with operator
      `op` and position `p`. */
  predicate IsChain(e: Expression, k: nat, op: string, p: Pos) {
    k == 0 || (e.OpExpr? && e.op == op && e.pos == p && IsChain(e.right, k - 1, op, p))
  }

  /** The operands of a right-nested chain of depth `k`: its left operands
      from the top down, then the innermost right operand. */
  function Spine(e: Expression, k: nat): (r: seq<Expression>)
    ensures 1 <= |r| <= k + 1
  {
    if k == 0 || !e.OpExpr? then [e] else [e.left] + Spine(e.right, k - 1)
  }

  /** `group`: `a op (b op (c op d))`, every OpExpr at the BoolOp's position. */
  function Group(op: string, vals: seq<Expression>, p: Pos): (r: Expression)
    requires |vals| >= 2
    ensures IsChain(r, |vals| - 1, op, p)
    ensures Spine(r, |vals| - 1) == vals
    decreases |vals|
  {
    if |vals| == 2 then OpExpr(op, vals[0], vals[1], p)
    else OpExpr(op, vals[0], Group(op, vals[1..], p), p)
  }

  // ---- the translation ----

  /** The call that `visit_Attribute` reads as a `super()` receiver. */
  predicate IsSuperCall(v: RawExpr) {
    v.Call? && v.func.Name? && v.func.id == "super"
  }

  function PositionalKind(a: RawExpr): ArgKind {
    if a.Starred? then ArgStar else ArgPos
  }

  function KeywordKind(k: Keyword): ArgKind {
    if k.arg.None? then ArgStar2 else ArgNamed
  }

  /** The node a raw expression becomes; it carries the raw position except
      for a NameConstant, which the source leaves at the default. */
  function Convert(e: RawExpr): (r: Expression)
    requires WfExpr(e)
    ensures r.pos == (if e.NameConstant? then NoPos else e.pos)
    decreases e, 1
  {
    match e
    case Name(p, id) => NameExpr(id, p)
    case NameConstant(_, v) => NameExpr(SingletonText(v), NoPos)
    case Num(p, n) => IntExpr(n, p)
    case Str(p, s, _) => StrExpr(s, p)
    case Ellipsis(p) => EllipsisExpr(p)
    case Attribute(p, v, a) =>
      if IsSuperCall(v) then SuperExpr(a, Convert(v), p) else MemberExpr(Convert(v), a, p)
    case Subscript(p, v, sl) => IndexExpr(Convert(v), ConvertSlice(sl), p)
    case Starred(p, v) => StarExpr(Convert(v), p)
    case Call(_, _, _, _) => ConvertCall(e)
    case BoolOp(p, op, vs) => Group(BoolOperatorText(op), ConvertList(vs), p)
    case BinOp(p, l, op, r) => OpExpr(OperatorText(op), Convert(l), Convert(r), p)
    case UnaryOp(p, op, v) => UnaryExpr(UnaryOperatorText(op), Convert(v), p)
    case Compare(p, l, ops, cs) =>
      ComparisonExpr(seq(|ops|, i requires 0 <= i < |ops| => CompOperatorText(ops[i])),
                     [Convert(l)] + ConvertList(cs), p)
    case IfExp(p, t, b, o) => ConditionalExpr(Convert(t), Convert(b), Convert(o), p)
    case List(p, elts, ctx) =>
      if ctx == Store then TupleExpr(ConvertList(elts), p) else ListExpr(ConvertList(elts), p)
    case Tuple(p, elts, _) => TupleExpr(ConvertList(elts), p)
    case Set(p, elts) => SetExpr(ConvertList(elts), p)
    case JoinedStr(p, vs) =>
      CallExpr(MemberExpr(StrExpr("", p), "join", p), [ListExpr(ConvertList(vs), p)], [ArgPos], [None], p)
    case FormattedValue(p, v) =>
      CallExpr(MemberExpr(StrExpr("{}", p), "format", p), [Convert(v).(pos := p)], [ArgPos], [None], p)
    case Await(p, v) => AwaitExpr(Convert(v), p)
    case Yield(p, v) => YieldExpr(ConvertOpt(v), p)
    case YieldFrom(p, v) => YieldFromExpr(Convert(v), p)
  }

  /** `translate_expr_list`: the elements converted one by one, in order. */
  function ConvertList(es: seq<RawExpr>): (r: seq<Expression>)
    requires WfExprs(es)
    ensures |r| == |es|
    ensures forall i :: 0 <= i < |es| ==> r[i] == Convert(es[i])
    decreases es
  {
    if es == [] then [] else [Convert(es[0])] + ConvertList(es[1..])
  }

  /** `visit(None)` is None. */
  function ConvertOpt(o: Option<RawExpr>): (r: Option<Expression>)
    requires WfOptExpr(o)
    ensures r.Some? <==> o.Some?
    decreases o
  {
    match o
    case None => None
    case Some(v) => Some(Convert(v))
  }

  /** visit_Index, visit_Slice and visit_ExtSlice; the last two never set a
      position. */
  function ConvertSlice(s: RawSlice): (r: Expression)
    requires WfSlice(s)
    ensures !s.Index? ==> r.pos == NoPos
    decreases s
  {
    match s
    case Index(v) => Convert(v)
    case Slice(l, u, st) => SliceExpr(ConvertOpt(l), ConvertOpt(u), ConvertOpt(st), NoPos)
    case ExtSlice(dims) => TupleExpr(seq(|dims|, i requires 0 <= i < |dims| => ConvertSlice(dims[i])), NoPos)
  }

  /** visit_Call: the arguments flattened into three parallel arrays, a
      starred positional argument unwrapped to its value. */
  function ConvertCall(e: RawExpr): (r: Expression)
    requires e.Call? && WfExpr(e)
    ensures r.CallExpr? && r.pos == e.pos
    ensures |r.args| == |r.argKinds| == |r.argNames| == |e.args| + |e.keywords|
    decreases e, 0
  {
    assert WfExprs(e.args);
    var positional := seq(|e.args|, i requires 0 <= i < |e.args| && WfExpr(e.args[i]) =>
      if e.args[i].Starred? then Convert(e.args[i].value) else Convert(e.args[i]));
    var named := seq(|e.keywords|, j requires 0 <= j < |e.keywords| && WfExpr(e.keywords[j].value) =>
      Convert(e.keywords[j].value));
    CallExpr(Convert(e.func),
             positional + named,
             seq(|e.args|, i requires 0 <= i < |e.args| => PositionalKind(e.args[i]))
               + seq(|e.keywords|, j requires 0 <= j < |e.keywords| => KeywordKind(e.keywords[j])),
             seq(|e.args|, _ => None)
               + seq(|e.keywords|, j requires 0 <= j < |e.keywords| => e.keywords[j].arg),
             e.pos)
  }
}
