/** The raw tree the foreign parser (typed_ast's ast3) hands to the
    converter, restricted to the node shapes the converter inspects.
    Results of the foreign parser that the converter asks for later (a type
    comment, the text of a string literal read as a type) are part of the
    input: each such node carries the parse result with it. */
module RawAst {
  import opened Common

  datatype BoolOperator = And | Or
  datatype Operator =
    | Add | Sub | Mult | MatMult | Div | Mod | Pow | LShift | RShift | BitOr | BitXor | BitAnd | FloorDiv
  datatype UnaryOperator = Invert | Not | UAdd | USub
  datatype CmpOperator = Gt | Lt | Eq | GtE | LtE | NotEq | Is | IsNot | In | NotIn
  datatype ExprContext = Load | Store | Del
  /** The values a NameConstant can hold. */
  datatype Singleton = NoneValue | TrueValue | FalseValue

  /** What `ast3.parse(text, 'eval')` made of a type comment (or of a
      string literal read as a type): a SyntaxError at some offset, or the
      body of the parsed expression. */
  datatype TypeComment =
    | CommentSyntaxError(offset: int)
    | CommentParsed(body: RawExpr)

  datatype RawExpr =
    | Name(pos: Pos, id: string)
    | NameConstant(pos: Pos, constant: Singleton)
    | Num(pos: Pos, n: int)
    | Str(pos: Pos, s: string, asType: TypeComment)
    | Ellipsis(pos: Pos)
    | Attribute(pos: Pos, value: RawExpr, attr: string)
    | Subscript(pos: Pos, value: RawExpr, slice: RawSlice)
    | Starred(pos: Pos, value: RawExpr)
    | Call(pos: Pos, func: RawExpr, args: seq<RawExpr>, keywords: seq<Keyword>)
    | BoolOp(pos: Pos, boolOp: BoolOperator, values: seq<RawExpr>)
    | BinOp(pos: Pos, left: RawExpr, op: Operator, right: RawExpr)
    | UnaryOp(pos: Pos, unaryOp: UnaryOperator, operand: RawExpr)
    | Compare(pos: Pos, left: RawExpr, ops: seq<CmpOperator>, comparators: seq<RawExpr>)
    | IfExp(pos: Pos, test: RawExpr, body: RawExpr, orelse: RawExpr)
    | List(pos: Pos, elts: seq<RawExpr>, ctx: ExprContext)
    | Tuple(pos: Pos, elts: seq<RawExpr>, ctx: ExprContext)
    | Set(pos: Pos, elts: seq<RawExpr>)
    | JoinedStr(pos: Pos, values: seq<RawExpr>)
    | FormattedValue(pos: Pos, value: RawExpr)
    | Await(pos: Pos, value: RawExpr)
    | Yield(pos: Pos, yielded: Option<RawExpr>)
    | YieldFrom(pos: Pos, value: RawExpr)

  /** `keyword = (identifier? arg, expr value)`; `arg` is absent for `**x`. */
  datatype Keyword = Keyword(arg: Option<string>, value: RawExpr)

  datatype RawSlice =
    | Index(value: RawExpr)
    | Slice(lower: Option<RawExpr>, upper: Option<RawExpr>, step: Option<RawExpr>)
    | ExtSlice(dims: seq<RawSlice>)

  /** `type(n).__name__` of a raw expression. */
  function ClassName(e: RawExpr): string {
    match e
    case Name(_, _) => "Name"
    case NameConstant(_, _) => "NameConstant"
    case Num(_, _) => "Num"
    case Str(_, _, _) => "Str"
    case Ellipsis(_) => "Ellipsis"
    case Attribute(_, _, _) => "Attribute"
    case Subscript(_, _, _) => "Subscript"
    case Starred(_, _) => "Starred"
    case Call(_, _, _, _) => "Call"
    case BoolOp(_, _, _) => "BoolOp"
    case BinOp(_, _, _, _) => "BinOp"
    case UnaryOp(_, _, _) => "UnaryOp"
    case Compare(_, _, _, _) => "Compare"
    case IfExp(_, _, _, _) => "IfExp"
    case List(_, _, _) => "List"
    case Tuple(_, _, _) => "Tuple"
    case Set(_, _) => "Set"
    case JoinedStr(_, _) => "JoinedStr"
    case FormattedValue(_, _) => "FormattedValue"
    case Await(_, _) => "Await"
    case Yield(_, _) => "Yield"
    case YieldFrom(_, _) => "YieldFrom"
  }

  /** `str(n.value)` of a NameConstant. */
  function SingletonText(v: Singleton): string {
    match v
    case NoneValue => "None"
    case TrueValue => "True"
    case FalseValue => "False"
  }

  // ---- statements ----

  /** `arg = (identifier arg, expr? annotation, string? type_comment)`. */
  datatype RawArg = RawArg(pos: Pos, arg: string, annotation: Option<RawExpr>, typeComment: Option<TypeComment>)

  /** `arguments = (arg* args, arg? vararg, arg* kwonlyargs, expr* kw_defaults,
      arg? kwarg, expr* defaults)`; a keyword-only argument without a default
      has None in kw_defaults. */
  datatype RawArguments = RawArguments(
    args: seq<RawArg>,
    vararg: Option<RawArg>,
    kwonlyargs: seq<RawArg>,
    kwDefaults: seq<Option<RawExpr>>,
    kwarg: Option<RawArg>,
    defaults: seq<RawExpr>)

  /** What `ast3.parse(type_comment, 'func_type')` made of a signature comment. */
  datatype FuncTypeAst = FuncTypeAst(argtypes: seq<RawExpr>, retType: RawExpr)

  /** A signature type comment: its text and its parse (None: SyntaxError). */
  datatype SignatureComment = SignatureComment(text: string, parsed: Option<FuncTypeAst>)

  datatype Alias = Alias(name: string, asname: Option<string>)

  datatype WithItem = WithItem(contextExpr: RawExpr, optionalVars: Option<RawExpr>)

  /** `excepthandler = ExceptHandler(expr? type, identifier? name, stmt* body)`. */
  datatype ExceptHandler = ExceptHandler(pos: Pos, handlerType: Option<RawExpr>, name: Option<string>, body: seq<RawStmt>)

  /** Statements; the async variants of def, for and with are the same shape
      with `isAsync` set. */
  datatype RawStmt =
    | FunctionDef(pos: Pos, name: string, args: RawArguments, body: seq<RawStmt>,
                  decorators: seq<RawExpr>, returnAnn: Option<RawExpr>,
                  typeComment: Option<SignatureComment>, isAsync: bool)
    | ClassDef(pos: Pos, name: string, bases: seq<RawExpr>, keywords: seq<Keyword>,
               body: seq<RawStmt>, decorators: seq<RawExpr>)
    | Return(pos: Pos, retValue: Option<RawExpr>)
    | Delete(pos: Pos, targets: seq<RawExpr>)
    | Assign(pos: Pos, targets: seq<RawExpr>, value: RawExpr, assignComment: Option<TypeComment>)
    | AnnAssign(pos: Pos, annTarget: RawExpr, annotation: RawExpr, annValue: Option<RawExpr>)
    | AugAssign(pos: Pos, target: RawExpr, op: Operator, value: RawExpr)
    | For(pos: Pos, target: RawExpr, iter: RawExpr, body: seq<RawStmt>, orelse: seq<RawStmt>,
          forComment: Option<TypeComment>, isAsync: bool)
    | While(pos: Pos, test: RawExpr, body: seq<RawStmt>, orelse: seq<RawStmt>)
    | If(pos: Pos, test: RawExpr, body: seq<RawStmt>, orelse: seq<RawStmt>)
    | With(pos: Pos, items: seq<WithItem>, body: seq<RawStmt>, withComment: Option<TypeComment>, isAsync: bool)
    | Raise(pos: Pos, exc: Option<RawExpr>, cause: Option<RawExpr>)
    | Try(pos: Pos, body: seq<RawStmt>, handlers: seq<ExceptHandler>, orelse: seq<RawStmt>, finalbody: seq<RawStmt>)
    | Assert(pos: Pos, test: RawExpr, msg: Option<RawExpr>)
    | Import(pos: Pos, names: seq<Alias>)
    | ImportFrom(pos: Pos, fromModule: Option<string>, names: seq<Alias>, level: int)
    | Global(pos: Pos, identifiers: seq<string>)
    | Nonlocal(pos: Pos, identifiers: seq<string>)
    | Expr(pos: Pos, value: RawExpr)
    | Pass(pos: Pos)
    | Break(pos: Pos)
    | Continue(pos: Pos)

  /** `Module(stmt* body, type_ignore* type_ignores)`; a type ignore is kept as its line. */
  datatype RawModule = RawModule(body: seq<RawStmt>, typeIgnores: seq<int>)

  /** What `ast3.parse` made of a source file: its tree, or the SyntaxError
      it raised (line, offset, message). */
  datatype ParseOutcome =
    | ParsedModule(tree: RawModule)
    | ModuleSyntaxError(line: int, offset: int, msg: string)

  // ---- what the parser guarantees and the converter relies on ----

  /** A BoolOp has at least two operands: visit_BoolOp asserts it and
      `group` indexes past the end otherwise. */
  predicate WfExpr(e: RawExpr) {
    match e
    case Name(_, _) => true
    case NameConstant(_, _) => true
    case Num(_, _) => true
    case Str(_, _, _) => true
    case Ellipsis(_) => true
    case Attribute(_, v, _) => WfExpr(v)
    case Subscript(_, v, sl) => WfExpr(v) && WfSlice(sl)
    case Starred(_, v) => WfExpr(v)
    case Call(_, f, args, kws) =>
      WfExpr(f) && WfExprs(args) && (forall i :: 0 <= i < |kws| ==> WfExpr(kws[i].value))
    case BoolOp(_, _, vs) => |vs| >= 2 && WfExprs(vs)
    case BinOp(_, l, _, r) => WfExpr(l) && WfExpr(r)
    case UnaryOp(_, _, v) => WfExpr(v)
    case Compare(_, l, _, cs) => WfExpr(l) && WfExprs(cs)
    case IfExp(_, t, b, o) => WfExpr(t) && WfExpr(b) && WfExpr(o)
    case List(_, elts, _) => WfExprs(elts)
    case Tuple(_, elts, _) => WfExprs(elts)
    case Set(_, elts) => WfExprs(elts)
    case JoinedStr(_, vs) => WfExprs(vs)
    case FormattedValue(_, v) => WfExpr(v)
    case Await(_, v) => WfExpr(v)
    case Yield(_, v) => WfOptExpr(v)
    case YieldFrom(_, v) => WfExpr(v)
  }

  predicate WfExprs(es: seq<RawExpr>) {
    forall i :: 0 <= i < |es| ==> WfExpr(es[i])
  }

  predicate WfOptExpr(o: Option<RawExpr>) {
    o.Some? ==> WfExpr(o.value)
  }

  predicate WfKeywords(ks: seq<Keyword>) {
    forall i :: 0 <= i < |ks| ==> WfExpr(ks[i].value)
  }

  predicate WfSlice(s: RawSlice) {
    match s
    case Index(v) => WfExpr(v)
    case Slice(l, u, st) => WfOptExpr(l) && WfOptExpr(u) && WfOptExpr(st)
    case ExtSlice(dims) => forall i :: 0 <= i < |dims| ==> WfSlice(dims[i])
  }

  /** No more defaults than positional arguments (so that
      `len(args) - len(defaults)` is a valid split point), and one entry of
      kw_defaults per keyword-only argument. */
  predicate WfArguments(a: RawArguments) {
    && |a.defaults| <= |a.args|
    && |a.kwDefaults| == |a.kwonlyargs|
    && WfExprs(a.defaults)
    && (forall i :: 0 <= i < |a.kwDefaults| ==> WfOptExpr(a.kwDefaults[i]))
  }

  /** Bodies that `as_required_block` asserts non-empty are non-empty, a del
      has a target, and every expression the converter visits is well formed. */
  predicate WfStmt(s: RawStmt) {
    match s
    case FunctionDef(_, _, args, body, decs, _, _, _) =>
      WfArguments(args) && |body| > 0 && WfStmts(body) && WfExprs(decs)
    case ClassDef(_, _, bases, kws, body, decs) =>
      WfExprs(bases) && WfKeywords(kws) && |body| > 0 && WfStmts(body) && WfExprs(decs)
    case Return(_, v) => WfOptExpr(v)
    case Delete(_, targets) => |targets| > 0 && WfExprs(targets)
    case Assign(_, targets, v, _) => WfExprs(targets) && WfExpr(v)
    case AnnAssign(_, t, _, v) => WfExpr(t) && WfOptExpr(v)
    case AugAssign(_, t, _, v) => WfExpr(t) && WfExpr(v)
    case For(_, t, it, body, orelse, _, _) =>
      WfExpr(t) && WfExpr(it) && |body| > 0 && WfStmts(body) && WfStmts(orelse)
    case While(_, t, body, orelse) => WfExpr(t) && |body| > 0 && WfStmts(body) && WfStmts(orelse)
    case If(_, t, body, orelse) => WfExpr(t) && |body| > 0 && WfStmts(body) && WfStmts(orelse)
    case With(_, items, body, _, _) =>
      (forall i :: 0 <= i < |items| ==> WfExpr(items[i].contextExpr) && WfOptExpr(items[i].optionalVars))
      && |body| > 0 && WfStmts(body)
    case Raise(_, e, c) => WfOptExpr(e) && WfOptExpr(c)
    case Try(_, body, hs, orelse, fin) =>
      && |body| > 0 && WfStmts(body)
      && (forall i :: 0 <= i < |hs| ==> WfOptExpr(hs[i].handlerType) && |hs[i].body| > 0 && WfStmts(hs[i].body))
      && WfStmts(orelse) && WfStmts(fin)
    case Assert(_, t, m) => WfExpr(t) && WfOptExpr(m)
    case Import(_, _) => true
    case ImportFrom(_, _, _, _) => true
    case Global(_, _) => true
    case Nonlocal(_, _) => true
    case Expr(_, v) => WfExpr(v)
    case Pass(_) => true
    case Break(_) => true
    case Continue(_) => true
  }

  predicate WfStmts(ss: seq<RawStmt>) {
    forall i :: 0 <= i < |ss| ==> WfStmt(ss[i])
  }
}
