/** The semantic tree the converter produces (mypy.nodes), restricted to the
    node kinds and fields the converter fills in. Every expression carries
    the position `set_line` gave it, or NoPos when none was given. */
module Nodes {
  import opened Common
  import opened Types

  datatype Expression =
    | NameExpr(name: string, pos: Pos)
    | IntExpr(intValue: int, pos: Pos)
    | StrExpr(value: string, pos: Pos)
    | EllipsisExpr(pos: Pos)
    | MemberExpr(expr: Expression, name: string, pos: Pos)
    | SuperExpr(name: string, call: Expression, pos: Pos)
    | IndexExpr(base: Expression, index: Expression, pos: Pos)
    | SliceExpr(begin: Option<Expression>, end: Option<Expression>, stride: Option<Expression>, pos: Pos)
    | StarExpr(expr: Expression, pos: Pos)
    | CallExpr(callee: Expression, args: seq<Expression>, argKinds: seq<ArgKind>,
               argNames: seq<Option<string>>, pos: Pos)
    | OpExpr(op: string, left: Expression, right: Expression, pos: Pos)
    | UnaryExpr(op: string, expr: Expression, pos: Pos)
    | ComparisonExpr(operators: seq<string>, operands: seq<Expression>, pos: Pos)
    | ConditionalExpr(cond: Expression, ifExpr: Expression, elseExpr: Expression, pos: Pos)
    | ListExpr(items: seq<Expression>, pos: Pos)
    | TupleExpr(items: seq<Expression>, pos: Pos)
    | SetExpr(items: seq<Expression>, pos: Pos)
    | AwaitExpr(expr: Expression, pos: Pos)
    | YieldExpr(yielded: Option<Expression>, pos: Pos)
    | YieldFromExpr(expr: Expression, pos: Pos)
    /** The placeholder right-hand side of an annotation without a value. */
    | TempNode(typ: Type, noRhs: bool, pos: Pos)

  /** `Argument(Var(name), type_annotation, initializer, kind)`. */
  datatype Argument = Argument(name: string, typeAnnotation: Option<Type>, initializer: Option<Expression>, kind: ArgKind)

  datatype Block = Block(body: seq<Statement>, pos: Pos)

  datatype FuncDef = FuncDef(
    name: string,
    arguments: seq<Argument>,
    body: Block,
    funcType: Option<CallableType>,
    isCoroutine: bool,
    isDecorated: bool,
    pos: Pos)

  /** The entries of `Import.ids` and `ImportFrom.names`: (name, as-name). */
  datatype ImportName = ImportName(name: string, asname: Option<string>)

  datatype ImportBase =
    | ImportNode(ids: seq<ImportName>, pos: Pos)
    | ImportFromNode(id: string, relative: int, names: seq<ImportName>, pos: Pos)
    | ImportAllNode(id: string, relative: int, pos: Pos)

  datatype Statement =
    | FuncDefStmt(func: FuncDef)
    /** The decorated function, its decorators and the line of the Var that
        will hold the decorated value (named like the function, not ready). */
    | Decorator(func: FuncDef, decorators: seq<Expression>, varLine: int, pos: Pos)
    /** A group of consecutive same-named definitions (its parts are
        FuncDefStmt or Decorator statements). */
    | OverloadedFuncDef(items: seq<Statement>)
    | ClassDefStmt(name: string, defs: Block, baseTypeExprs: seq<Expression>, metaclass: Option<Expression>,
                   keywords: seq<(string, Expression)>, decorators: seq<Expression>, pos: Pos)
    | ExpressionStmt(expr: Expression, pos: Pos)
    | AssignmentStmt(lvalues: seq<Expression>, rvalue: Expression, typ: Option<Type>, newSyntax: bool, pos: Pos)
    | OperatorAssignmentStmt(op: string, lvalue: Expression, rvalue: Expression, pos: Pos)
    | ReturnStmt(retExpr: Option<Expression>, pos: Pos)
    | DelStmt(expr: Expression, pos: Pos)
    | ForStmt(index: Expression, expr: Expression, body: Block, elseBody: Option<Block>,
              indexType: Option<Type>, isAsync: bool, pos: Pos)
    | WhileStmt(expr: Expression, body: Block, elseBody: Option<Block>, pos: Pos)
    | IfStmt(exprs: seq<Expression>, bodies: seq<Block>, elseBody: Option<Block>, pos: Pos)
    | WithStmt(exprs: seq<Expression>, targets: seq<Option<Expression>>, body: Block,
               targetType: Option<Type>, isAsync: bool, pos: Pos)
    | RaiseStmt(exc: Option<Expression>, fromExpr: Option<Expression>, pos: Pos)
    | AssertStmt(expr: Expression, msg: Option<Expression>, pos: Pos)
    | TryStmt(body: Block, vars: seq<Option<Expression>>, types: seq<Option<Expression>>, handlers: seq<Block>,
              elseBody: Option<Block>, finallyBody: Option<Block>, pos: Pos)
    | ImportStmt(imp: ImportBase)
    | GlobalDecl(names: seq<string>, pos: Pos)
    | NonlocalDecl(names: seq<string>, pos: Pos)
    | PassStmt(pos: Pos)
    | BreakStmt(pos: Pos)
    | ContinueStmt(pos: Pos)

  /** The module a conversion run produces: its statements, the imports
      collected along the way and the lines of `# type: ignore` comments. */
  datatype MypyFile = MypyFile(defs: seq<Statement>, imports: seq<ImportBase>, isBom: bool, ignoredLines: set<int>)

  /** A statement an overload group can be made of. */
  predicate IsOverloadPart(s: Statement) {
    s.FuncDefStmt? || s.Decorator?
  }

  /** `name()` of a FuncDef or a Decorator. */
  function PartName(s: Statement): string
    requires IsOverloadPart(s)
  {
    s.func.name
  }
}
