/** The statement half of ASTConverter, as functions: each statement, list
    of statements and block is converted together with the diagnostics and
    the imports the conversion records, in the order the visitor records
    them. `nesting` is the converter's class_nesting at the time of the
    visit; a class body is converted one level deeper. */
module StmtConverter {
  import opened Common
  import opened RawAst
  import opened Types
  import opened Nodes
  import opened Options
  import opened TypeConverter
  import opened ExprConverter
  import opened Overloads
  import opened ArgBinder
  import opened Signatures

  /** A converted value, with what converting it reported and imported. */
  datatype Visited<T> = Visited(value: T, diags: seq<Diagnostic>, imports: seq<ImportBase>)

  // ---- imports ----

  /** `translate_module_id`: the custom typing module is `typing`, and under
      Python 2 `__builtin__` is `builtins`. */
  function TranslateModuleId(env: Env, id: string): (r: string)
    ensures env.customTypingModule == Some(id) ==> r == "typing"
    ensures env.customTypingModule != Some(id) && id == "__builtin__" && env.pythonMajor == 2 ==> r == "builtins"
    ensures r != id ==> r == "typing" || r == "builtins"
  {
    if env.customTypingModule == Some(id) then "typing"
    else if id == "__builtin__" && env.pythonMajor == 2 then "builtins"
    else id
  }

  /** One `import a as b` entry: a translated module without an explicit
      alias is imported under its original name. */
  function ImportNameOf(env: Env, a: Alias): (r: ImportName)
    ensures r.name == TranslateModuleId(env, a.name)
    ensures a.asname.Some? ==> r.asname == a.asname
    ensures a.asname.None? ==> (r.asname.Some? <==> r.name != a.name) && (r.asname.Some? ==> r.asname.value == a.name)
  {
    var name := TranslateModuleId(env, a.name);
    ImportName(name, if a.asname.None? && name != a.name then Some(a.name) else a.asname)
  }

  function ImportNames(env: Env, names: seq<Alias>): (r: seq<ImportName>)
    ensures |r| == |names| && forall i :: 0 <= i < |names| ==> r[i] == ImportNameOf(env, names[i])
  {
    seq(|names|, i requires 0 <= i < |names| => ImportNameOf(env, names[i]))
  }

  /** `from m import *` is an ImportAll of the untranslated module; any other
      `from` import names the translated module. */
  function ImportFromOf(env: Env, s: RawStmt): (r: ImportBase)
    requires s.ImportFrom?
  {
    var mod := if s.fromModule.Some? then s.fromModule.value else "";
    if |s.names| == 1 && s.names[0].name == "*" then ImportAllNode(mod, s.level, s.pos)
    else
      ImportFromNode(if s.fromModule.Some? then TranslateModuleId(env, s.fromModule.value) else "",
                     s.level,
                     seq(|s.names|, i requires 0 <= i < |s.names| => ImportName(s.names[i].name, s.names[i].asname)),
                     s.pos)
  }

  /** An import statement is also recorded in the converter's import list. */
  function ConvertImport(env: Env, s: RawStmt): (r: Visited<Statement>)
    requires s.Import? || s.ImportFrom?
  {
    var imp := if s.Import? then ImportNode(ImportNames(env, s.names), s.pos) else ImportFromOf(env, s);
    Visited(ImportStmt(imp), [], [imp])
  }

  // ---- statements without a body ----

  predicate IsLeaf(s: RawStmt) {
    !IsDefinition(s) && !IsLoopOrIf(s) && !IsWithOrTry(s)
  }

  /** The statements that define or import a name. */
  predicate IsDefinition(s: RawStmt) {
    s.FunctionDef? || s.ClassDef? || s.Import? || s.ImportFrom?
  }

  /** The loops and the conditional, each with an optional else-block. */
  predicate IsLoopOrIf(s: RawStmt) {
    s.For? || s.While? || s.If?
  }

  /** The statements that guard a body: with and try. */
  predicate IsWithOrTry(s: RawStmt) {
    s.With? || s.Try?
  }

  /** A statement type comment, parsed at the statement's line. */
  function StatementComment(c: Option<TypeComment>, line: int): ParsedComment {
    if c.Some? then ParseTypeComment(c.value, line) else ParsedComment(None, [])
  }

  function ConvertLeaf(s: RawStmt): (r: Visited<Statement>)
    requires WfStmt(s) && IsLeaf(s)
    ensures r.imports == []
  {
    match s
    case Return(p, v) => Visited(ReturnStmt(ConvertOpt(v), p), [], [])
    case Delete(p, targets) =>
      if |targets| > 1 then Visited(DelStmt(TupleExpr(ConvertList(targets), LineOnly(p.line)), p), [], [])
      else Visited(DelStmt(Convert(targets[0]), p), [], [])
    case Assign(p, targets, v, c) =>
      var typ := StatementComment(c, p.line);
      Visited(AssignmentStmt(ConvertList(targets), Convert(v), typ.typ, false, p), typ.diags, [])
    case AnnAssign(p, t, ann, v) =>
      var rvalue := if v.Some? then Convert(v.value) else TempNode(AnyType(SpecialForm), true, NoPos);
      var typ := Visit(ann, None, p.line);
      Visited(AssignmentStmt([Convert(t)], rvalue, Some(typ.typ), true, p), typ.diags, [])
    case AugAssign(p, t, op, v) => Visited(OperatorAssignmentStmt(OperatorText(op), Convert(t), Convert(v), p), [], [])
    case Raise(p, e, c) => Visited(RaiseStmt(ConvertOpt(e), ConvertOpt(c), p), [], [])
    case Assert(p, t, m) => Visited(AssertStmt(Convert(t), ConvertOpt(m), p), [], [])
    case Global(p, ids) => Visited(GlobalDecl(ids, p), [], [])
    case Nonlocal(p, ids) => Visited(NonlocalDecl(ids, p), [], [])
    case Expr(p, v) => Visited(ExpressionStmt(Convert(v), p), [], [])
    case Pass(p) => Visited(PassStmt(p), [], [])
    case Break(p) => Visited(BreakStmt(p), [], [])
    case Continue(p) => Visited(ContinueStmt(p), [], [])
  }

  // ---- class definitions ----

  /** `[(kw.arg, visit(kw.value)) for kw in keywords if kw.arg]`. */
  function ClassKeywords(kws: seq<Keyword>): (r: seq<(string, Expression)>)
    requires WfKeywords(kws)
    ensures |r| <= |kws|
    ensures forall i :: 0 <= i < |r| ==> r[i].0 != ""
  {
    if kws == [] then []
    else
      var rest := ClassKeywords(kws[1..]);
      if kws[0].arg.Some? && kws[0].arg.value != "" then [(kws[0].arg.value, Convert(kws[0].value))] + rest
      else rest
  }

  /** `dict(keywords).get('metaclass')`: the last `metaclass` entry wins. */
  function Metaclass(kws: seq<(string, Expression)>): (r: Option<Expression>)
    ensures r.Some? <==> exists i :: 0 <= i < |kws| && kws[i].0 == "metaclass"
  {
    if kws == [] then None
    else if kws[|kws| - 1].0 == "metaclass" then Some(kws[|kws| - 1].1)
    else
      var r := Metaclass(kws[..|kws| - 1]);
      assert forall i :: 0 <= i < |kws| - 1 ==> kws[..|kws| - 1][i] == kws[i];
      r
  }

  // ---- the recursive part ----

  predicate WfHandlers(hs: seq<ExceptHandler>) {
    forall i :: 0 <= i < |hs| ==> WfOptExpr(hs[i].handlerType) && |hs[i].body| > 0 && WfStmts(hs[i].body)
  }

  function ConvertStmt(env: Env, s: RawStmt, nesting: int): (r: Visited<Statement>)
    requires WfStmt(s)
    decreases s, 3
  {
    if IsDefinition(s) then ConvertDefinition(env, s, nesting)
    else if IsLoopOrIf(s) then ConvertLoopOrIf(env, s, nesting)
    else if IsWithOrTry(s) then ConvertWithOrTry(env, s, nesting)
    else ConvertLeaf(s)
  }

  /** The statements that define or import a name. */
  function ConvertDefinition(env: Env, s: RawStmt, nesting: int): (r: Visited<Statement>)
    requires WfStmt(s) && IsDefinition(s)
    decreases s, 2
  {
    if s.FunctionDef? then ConvertFuncDef(env, s, nesting)
    else if s.ClassDef? then ConvertClassDef(env, s, nesting)
    else ConvertImport(env, s)
  }

  /** The loops and the conditional, each with an optional else-block. */
  function ConvertLoopOrIf(env: Env, s: RawStmt, nesting: int): (r: Visited<Statement>)
    requires WfStmt(s) && IsLoopOrIf(s)
    decreases s, 2
  {
    if s.For? then ConvertFor(env, s, nesting)
    else if s.While? then ConvertWhile(env, s, nesting)
    else ConvertIf(env, s, nesting)
  }

  /** The statements that guard a body: with and try. */
  function ConvertWithOrTry(env: Env, s: RawStmt, nesting: int): (r: Visited<Statement>)
    requires WfStmt(s) && IsWithOrTry(s)
    decreases s, 2
  {
    if s.With? then ConvertWith(env, s, nesting) else ConvertTry(env, s, nesting)
  }

  /** `last` visited after `first`: its value appended, its reports and
      imports after theirs. */
  function Then<T>(first: Visited<seq<T>>, last: Visited<T>): (r: Visited<seq<T>>)
    ensures r.value == first.value + [last.value]
    ensures r.diags == first.diags + last.diags && r.imports == first.imports + last.imports
  {
    Visited(first.value + [last.value], first.diags + last.diags, first.imports + last.imports)
  }

  /** `translate_stmt_list`, one statement after the other. */
  function ConvertStmts(env: Env, ss: seq<RawStmt>, nesting: int): (r: Visited<seq<Statement>>)
    requires WfStmts(ss)
    ensures |r.value| == |ss|
    decreases ss, 0
  {
    if ss == [] then Visited([], [], [])
    else
      var init := ss[..|ss| - 1];
      assert WfStmts(init) by {
        forall i | 0 <= i < |init| ensures WfStmt(init[i]) {
          assert init[i] == ss[i];
        }
      }
      Then(ConvertStmts(env, init, nesting), ConvertStmt(env, ss[|ss| - 1], nesting))
  }

  /** The statement list grows one statement at a time. */
  lemma StmtsSnoc(env: Env, ss: seq<RawStmt>, i: int, nesting: int)
    requires WfStmts(ss) && 0 <= i < |ss|
    ensures WfStmts(ss[..i]) && WfStmts(ss[..i + 1]) && WfStmt(ss[i])
    ensures ConvertStmts(env, ss[..i + 1], nesting)
         == Then(ConvertStmts(env, ss[..i], nesting), ConvertStmt(env, ss[i], nesting))
  {
    var upto := ss[..i + 1];
    assert upto[..i] == ss[..i];
    assert WfStmts(upto) by {
      forall k | 0 <= k < |upto| ensures WfStmt(upto[k]) {
        assert upto[k] == ss[k];
      }
    }
    assert WfStmts(ss[..i]) by {
      forall k | 0 <= k < i ensures WfStmt(ss[..i][k]) {
        assert ss[..i][k] == ss[k];
      }
    }
  }

  /** `as_required_block`: the converted statements, overloads merged,
      positioned at `line`. */
  function AsRequiredBlock(env: Env, ss: seq<RawStmt>, line: int, nesting: int): (r: Visited<Block>)
    requires WfStmts(ss)
    ensures r.value.pos == LineOnly(line)
    decreases ss, 1
  {
    var c := ConvertStmts(env, ss, nesting);
    Visited(Block(Coalesce(c.value), LineOnly(line)), c.diags, c.imports)
  }

  /** `as_block`: no block for an empty body. */
  function AsBlock(env: Env, ss: seq<RawStmt>, line: int, nesting: int): (r: Visited<Option<Block>>)
    requires WfStmts(ss)
    ensures r.value.None? <==> ss == []
    decreases ss, 2
  {
    if ss == [] then Visited(None, [], [])
    else
      var b := AsRequiredBlock(env, ss, line, nesting);
      Visited(Some(b.value), b.diags, b.imports)
  }

  /** The handler bodies of a try statement, each at its handler's line. */
  function ConvertHandlers(env: Env, hs: seq<ExceptHandler>, nesting: int): (r: Visited<seq<Block>>)
    requires WfHandlers(hs)
    ensures |r.value| == |hs|
    decreases hs, 1
  {
    if hs == [] then Visited([], [], [])
    else
      var init := hs[..|hs| - 1];
      var h := hs[|hs| - 1];
      assert h in hs;
      assert WfHandlers(init) by {
        forall i | 0 <= i < |init| ensures WfOptExpr(init[i].handlerType) && |init[i].body| > 0 && WfStmts(init[i].body) {
          assert init[i] == hs[i];
        }
      }
      Then(ConvertHandlers(env, init, nesting), AsRequiredBlock(env, h.body, h.pos.line, nesting))
  }

  /** The handler list grows one handler at a time. */
  lemma HandlersSnoc(env: Env, hs: seq<ExceptHandler>, i: int, nesting: int)
    requires WfHandlers(hs) && 0 <= i < |hs|
    ensures WfHandlers(hs[..i]) && WfHandlers(hs[..i + 1]) && WfStmts(hs[i].body)
    ensures ConvertHandlers(env, hs[..i + 1], nesting)
         == Then(ConvertHandlers(env, hs[..i], nesting), AsRequiredBlock(env, hs[i].body, hs[i].pos.line, nesting))
  {
    var upto := hs[..i + 1];
    assert upto[..i] == hs[..i];
    assert WfHandlers(upto) by {
      forall k | 0 <= k < |upto| ensures WfOptExpr(upto[k].handlerType) && |upto[k].body| > 0 && WfStmts(upto[k].body) {
        assert upto[k] == hs[k];
      }
    }
    assert WfHandlers(hs[..i]) by {
      forall k | 0 <= k < i ensures WfOptExpr(hs[..i][k].handlerType) && |hs[..i][k].body| > 0 && WfStmts(hs[..i][k].body) {
        assert hs[..i][k] == hs[k];
      }
    }
  }

  /** visit_For / visit_AsyncFor. */
  function ConvertFor(env: Env, s: RawStmt, nesting: int): (r: Visited<Statement>)
    requires WfStmt(s) && s.For?
    decreases s, 1
  {
    var typ := StatementComment(s.forComment, s.pos.line);
    var b := AsRequiredBlock(env, s.body, s.pos.line, nesting);
    var e := AsBlock(env, s.orelse, s.pos.line, nesting);
    Visited(ForStmt(Convert(s.target), Convert(s.iter), b.value, e.value, typ.typ, s.isAsync, s.pos),
            typ.diags + b.diags + e.diags, b.imports + e.imports)
  }

  /** visit_While. */
  function ConvertWhile(env: Env, s: RawStmt, nesting: int): (r: Visited<Statement>)
    requires WfStmt(s) && s.While?
    decreases s, 1
  {
    var b := AsRequiredBlock(env, s.body, s.pos.line, nesting);
    var e := AsBlock(env, s.orelse, s.pos.line, nesting);
    Visited(WhileStmt(Convert(s.test), b.value, e.value, s.pos), b.diags + e.diags, b.imports + e.imports)
  }

  /** visit_If: one condition and one body; an elif chain is an If in the
      else-block. */
  function ConvertIf(env: Env, s: RawStmt, nesting: int): (r: Visited<Statement>)
    requires WfStmt(s) && s.If?
    decreases s, 1
  {
    var b := AsRequiredBlock(env, s.body, s.pos.line, nesting);
    var e := AsBlock(env, s.orelse, s.pos.line, nesting);
    Visited(IfStmt([Convert(s.test)], [b.value], e.value, s.pos), b.diags + e.diags, b.imports + e.imports)
  }

  /** The parallel expression and target lists of a with statement. */
  function WithNode(s: RawStmt, body: Block, typ: Option<Type>): (r: Statement)
    requires WfStmt(s) && s.With?
    ensures r.WithStmt? && |r.exprs| == |r.targets| == |s.items|
    ensures forall i :: 0 <= i < |s.items| ==>
      r.exprs[i] == Convert(s.items[i].contextExpr) && r.targets[i] == ConvertOpt(s.items[i].optionalVars)
  {
    WithStmt(seq(|s.items|, i requires 0 <= i < |s.items| => Convert(s.items[i].contextExpr)),
             seq(|s.items|, i requires 0 <= i < |s.items| => ConvertOpt(s.items[i].optionalVars)),
             body, typ, s.isAsync, s.pos)
  }

  /** visit_With / visit_AsyncWith. */
  function ConvertWith(env: Env, s: RawStmt, nesting: int): (r: Visited<Statement>)
    requires WfStmt(s) && s.With?
    decreases s, 1
  {
    var typ := StatementComment(s.withComment, s.pos.line);
    var b := AsRequiredBlock(env, s.body, s.pos.line, nesting);
    Visited(WithNode(s, b.value, typ.typ), typ.diags + b.diags, b.imports)
  }

  /** The try statement's node: one handler variable and one handler type
      per handler, each variable a bare name reference. */
  function TryNode(s: RawStmt, handlers: seq<Block>, body: Block, orelse: Option<Block>, fin: Option<Block>)
    : (r: Statement)
    requires WfStmt(s) && s.Try?
    ensures r.TryStmt? && |r.vars| == |r.types| == |s.handlers|
    ensures forall i :: 0 <= i < |s.handlers| ==>
      && (r.vars[i].Some? <==> s.handlers[i].name.Some?)
      && (r.vars[i].Some? ==> r.vars[i].value == NameExpr(s.handlers[i].name.value, NoPos))
      && r.types[i] == ConvertOpt(s.handlers[i].handlerType)
  {
    var hs := s.handlers;
    TryStmt(body,
            seq(|hs|, i requires 0 <= i < |hs| =>
              if hs[i].name.Some? then Some(NameExpr(hs[i].name.value, NoPos)) else None),
            seq(|hs|, i requires 0 <= i < |hs| => ConvertOpt(hs[i].handlerType)),
            handlers, orelse, fin, s.pos)
  }

  /** visit_Try: the handler bodies are visited first, then the body, the
      else-block and the finally-block. */
  function ConvertTry(env: Env, s: RawStmt, nesting: int): (r: Visited<Statement>)
    requires WfStmt(s) && s.Try?
    decreases s, 1
  {
    assert WfHandlers(s.handlers);
    var handlers := ConvertHandlers(env, s.handlers, nesting);
    var b := AsRequiredBlock(env, s.body, s.pos.line, nesting);
    var e := AsBlock(env, s.orelse, s.pos.line, nesting);
    var f := AsBlock(env, s.finalbody, s.pos.line, nesting);
    Visited(TryNode(s, handlers.value, b.value, e.value, f.value),
            handlers.diags + b.diags + e.diags + f.diags,
            handlers.imports + b.imports + e.imports + f.imports)
  }

  /** visit_ClassDef: the body is converted one class level deeper. */
  function ConvertClassDef(env: Env, s: RawStmt, nesting: int): (r: Visited<Statement>)
    requires WfStmt(s) && s.ClassDef?
    decreases s, 1
  {
    var b := AsRequiredBlock(env, s.body, s.pos.line, nesting + 1);
    Visited(ClassNode(s, b.value), b.diags, b.imports)
  }

  /** The class's node from its converted body. */
  function ClassNode(s: RawStmt, body: Block): (r: Statement)
    requires WfStmt(s) && s.ClassDef?
    ensures r.ClassDefStmt? && r.name == s.name && r.defs == body && r.keywords == ClassKeywords(s.keywords)
    ensures r.metaclass == Metaclass(ClassKeywords(s.keywords))
  {
    var keywords := ClassKeywords(s.keywords);
    ClassDefStmt(s.name, body, ConvertList(s.bases), Metaclass(keywords), keywords, ConvertList(s.decorators), s.pos)
  }

  /** The line a definition is placed at: after its decorators when it has any. */
  function DefinitionLine(s: RawStmt): int
    requires s.FunctionDef?
  {
    s.pos.line + |s.decorators|
  }

  /** The definition's node from its signature and converted body. A
      decorated definition becomes a Decorator at the `def` position, the
      FuncDef and its body moved to the line after the decorators. */
  function FuncDefNode(s: RawStmt, signed: Signed, body: Block): (r: Statement)
    requires WfStmt(s) && s.FunctionDef?
  {
    if s.decorators != [] then
      var fd := FuncDef(s.name, signed.args, body.(pos := LineOnly(DefinitionLine(s))), signed.funcType,
                        s.isAsync, true, LineOnly(DefinitionLine(s)));
      Decorator(fd, ConvertList(s.decorators), s.decorators[0].pos.line, s.pos)
    else
      FuncDefStmt(FuncDef(s.name, signed.args, body, signed.funcType, s.isAsync, false, s.pos))
  }

  /** do_func_def and visit_FunctionDef: arguments, signature, then body. */
  function ConvertFuncDef(env: Env, s: RawStmt, nesting: int): (r: Visited<Statement>)
    requires WfStmt(s) && s.FunctionDef?
    decreases s, 1
  {
    var bound := BindArguments(env, s.args, HasNoTypeCheck(s.decorators));
    var signed := SignFunction(env, s, bound.args, nesting > 0);
    var b := AsRequiredBlock(env, s.body, s.pos.line, nesting);
    Visited(FuncDefNode(s, signed, b.value), bound.diags + signed.diags + b.diags, b.imports)
  }

  // ---- the module ----

  predicate WfModule(m: RawModule) {
    WfStmts(m.body)
  }

  /** visit_Module on a fresh converter: the merged statements, every
      import recorded on the way, and the type-ignore lines. */
  function ConvertModule(env: Env, m: RawModule): (r: Visited<MypyFile>)
    requires WfModule(m)
    ensures r.value.imports == r.imports && !r.value.isBom
  {
    var c := ConvertStmts(env, m.body, 0);
    Visited(MypyFile(Coalesce(c.value), c.imports, false, set l | l in m.typeIgnores), c.diags, c.imports)
  }

  /** `parse` from its parser's outcome: a SyntaxError is a blocker and an
      empty file. */
  function ParseModule(env: Env, outcome: ParseOutcome): (r: Visited<MypyFile>)
    requires outcome.ParsedModule? ==> WfModule(outcome.tree)
    ensures outcome.ModuleSyntaxError? ==>
      r.value == MypyFile([], [], false, {}) && r.diags == [Error(outcome.msg, outcome.line, outcome.offset)]
  {
    if outcome.ModuleSyntaxError? then
      Visited(MypyFile([], [], false, {}), [Error(outcome.msg, outcome.line, outcome.offset)], [])
    else ConvertModule(env, outcome.tree)
  }
}
