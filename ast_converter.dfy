/** ASTConverter as the stateful visitor it is: it keeps the class nesting
    level, the imports found so far and the diagnostics reported so far,
    and each visit method is proved to do what the statement functions of
    StmtConverter say, leaving the nesting level as it found it. */
module Converter {
  import opened Common
  import opened RawAst
  import opened Types
  import opened Nodes
  import opened Options
  import opened TypeConverter
  import opened ExprConverter
  import opened Overloads
  import opened ArgBinder
  import opened Signatures
  import opened StmtConverter

  class ASTConverter {
    const env: Env
    var classNesting: int
    var imports: seq<ImportBase>
    /** The Errors sink: every report, in order. */
    var errors: seq<Diagnostic>

    constructor(env: Env)
      ensures this.env == env && classNesting == 0 && imports == [] && errors == []
    {
      this.env := env;
      classNesting := 0;
      imports := [];
      errors := [];
    }

    predicate InClass()
      reads this
    {
      classNesting > 0
    }

    /** Since the call began, the converter has recorded exactly `c`'s
        diagnostics and imports, and is back at its class level. */
    twostate predicate Recorded<T>(c: Visited<T>)
      reads this
    {
      errors == old(errors) + c.diags && imports == old(imports) + c.imports && classNesting == old(classNesting)
    }

    /** `visit` on a statement: the visit method of its kind. */
    method VisitStmt(s: RawStmt) returns (r: Statement)
      requires WfStmt(s)
      modifies this
      ensures r == ConvertStmt(env, s, old(classNesting)).value && Recorded(ConvertStmt(env, s, old(classNesting)))
      decreases s, 3
    {
      if IsDefinition(s) {
        r := VisitDefinition(s);
      } else if IsLoopOrIf(s) {
        r := VisitLoopOrIf(s);
      } else if IsWithOrTry(s) {
        r := VisitWithOrTry(s);
      } else {
        r := VisitLeaf(s);
      }
    }

    /** The statements without a body of their own: they only report. */
    method VisitLeaf(s: RawStmt) returns (r: Statement)
      requires WfStmt(s) && IsLeaf(s)
      modifies this
      ensures r == ConvertLeaf(s).value && Recorded(ConvertLeaf(s))
    {
      var c := ConvertLeaf(s);
      r := c.value;
      errors := errors + c.diags;
    }

    /** The statements that define or import a name. */
    method VisitDefinition(s: RawStmt) returns (r: Statement)
      requires WfStmt(s) && IsDefinition(s)
      modifies this
      ensures r == ConvertDefinition(env, s, old(classNesting)).value && Recorded(ConvertDefinition(env, s, old(classNesting)))
      decreases s, 2
    {
      if s.FunctionDef? {
        r := VisitFunctionDef(s);
      } else if s.ClassDef? {
        r := VisitClassDef(s);
      } else if s.Import? {
        r := VisitImport(s);
      } else {
        r := VisitImportFrom(s);
      }
    }

    /** The loops and the conditional. */
    method VisitLoopOrIf(s: RawStmt) returns (r: Statement)
      requires WfStmt(s) && IsLoopOrIf(s)
      modifies this
      ensures r == ConvertLoopOrIf(env, s, old(classNesting)).value && Recorded(ConvertLoopOrIf(env, s, old(classNesting)))
      decreases s, 2
    {
      if s.For? {
        r := VisitFor(s);
      } else if s.While? {
        r := VisitWhile(s);
      } else {
        r := VisitIf(s);
      }
    }

    /** with and try. */
    method VisitWithOrTry(s: RawStmt) returns (r: Statement)
      requires WfStmt(s) && IsWithOrTry(s)
      modifies this
      ensures r == ConvertWithOrTry(env, s, old(classNesting)).value && Recorded(ConvertWithOrTry(env, s, old(classNesting)))
      decreases s, 2
    {
      if s.With? {
        r := VisitWith(s);
      } else {
        r := VisitTry(s);
      }
    }

    /** `translate_stmt_list`. */
    method TranslateStmtList(ss: seq<RawStmt>) returns (res: seq<Statement>)
      requires WfStmts(ss)
      modifies this
      ensures res == ConvertStmts(env, ss, old(classNesting)).value && Recorded(ConvertStmts(env, ss, old(classNesting)))
      decreases ss, 0
    {
      res := [];
      for i := 0 to |ss|
        invariant WfStmts(ss[..i])
        invariant res == ConvertStmts(env, ss[..i], old(classNesting)).value
        invariant Recorded(ConvertStmts(env, ss[..i], old(classNesting)))
      {
        StmtsSnoc(env, ss, i, classNesting);
        ghost var done, next := ConvertStmts(env, ss[..i], classNesting), ConvertStmt(env, ss[i], classNesting);
        var st := VisitStmt(ss[i]);
        res := res + [st];
        AppendAssoc(old(errors), done.diags, next.diags);
        AppendAssoc(old(imports), done.imports, next.imports);
      }
      assert ss[..|ss|] == ss;
    }

    /** `as_required_block`. */
    method AsRequiredBlock(ss: seq<RawStmt>, line: int) returns (b: Block)
      requires WfStmts(ss)
      modifies this
      ensures b == StmtConverter.AsRequiredBlock(env, ss, line, old(classNesting)).value
      ensures Recorded(StmtConverter.AsRequiredBlock(env, ss, line, old(classNesting)))
      decreases ss, 1
    {
      var stmts := TranslateStmtList(ss);
      var merged := FixFunctionOverloads(stmts);
      b := Block(merged, LineOnly(line));
    }

    /** `as_block`. */
    method AsBlock(ss: seq<RawStmt>, line: int) returns (b: Option<Block>)
      requires WfStmts(ss)
      modifies this
      ensures b == StmtConverter.AsBlock(env, ss, line, old(classNesting)).value
      ensures Recorded(StmtConverter.AsBlock(env, ss, line, old(classNesting)))
      decreases ss, 2
    {
      b := None;
      if ss != [] {
        var block := AsRequiredBlock(ss, line);
        b := Some(block);
      }
    }

    /** visit_ClassDef: the body is visited one class level deeper, and the
        level is restored afterwards. */
    method VisitClassDef(s: RawStmt) returns (r: Statement)
      requires WfStmt(s) && s.ClassDef?
      modifies this
      ensures r == ConvertClassDef(env, s, old(classNesting)).value && Recorded(ConvertClassDef(env, s, old(classNesting)))
      decreases s, 1
    {
      classNesting := classNesting + 1;
      var body := AsRequiredBlock(s.body, s.pos.line);
      r := ClassNode(s, body);
      classNesting := classNesting - 1;
    }

    /** visit_FunctionDef / visit_AsyncFunctionDef through do_func_def. */
    method VisitFunctionDef(s: RawStmt) returns (r: Statement)
      requires WfStmt(s) && s.FunctionDef?
      modifies this
      ensures r == ConvertFuncDef(env, s, old(classNesting)).value && Recorded(ConvertFuncDef(env, s, old(classNesting)))
      decreases s, 1
    {
      var bound := TransformArgs(env, s.args, HasNoTypeCheck(s.decorators));
      errors := errors + bound.diags;
      var signed := SignFunction(env, s, bound.args, InClass());
      errors := errors + signed.diags;
      var body := AsRequiredBlock(s.body, s.pos.line);
      r := FuncDefNode(s, signed, body);
      ghost var b := StmtConverter.AsRequiredBlock(env, s.body, s.pos.line, old(classNesting));
      AppendAssoc(old(errors), bound.diags, signed.diags);
      AppendAssoc(old(errors), bound.diags + signed.diags, b.diags);
    }

    /** `visit_Import`: each alias in turn, then the import is recorded. */
    method VisitImport(s: RawStmt) returns (r: Statement)
      requires s.Import?
      modifies this
      ensures r == ConvertImport(env, s).value && Recorded(ConvertImport(env, s))
    {
      var names: seq<ImportName> := [];
      for i := 0 to |s.names|
        invariant |names| == i
        invariant forall k :: 0 <= k < i ==> names[k] == ImportNameOf(env, s.names[k])
      {
        var alias := s.names[i];
        var name := TranslateModuleId(env, alias.name);
        var asname := alias.asname;
        if asname.None? && name != alias.name {
          asname := Some(alias.name);
        }
        names := names + [ImportName(name, asname)];
      }
      assert names == ImportNames(env, s.names);
      var imp := ImportNode(names, s.pos);
      imports := imports + [imp];
      r := ImportStmt(imp);
    }

    /** `visit_ImportFrom`: the import is recorded. */
    method VisitImportFrom(s: RawStmt) returns (r: Statement)
      requires s.ImportFrom?
      modifies this
      ensures r == ConvertImport(env, s).value && Recorded(ConvertImport(env, s))
    {
      var imp := ImportFromOf(env, s);
      imports := imports + [imp];
      r := ImportStmt(imp);
    }

    /** visit_For / visit_AsyncFor. */
    method VisitFor(s: RawStmt) returns (r: Statement)
      requires WfStmt(s) && s.For?
      modifies this
      ensures r == ConvertFor(env, s, old(classNesting)).value && Recorded(ConvertFor(env, s, old(classNesting)))
      decreases s, 1
    {
      var typ := StatementComment(s.forComment, s.pos.line);
      errors := errors + typ.diags;
      var body := AsRequiredBlock(s.body, s.pos.line);
      var orelse := AsBlock(s.orelse, s.pos.line);
      r := ForStmt(Convert(s.target), Convert(s.iter), body, orelse, typ.typ, s.isAsync, s.pos);
      ghost var b := StmtConverter.AsRequiredBlock(env, s.body, s.pos.line, old(classNesting));
      ghost var e := StmtConverter.AsBlock(env, s.orelse, s.pos.line, old(classNesting));
      AppendAssoc(old(errors), typ.diags, b.diags);
      AppendAssoc(old(errors), typ.diags + b.diags, e.diags);
      AppendAssoc(old(imports), b.imports, e.imports);
    }

    /** visit_While. */
    method VisitWhile(s: RawStmt) returns (r: Statement)
      requires WfStmt(s) && s.While?
      modifies this
      ensures r == ConvertWhile(env, s, old(classNesting)).value && Recorded(ConvertWhile(env, s, old(classNesting)))
      decreases s, 1
    {
      var body := AsRequiredBlock(s.body, s.pos.line);
      var orelse := AsBlock(s.orelse, s.pos.line);
      r := WhileStmt(Convert(s.test), body, orelse, s.pos);
      ghost var b := StmtConverter.AsRequiredBlock(env, s.body, s.pos.line, old(classNesting));
      ghost var e := StmtConverter.AsBlock(env, s.orelse, s.pos.line, old(classNesting));
      AppendAssoc(old(errors), b.diags, e.diags);
      AppendAssoc(old(imports), b.imports, e.imports);
    }

    /** visit_If. */
    method VisitIf(s: RawStmt) returns (r: Statement)
      requires WfStmt(s) && s.If?
      modifies this
      ensures r == ConvertIf(env, s, old(classNesting)).value && Recorded(ConvertIf(env, s, old(classNesting)))
      decreases s, 1
    {
      var body := AsRequiredBlock(s.body, s.pos.line);
      var orelse := AsBlock(s.orelse, s.pos.line);
      r := IfStmt([Convert(s.test)], [body], orelse, s.pos);
      ghost var b := StmtConverter.AsRequiredBlock(env, s.body, s.pos.line, old(classNesting));
      ghost var e := StmtConverter.AsBlock(env, s.orelse, s.pos.line, old(classNesting));
      AppendAssoc(old(errors), b.diags, e.diags);
      AppendAssoc(old(imports), b.imports, e.imports);
    }

    /** visit_With / visit_AsyncWith. */
    method VisitWith(s: RawStmt) returns (r: Statement)
      requires WfStmt(s) && s.With?
      modifies this
      ensures r == ConvertWith(env, s, old(classNesting)).value && Recorded(ConvertWith(env, s, old(classNesting)))
      decreases s, 1
    {
      var typ := StatementComment(s.withComment, s.pos.line);
      errors := errors + typ.diags;
      var body := AsRequiredBlock(s.body, s.pos.line);
      r := WithNode(s, body, typ.typ);
      ghost var b := StmtConverter.AsRequiredBlock(env, s.body, s.pos.line, old(classNesting));
      AppendAssoc(old(errors), typ.diags, b.diags);
    }

    /** visit_Try: the handler bodies are visited first, then the body, the
        else-block and the finally-block. */
    method VisitTry(s: RawStmt) returns (r: Statement)
      requires WfStmt(s) && s.Try?
      modifies this
      ensures r == ConvertTry(env, s, old(classNesting)).value && Recorded(ConvertTry(env, s, old(classNesting)))
      decreases s, 1
    {
      var handlers := VisitHandlers(s.handlers);
      var body := AsRequiredBlock(s.body, s.pos.line);
      var orelse := AsBlock(s.orelse, s.pos.line);
      var fin := AsBlock(s.finalbody, s.pos.line);
      r := TryNode(s, handlers, body, orelse, fin);
      ghost var n := old(classNesting);
      ghost var h := ConvertHandlers(env, s.handlers, n);
      ghost var b := StmtConverter.AsRequiredBlock(env, s.body, s.pos.line, n);
      ghost var e := StmtConverter.AsBlock(env, s.orelse, s.pos.line, n);
      ghost var f := StmtConverter.AsBlock(env, s.finalbody, s.pos.line, n);
      AppendAssoc(old(errors), h.diags, b.diags);
      AppendAssoc(old(errors), h.diags + b.diags, e.diags);
      AppendAssoc(old(errors), h.diags + b.diags + e.diags, f.diags);
      AppendAssoc(old(imports), h.imports, b.imports);
      AppendAssoc(old(imports), h.imports + b.imports, e.imports);
      AppendAssoc(old(imports), h.imports + b.imports + e.imports, f.imports);
    }

    /** `[self.as_required_block(h.body, h.lineno) for h in n.handlers]`. */
    method VisitHandlers(hs: seq<ExceptHandler>) returns (blocks: seq<Block>)
      requires WfHandlers(hs)
      modifies this
      ensures blocks == ConvertHandlers(env, hs, old(classNesting)).value
      ensures Recorded(ConvertHandlers(env, hs, old(classNesting)))
      decreases hs, 1
    {
      blocks := [];
      for i := 0 to |hs|
        invariant WfHandlers(hs[..i])
        invariant blocks == ConvertHandlers(env, hs[..i], old(classNesting)).value
        invariant Recorded(ConvertHandlers(env, hs[..i], old(classNesting)))
      {
        HandlersSnoc(env, hs, i, classNesting);
        ghost var done := ConvertHandlers(env, hs[..i], classNesting);
        ghost var next := StmtConverter.AsRequiredBlock(env, hs[i].body, hs[i].pos.line, classNesting);
        assert hs[i] in hs;
        var b := AsRequiredBlock(hs[i].body, hs[i].pos.line);
        blocks := blocks + [b];
        AppendAssoc(old(errors), done.diags, next.diags);
        AppendAssoc(old(imports), done.imports, next.imports);
      }
      assert hs[..|hs|] == hs;
    }

    /** visit_Module: the statements, overloads merged, and every import
        this converter has recorded. */
    method VisitModule(m: RawModule) returns (file: MypyFile)
      requires WfModule(m)
      modifies this
      ensures var c := ConvertStmts(env, m.body, old(classNesting));
        && file == MypyFile(Coalesce(c.value), old(imports) + c.imports, false, set l | l in m.typeIgnores)
        && Recorded(c)
    {
      var body := TranslateStmtList(m.body);
      var defs := FixFunctionOverloads(body);
      file := MypyFile(defs, imports, false, set l | l in m.typeIgnores);
    }
  }

  /** `parse` given what the parser made of the file: a fresh converter
      visits the module, or the SyntaxError is the one report. */
  method Parse(env: Env, outcome: ParseOutcome) returns (tree: MypyFile, errors: seq<Diagnostic>)
    requires outcome.ParsedModule? ==> WfModule(outcome.tree)
    ensures tree == ParseModule(env, outcome).value && errors == ParseModule(env, outcome).diags
  {
    if outcome.ModuleSyntaxError? {
      tree := MypyFile([], [], false, {});
      errors := [Error(outcome.msg, outcome.line, outcome.offset)];
    } else {
      var converter := new ASTConverter(env);
      tree := converter.VisitModule(outcome.tree);
      errors := converter.errors;
    }
  }
}
