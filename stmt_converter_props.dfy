/** What the statement visitors promise: imports are translated and
    recorded, a multi-target del is a tuple, a decorated def moves below its
    decorators, a class body is converted one class level deeper, the last
    metaclass keyword wins, and merging overloads into a block loses and
    reorders nothing. */
module StmtConverterProps {
  import opened Common
  import opened RawAst
  import opened Types
  import opened Nodes
  import opened Options
  import opened TypeConverter
  import opened ExprConverter
  import opened Overloads
  import opened OverloadsProps
  import opened ArgBinder
  import opened Signatures
  import opened StmtConverter

  // ---- imports ----

  /** `import a as b, ...`: one entry per alias, the module translated, an
      implicit alias to the original name when the translation changed it
      and none was given; the node is recorded and nothing is reported. */
  lemma ImportTranslated(env: Env, s: RawStmt)
    requires s.Import?
    ensures var c := ConvertImport(env, s);
      && c.diags == [] && c.value.ImportStmt? && c.imports == [c.value.imp]
      && c.value.imp.ImportNode? && c.value.imp.pos == s.pos
      && |c.value.imp.ids| == |s.names|
      && forall i :: 0 <= i < |s.names| ==>
           var a, n := s.names[i], c.value.imp.ids[i];
           && n.name == TranslateModuleId(env, a.name)
           && n.asname == (if a.asname.None? && n.name != a.name then Some(a.name) else a.asname)
  {
  }

  /** `from m import ...`: a lone `*` is an ImportAll of the module as
      written; otherwise the module is translated and the names are kept as
      written. Either way the node is recorded and nothing is reported. */
  lemma ImportFromTranslated(env: Env, s: RawStmt)
    requires s.ImportFrom?
    ensures var c := ConvertImport(env, s);
      var mod := if s.fromModule.Some? then s.fromModule.value else "";
      && c.diags == [] && c.value.ImportStmt? && c.imports == [c.value.imp]
      && (|s.names| == 1 && s.names[0].name == "*" ==> c.value.imp == ImportAllNode(mod, s.level, s.pos))
      && (!(|s.names| == 1 && s.names[0].name == "*") ==>
            && c.value.imp.ImportFromNode?
            && c.value.imp.id == (if s.fromModule.Some? then TranslateModuleId(env, mod) else "")
            && c.value.imp.relative == s.level
            && |c.value.imp.names| == |s.names|
            && forall i :: 0 <= i < |s.names| ==>
                 c.value.imp.names[i] == ImportName(s.names[i].name, s.names[i].asname))
  {
  }

  /** With a custom typing module, `import mytyping` becomes `import typing
      as mytyping`; under Python 2 `import __builtin__` becomes `import
      builtins as __builtin__`. */
  lemma ImportAliasExamples(env: Env)
    ensures env.customTypingModule == Some("mytyping") ==>
      ImportNameOf(env, Alias("mytyping", None)) == ImportName("typing", Some("mytyping"))
    ensures env.customTypingModule == None && env.pythonMajor == 2 ==>
      ImportNameOf(env, Alias("__builtin__", None)) == ImportName("builtins", Some("__builtin__"))
    ensures env.customTypingModule == None && env.pythonMajor == 3 ==>
      ImportNameOf(env, Alias("__builtin__", None)) == ImportName("__builtin__", None)
  {
  }

  // ---- statements without a body ----

  /** `del a, b` deletes a tuple positioned at the statement's line (column
      unset); `del a` deletes the target itself. Nothing is reported. */
  lemma DeleteTargets(s: RawStmt)
    requires WfStmt(s) && s.Delete?
    ensures var c := ConvertLeaf(s);
      && c.diags == [] && c.value.DelStmt? && c.value.pos == s.pos
      && (|s.targets| > 1 ==>
            && c.value.expr.TupleExpr? && c.value.expr.pos == LineOnly(s.pos.line)
            && |c.value.expr.items| == |s.targets|
            && forall i :: 0 <= i < |s.targets| ==> c.value.expr.items[i] == Convert(s.targets[i]))
      && (|s.targets| == 1 ==> c.value.expr == Convert(s.targets[0]))
  {
  }

  /** `x: T` without a value assigns a special temporary with no right-hand
      side; the annotation is evaluated at the statement's line and its
      diagnostics are the statement's. */
  lemma AnnotatedAssignment(s: RawStmt)
    requires WfStmt(s) && s.AnnAssign?
    ensures var c := ConvertLeaf(s);
      var t := Visit(s.annotation, None, s.pos.line);
      && c.value.AssignmentStmt? && c.value.newSyntax && c.value.pos == s.pos
      && c.value.lvalues == [Convert(s.annTarget)]
      && c.value.typ == Some(t.typ) && c.diags == t.diags
      && (s.annValue.None? ==> c.value.rvalue == TempNode(AnyType(SpecialForm), true, NoPos))
      && (s.annValue.Some? ==> c.value.rvalue == Convert(s.annValue.value))
  {
  }

  /** A statement without a body converts to one node, never a group. */
  lemma LeafIsNotGroup(s: RawStmt)
    requires WfStmt(s) && IsLeaf(s)
    ensures !ConvertLeaf(s).value.OverloadedFuncDef?
  {
  }

  // ---- blocks ----

  /** translate_stmt_list makes one statement per statement, in order. */
  lemma {:induction false} StmtsElement(env: Env, ss: seq<RawStmt>, nesting: int, i: int)
    requires WfStmts(ss) && 0 <= i < |ss|
    ensures ConvertStmts(env, ss, nesting).value[i] == ConvertStmt(env, ss[i], nesting).value
    decreases |ss|
  {
    var init := ss[..|ss| - 1];
    StmtsSnoc(env, ss, |ss| - 1, nesting);
    assert ss[..|ss|] == ss;
    if i < |ss| - 1 {
      StmtsElement(env, init, nesting, i);
      assert init[i] == ss[i];
    }
  }

  /** A visited statement is never an overload group: only
      fix_function_overloads makes those. */
  lemma ConvertedIsNotGroup(env: Env, s: RawStmt, nesting: int)
    requires WfStmt(s)
    ensures !ConvertStmt(env, s, nesting).value.OverloadedFuncDef?
  {
    if IsDefinition(s) {
      DefinitionIsNotGroup(env, s, nesting);
    } else if IsLoopOrIf(s) {
      LoopOrIfIsNotGroup(env, s, nesting);
    } else if IsWithOrTry(s) {
      WithOrTryIsNotGroup(env, s, nesting);
    } else {
      LeafIsNotGroup(s);
    }
  }

  lemma DefinitionIsNotGroup(env: Env, s: RawStmt, nesting: int)
    requires WfStmt(s) && IsDefinition(s)
    ensures !ConvertDefinition(env, s, nesting).value.OverloadedFuncDef?
  {
    if s.FunctionDef? {
      assert ConvertDefinition(env, s, nesting) == ConvertFuncDef(env, s, nesting);
    } else if s.ClassDef? {
      assert ConvertDefinition(env, s, nesting) == ConvertClassDef(env, s, nesting);
    }
  }

  lemma LoopOrIfIsNotGroup(env: Env, s: RawStmt, nesting: int)
    requires WfStmt(s) && IsLoopOrIf(s)
    ensures !ConvertLoopOrIf(env, s, nesting).value.OverloadedFuncDef?
  {
    if s.For? {
      assert ConvertLoopOrIf(env, s, nesting) == ConvertFor(env, s, nesting);
    } else if s.While? {
      assert ConvertLoopOrIf(env, s, nesting) == ConvertWhile(env, s, nesting);
    } else {
      assert ConvertLoopOrIf(env, s, nesting) == ConvertIf(env, s, nesting);
    }
  }

  lemma WithOrTryIsNotGroup(env: Env, s: RawStmt, nesting: int)
    requires WfStmt(s) && IsWithOrTry(s)
    ensures !ConvertWithOrTry(env, s, nesting).value.OverloadedFuncDef?
  {
    if s.With? {
      assert ConvertWithOrTry(env, s, nesting) == ConvertWith(env, s, nesting);
    } else {
      assert ConvertWithOrTry(env, s, nesting) == ConvertTry(env, s, nesting);
    }
  }

  /** Merging the overloads of a block loses and reorders nothing: expanding
      the groups gives back the statements as translate_stmt_list made them. */
  lemma BlockKeepsStatements(env: Env, ss: seq<RawStmt>, line: int, nesting: int)
    requires WfStmts(ss)
    ensures Expand(AsRequiredBlock(env, ss, line, nesting).value.body) == ConvertStmts(env, ss, nesting).value
  {
    var c := ConvertStmts(env, ss, nesting).value;
    forall i | 0 <= i < |c| ensures !c[i].OverloadedFuncDef? {
      StmtsElement(env, ss, nesting, i);
      ConvertedIsNotGroup(env, ss[i], nesting);
    }
    ExpandUndoesCoalesce(c);
  }

  /** visit_For: the body is a block at the statement's line and the
      else-block is absent exactly when there are no else statements; the
      type comment reports first, then the body, then the else-block. */
  lemma ForBlocks(env: Env, s: RawStmt, nesting: int)
    requires WfStmt(s) && s.For?
    ensures var c := ConvertFor(env, s, nesting);
      var b := AsRequiredBlock(env, s.body, s.pos.line, nesting);
      && c.value.ForStmt? && c.value.pos == s.pos
      && c.value.body == b.value && c.value.body.pos == LineOnly(s.pos.line)
      && (c.value.elseBody.None? <==> s.orelse == [])
      && c.diags == StatementComment(s.forComment, s.pos.line).diags + b.diags
                    + AsBlock(env, s.orelse, s.pos.line, nesting).diags
  {
  }

  /** visit_While: as for, without a type comment. */
  lemma WhileBlocks(env: Env, s: RawStmt, nesting: int)
    requires WfStmt(s) && s.While?
    ensures var c := ConvertWhile(env, s, nesting);
      && c.value.WhileStmt? && c.value.pos == s.pos && c.value.body.pos == LineOnly(s.pos.line)
      && (c.value.elseBody.None? <==> s.orelse == [])
  {
  }

  /** visit_If: one condition and one body; `elif` is an If inside the
      else-block. */
  lemma IfBlocks(env: Env, s: RawStmt, nesting: int)
    requires WfStmt(s) && s.If?
    ensures var c := ConvertIf(env, s, nesting);
      && c.value.IfStmt? && c.value.pos == s.pos
      && |c.value.exprs| == |c.value.bodies| == 1 && c.value.bodies[0].pos == LineOnly(s.pos.line)
      && (c.value.elseBody.None? <==> s.orelse == [])
  {
  }

  /** The handler blocks follow the handlers, each at its handler's line. */
  lemma {:induction false} HandlersElement(env: Env, hs: seq<ExceptHandler>, nesting: int, i: int)
    requires WfHandlers(hs) && 0 <= i < |hs|
    ensures WfStmts(hs[i].body)
    ensures ConvertHandlers(env, hs, nesting).value[i] == AsRequiredBlock(env, hs[i].body, hs[i].pos.line, nesting).value
    decreases |hs|
  {
    var init := hs[..|hs| - 1];
    HandlersSnoc(env, hs, |hs| - 1, nesting);
    assert hs[..|hs|] == hs;
    if i < |hs| - 1 {
      HandlersElement(env, init, nesting, i);
      assert init[i] == hs[i];
    }
  }

  /** visit_Try: one variable, one type and one block per handler, each block
      at its handler's line; the handler bodies report before the body, the
      else-block and the finally-block. */
  lemma TryHandlers(env: Env, s: RawStmt, nesting: int, i: int)
    requires WfStmt(s) && s.Try? && 0 <= i < |s.handlers|
    ensures WfHandlers(s.handlers) && WfStmts(s.handlers[i].body)
    ensures var c := ConvertTry(env, s, nesting);
      && c.value.TryStmt?
      && |c.value.vars| == |c.value.types| == |c.value.handlers| == |s.handlers|
      && c.value.handlers[i] == AsRequiredBlock(env, s.handlers[i].body, s.handlers[i].pos.line, nesting).value
      && (c.value.finallyBody.None? <==> s.finalbody == [])
      && ConvertHandlers(env, s.handlers, nesting).diags <= c.diags
  {
    assert WfHandlers(s.handlers);
    HandlersElement(env, s.handlers, nesting, i);
  }

  // ---- definitions ----

  /** An undecorated def is a FuncDef at its own position, its body at its
      line. A decorated one becomes a Decorator at the `def` statement's
      position; the FuncDef and its body move to the line after the
      decorators, and the Var line is the first decorator's. */
  lemma DefinitionPlacement(env: Env, s: RawStmt, nesting: int)
    requires WfStmt(s) && s.FunctionDef?
    ensures var c := ConvertFuncDef(env, s, nesting).value;
      && (c.FuncDefStmt? || c.Decorator?) && c.func.name == s.name
      && (s.decorators == [] ==>
            c.FuncDefStmt? && c.func.pos == s.pos && !c.func.isDecorated && c.func.body.pos == LineOnly(s.pos.line))
      && (s.decorators != [] ==>
            && c.Decorator? && c.pos == s.pos && c.varLine == s.decorators[0].pos.line && c.func.isDecorated
            && c.func.pos == LineOnly(s.pos.line + |s.decorators|) && c.func.body.pos == c.func.pos
            && c.decorators == ConvertList(s.decorators))
  {
  }

  /** The function's arguments and type are transform_args' and do_func_def's,
      signed as a method exactly when the converter is inside a class; the
      argument reports come first, then the signature's, then the body's. */
  lemma DefSignedInClass(env: Env, s: RawStmt, nesting: int)
    requires WfStmt(s) && s.FunctionDef?
    ensures var c := ConvertFuncDef(env, s, nesting);
      var bound := BindArguments(env, s.args, HasNoTypeCheck(s.decorators));
      var signed := SignFunction(env, s, bound.args, nesting > 0);
      && (c.value.FuncDefStmt? || c.value.Decorator?)
      && c.value.func.arguments == signed.args && c.value.func.funcType == signed.funcType
      && c.diags == bound.diags + signed.diags + AsRequiredBlock(env, s.body, s.pos.line, nesting).diags
  {
  }

  /** visit_ClassDef converts its body one class level deeper, with overloads
      merged and nothing lost, and takes the metaclass from its keywords. */
  lemma ClassBodyDeeper(env: Env, s: RawStmt, nesting: int)
    requires WfStmt(s) && s.ClassDef?
    ensures var c := ConvertClassDef(env, s, nesting);
      var b := AsRequiredBlock(env, s.body, s.pos.line, nesting + 1);
      && c.value.ClassDefStmt? && c.value.name == s.name && c.value.pos == s.pos
      && c.value.defs == b.value && c.diags == b.diags && c.imports == b.imports
      && Expand(c.value.defs.body) == ConvertStmts(env, s.body, nesting + 1).value
      && c.value.metaclass == Metaclass(ClassKeywords(s.keywords))
  {
    BlockKeepsStatements(env, s.body, s.pos.line, nesting + 1);
  }

  /** Inside a class, every def of a statement list is signed as a method. */
  lemma MethodSignedInClass(env: Env, ss: seq<RawStmt>, nesting: int, i: int)
    requires WfStmts(ss) && nesting > 0 && 0 <= i < |ss| && ss[i].FunctionDef?
    ensures WfStmt(ss[i])
    ensures var d := ConvertStmts(env, ss, nesting).value[i];
      var bound := BindArguments(env, ss[i].args, HasNoTypeCheck(ss[i].decorators));
      && (d.FuncDefStmt? || d.Decorator?)
      && d.func.funcType == SignFunction(env, ss[i], bound.args, true).funcType
  {
    StmtsElement(env, ss, nesting, i);
    assert ConvertStmt(env, ss[i], nesting) == ConvertDefinition(env, ss[i], nesting);
    assert ConvertDefinition(env, ss[i], nesting) == ConvertFuncDef(env, ss[i], nesting);
    DefSignedInClass(env, ss[i], nesting);
  }

  /** `dict(keywords).get('metaclass')`: the value of the last `metaclass`
      entry. */
  lemma {:induction false} MetaclassIsLast(kws: seq<(string, Expression)>, i: int)
    requires 0 <= i < |kws| && kws[i].0 == "metaclass"
    requires forall j :: i < j < |kws| ==> kws[j].0 != "metaclass"
    ensures Metaclass(kws) == Some(kws[i].1)
    decreases |kws|
  {
    if i < |kws| - 1 {
      var init := kws[..|kws| - 1];
      assert init[i] == kws[i];
      MetaclassIsLast(init, i);
    }
  }

  /** Every named keyword of a class is kept, in order, with its value
      converted; keywords without a name (`**kwargs`) are dropped. */
  lemma {:induction false} ClassKeywordsKept(kws: seq<Keyword>)
    requires WfKeywords(kws)
    requires forall i :: 0 <= i < |kws| ==> kws[i].arg.Some? && kws[i].arg.value != ""
    ensures |ClassKeywords(kws)| == |kws|
    ensures forall i :: 0 <= i < |kws| ==> ClassKeywords(kws)[i] == (kws[i].arg.value, Convert(kws[i].value))
    decreases |kws|
  {
    if kws != [] {
      assert WfKeywords(kws[1..]) by {
        forall i | 0 <= i < |kws| - 1 ensures WfExpr(kws[1..][i].value) {
          assert kws[1..][i] == kws[i + 1];
        }
      }
      ClassKeywordsKept(kws[1..]);
      forall i | 0 <= i < |kws| ensures ClassKeywords(kws)[i] == (kws[i].arg.value, Convert(kws[i].value)) {
        if i > 0 {
          assert kws[1..][i - 1] == kws[i];
        }
      }
    }
  }

  /** Keywords without a name are dropped. */
  lemma ClassKeywordsDropped(kws: seq<Keyword>)
    requires WfKeywords(kws)
    requires forall i :: 0 <= i < |kws| ==> kws[i].arg.None?
    ensures ClassKeywords(kws) == []
    decreases |kws|
  {
    if kws != [] {
      assert WfKeywords(kws[1..]) by {
        forall i | 0 <= i < |kws| - 1 ensures WfExpr(kws[1..][i].value) {
          assert kws[1..][i] == kws[i + 1];
        }
      }
      ClassKeywordsDropped(kws[1..]);
    }
  }

  // ---- the module ----

  /** visit_Module: the module's statements are the converted ones with
      overloads merged, nothing lost or reordered; its imports are every
      import recorded on the way and its ignored lines the type-ignore
      lines. */
  lemma ModuleKeepsStatements(env: Env, m: RawModule)
    requires WfModule(m)
    ensures var f := ConvertModule(env, m);
      && Expand(f.value.defs) == ConvertStmts(env, m.body, 0).value
      && f.value.imports == ConvertStmts(env, m.body, 0).imports
      && f.diags == ConvertStmts(env, m.body, 0).diags
      && (forall l :: l in f.value.ignoredLines <==> l in m.typeIgnores)
  {
    BlockKeepsStatements(env, m.body, 0, 0);
  }
}
