/** What do_func_def promises about a signature: no_type_check suppresses
    it, the arity check decides whether a CallableType exists, an
    implicit receiver type makes a method's comment line up with its
    arguments, and duplicate signatures are reported. */
module SignaturesProps {
  import opened Common
  import opened RawAst
  import opened Types
  import opened Nodes
  import opened Options
  import opened TypeConverter
  import opened Signatures

  /** A no_type_check decorator is spelled `no_type_check` or
      `typing.no_type_check`; another qualifier or a longer path is not one. */
  lemma NoTypeCheckDecoratorNames(e: RawExpr, p: Pos, q: Pos)
    ensures IsNoTypeCheckDecorator(e) ==>
      StringifyName(e) == Some("no_type_check") || StringifyName(e) == Some("typing.no_type_check")
    ensures IsNoTypeCheckDecorator(Name(p, "no_type_check"))
    ensures IsNoTypeCheckDecorator(Attribute(p, Name(q, "typing"), "no_type_check"))
    ensures !IsNoTypeCheckDecorator(Attribute(p, Name(q, "mypy"), "no_type_check"))
    ensures !IsNoTypeCheckDecorator(Attribute(p, Attribute(q, Name(q, "typing"), "x"), "no_type_check"))
  {
    if IsNoTypeCheckDecorator(e) && e.Attribute? {
      assert StringifyName(e.value) == Some("typing");
      assert "typing" + "." + "no_type_check" == "typing.no_type_check";
    }
  }

  /** Under no_type_check nothing is typed and nothing is reported, whatever
      annotations or comments the definition has. */
  lemma NoTypeCheckSuppresses(env: Env, n: RawStmt, args: seq<Argument>, inClass: bool)
    requires n.FunctionDef? && HasNoTypeCheck(n.decorators)
    ensures var r := SignFunction(env, n, args, inClass);
      r.funcType.None? && r.diags == [] && r.args == args
  {
    var types := SignatureTypes(env, n, args, inClass);
    assert !AnyGiven(types) by {
      forall i | 0 <= i < |types| ensures types[i].None? {
      }
    }
  }

  /** A CallableType is built exactly when some type is given, `...` does
      not sit among other types, and there are as many types as arguments. */
  lemma FuncTypeBuiltIff(env: Env, name: string, line: int, types: seq<Option<Type>>, ret: Option<Type>,
                         args: seq<Argument>)
    ensures var r := BuildFuncType(env, name, line, types, ret, args);
      r.funcType.Some? <==>
        (AnyGiven(types) || ret.Some?) && !(|types| != 1 && HasEllipsisType(types)) && |types| == |args|
    ensures var r := BuildFuncType(env, name, line, types, ret, args);
      r.funcType.Some? || !(AnyGiven(types) || ret.Some?) <==> r.diags == []
  {
  }

  /** The failing checks, in the order they are tried, each reported once
      at column 0 of the definition's line. */
  lemma ArityFailures(env: Env, name: string, line: int, types: seq<Option<Type>>, ret: Option<Type>,
                      args: seq<Argument>)
    requires AnyGiven(types) || ret.Some?
    ensures var r := BuildFuncType(env, name, line, types, ret, args);
      && (|types| != 1 && HasEllipsisType(types) ==> r == FuncTypeResult(None, [Error(EllipsisMixed, line, 0)]))
      && (!(|types| != 1 && HasEllipsisType(types)) && |types| > |args| ==>
            r == FuncTypeResult(None, [Error(TooManyArguments, line, 0)]))
      && (!(|types| != 1 && HasEllipsisType(types)) && |types| < |args| ==>
            r == FuncTypeResult(None, [Error(TooFewArguments, line, 0)]))
  {
  }

  /** The built type: one entry per argument in each of the three parallel
      lists, absent types dynamic, kinds and names from the arguments. */
  lemma FuncTypeShape(env: Env, name: string, line: int, types: seq<Option<Type>>, ret: Option<Type>,
                      args: seq<Argument>)
    requires BuildFuncType(env, name, line, types, ret, args).funcType.Some?
    ensures var t := BuildFuncType(env, name, line, types, ret, args).funcType.value;
      && |t.argTypes| == |t.argKinds| == |t.argNames| == |args|
      && (forall i :: 0 <= i < |args| ==>
            t.argTypes[i] == (if types[i].Some? then types[i].value else AnyType(Unannotated))
            && t.argKinds[i] == args[i].kind)
      && t.argNames == ArgNames(env, name, args)
      && t.retType == (if ret.Some? then ret.value else AnyType(Unannotated))
      && t.line == line
  {
  }

  /** Inside a class a comment with fewer types than arguments gets exactly
      one dynamic receiver type in front; otherwise its types are taken as
      they are. */
  lemma ImplicitSelf(n: RawStmt, ft: FuncTypeAst, args: seq<Argument>, inClass: bool)
    requires n.FunctionDef?
    ensures var listed := CommentArgTypes(ft, args, n.pos.line).types;
      var r := CommentSignature(n, ft, args, inClass);
      && (inClass && |listed| < |args| ==>
            && |r.argTypes| == |listed| + 1
            && r.argTypes[0] == Some(AnyType(SpecialForm))
            && (forall i :: 0 <= i < |listed| ==> r.argTypes[i + 1] == Some(listed[i])))
      && (!(inClass && |listed| < |args|) ==>
            && |r.argTypes| == |listed|
            && (forall i :: 0 <= i < |listed| ==> r.argTypes[i] == Some(listed[i])))
  {
  }

  /** A full-list comment that leaves out the receiver type: inside a class
      the count comes out right, so neither count check fails; elsewhere
      no function type is built. */
  lemma ImplicitSelfDecidesArity(env: Env, n: RawStmt, args: seq<Argument>, inClass: bool)
    requires n.FunctionDef? && !HasNoTypeCheck(n.decorators)
    requires n.typeComment.Some? && n.typeComment.value.parsed.Some?
    requires var ft := n.typeComment.value.parsed.value; !IsEllipsisForm(ft) && |ft.argtypes| + 1 == |args|
    ensures inClass ==> |SignatureTypes(env, n, args, inClass)| == |args|
    ensures !inClass ==> SignFunction(env, n, args, inClass).funcType.None?
  {
    var ft := n.typeComment.value.parsed.value;
    var sig := DeclaredSignature(n, args, inClass, false);
    assert sig == CommentSignature(n, ft, args, inClass);
    ImplicitSelf(n, ft, args, inClass);
    var marked := MarkedArguments(env, args, SharesAnnotations(n, false));
    FuncTypeBuiltIff(env, n.name, n.pos.line, SignatureTypes(env, n, args, inClass), sig.returnType, marked);
  }

  /** Inline types beside a full-list comment are a duplicate signature,
      reported first; under the `...` form only a return annotation is. */
  lemma DuplicateSignature(n: RawStmt, ft: FuncTypeAst, args: seq<Argument>, inClass: bool)
    requires n.FunctionDef?
    ensures var r := CommentSignature(n, ft, args, inClass);
      && (IsDuplicate(n, ft, args) ==>
            |r.diags| >= 1 && r.diags[0] == Error(DuplicateTypeSignatures, n.pos.line, n.pos.column))
      && r.diags == (if IsDuplicate(n, ft, args) then [Error(DuplicateTypeSignatures, n.pos.line, n.pos.column)] else [])
                    + CommentArgTypes(ft, args, n.pos.line).diags + Visit(ft.retType, None, n.pos.line).diags
      && (!IsEllipsisForm(ft) && (n.returnAnn.Some? || HasAnnotation(args)) ==> IsDuplicate(n, ft, args))
      && (IsEllipsisForm(ft) ==> (IsDuplicate(n, ft, args) <==> n.returnAnn.Some?))
  {
  }

  /** Under the `...` form annotated arguments keep their annotation and the
      others are dynamic, and nothing but the return type is reported. */
  lemma EllipsisKeepsAnnotations(n: RawStmt, ft: FuncTypeAst, args: seq<Argument>, inClass: bool)
    requires n.FunctionDef? && IsEllipsisForm(ft) && n.returnAnn.None?
    ensures var r := CommentSignature(n, ft, args, inClass);
      && |r.argTypes| == |args|
      && (forall i :: 0 <= i < |args| ==>
            r.argTypes[i] == Some(if args[i].typeAnnotation.Some? then args[i].typeAnnotation.value
                                  else AnyType(Unannotated)))
      && r.diags == Visit(ft.retType, None, n.pos.line).diags
  {
    var r := CommentSignature(n, ft, args, inClass);
    assert r.diags == [] + [] + Visit(ft.retType, None, n.pos.line).diags;
  }

  /** With both a return annotation and a signature comment, the comment's
      return type is the one used. */
  lemma CommentReturnWins(env: Env, n: RawStmt, args: seq<Argument>, inClass: bool)
    requires n.FunctionDef? && !HasNoTypeCheck(n.decorators) && n.returnAnn.Some?
    requires n.typeComment.Some? && n.typeComment.value.parsed.Some?
    requires SignFunction(env, n, args, inClass).funcType.Some?
    ensures var ft := n.typeComment.value.parsed.value;
      && SignFunction(env, n, args, inClass).funcType.value.retType == Visit(ft.retType, None, n.pos.line).typ
      && SignFunction(env, n, args, inClass).diags[0] == Error(DuplicateTypeSignatures, n.pos.line, n.pos.column)
  {
    var ft := n.typeComment.value.parsed.value;
    var sig := DeclaredSignature(n, args, inClass, false);
    assert sig == CommentSignature(n, ft, args, inClass);
    DuplicateSignature(n, ft, args, inClass);
    var marked := MarkedArguments(env, args, SharesAnnotations(n, false));
    FuncTypeShape(env, n.name, n.pos.line, SignatureTypes(env, n, args, inClass), sig.returnType, marked);
  }

  /** A comment that does not parse types every argument and the result as
      an error, and the signature is still built. */
  lemma UnparsedCommentIsErrorTyped(env: Env, n: RawStmt, args: seq<Argument>, inClass: bool)
    requires n.FunctionDef? && !HasNoTypeCheck(n.decorators)
    requires n.typeComment.Some? && n.typeComment.value.parsed.None?
    ensures var r := SignFunction(env, n, args, inClass);
      && r.args == args
      && r.funcType.Some?
      && (forall i :: 0 <= i < |args| ==> r.funcType.value.argTypes[i] == AnyType(FromError))
      && r.funcType.value.retType == AnyType(FromError)
      && r.diags[0] == Error(TypeCommentSyntaxError, n.pos.line, n.pos.column)
  {
    var sig := DeclaredSignature(n, args, inClass, false);
    var types := SignatureTypes(env, n, args, inClass);
    assert !HasEllipsisType(types) by {
      forall i | 0 <= i < |types| ensures types[i] == Some(AnyType(FromError)) {
      }
    }
    FuncTypeShape(env, n.name, n.pos.line, types, sig.returnType, args);
  }

  /** Where the type list holds the arguments' own annotations, the
      function type and the arguments see the same marked type. */
  lemma MarkingIsShared(env: Env, n: RawStmt, args: seq<Argument>, inClass: bool, i: int)
    requires n.FunctionDef? && SharesAnnotations(n, HasNoTypeCheck(n.decorators))
    requires 0 <= i < |args| && args[i].typeAnnotation.Some?
    ensures SignatureTypes(env, n, args, inClass)[i] == SignFunction(env, n, args, inClass).args[i].typeAnnotation
  {
    var sig := DeclaredSignature(n, args, inClass, false);
    if n.typeComment.Some? {
      var ft := n.typeComment.value.parsed.value;
      assert sig == CommentSignature(n, ft, args, inClass);
      ImplicitSelf(n, ft, args, inClass);
    }
  }

  /** Only an unbound type of an argument defaulting to `None` is marked
      Optional, and only while implicit Optional is on. */
  lemma OptionalOnlyForNoneDefault(env: Env, types: seq<Option<Type>>, args: seq<Argument>, i: int)
    requires 0 <= i < |types| && i < |args|
    requires types[i].Some? && types[i].value.UnboundType?
    ensures var t := OptionalTypes(env, types, args)[i];
      && t.Some? && t.value.UnboundType?
      && t.value.name == types[i].value.name && t.value.args == types[i].value.args
      && (t.value.optional <==> if env.noImplicitOptional then types[i].value.optional
                                else IsNoneInitializer(args[i].initializer))
  {
  }
}
