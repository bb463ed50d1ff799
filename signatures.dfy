/** The signature half of do_func_def: which argument and return types a
    definition declares (by annotations or by a signature type comment),
    the implicit-Optional marking of set_type_optional, and the arity
    checks that decide whether a CallableType is built. */
module Signatures {
  import opened Common
  import opened RawAst
  import opened Types
  import opened Nodes
  import opened Options
  import opened TypeConverter

  /** `is_no_type_check_decorator`: `@no_type_check` or `@typing.no_type_check`. */
  predicate IsNoTypeCheckDecorator(e: RawExpr) {
    if e.Name? then e.id == "no_type_check"
    else if e.Attribute? && e.value.Name? then e.value.id == "typing" && e.attr == "no_type_check"
    else false
  }

  predicate HasNoTypeCheck(decorators: seq<RawExpr>) {
    exists i :: 0 <= i < |decorators| && IsNoTypeCheckDecorator(decorators[i])
  }

  const SuggestParentheses: string := "Suggestion: wrap argument types in parentheses"
  const EllipsisMixed: string := "Ellipses cannot accompany other argument types in function type signature."
  const TooManyArguments: string := "Type signature has too many arguments"
  const TooFewArguments: string := "Type signature has too few arguments"

  /** The argument types (None: not given), the return type and what
      deriving them reported. */
  datatype Signature = Signature(argTypes: seq<Option<Type>>, returnType: Option<Type>, diags: seq<Diagnostic>)

  /** `def f(...):  # type: (...) -> R` with the single `...` placeholder. */
  predicate IsEllipsisForm(ft: FuncTypeAst) {
    |ft.argtypes| == 1 && ft.argtypes[0].Ellipsis?
  }

  predicate HasAnnotation(args: seq<Argument>) {
    exists i :: 0 <= i < |args| && args[i].typeAnnotation.Some?
  }

  /** A comment that could not be parsed: every type is an error, and a
      comment not starting with `(` earns a hint. */
  function UnparsedSignature(pos: Pos, text: string, args: seq<Argument>): (r: Signature)
    ensures |r.argTypes| == |args|
    ensures forall i :: 0 <= i < |args| ==> r.argTypes[i] == Some(AnyType(FromError))
    ensures r.returnType == Some(AnyType(FromError))
    ensures |r.diags| >= 1 && r.diags[0] == Error(TypeCommentSyntaxError, pos.line, pos.column)
    ensures |r.diags| == 2 <==> text != "" && text[0] != '('
  {
    var hint := if text != "" && text[0] != '(' then [Advice(SuggestParentheses, pos.line, pos.column)] else [];
    Signature(seq(|args|, _ => Some(AnyType(FromError))), Some(AnyType(FromError)),
              [Error(TypeCommentSyntaxError, pos.line, pos.column)] + hint)
  }

  /** The argument types a parsed signature comment gives, before the
      implicit self: each argument's own annotation under the `...` form
      (unannotated ones dynamic), the comment's list otherwise. */
  function CommentArgTypes(ft: FuncTypeAst, args: seq<Argument>, line: int): (r: ConvertedList)
    ensures IsEllipsisForm(ft) ==> |r.types| == |args| && r.diags == []
    ensures !IsEllipsisForm(ft) ==> r == VisitList(ft.argtypes, None, line)
  {
    if IsEllipsisForm(ft) then
      ConvertedList(seq(|args|, i requires 0 <= i < |args| =>
        if args[i].typeAnnotation.Some? then args[i].typeAnnotation.value else AnyType(Unannotated)), [])
    else VisitList(ft.argtypes, None, line)
  }

  /** Giving types both inline and in the comment is a duplicate signature:
      under the `...` form only a return annotation counts. */
  predicate IsDuplicate(n: RawStmt, ft: FuncTypeAst, args: seq<Argument>)
    requires n.FunctionDef?
  {
    if IsEllipsisForm(ft) then n.returnAnn.Some? else n.returnAnn.Some? || HasAnnotation(args)
  }

  /** A parsed signature comment. The comment's return type is used even
      when the definition also has a return annotation. Inside a class a
      comment with fewer types than arguments gets a dynamic type for the
      receiver in front. */
  function CommentSignature(n: RawStmt, ft: FuncTypeAst, args: seq<Argument>, inClass: bool): (r: Signature)
    requires n.FunctionDef?
    ensures r.returnType == Some(Visit(ft.retType, None, n.pos.line).typ)
  {
    var line := n.pos.line;
    var duplicate := if IsDuplicate(n, ft, args) then [Error(DuplicateTypeSignatures, line, n.pos.column)] else [];
    var listed := CommentArgTypes(ft, args, line);
    var ret := Visit(ft.retType, None, line);
    var types := seq(|listed.types|, i requires 0 <= i < |listed.types| => Some(listed.types[i]));
    var withSelf := if inClass && |types| < |args| then [Some(AnyType(SpecialForm))] + types else types;
    Signature(withSelf, Some(ret.typ), duplicate + listed.diags + ret.diags)
  }

  /** The types a definition declares: none under no_type_check, the
      signature comment's when there is one, the annotations otherwise
      (the return annotation converted at its own line). */
  function DeclaredSignature(n: RawStmt, args: seq<Argument>, inClass: bool, noTypeCheck: bool): (r: Signature)
    requires n.FunctionDef?
    ensures noTypeCheck ==> r == Signature(seq(|args|, _ => None), None, [])
    ensures !noTypeCheck && n.typeComment.Some? && n.typeComment.value.parsed.None? ==>
      r == UnparsedSignature(n.pos, n.typeComment.value.text, args)
    ensures !noTypeCheck && n.typeComment.Some? && n.typeComment.value.parsed.Some? ==>
      r == CommentSignature(n, n.typeComment.value.parsed.value, args, inClass)
    ensures !noTypeCheck && n.typeComment.None? ==>
      && |r.argTypes| == |args|
      && (forall i :: 0 <= i < |args| ==> r.argTypes[i] == args[i].typeAnnotation)
      && (n.returnAnn.None? ==> r.returnType.None? && r.diags == [])
      && (n.returnAnn.Some? ==>
            var ret := Visit(n.returnAnn.value, None, n.returnAnn.value.pos.line);
            r.returnType == Some(ret.typ) && r.diags == ret.diags)
  {
    if noTypeCheck then Signature(seq(|args|, _ => None), None, [])
    else if n.typeComment.Some? then
      var c := n.typeComment.value;
      if c.parsed.None? then UnparsedSignature(n.pos, c.text, args)
      else CommentSignature(n, c.parsed.value, args, inClass)
    else
      var annotated := seq(|args|, i requires 0 <= i < |args| => args[i].typeAnnotation);
      if n.returnAnn.Some? then
        var ret := Visit(n.returnAnn.value, None, n.returnAnn.value.pos.line);
        Signature(annotated, Some(ret.typ), ret.diags)
      else Signature(annotated, None, [])
  }

  /** In the paths where the list of argument types holds the arguments' own
      annotation objects, marking a type Optional marks the annotation too. */
  predicate SharesAnnotations(n: RawStmt, noTypeCheck: bool)
    requires n.FunctionDef?
  {
    !noTypeCheck
    && (n.typeComment.None?
        || (n.typeComment.value.parsed.Some? && IsEllipsisForm(n.typeComment.value.parsed.value)))
  }

  // ---- set_type_optional ----

  predicate IsNoneInitializer(init: Option<Expression>) {
    init.Some? && init.value.NameExpr? && init.value.name == "None"
  }

  /** An unbound type of an argument whose default is `None` becomes
      Optional; an unbound type of any other argument loses the mark. */
  function SetTypeOptional(env: Env, t: Option<Type>, init: Option<Expression>): (r: Option<Type>)
    ensures env.noImplicitOptional || !(t.Some? && t.value.UnboundType?) ==> r == t
    ensures !env.noImplicitOptional && t.Some? && t.value.UnboundType? ==>
      r == Some(t.value.(optional := IsNoneInitializer(init)))
  {
    if env.noImplicitOptional then t
    else if t.Some? && t.value.UnboundType? then Some(t.value.(optional := IsNoneInitializer(init)))
    else t
  }

  /** `for arg, arg_type in zip(args, arg_types)`: the types paired with an
      argument are marked, any types beyond the arguments are kept. */
  function OptionalTypes(env: Env, types: seq<Option<Type>>, args: seq<Argument>): (r: seq<Option<Type>>)
    ensures |r| == |types|
    ensures forall i :: 0 <= i < |types| && i < |args| ==> r[i] == SetTypeOptional(env, types[i], args[i].initializer)
    ensures forall i :: |args| <= i < |types| ==> r[i] == types[i]
  {
    seq(|types|, i requires 0 <= i < |types| =>
      if i < |args| then SetTypeOptional(env, types[i], args[i].initializer) else types[i])
  }

  /** The arguments after the marking, where they share their annotation. */
  function MarkedArguments(env: Env, args: seq<Argument>, shared: bool): (r: seq<Argument>)
    ensures |r| == |args|
    ensures forall i :: 0 <= i < |args| ==>
      r[i] == (if shared then args[i].(typeAnnotation := SetTypeOptional(env, args[i].typeAnnotation, args[i].initializer))
               else args[i])
  {
    seq(|args|, i requires 0 <= i < |args| =>
      if shared then args[i].(typeAnnotation := SetTypeOptional(env, args[i].typeAnnotation, args[i].initializer))
      else args[i])
  }

  // ---- the callable type ----

  /** `arg_names`: elided names become None, and a special function elides all. */
  function ArgNames(env: Env, name: string, args: seq<Argument>): (r: seq<Option<string>>)
    ensures |r| == |args|
    ensures env.specialFunctionElideNames(name) ==> forall i :: 0 <= i < |args| ==> r[i].None?
    ensures !env.specialFunctionElideNames(name) ==> forall i :: 0 <= i < |args| ==>
      r[i] == (if env.argumentElideName(args[i].name) then None else Some(args[i].name))
  {
    if env.specialFunctionElideNames(name) then seq(|args|, _ => None)
    else seq(|args|, i requires 0 <= i < |args| => if env.argumentElideName(args[i].name) then None else Some(args[i].name))
  }

  predicate AnyGiven(types: seq<Option<Type>>) {
    exists i :: 0 <= i < |types| && types[i].Some?
  }

  predicate HasEllipsisType(types: seq<Option<Type>>) {
    exists i :: 0 <= i < |types| && types[i].Some? && types[i].value.EllipsisType?
  }

  function OrUnannotated(t: Option<Type>): Type {
    if t.Some? then t.value else AnyType(Unannotated)
  }

  /** The function type and the arity diagnostic, if any. */
  datatype FuncTypeResult = FuncTypeResult(funcType: Option<CallableType>, diags: seq<Diagnostic>)

  /** Build the CallableType when some type was given and the counts agree;
      otherwise report which count is wrong and leave the function untyped. */
  function BuildFuncType(env: Env, name: string, line: int, types: seq<Option<Type>>, ret: Option<Type>,
                         args: seq<Argument>): (r: FuncTypeResult)
  {
    if AnyGiven(types) || ret.Some? then
      if |types| != 1 && HasEllipsisType(types) then FuncTypeResult(None, [Error(EllipsisMixed, line, 0)])
      else if |types| > |args| then FuncTypeResult(None, [Error(TooManyArguments, line, 0)])
      else if |types| < |args| then FuncTypeResult(None, [Error(TooFewArguments, line, 0)])
      else
        FuncTypeResult(Some(CallableType(seq(|types|, i requires 0 <= i < |types| => OrUnannotated(types[i])),
                                         seq(|args|, i requires 0 <= i < |args| => args[i].kind),
                                         ArgNames(env, name, args),
                                         OrUnannotated(ret),
                                         line)), [])
    else FuncTypeResult(None, [])
  }

  // ---- the whole signature ----

  /** The argument types after the Optional marking, as the arity check sees them. */
  function SignatureTypes(env: Env, n: RawStmt, args: seq<Argument>, inClass: bool): seq<Option<Type>>
    requires n.FunctionDef?
  {
    OptionalTypes(env, DeclaredSignature(n, args, inClass, HasNoTypeCheck(n.decorators)).argTypes, args)
  }

  /** The arguments as the FuncDef holds them, its type, and what deriving
      the signature reported. */
  datatype Signed = Signed(args: seq<Argument>, funcType: Option<CallableType>, diags: seq<Diagnostic>)

  /** The part of do_func_def between transform_args and the body: declared
      types, Optional marking, arity check and CallableType. */
  function SignFunction(env: Env, n: RawStmt, args: seq<Argument>, inClass: bool): (r: Signed)
    requires n.FunctionDef?
    ensures |r.args| == |args|
    ensures forall i :: 0 <= i < |args| ==>
      r.args[i].name == args[i].name && r.args[i].kind == args[i].kind && r.args[i].initializer == args[i].initializer
  {
    var noTypeCheck := HasNoTypeCheck(n.decorators);
    var sig := DeclaredSignature(n, args, inClass, noTypeCheck);
    var marked := MarkedArguments(env, args, SharesAnnotations(n, noTypeCheck));
    var ft := BuildFuncType(env, n.name, n.pos.line, OptionalTypes(env, sig.argTypes, args), sig.returnType, marked);
    Signed(marked, ft.funcType, sig.diags + ft.diags)
  }
}
