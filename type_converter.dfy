/** The evaluator that turns a type annotation or a type comment, given as a
    raw expression, into a mypy type (fastparse's TypeConverter plus
    `stringify_name` and `parse_type_comment`).

    The converter's `node_stack` is only ever consulted through `parent()`,
    so it is modelled as an explicit `parent` argument: the raw node whose
    visit is converting this one, or None at the top of a conversion.
    Errors are returned, in the order they are reported, beside the type. */
module TypeConverter {
  import opened Common
  import opened RawAst
  import opened Types

  /** A converted type and the diagnostics reported while converting it. */
  datatype Converted = Converted(typ: Type, diags: seq<Diagnostic>)

  /** `translate_expr_list`: one type per expression, and the diagnostics. */
  datatype ConvertedList = ConvertedList(types: seq<Type>, diags: seq<Diagnostic>)

  /** `parse_type_comment`: None when the comment did not parse. */
  datatype ParsedComment = ParsedComment(typ: Option<Type>, diags: seq<Diagnostic>)

  /** `_extract_argument_name`: the name (if any) and the diagnostics. */
  datatype ExtractedName = ExtractedName(name: Option<string>, diags: seq<Diagnostic>)

  /** The local state of `visit_Call` while it scans the arguments of an
      argument constructor: the type (None while it still is the default
      `AnyType(special_form)`), the name, and what was reported so far. */
  datatype ArgState = ArgState(typ: Option<Type>, name: Option<string>, diags: seq<Diagnostic>)

  // ---- stringify_name ----

  /** A name, or an attribute access on a dotted name: `a`, `a.b.c`. */
  predicate IsDottedName(n: RawExpr) {
    n.Name? || (n.Attribute? && IsDottedName(n.value))
  }

  /** The name at the root of a dotted name: `a` for `a.b.c`. */
  function RootName(n: RawExpr): string
    requires IsDottedName(n)
  {
    if n.Name? then n.id else RootName(n.value)
  }

  predicate EndsWith(s: string, suffix: string) {
    |suffix| <= |s| && s[|s| - |suffix|..] == suffix
  }

  /** `stringify_name`: the dotted text of a dotted name, None for anything
      else. */
  function StringifyName(n: RawExpr): (r: Option<string>)
    ensures r.Some? <==> IsDottedName(n)
    ensures r.Some? ==> RootName(n) <= r.value
    ensures r.Some? && n.Attribute? ==> EndsWith(r.value, "." + n.attr)
  {
    match n
    case Name(_, id) => Some(id)
    case Attribute(_, v, attr) =>
      (match StringifyName(v)
       case Some(sv) => Some(sv + "." + attr)
       case None => None)
    case _ => None
  }

  /** A constructor name Python treats as true: present and not empty. */
  predicate NonEmptyName(o: Option<string>) {
    o.Some? && o.value != ""
  }

  // ---- the evaluator ----

  /** `TypeConverter(errors, line).visit(e)` with `parent()` equal to
      `parent`. Shapes the converter has no visitor for are reported at the
      converter's line and become `AnyType(from_error)`; their children are
      not visited. */
  function Visit(e: RawExpr, parent: Option<RawExpr>, line: int): (r: Converted)
    decreases e, 2
  {
    match e
    case Name(_, id) => Converted(Unbound(id, line), [])
    case NameConstant(_, v) => Converted(Unbound(SingletonText(v), NoPos.line), [])
    case Str(_, _, asType) =>
      var p := ParseTypeComment(asType, line);
      Converted(if p.typ.Some? then p.typ.value else AnyType(FromError), p.diags)
    case Ellipsis(_) => Converted(EllipsisType(line), [])
    case Attribute(_, _, _) => VisitAttribute(e, line)
    case Subscript(_, _, _) => VisitSubscript(e, line)
    case Tuple(_, elts, _) =>
      var items := VisitList(elts, Some(e), line);
      Converted(TupleType(items.types, line), items.diags)
    case List(_, elts, _) =>
      var items := VisitList(elts, Some(e), line);
      Converted(TypeList(items.types, line), items.diags)
    case Call(_, _, _, _) => VisitCall(e, parent, line)
    case _ => Converted(AnyType(FromError), [Error(TypeCommentAstError, line, e.pos.column)])
  }

  /** `translate_expr_list`: the expressions converted one by one, each with
      the same parent. */
  function VisitList(es: seq<RawExpr>, parent: Option<RawExpr>, line: int): (r: ConvertedList)
    decreases es
    ensures |r.types| == |es|
    ensures forall i :: 0 <= i < |es| ==> r.types[i] == Visit(es[i], parent, line).typ
  {
    if es == [] then ConvertedList([], [])
    else
      var head := Visit(es[0], parent, line);
      var tail := VisitList(es[1..], parent, line);
      ConvertedList([head.typ] + tail.types, head.diags + tail.diags)
  }

  /** `parse_type_comment` once the foreign parser has run: a syntax error
      is reported at the given line and the comment's offset and gives None;
      a parsed expression is converted by a fresh converter (no parent). */
  function ParseTypeComment(tc: TypeComment, line: int): (r: ParsedComment)
    decreases tc
    ensures r.typ.None? <==> tc.CommentSyntaxError?
    ensures tc.CommentSyntaxError? ==> r.diags == [Error(TypeCommentSyntaxError, line, tc.offset)]
    ensures tc.CommentParsed? ==> r.typ == Some(Visit(tc.body, None, line).typ)
  {
    match tc
    case CommentSyntaxError(offset) => ParsedComment(None, [Error(TypeCommentSyntaxError, line, offset)])
    case CommentParsed(body) =>
      var c := Visit(body, None, line);
      ParsedComment(Some(c.typ), c.diags)
  }

  /** `visit_Attribute`: `a.b` is the unbound name "a.b" when `a` converts
      to an unbound name without arguments, an error otherwise. */
  function VisitAttribute(e: RawExpr, line: int): (r: Converted)
    requires e.Attribute?
    decreases e, 1
    ensures var before := Visit(e.value, Some(e), line).typ;
      && (r.typ.UnboundType? <==> IsArglessUnbound(before))
      && (r.typ.UnboundType? ==> r.typ == Unbound(before.name + "." + e.attr, line))
      && (!r.typ.UnboundType? ==> r.typ == AnyType(FromError) && HasBlocker(r.diags))
  {
    var before := Visit(e.value, Some(e), line);
    if IsArglessUnbound(before.typ) then
      Converted(Unbound(before.typ.name + "." + e.attr, line), before.diags)
    else
      var d := Error(TypeCommentAstError, line, e.pos.column);
      BlockerAppended(before.diags, d);
      Converted(AnyType(FromError), before.diags + [d])
  }

  /** The index of a subscript read as the generic arguments: the elements
      of a tuple index, or the single index expression. */
  function SubscriptParams(e: RawExpr, line: int): (r: ConvertedList)
    requires e.Subscript? && e.slice.Index?
    decreases e, 0
    ensures e.slice.value.Tuple? ==> |r.types| == |e.slice.value.elts|
    ensures !e.slice.value.Tuple? ==> r.types == [Visit(e.slice.value, Some(e), line).typ]
  {
    var index := e.slice.value;
    if index.Tuple? then VisitList(index.elts, Some(e), line)
    else
      var p := Visit(index, Some(e), line);
      ConvertedList([p.typ], p.diags)
  }

  /** `visit_Subscript`: a base that converts to an unbound name without
      arguments takes the index as its arguments (arguments first, base
      second in the order of reports); anything else is an error. */
  function VisitSubscript(e: RawExpr, line: int): (r: Converted)
    requires e.Subscript?
    decreases e, 1
    ensures !e.slice.Index? ==>
      r.typ == AnyType(FromError) && r.diags == [Error(TypeCommentSyntaxError, line, e.pos.column)]
    ensures e.slice.Index? ==> var base := Visit(e.value, Some(e), line).typ;
      && (r.typ.UnboundType? <==> IsArglessUnbound(base))
      && (r.typ.UnboundType? ==>
            && r.typ.name == base.name
            && r.typ.args == SubscriptParams(e, line).types
            && r.typ.line == line
            && (r.typ.emptyTupleIndex <==> e.slice.value.Tuple? && e.slice.value.elts == []))
      && (!r.typ.UnboundType? ==> r.typ == AnyType(FromError) && HasBlocker(r.diags))
  {
    if !e.slice.Index? then
      Converted(AnyType(FromError), [Error(TypeCommentSyntaxError, line, e.pos.column)])
    else
      var index := e.slice.value;
      var params := SubscriptParams(e, line);
      var base := Visit(e.value, Some(e), line);
      if IsArglessUnbound(base.typ) then
        Converted(UnboundType(base.typ.name, params.types, line, index.Tuple? && |index.elts| == 0, false),
                  params.diags + base.diags)
      else
        var d := Error(TypeCommentAstError, line, e.pos.column);
        BlockerAppended(params.diags + base.diags, d);
        Converted(AnyType(FromError), params.diags + base.diags + [d])
  }

  // ---- argument constructors: Arg(type, name) inside a list of types ----

  /** The two keyword arguments an argument constructor takes. */
  const NameKeyword := "name"
  const TypeKeyword := "type"

  function MultipleValuesMessage(ctor: Option<string>, keyword: string): string {
    "\"" + OptText(ctor) + "\" gets multiple values for keyword argument \"" + keyword + "\""
  }

  function UnexpectedArgumentMessage(arg: Option<string>): string {
    "Unexpected argument \"" + OptText(arg) + "\" for argument constructor"
  }

  const TooManyConstructorArguments: string := "Too many arguments for argument constructor"

  /** `visit_Call`: an argument constructor is only allowed directly inside a
      list of types; there, the positional arguments and then the keywords
      give its type and its name. */
  function VisitCall(e: RawExpr, parent: Option<RawExpr>, line: int): (r: Converted)
    requires e.Call?
    decreases e, 1
    ensures !(parent.Some? && parent.value.List?) ==> r.typ == AnyType(FromError) && HasBlocker(r.diags)
    ensures parent.Some? && parent.value.List? ==>
      && r.typ.CallableArgument?
      && r.typ.ctorName == StringifyName(e.func)
      && r.typ.line == e.pos.line && r.typ.column == e.pos.column
    ensures parent.Some? && parent.value.List? && !NonEmptyName(StringifyName(e.func)) ==> HasBlocker(r.diags)
  {
    if parent.Some? && parent.value.List? then ArgConstructor(e, line)
    else Converted(AnyType(FromError), MisplacedConstructor(StringifyName(e.func), line, e.pos.column))
  }

  /** What `visit_Call` reports for a constructor outside a list of types:
      the error, and a suggestion to subscript instead when the callee has
      a name. */
  function MisplacedConstructor(ctor: Option<string>, line: int, column: int): (ds: seq<Diagnostic>)
    ensures HasBlocker(ds)
    ensures |ds| == if NonEmptyName(ctor) then 2 else 1
  {
    var d := Error(TypeCommentAstError, line, column);
    var ds := [d] + (if NonEmptyName(ctor)
                     then [Advice(SuggestionMessage(ctor.value), line, column)]
                     else []);
    assert ds[0] == d;
    ds
  }

  function SuggestionMessage(ctor: string): string {
    "Suggestion: use " + ctor + "[...] instead of " + ctor + "(...)"
  }

  /** The reported state `visit_Call` starts its loops with: an error when
      the callee has no name. */
  function ConstructorStart(ctor: Option<string>, call: Pos): (st: ArgState)
    ensures st.typ.None? && st.name.None?
    ensures st.diags == [] <==> NonEmptyName(ctor)
    ensures st.diags != [] ==> st.diags[0].severity == Blocker
  {
    ArgState(None, None, if NonEmptyName(ctor) then [] else [Error("Expected arg constructor name", call.line, call.column)])
  }

  /** The argument constructor `visit_Call` builds inside a list of types:
      the type is the one given last (`AnyType(special_form)` when none
      was), the name the one given last. */
  function ArgConstructor(e: RawExpr, line: int): (r: Converted)
    requires e.Call?
    decreases e, 0, |e.args| + |e.keywords| + 1
    ensures r.typ.CallableArgument?
    ensures r.typ.ctorName == StringifyName(e.func)
    ensures r.typ.line == e.pos.line && r.typ.column == e.pos.column
    ensures !NonEmptyName(StringifyName(e.func)) ==> HasBlocker(r.diags)
  {
    var ctor := StringifyName(e.func);
    var start := ConstructorStart(ctor, e.pos);
    var st := CallKeywords(e, 0, line, ctor, CallPositional(e, 0, line, start));
    assert !NonEmptyName(ctor) ==> st.diags[0] == start.diags[0];
    Converted(CallableArgument(if st.typ.Some? then st.typ.value else AnyType(SpecialForm),
                               st.name, ctor, e.pos.line, e.pos.column),
              st.diags)
  }

  /** One turn of the loop over the positional arguments of a constructor:
      the first is its type, the second its name, any further one an error
      reported at the constructor's callee. */
  function PositionalStep(e: RawExpr, i: nat, line: int, st: ArgState): (r: ArgState)
    requires e.Call? && i < |e.args|
    decreases e, 0, 0
    ensures st.diags <= r.diags
  {
    if i == 0 then
      var c := Visit(e.args[0], Some(e), line);
      ArgState(Some(c.typ), st.name, st.diags + c.diags)
    else if i == 1 then
      var x := ExtractArgumentName(e.args[1], line);
      ArgState(st.typ, x.name, st.diags + x.diags)
    else
      ArgState(st.typ, st.name, st.diags + [Error(TooManyConstructorArguments, e.func.pos.line, e.func.pos.column)])
  }

  /** The loop over the positional arguments, from argument `i` on. */
  function CallPositional(e: RawExpr, i: nat, line: int, st: ArgState): (r: ArgState)
    requires e.Call? && i <= |e.args|
    decreases e, 0, |e.args| - i
    ensures st.diags <= r.diags
  {
    if i == |e.args| then st
    else CallPositional(e, i + 1, line, PositionalStep(e, i, line, st))
  }

  /** One turn of the loop over the keywords of a constructor: `name=` and
      `type=` replace what was given before (reporting it when something
      was), any other keyword is an error reported at its value. */
  function KeywordStep(e: RawExpr, j: nat, line: int, ctor: Option<string>, st: ArgState): (r: ArgState)
    requires e.Call? && j < |e.keywords|
    decreases e, 0, 0
    ensures st.diags <= r.diags
    ensures r.typ.Some? <==> st.typ.Some? || e.keywords[j].arg == Some(TypeKeyword)
  {
    var k := e.keywords[j];
    var callee := e.func.pos;
    if k.arg == Some(NameKeyword) then
      var again := if st.name.Some? then [Error(MultipleValuesMessage(ctor, NameKeyword), callee.line, callee.column)] else [];
      var x := ExtractArgumentName(k.value, line);
      ArgState(st.typ, x.name, st.diags + again + x.diags)
    else if k.arg == Some(TypeKeyword) then
      var again := if st.typ.Some? then [Error(MultipleValuesMessage(ctor, TypeKeyword), callee.line, callee.column)] else [];
      var c := Visit(k.value, Some(e), line);
      ArgState(Some(c.typ), st.name, st.diags + again + c.diags)
    else
      ArgState(st.typ, st.name, st.diags + [Error(UnexpectedArgumentMessage(k.arg), k.value.pos.line, k.value.pos.column)])
  }

  /** The loop over the keywords, from keyword `j` on. */
  function CallKeywords(e: RawExpr, j: nat, line: int, ctor: Option<string>, st: ArgState): (r: ArgState)
    requires e.Call? && j <= |e.keywords|
    decreases e, 0, |e.keywords| - j
    ensures st.diags <= r.diags
    ensures st.typ.Some? ==> r.typ.Some?
  {
    if j == |e.keywords| then st
    else CallKeywords(e, j + 1, line, ctor, KeywordStep(e, j, line, ctor, st))
  }

  /** `_extract_argument_name`: a string literal gives its stripped text,
      the constant None gives no name, anything else is an error reported
      at the converter's line, column 0. */
  function ExtractArgumentName(n: RawExpr, line: int): (r: ExtractedName)
    ensures r.name.Some? <==> n.Str?
    ensures n.Str? ==> r.name == Some(Strip(n.s))
    ensures r.diags == [] <==> n.Str? || (n.NameConstant? && n.constant == NoneValue)
    ensures r.diags != [] ==> HasBlocker(r.diags)
  {
    if n.Str? then ExtractedName(Some(Strip(n.s)), [])
    else if n.NameConstant? && n.constant == NoneValue then ExtractedName(None, [])
    else
      var d := Error("Expected string literal for argument name, got " + ClassName(n), line, 0);
      assert [d][0] == d;
      ExtractedName(None, [d])
  }

  /** The loops of `visit_Call` as the source writes them: `typ` and `name`
      updated across the positional arguments and then the keywords. */
  method ConvertArgConstructor(e: RawExpr, line: int) returns (r: Converted)
    requires e.Call?
    ensures r == ArgConstructor(e, line)
  {
    var ctor := StringifyName(e.func);
    var diags: seq<Diagnostic> := [];
    if !NonEmptyName(ctor) {
      diags := diags + [Error("Expected arg constructor name", e.pos.line, e.pos.column)];
    }
    assert ArgState(None, None, diags) == ConstructorStart(ctor, e.pos);
    var typ, name;
    typ, name, diags := ScanPositional(e, line, diags);
    typ, name, diags := ScanKeywords(e, line, ctor, typ, name, diags);
    var argType := if typ.Some? then typ.value else AnyType(SpecialForm);
    r := Converted(CallableArgument(argType, name, ctor, e.pos.line, e.pos.column), diags);
  }

  /** The loop of `visit_Call` over the positional arguments. */
  method ScanPositional(e: RawExpr, line: int, reported: seq<Diagnostic>)
    returns (typ: Option<Type>, name: Option<string>, diags: seq<Diagnostic>)
    requires e.Call?
    ensures ArgState(typ, name, diags) == CallPositional(e, 0, line, ArgState(None, None, reported))
  {
    typ, name, diags := None, None, reported;
    var i := 0;
    while i < |e.args|
      invariant 0 <= i <= |e.args|
      invariant CallPositional(e, i, line, ArgState(typ, name, diags))
             == CallPositional(e, 0, line, ArgState(None, None, reported))
    {
      ghost var before := ArgState(typ, name, diags);
      var arg := e.args[i];
      if i == 0 {
        var converted := Visit(arg, Some(e), line);
        diags := diags + converted.diags;
        typ := Some(converted.typ);
        assert ArgState(typ, name, diags) == PositionalStep(e, i, line, before);
      } else if i == 1 {
        var x := ExtractArgumentName(arg, line);
        diags := diags + x.diags;
        name := x.name;
        assert ArgState(typ, name, diags) == PositionalStep(e, i, line, before);
      } else {
        diags := diags + [Error(TooManyConstructorArguments, e.func.pos.line, e.func.pos.column)];
        assert ArgState(typ, name, diags) == PositionalStep(e, i, line, before);
      }
      i := i + 1;
    }
  }

  /** The loop of `visit_Call` over the keywords. */
  method ScanKeywords(e: RawExpr, line: int, ctor: Option<string>,
                      typ0: Option<Type>, name0: Option<string>, reported: seq<Diagnostic>)
    returns (typ: Option<Type>, name: Option<string>, diags: seq<Diagnostic>)
    requires e.Call?
    ensures ArgState(typ, name, diags) == CallKeywords(e, 0, line, ctor, ArgState(typ0, name0, reported))
  {
    typ, name, diags := typ0, name0, reported;
    var j := 0;
    while j < |e.keywords|
      invariant 0 <= j <= |e.keywords|
      invariant CallKeywords(e, j, line, ctor, ArgState(typ, name, diags))
             == CallKeywords(e, 0, line, ctor, ArgState(typ0, name0, reported))
    {
      typ, name, diags := KeywordTurn(e, j, line, ctor, typ, name, diags);
      j := j + 1;
    }
  }

  /** The body of the keyword loop of `visit_Call` for keyword `j`. */
  method KeywordTurn(e: RawExpr, j: nat, line: int, ctor: Option<string>,
                     typ0: Option<Type>, name0: Option<string>, reported: seq<Diagnostic>)
    returns (typ: Option<Type>, name: Option<string>, diags: seq<Diagnostic>)
    requires e.Call? && j < |e.keywords|
    ensures ArgState(typ, name, diags) == KeywordStep(e, j, line, ctor, ArgState(typ0, name0, reported))
  {
    typ, name, diags := typ0, name0, reported;
    var k := e.keywords[j];
    var value := k.value;
    if k.arg == Some(NameKeyword) {
      if name.Some? {
        diags := diags + [Error(MultipleValuesMessage(ctor, NameKeyword), e.func.pos.line, e.func.pos.column)];
      }
      var x := ExtractArgumentName(value, line);
      diags := diags + x.diags;
      name := x.name;
    } else if k.arg == Some(TypeKeyword) {
      if typ.Some? {
        diags := diags + [Error(MultipleValuesMessage(ctor, TypeKeyword), e.func.pos.line, e.func.pos.column)];
      }
      var converted := Visit(value, Some(e), line);
      diags := diags + converted.diags;
      typ := Some(converted.typ);
    } else {
      diags := diags + [Error(UnexpectedArgumentMessage(k.arg), value.pos.line, value.pos.column)];
    }
  }
}
