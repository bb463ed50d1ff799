/** Properties of the type-expression evaluator: every error type it builds
    was reported as a blocking error, dotted names convert without reports,
    the closed form of the positional-argument loop of an argument
    constructor, the keyword errors it reports, and worked examples. */
module TypeConverterProps {
  import opened Common
  import opened RawAst
  import opened Types
  import opened TypeConverter

  /** `AnyType(from_error)` occurs somewhere in the type. */
  predicate HasFromError(t: Type) {
    match t
    case UnboundType(_, args, _, _, _) => AnyFromError(args)
    case AnyType(k) => k == FromError
    case TupleType(items, _) => AnyFromError(items)
    case TypeList(items, _) => AnyFromError(items)
    case EllipsisType(_) => false
    case CallableArgument(typ, _, _, _, _) => HasFromError(typ)
  }

  predicate AnyFromError(ts: seq<Type>) {
    exists i :: 0 <= i < |ts| && HasFromError(ts[i])
  }

  // ---- error types are always reported ----

  /** The evaluator never produces `AnyType(from_error)`, at any depth,
      without reporting a blocking error. */
  lemma {:induction false} ErrorTypesAreReported(e: RawExpr, parent: Option<RawExpr>, line: int)
    decreases e, 2
    ensures HasFromError(Visit(e, parent, line).typ) ==> HasBlocker(Visit(e, parent, line).diags)
  {
    var r := Visit(e, parent, line);
    match e
    case Str(_, _, asType) =>
      if asType.CommentParsed? {
        var c := Visit(asType.body, None, line);
        assert ParseTypeComment(asType, line) == ParsedComment(Some(c.typ), c.diags);
        assert r == c;
        ErrorTypesAreReported(asType.body, None, line);
      } else {
        assert r.diags == [Error(TypeCommentSyntaxError, line, asType.offset)];
        assert r.diags[0].severity == Blocker;
      }
    case Attribute(_, v, _) =>
      assert r == VisitAttribute(e, line);
      if r.typ.UnboundType? {
        assert r.typ.args == [] && !AnyFromError(r.typ.args);
      }
    case Subscript(_, v, sl) =>
      assert r == VisitSubscript(e, line);
      if sl.Index? {
        var params := SubscriptParams(e, line);
        var base := Visit(v, Some(e), line);
        if IsArglessUnbound(base.typ) {
          var index := sl.value;
          assert r == Converted(UnboundType(base.typ.name, params.types, line, index.Tuple? && |index.elts| == 0, false),
                                params.diags + base.diags);
          ParamsErrorsAreReported(e, line);
          BlockersOfConcat(params.diags, base.diags);
        }
      } else {
        assert r.diags[0].severity == Blocker;
      }
    case Tuple(_, elts, _) =>
      var items := VisitList(elts, Some(e), line);
      assert r == Converted(TupleType(items.types, line), items.diags);
      ListErrorsAreReported(elts, Some(e), line);
    case List(_, elts, _) =>
      var items := VisitList(elts, Some(e), line);
      assert r == Converted(TypeList(items.types, line), items.diags);
      ListErrorsAreReported(elts, Some(e), line);
    case Call(_, _, _, _) =>
      assert r == VisitCall(e, parent, line);
      if parent.Some? && parent.value.List? {
        assert r == ArgConstructor(e, line);
        ConstructorErrorsAreReported(e, line);
      }
    case Name(_, id) =>
      assert r == Converted(Unbound(id, line), []);
      assert r.typ.args == [] && !AnyFromError(r.typ.args);
    case NameConstant(_, v) =>
      assert r == Converted(Unbound(SingletonText(v), NoPos.line), []);
      assert r.typ.args == [] && !AnyFromError(r.typ.args);
    case Ellipsis(_) =>
      assert r == Converted(EllipsisType(line), []);
    case _ =>
      assert r == Converted(AnyType(FromError), [Error(TypeCommentAstError, line, e.pos.column)]);
      assert r.diags[0].severity == Blocker;
  }

  lemma {:induction false} ListErrorsAreReported(es: seq<RawExpr>, parent: Option<RawExpr>, line: int)
    decreases es
    ensures AnyFromError(VisitList(es, parent, line).types) ==> HasBlocker(VisitList(es, parent, line).diags)
  {
    if es != [] {
      var head := Visit(es[0], parent, line);
      var tail := VisitList(es[1..], parent, line);
      var r := VisitList(es, parent, line);
      ErrorTypesAreReported(es[0], parent, line);
      ListErrorsAreReported(es[1..], parent, line);
      BlockersOfConcat(head.diags, tail.diags);
      if AnyFromError(r.types) {
        var i :| 0 <= i < |r.types| && HasFromError(r.types[i]);
        if i > 0 {
          assert tail.types[i - 1] == r.types[i];
        }
      }
    }
  }

  lemma {:induction false} ParamsErrorsAreReported(e: RawExpr, line: int)
    requires e.Subscript? && e.slice.Index?
    decreases e, 1
    ensures AnyFromError(SubscriptParams(e, line).types) ==> HasBlocker(SubscriptParams(e, line).diags)
  {
    var index := e.slice.value;
    if index.Tuple? {
      ListErrorsAreReported(index.elts, Some(e), line);
    } else {
      ErrorTypesAreReported(index, Some(e), line);
      var r := SubscriptParams(e, line);
      if AnyFromError(r.types) {
        var i :| 0 <= i < |r.types| && HasFromError(r.types[i]);
        assert i == 0;
      }
    }
  }

  /** The loop state of `visit_Call` is sound when its type, if it holds an
      error type, comes with a reported blocker. */
  predicate SoundState(st: ArgState) {
    st.typ.Some? && HasFromError(st.typ.value) ==> HasBlocker(st.diags)
  }

  lemma {:induction false} ConstructorErrorsAreReported(e: RawExpr, line: int)
    requires e.Call?
    decreases e, 1
    ensures HasFromError(ArgConstructor(e, line).typ) ==> HasBlocker(ArgConstructor(e, line).diags)
  {
    var ctor := StringifyName(e.func);
    var start := ConstructorStart(ctor, e.pos);
    var positional := CallPositional(e, 0, line, start);
    var st := CallKeywords(e, 0, line, ctor, positional);
    PositionalLoopIsSound(e, 0, line, start);
    KeywordLoopIsSound(e, 0, line, ctor, positional);
    var r := ArgConstructor(e, line);
    assert r == Converted(CallableArgument(if st.typ.Some? then st.typ.value else AnyType(SpecialForm),
                                           st.name, ctor, e.pos.line, e.pos.column),
                          st.diags);
    if st.typ.Some? {
      assert HasFromError(r.typ) == HasFromError(st.typ.value);
    } else {
      assert !HasFromError(r.typ);
    }
  }

  lemma {:induction false} PositionalLoopIsSound(e: RawExpr, i: nat, line: int, st: ArgState)
    requires e.Call? && i <= |e.args| && SoundState(st)
    decreases e, 0, |e.args| - i
    ensures SoundState(CallPositional(e, i, line, st))
  {
    if i < |e.args| {
      var next := PositionalStep(e, i, line, st);
      if i == 0 {
        ErrorTypesAreReported(e.args[0], Some(e), line);
      }
      BlockersOfConcat(st.diags, next.diags[|st.diags|..]);
      assert st.diags + next.diags[|st.diags|..] == next.diags;
      PositionalLoopIsSound(e, i + 1, line, next);
    }
  }

  lemma {:induction false} KeywordLoopIsSound(e: RawExpr, j: nat, line: int, ctor: Option<string>, st: ArgState)
    requires e.Call? && j <= |e.keywords| && SoundState(st)
    decreases e, 0, |e.keywords| - j
    ensures SoundState(CallKeywords(e, j, line, ctor, st))
  {
    if j < |e.keywords| {
      KeywordStepIsSound(e, j, line, ctor, st);
      KeywordLoopIsSound(e, j + 1, line, ctor, KeywordStep(e, j, line, ctor, st));
    }
  }

  lemma {:induction false} KeywordStepIsSound(e: RawExpr, j: nat, line: int, ctor: Option<string>, st: ArgState)
    requires e.Call? && j < |e.keywords| && SoundState(st)
    decreases e, 0, 0
    ensures SoundState(KeywordStep(e, j, line, ctor, st))
  {
    var k := e.keywords[j];
    var callee := e.func.pos;
    var next := KeywordStep(e, j, line, ctor, st);
    if k.arg == Some(NameKeyword) {
      var again := if st.name.Some? then [Error(MultipleValuesMessage(ctor, NameKeyword), callee.line, callee.column)] else [];
      var x := ExtractArgumentName(k.value, line);
      assert next == ArgState(st.typ, x.name, st.diags + (again + x.diags));
      BlockersOfConcat(st.diags, again + x.diags);
    } else if k.arg == Some(TypeKeyword) {
      var again := if st.typ.Some? then [Error(MultipleValuesMessage(ctor, TypeKeyword), callee.line, callee.column)] else [];
      var c := Visit(k.value, Some(e), line);
      assert next == ArgState(Some(c.typ), st.name, (st.diags + again) + c.diags);
      ErrorTypesAreReported(k.value, Some(e), line);
      BlockersOfConcat(st.diags + again, c.diags);
    } else {
      var d := Error(UnexpectedArgumentMessage(k.arg), k.value.pos.line, k.value.pos.column);
      assert next == ArgState(st.typ, st.name, st.diags + [d]);
      BlockersOfConcat(st.diags, [d]);
    }
  }

  // ---- dotted names ----

  /** The shapes TypeConverter has a visit method for. */
  predicate HasTypeVisitor(e: RawExpr) {
    e.Name? || e.NameConstant? || e.Str? || e.Ellipsis? || e.Attribute? || e.Subscript?
    || e.Tuple? || e.List? || e.Call?
  }

  /** The shapes without children to descend into or with a fixed result:
      a name, a constant, `...`, a tuple and a bracketed list of types; any
      shape without a visit method is an error at the converter's line and
      the node's column, and its children are not visited. */
  lemma VisitShapes(e: RawExpr, parent: Option<RawExpr>, line: int)
    ensures var r := Visit(e, parent, line);
      && (e.Name? ==> r == Converted(Unbound(e.id, line), []))
      && (e.NameConstant? ==> r == Converted(Unbound(SingletonText(e.constant), NoPos.line), []))
      && (e.Ellipsis? ==> r == Converted(EllipsisType(line), []))
      && (e.Tuple? ==> r.typ.TupleType? && r.typ.line == line && r.typ.items == VisitList(e.elts, Some(e), line).types
                       && r.diags == VisitList(e.elts, Some(e), line).diags)
      && (e.List? ==> r.typ.TypeList? && r.typ.line == line && r.typ.items == VisitList(e.elts, Some(e), line).types
                      && r.diags == VisitList(e.elts, Some(e), line).diags)
      && (!HasTypeVisitor(e) ==> r == Converted(AnyType(FromError), [Error(TypeCommentAstError, line, e.pos.column)]))
  {
  }

  /** A string literal is read as a type: an unparsable one is an error type
      with the syntax error reported. */
  lemma StringShapes(e: RawExpr, parent: Option<RawExpr>, line: int)
    requires e.Str?
    ensures var r := Visit(e, parent, line);
      && (e.asType.CommentSyntaxError? ==>
            r == Converted(AnyType(FromError), [Error(TypeCommentSyntaxError, line, e.asType.offset)]))
      && (e.asType.CommentParsed? ==> r == Visit(e.asType.body, None, line))
  {
  }

  /** A dotted name converts, without any report, to the unbound name that
      `stringify_name` spells for it. */
  lemma {:induction false} DottedNameConverts(e: RawExpr, parent: Option<RawExpr>, line: int)
    requires IsDottedName(e)
    ensures Visit(e, parent, line) == Converted(Unbound(StringifyName(e).value, line), [])
  {
    if e.Attribute? {
      DottedNameConverts(e.value, Some(e), line);
    }
  }

  // ---- positional arguments of an argument constructor ----

  /** The error reported for each positional argument past the second. */
  function TooManyError(e: RawExpr): Diagnostic
    requires e.Call?
  {
    Error(TooManyConstructorArguments, e.func.pos.line, e.func.pos.column)
  }

  function Repeat(d: Diagnostic, n: nat): (ds: seq<Diagnostic>)
    ensures |ds| == n && forall k :: 0 <= k < n ==> ds[k] == d
  {
    if n == 0 then [] else [d] + Repeat(d, n - 1)
  }

  lemma {:induction false} ExtraPositionalsReported(e: RawExpr, i: nat, line: int, st: ArgState)
    requires e.Call? && 2 <= i <= |e.args|
    decreases |e.args| - i
    ensures CallPositional(e, i, line, st)
         == ArgState(st.typ, st.name, st.diags + Repeat(TooManyError(e), |e.args| - i))
  {
    if i < |e.args| {
      var next := PositionalStep(e, i, line, st);
      ExtraPositionalsReported(e, i + 1, line, next);
      assert next.diags + Repeat(TooManyError(e), |e.args| - (i + 1))
          == st.diags + Repeat(TooManyError(e), |e.args| - i);
    }
  }

  /** The positional loop in closed form: argument 0 gives the type,
      argument 1 the name, and each further argument one "Too many
      arguments" error, in that order of reports. */
  lemma {:induction false} PositionalArguments(e: RawExpr, line: int, st: ArgState)
    requires e.Call?
    ensures var r := CallPositional(e, 0, line, st);
      var n := |e.args|;
      && r.typ == (if n >= 1 then Some(Visit(e.args[0], Some(e), line).typ) else st.typ)
      && r.name == (if n >= 2 then ExtractArgumentName(e.args[1], line).name else st.name)
      && r.diags == st.diags
                    + (if n >= 1 then Visit(e.args[0], Some(e), line).diags else [])
                    + (if n >= 2 then ExtractArgumentName(e.args[1], line).diags else [])
                    + Repeat(TooManyError(e), if n >= 2 then n - 2 else 0)
  {
    var n := |e.args|;
    if n >= 1 {
      var s1 := PositionalStep(e, 0, line, st);
      if n >= 2 {
        var s2 := PositionalStep(e, 1, line, s1);
        ExtraPositionalsReported(e, 2, line, s2);
      } else {
        assert Repeat(TooManyError(e), 0) == [];
      }
    } else {
      assert Repeat(TooManyError(e), 0) == [];
    }
  }

  // ---- keywords of an argument constructor ----

  lemma PrefixKeeps(a: seq<Diagnostic>, b: seq<Diagnostic>, k: nat)
    requires a <= b && k < |a|
    ensures a[k] in b
  {
    assert b[k] == a[k];
  }

  /** A keyword other than `name` and `type` is reported at its value. */
  lemma UnexpectedKeywordReported(e: RawExpr, i: nat, j: nat, line: int, ctor: Option<string>, st: ArgState)
    requires e.Call? && i <= j < |e.keywords|
    requires e.keywords[j].arg != Some(NameKeyword) && e.keywords[j].arg != Some(TypeKeyword)
    ensures Error(UnexpectedArgumentMessage(e.keywords[j].arg), e.keywords[j].value.pos.line, e.keywords[j].value.pos.column)
            in CallKeywords(e, i, line, ctor, st).diags
  {
    var reached := KeywordsReach(e, i, j, line, ctor, st);
    UnexpectedHere(e, j, line, ctor, reached);
  }

  /** The loop from keyword i goes through some state at keyword j. */
  lemma {:induction false} KeywordsReach(e: RawExpr, i: nat, j: nat, line: int, ctor: Option<string>, st: ArgState)
    returns (reached: ArgState)
    requires e.Call? && i <= j <= |e.keywords|
    decreases j - i
    ensures CallKeywords(e, i, line, ctor, st) == CallKeywords(e, j, line, ctor, reached)
  {
    if i == j {
      reached := st;
    } else {
      var next := KeywordsAdvance(e, i, line, ctor, st);
      reached := KeywordsReach(e, i + 1, j, line, ctor, next);
    }
  }

  /** The state after keyword i, from which the scan goes on. */
  lemma KeywordsAdvance(e: RawExpr, i: nat, line: int, ctor: Option<string>, st: ArgState) returns (next: ArgState)
    requires e.Call? && i < |e.keywords|
    ensures CallKeywords(e, i, line, ctor, st) == CallKeywords(e, i + 1, line, ctor, next)
  {
    next := KeywordStep(e, i, line, ctor, st);
  }

  /** Keyword i, neither `name` nor `type`, is reported when it is met. */
  lemma UnexpectedHere(e: RawExpr, i: nat, line: int, ctor: Option<string>, st: ArgState)
    requires e.Call? && i < |e.keywords|
    requires e.keywords[i].arg != Some(NameKeyword) && e.keywords[i].arg != Some(TypeKeyword)
    ensures Error(UnexpectedArgumentMessage(e.keywords[i].arg), e.keywords[i].value.pos.line, e.keywords[i].value.pos.column)
            in CallKeywords(e, i, line, ctor, st).diags
  {
    var next := KeywordStep(e, i, line, ctor, st);
    PrefixKeeps(next.diags, CallKeywords(e, i + 1, line, ctor, next).diags, |st.diags|);
  }

  predicate TypeKeywordBefore(e: RawExpr, i: nat, j: nat)
    requires e.Call? && i <= j <= |e.keywords|
  {
    exists k :: i <= k < j && e.keywords[k].arg == Some(TypeKeyword)
  }

  /** A `type=` keyword met with a type already given is reported. */
  lemma TypeAgainReported(e: RawExpr, i: nat, line: int, ctor: Option<string>, st: ArgState)
    requires e.Call? && i < |e.keywords| && e.keywords[i].arg == Some(TypeKeyword) && st.typ.Some?
    ensures Error(MultipleValuesMessage(ctor, TypeKeyword), e.func.pos.line, e.func.pos.column)
            in CallKeywords(e, i, line, ctor, st).diags
  {
    var next := KeywordStep(e, i, line, ctor, st);
    assert next.diags[|st.diags|] == Error(MultipleValuesMessage(ctor, TypeKeyword), e.func.pos.line, e.func.pos.column);
    PrefixKeeps(next.diags, CallKeywords(e, i + 1, line, ctor, next).diags, |st.diags|);
  }

  /** A `name=` keyword met with a name already held is reported; the
      keyword's name then replaces it. A name held as None (`name=None`, or
      an argument that is not a string) does not count as given. */
  lemma NameAgainReported(e: RawExpr, i: nat, line: int, ctor: Option<string>, st: ArgState)
    requires e.Call? && i < |e.keywords| && e.keywords[i].arg == Some(NameKeyword)
    ensures var next := KeywordStep(e, i, line, ctor, st);
      var d := Error(MultipleValuesMessage(ctor, NameKeyword), e.func.pos.line, e.func.pos.column);
      && next.name == ExtractArgumentName(e.keywords[i].value, line).name
      && next.typ == st.typ
      && (st.name.Some? ==> d in CallKeywords(e, i, line, ctor, st).diags)
      && (st.name.None? ==> next.diags == st.diags + ExtractArgumentName(e.keywords[i].value, line).diags)
  {
    var next := KeywordStep(e, i, line, ctor, st);
    if st.name.Some? {
      assert next.diags[|st.diags|] == Error(MultipleValuesMessage(ctor, NameKeyword), e.func.pos.line, e.func.pos.column);
      PrefixKeeps(next.diags, CallKeywords(e, i + 1, line, ctor, next).diags, |st.diags|);
    }
  }

  /** One keyword further on, a type is still given before `type=` at j. */
  lemma TypeStillBefore(e: RawExpr, i: nat, j: nat, line: int, ctor: Option<string>, st: ArgState)
    returns (next: ArgState)
    requires e.Call? && i < j < |e.keywords|
    requires st.typ.Some? || TypeKeywordBefore(e, i, j)
    ensures next.typ.Some? || TypeKeywordBefore(e, i + 1, j)
    ensures CallKeywords(e, i, line, ctor, st) == CallKeywords(e, i + 1, line, ctor, next)
  {
    next := KeywordStep(e, i, line, ctor, st);
    if !next.typ.Some? {
      var k :| i <= k < j && e.keywords[k].arg == Some(TypeKeyword);
      assert k != i;
    }
  }

  /** `type=` is reported as given twice when a type was given before it,
      positionally or by an earlier `type=`. */
  lemma {:induction false} RepeatedTypeReported(e: RawExpr, i: nat, j: nat, line: int, ctor: Option<string>, st: ArgState)
    requires e.Call? && i <= j < |e.keywords|
    requires e.keywords[j].arg == Some(TypeKeyword)
    requires st.typ.Some? || TypeKeywordBefore(e, i, j)
    decreases j - i, 1
    ensures Error(MultipleValuesMessage(ctor, TypeKeyword), e.func.pos.line, e.func.pos.column)
            in CallKeywords(e, i, line, ctor, st).diags
  {
    if i == j {
      TypeAgainReported(e, i, line, ctor, st);
    } else {
      RepeatedTypeLater(e, i, j, line, ctor, st);
    }
  }

  /** The step of RepeatedTypeReported before keyword j is reached. */
  lemma {:induction false} RepeatedTypeLater(e: RawExpr, i: nat, j: nat, line: int, ctor: Option<string>, st: ArgState)
    requires e.Call? && i < j < |e.keywords|
    requires e.keywords[j].arg == Some(TypeKeyword)
    requires st.typ.Some? || TypeKeywordBefore(e, i, j)
    decreases j - i, 0
    ensures Error(MultipleValuesMessage(ctor, TypeKeyword), e.func.pos.line, e.func.pos.column)
            in CallKeywords(e, i, line, ctor, st).diags
  {
    var next := TypeStillBefore(e, i, j, line, ctor, st);
    RepeatedTypeReported(e, i + 1, j, line, ctor, next);
  }

  /** In a list of types, an argument constructor whose type is given twice
      (positionally and by `type=`, or by two `type=`) is reported. */
  lemma TypeGivenTwice(e: RawExpr, j: nat, line: int)
    requires e.Call? && j < |e.keywords| && e.keywords[j].arg == Some(TypeKeyword)
    requires |e.args| >= 1 || TypeKeywordBefore(e, 0, j)
    ensures Error(MultipleValuesMessage(StringifyName(e.func), TypeKeyword), e.func.pos.line, e.func.pos.column)
            in ArgConstructor(e, line).diags
  {
    var ctor := StringifyName(e.func);
    var start := ConstructorStart(ctor, e.pos);
    PositionalArguments(e, line, start);
    RepeatedTypeReported(e, 0, j, line, ctor, CallPositional(e, 0, line, start));
  }

  // ---- examples ----

  /** `List[int]` on line 3. */
  lemma GenericExample(p: Pos)
    ensures Visit(Subscript(p, Name(p, "List"), Index(Name(p, "int"))), None, 3)
         == Converted(UnboundType("List", [Unbound("int", 3)], 3, false, false), [])
  {
  }

  /** `Tuple[()]` marks the empty index. */
  lemma EmptyTupleIndexExample(p: Pos)
    ensures Visit(Subscript(p, Name(p, "Tuple"), Index(Tuple(p, [], Load))), None, 3)
         == Converted(UnboundType("Tuple", [], 3, true, false), [])
  {
    var e := Subscript(p, Name(p, "Tuple"), Index(Tuple(p, [], Load)));
    assert SubscriptParams(e, 3) == ConvertedList([], []);
    assert Visit(Name(p, "Tuple"), Some(e), 3) == Converted(Unbound("Tuple", 3), []);
  }

  /** `Arg(int, ' x ')` inside a list of types: the first argument is the
      type, the second the stripped name. */
  lemma ArgConstructorExample(q: Pos)
    ensures ArgConstructor(Call(q, Name(q, "Arg"), [Name(q, "int"), Str(q, " x ", CommentSyntaxError(0))], []), 3)
         == Converted(CallableArgument(Unbound("int", 3), Some("x"), Some("Arg"), q.line, q.column), [])
  {
    var call := Call(q, Name(q, "Arg"), [Name(q, "int"), Str(q, " x ", CommentSyntaxError(0))], []);
    var st := CallPositional(call, 0, 3, ArgState(None, None, []));
    assert ConstructorStart(Some("Arg"), q) == ArgState(None, None, []);
    ExamplePositionals(q);
    assert CallKeywords(call, 0, 3, Some("Arg"), st) == st;
  }

  lemma StripExample()
    ensures Strip(" x ") == "x"
  {
    assert IsSpace(' ') && !IsSpace('x');
    assert " x "[1..] == "x " && "x "[..1] == "x";
    assert StripLeft("x ") == "x ";
    assert StripLeft(" x ") == "x ";
    assert StripRight("x") == "x";
    assert StripRight("x ") == "x";
  }

  /** An ideographic space (U+3000) is whitespace to `str.strip()` too. */
  lemma WideStripExample()
    ensures Strip("\U{3000}x") == "x"
  {
    assert IsSpace('\U{3000}') && !IsSpace('x');
    assert "\U{3000}x"[1..] == "x";
    assert StripLeft("x") == "x";
    assert StripLeft("\U{3000}x") == "x";
    assert StripRight("x") == "x";
  }

  lemma ExamplePositionals(q: Pos)
    ensures var call := Call(q, Name(q, "Arg"), [Name(q, "int"), Str(q, " x ", CommentSyntaxError(0))], []);
      CallPositional(call, 0, 3, ArgState(None, None, [])) == ArgState(Some(Unbound("int", 3)), Some("x"), [])
  {
    var call := Call(q, Name(q, "Arg"), [Name(q, "int"), Str(q, " x ", CommentSyntaxError(0))], []);
    var s1 := PositionalStep(call, 0, 3, ArgState(None, None, []));
    assert s1 == ArgState(Some(Unbound("int", 3)), None, []) by {
      assert Visit(call.args[0], Some(call), 3) == Converted(Unbound("int", 3), []);
    }
    var s2 := PositionalStep(call, 1, 3, s1);
    StripExample();
    assert s2 == ArgState(Some(Unbound("int", 3)), Some("x"), []);
    assert CallPositional(call, 2, 3, s2) == s2;
  }

  /** `Arg(int)` outside a list of types is an error with a suggestion to
      subscript instead. */
  lemma MisplacedConstructorExample(q: Pos)
    ensures Visit(Call(q, Name(q, "Arg"), [Name(q, "int")], []), None, 3)
         == Converted(AnyType(FromError),
                      [Error(TypeCommentAstError, 3, q.column), Advice(SuggestionMessage("Arg"), 3, q.column)])
  {
    var call := Call(q, Name(q, "Arg"), [Name(q, "int")], []);
    assert StringifyName(call.func) == Some("Arg");
  }

  lemma SuggestionExample()
    ensures SuggestionMessage("Arg") == "Suggestion: use Arg[...] instead of Arg(...)"
  {
  }
}
