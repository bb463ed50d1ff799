/** transform_args and make_argument: the raw parameter groups of a `def`
    become one list of mypy Arguments, each with its kind, annotation and
    converted default, and the diagnostics those conversions report.

    `ArgSlots` states which raw argument lands where with which kind and
    default; `BindArguments` is the whole result; `TransformArgs` is the
    source's sequence of loops, proved to compute it. */
module ArgBinder {
  import opened Common
  import opened RawAst
  import opened Types
  import opened Nodes
  import opened Options
  import opened TypeConverter
  import opened ExprConverter

  /** One position of the parameter list: the raw argument, its default and
      the kind transform_args gives it. */
  datatype Slot = Slot(arg: RawArg, default: Option<RawExpr>, kind: ArgKind)

  /** Arguments made so far and what making them reported. */
  datatype Bound = Bound(args: seq<Argument>, diags: seq<Diagnostic>)

  /** One argument made by make_argument and what it reported. */
  datatype Made = Made(arg: Argument, diags: seq<Diagnostic>)

  predicate WfSlots(slots: seq<Slot>) {
    forall i :: 0 <= i < |slots| ==> WfOptExpr(slots[i].default)
  }

  /** Positional arguments without a default: the first len(args) - len(defaults). */
  function PositionalSlots(a: RawArguments): (r: seq<Slot>)
    requires WfArguments(a)
    ensures |r| == |a.args| - |a.defaults|
  {
    var n := |a.args| - |a.defaults|;
    seq(n, i requires 0 <= i < n => Slot(a.args[i], None, ArgPos))
  }

  /** The remaining positional arguments, zipped with the defaults. */
  function OptionalSlots(a: RawArguments): (r: seq<Slot>)
    requires WfArguments(a)
    ensures |r| == |a.defaults|
  {
    var n := |a.args| - |a.defaults|;
    seq(|a.defaults|, i requires 0 <= i < |a.defaults| => Slot(a.args[n + i], Some(a.defaults[i]), ArgOpt))
  }

  function VarargSlot(a: RawArguments): seq<Slot> {
    if a.vararg.Some? then [Slot(a.vararg.value, None, ArgStar)] else []
  }

  /** Keyword-only arguments zipped with kw_defaults; a None default makes
      the argument required. */
  function KeywordOnlySlots(a: RawArguments): (r: seq<Slot>)
    requires WfArguments(a)
    ensures |r| == |a.kwonlyargs|
  {
    seq(|a.kwonlyargs|, i requires 0 <= i < |a.kwonlyargs| =>
      Slot(a.kwonlyargs[i], a.kwDefaults[i], if a.kwDefaults[i].None? then ArgNamed else ArgNamedOpt))
  }

  function KwargSlot(a: RawArguments): seq<Slot> {
    if a.kwarg.Some? then [Slot(a.kwarg.value, None, ArgStar2)] else []
  }

  /** The parameter list in the order transform_args builds it. */
  function ArgSlots(a: RawArguments): (r: seq<Slot>)
    requires WfArguments(a)
    ensures WfSlots(r)
  {
    var r := PositionalSlots(a) + OptionalSlots(a) + VarargSlot(a) + KeywordOnlySlots(a) + KwargSlot(a);
    assert forall i :: 0 <= i < |r| ==> WfOptExpr(r[i].default) by {
      forall i | 0 <= i < |r| ensures WfOptExpr(r[i].default) {
        var n1 := |PositionalSlots(a) + OptionalSlots(a) + VarargSlot(a)|;
        if n1 <= i < n1 + |a.kwonlyargs| {
          assert r[i] == KeywordOnlySlots(a)[i - n1];
        } else if |a.args| - |a.defaults| <= i < |a.args| {
          assert r[i] == OptionalSlots(a)[i - (|a.args| - |a.defaults|)];
        }
      }
    }
    r
  }

  /** The raw arguments of a parameter list, in order (`names`). */
  function SlotArgs(slots: seq<Slot>): (r: seq<RawArg>)
    ensures |r| == |slots| && forall i :: 0 <= i < |slots| ==> r[i] == slots[i].arg
  {
    seq(|slots|, i requires 0 <= i < |slots| => slots[i].arg)
  }

  /** The declared type of an argument, unless no_type_check is in force:
      the annotation, converted at the argument's line; failing that its
      type comment; failing that none. */
  function ArgumentType(a: RawArg): (r: ParsedComment)
    ensures a.annotation.Some? ==> r.typ == Some(Visit(a.annotation.value, None, a.pos.line).typ)
    ensures a.annotation.None? && a.typeComment.Some? ==> r == ParseTypeComment(a.typeComment.value, a.pos.line)
    ensures a.annotation.None? && a.typeComment.None? ==> r == ParsedComment(None, [])
  {
    if a.annotation.Some? then
      var c := Visit(a.annotation.value, None, a.pos.line);
      ParsedComment(Some(c.typ), c.diags)
    else if a.typeComment.Some? then ParseTypeComment(a.typeComment.value, a.pos.line)
    else ParsedComment(None, [])
  }

  /** make_argument: an annotation together with a type comment is a
      duplicate signature, reported at the argument; the annotation wins. */
  function MakeArgument(s: Slot, noTypeCheck: bool): (r: Made)
    requires WfOptExpr(s.default)
    ensures r.arg.name == s.arg.arg && r.arg.kind == s.kind && r.arg.initializer == ConvertOpt(s.default)
    ensures noTypeCheck ==> r.arg.typeAnnotation.None? && r.diags == []
    ensures !noTypeCheck ==> r.arg.typeAnnotation == ArgumentType(s.arg).typ
    ensures !noTypeCheck && s.arg.annotation.Some? && s.arg.typeComment.Some? ==>
      |r.diags| > 0 && r.diags[0] == Error(DuplicateTypeSignatures, s.arg.pos.line, s.arg.pos.column)
    ensures !noTypeCheck ==>
      r.diags == (if s.arg.annotation.Some? && s.arg.typeComment.Some?
                  then [Error(DuplicateTypeSignatures, s.arg.pos.line, s.arg.pos.column)] else [])
                 + ArgumentType(s.arg).diags
  {
    if noTypeCheck then Made(Argument(s.arg.arg, None, ConvertOpt(s.default), s.kind), [])
    else
      var duplicate := if s.arg.annotation.Some? && s.arg.typeComment.Some?
        then [Error(DuplicateTypeSignatures, s.arg.pos.line, s.arg.pos.column)] else [];
      var t := ArgumentType(s.arg);
      Made(Argument(s.arg.arg, t.typ, ConvertOpt(s.default), s.kind), duplicate + t.diags)
  }

  /** make_argument over a list of slots, in order. */
  function MakeAll(slots: seq<Slot>, noTypeCheck: bool): (r: Bound)
    requires WfSlots(slots)
    ensures |r.args| == |slots|
    ensures forall i :: 0 <= i < |slots| ==> r.args[i] == MakeArgument(slots[i], noTypeCheck).arg
  {
    if slots == [] then Bound([], [])
    else
      var head := MakeArgument(slots[0], noTypeCheck);
      var tail := MakeAll(slots[1..], noTypeCheck);
      Bound([head.arg] + tail.args, head.diags + tail.diags)
  }

  /** Making one more argument extends the arguments and the reports. */
  lemma {:induction false} MakeAllAppend(slots: seq<Slot>, s: Slot, noTypeCheck: bool)
    requires WfSlots(slots) && WfOptExpr(s.default)
    ensures WfSlots(slots + [s])
    ensures var m := MakeArgument(s, noTypeCheck); var b := MakeAll(slots, noTypeCheck);
      MakeAll(slots + [s], noTypeCheck) == Bound(b.args + [m.arg], b.diags + m.diags)
    decreases |slots|
  {
    assert forall i :: 0 <= i < |slots| ==> (slots + [s])[i] == slots[i];
    if slots != [] {
      assert (slots + [s])[1..] == slots[1..] + [s];
      assert WfSlots(slots[1..]) by {
        forall i | 0 <= i < |slots| - 1 ensures WfOptExpr(slots[1..][i].default) {
          assert slots[1..][i] == slots[i + 1];
        }
      }
      MakeAllAppend(slots[1..], s, noTypeCheck);
      var head, tail, m := MakeArgument(slots[0], noTypeCheck), MakeAll(slots[1..], noTypeCheck), MakeArgument(s, noTypeCheck);
      AppendAssoc([head.arg], tail.args, [m.arg]);
      AppendAssoc(head.diags, tail.diags, m.diags);
    } else {
      assert [] + [s] == [s];
    }
  }

  /** transform_args: the arguments, then check_arg_names over all of them. */
  function BindArguments(env: Env, a: RawArguments, noTypeCheck: bool): (r: Bound)
    requires WfArguments(a)
  {
    var slots := ArgSlots(a);
    var made := MakeAll(slots, noTypeCheck);
    Bound(made.args, made.diags + env.checkArgNames(SlotArgs(slots)))
  }

  /** One `new_args.append(self.make_argument(...))` with its `names.append`. */
  method AddArgument(acc: Bound, names: seq<RawArg>, ghost done: seq<Slot>, s: Slot, noTypeCheck: bool)
    returns (acc': Bound, names': seq<RawArg>)
    requires WfSlots(done) && WfOptExpr(s.default)
    requires acc == MakeAll(done, noTypeCheck) && names == SlotArgs(done)
    ensures WfSlots(done + [s])
    ensures acc' == MakeAll(done + [s], noTypeCheck) && names' == SlotArgs(done + [s])
  {
    var m := MakeArgument(s, noTypeCheck);
    MakeAllAppend(done, s, noTypeCheck);
    acc' := Bound(acc.args + [m.arg], acc.diags + m.diags);
    names' := names + [s.arg];
  }

  /** The first loop of transform_args: positional arguments without defaults. */
  method AddPositional(a: RawArguments, noTypeCheck: bool) returns (acc: Bound, names: seq<RawArg>)
    requires WfArguments(a)
    ensures WfSlots(PositionalSlots(a))
    ensures acc == MakeAll(PositionalSlots(a), noTypeCheck) && names == SlotArgs(PositionalSlots(a))
  {
    acc := Bound([], []);
    names := [];
    ghost var done: seq<Slot> := [];
    var numNoDefaults := |a.args| - |a.defaults|;
    for i := 0 to numNoDefaults
      invariant WfSlots(done) && done == PositionalSlots(a)[..i]
      invariant acc == MakeAll(done, noTypeCheck) && names == SlotArgs(done)
    {
      var s := Slot(a.args[i], None, ArgPos);
      assert PositionalSlots(a)[..i + 1] == done + [s];
      acc, names := AddArgument(acc, names, done, s, noTypeCheck);
      done := done + [s];
    }
    assert PositionalSlots(a)[..numNoDefaults] == PositionalSlots(a);
  }

  /** The second loop: positional arguments zipped with their defaults. */
  method AddOptional(a: RawArguments, noTypeCheck: bool, acc0: Bound, names0: seq<RawArg>, ghost done0: seq<Slot>)
    returns (acc: Bound, names: seq<RawArg>)
    requires WfArguments(a) && WfSlots(done0)
    requires acc0 == MakeAll(done0, noTypeCheck) && names0 == SlotArgs(done0)
    ensures WfSlots(done0 + OptionalSlots(a))
    ensures acc == MakeAll(done0 + OptionalSlots(a), noTypeCheck) && names == SlotArgs(done0 + OptionalSlots(a))
  {
    acc, names := acc0, names0;
    ghost var done := done0;
    var numNoDefaults := |a.args| - |a.defaults|;
    for i := 0 to |a.defaults|
      invariant WfSlots(done) && done == done0 + OptionalSlots(a)[..i]
      invariant acc == MakeAll(done, noTypeCheck) && names == SlotArgs(done)
    {
      var s := Slot(a.args[numNoDefaults + i], Some(a.defaults[i]), ArgOpt);
      assert OptionalSlots(a)[..i + 1] == OptionalSlots(a)[..i] + [s];
      AppendAssoc(done0, OptionalSlots(a)[..i], [s]);
      acc, names := AddArgument(acc, names, done, s, noTypeCheck);
      done := done + [s];
    }
    assert OptionalSlots(a)[..|a.defaults|] == OptionalSlots(a);
  }

  /** The fourth loop: keyword-only arguments zipped with kw_defaults. */
  method AddKeywordOnly(a: RawArguments, noTypeCheck: bool, acc0: Bound, names0: seq<RawArg>, ghost done0: seq<Slot>)
    returns (acc: Bound, names: seq<RawArg>)
    requires WfArguments(a) && WfSlots(done0)
    requires acc0 == MakeAll(done0, noTypeCheck) && names0 == SlotArgs(done0)
    ensures WfSlots(done0 + KeywordOnlySlots(a))
    ensures acc == MakeAll(done0 + KeywordOnlySlots(a), noTypeCheck) && names == SlotArgs(done0 + KeywordOnlySlots(a))
  {
    acc, names := acc0, names0;
    ghost var done := done0;
    for i := 0 to |a.kwonlyargs|
      invariant WfSlots(done) && done == done0 + KeywordOnlySlots(a)[..i]
      invariant acc == MakeAll(done, noTypeCheck) && names == SlotArgs(done)
    {
      var d := a.kwDefaults[i];
      var s := Slot(a.kwonlyargs[i], d, if d.None? then ArgNamed else ArgNamedOpt);
      assert KeywordOnlySlots(a)[..i + 1] == KeywordOnlySlots(a)[..i] + [s];
      AppendAssoc(done0, KeywordOnlySlots(a)[..i], [s]);
      acc, names := AddArgument(acc, names, done, s, noTypeCheck);
      done := done + [s];
    }
    assert KeywordOnlySlots(a)[..|a.kwonlyargs|] == KeywordOnlySlots(a);
  }

  /** transform_args: the groups in order, then check_arg_names. */
  method TransformArgs(env: Env, a: RawArguments, noTypeCheck: bool) returns (r: Bound)
    requires WfArguments(a)
    ensures r == BindArguments(env, a, noTypeCheck)
  {
    var acc, names := AddPositional(a, noTypeCheck);
    ghost var done := PositionalSlots(a);
    acc, names := AddOptional(a, noTypeCheck, acc, names, done);
    done := done + OptionalSlots(a);
    // *arg
    if a.vararg.Some? {
      var s := Slot(a.vararg.value, None, ArgStar);
      acc, names := AddArgument(acc, names, done, s, noTypeCheck);
      done := done + [s];
    }
    assert done == PositionalSlots(a) + OptionalSlots(a) + VarargSlot(a);
    acc, names := AddKeywordOnly(a, noTypeCheck, acc, names, done);
    done := done + KeywordOnlySlots(a);
    // **kwarg
    if a.kwarg.Some? {
      var s := Slot(a.kwarg.value, None, ArgStar2);
      acc, names := AddArgument(acc, names, done, s, noTypeCheck);
      done := done + [s];
    }
    assert done == ArgSlots(a);
    r := Bound(acc.args, acc.diags + env.checkArgNames(names));
  }
}
