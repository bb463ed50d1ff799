/** Properties of the expression converter: boolean chains fold to the
    right, call arguments become parallel arrays, comparisons keep their
    arity, store-context lists become tuples, `super()` receivers are
    recognised, and f-strings become `''.join` / `'{}'.format` calls. */
module ExprConverterProps {
  import opened Common
  import opened RawAst
  import opened Nodes
  import opened ExprConverter

  /** `a and b and c` is `a and (b and c)`: a chain of |values| - 1 nodes
      with one operator, whose operands read back as the converted values. */
  lemma BoolOpFoldsRight(p: Pos, op: BoolOperator, vs: seq<RawExpr>)
    requires WfExpr(BoolOp(p, op, vs))
    ensures IsChain(Convert(BoolOp(p, op, vs)), |vs| - 1, BoolOperatorText(op), p)
    ensures Spine(Convert(BoolOp(p, op, vs)), |vs| - 1) == ConvertList(vs)
  {
  }

  lemma GroupOfThree(op: string, a: Expression, b: Expression, c: Expression, p: Pos)
    ensures Group(op, [a, b, c], p) == OpExpr(op, a, OpExpr(op, b, c, p), p)
  {
    assert [a, b, c][1..] == [b, c];
  }

  /** A chain is determined by its operator, position and operands: the
      right fold is the only chain that reads back as `vals`. */
  lemma {:induction false} ChainIsGroup(e: Expression, op: string, vals: seq<Expression>, p: Pos)
    requires |vals| >= 2
    requires IsChain(e, |vals| - 1, op, p) && Spine(e, |vals| - 1) == vals
    ensures e == Group(op, vals, p)
    decreases |vals|
  {
    assert e.OpExpr?;
    assert Spine(e, |vals| - 1) == [e.left] + Spine(e.right, |vals| - 2);
    if |vals| == 2 {
      assert Spine(e.right, 0) == [e.right];
      assert e == OpExpr(op, vals[0], vals[1], p);
    } else {
      assert Spine(e.right, |vals| - 2) == vals[1..];
      ChainIsGroup(e.right, op, vals[1..], p);
    }
  }

  /** visit_Call: one entry per positional argument, then one per keyword;
      a starred argument is unwrapped and tagged ARG_STAR, a `**` keyword
      (no name) is tagged ARG_STAR2, and only keywords carry names. */
  lemma CallArgumentsAreParallel(e: RawExpr)
    requires e.Call? && WfExpr(e)
    ensures var r := Convert(e);
      && r.CallExpr? && r.callee == Convert(e.func) && r.pos == e.pos
      && |r.args| == |r.argKinds| == |r.argNames| == |e.args| + |e.keywords|
      && (forall i :: 0 <= i < |e.args| ==>
            && r.argKinds[i] == (if e.args[i].Starred? then ArgStar else ArgPos)
            && r.argNames[i] == None
            && WfExpr(e.args[i])
            && (e.args[i].Starred? ==> r.args[i] == Convert(e.args[i].value))
            && (!e.args[i].Starred? ==> r.args[i] == Convert(e.args[i])))
      && (forall j :: 0 <= j < |e.keywords| ==>
            && r.argKinds[|e.args| + j] == (if e.keywords[j].arg.None? then ArgStar2 else ArgNamed)
            && r.argNames[|e.args| + j] == e.keywords[j].arg
            && r.args[|e.args| + j] == Convert(e.keywords[j].value))
  {
    assert WfExprs(e.args);
  }

  /** visit_Compare: n operators over n + 1 operands, the left operand first. */
  lemma CompareArity(p: Pos, l: RawExpr, ops: seq<CmpOperator>, cs: seq<RawExpr>)
    requires WfExpr(Compare(p, l, ops, cs))
    requires |ops| == |cs|
    ensures var r := Convert(Compare(p, l, ops, cs));
      && r.ComparisonExpr?
      && |r.operators| == |r.operands| - 1
      && r.operands == [Convert(l)] + ConvertList(cs)
      && (forall i :: 0 <= i < |ops| ==> r.operators[i] == CompOperatorText(ops[i]))
  {
  }

  /** `[x, y] = z` means `(x, y) = z`: a list becomes a tuple exactly in a
      store context, with the same items either way. */
  lemma StoreListIsTuple(p: Pos, elts: seq<RawExpr>, ctx: ExprContext)
    requires WfExprs(elts)
    ensures var r := Convert(List(p, elts, ctx));
      && (r.TupleExpr? <==> ctx == Store)
      && (r.ListExpr? <==> ctx != Store)
      && r.items == ConvertList(elts)
  {
  }

  /** An attribute of a call to `super` is a SuperExpr; any other attribute
      is a MemberExpr. Both keep the attribute name and the converted value. */
  lemma SuperIsRecognised(p: Pos, v: RawExpr, attr: string)
    requires WfExpr(v)
    ensures var r := Convert(Attribute(p, v, attr));
      && (r.SuperExpr? <==> IsSuperCall(v))
      && (r.MemberExpr? <==> !IsSuperCall(v))
      && (r.SuperExpr? ==> r.name == attr && r.call == Convert(v))
      && (r.MemberExpr? ==> r.name == attr && r.expr == Convert(v))
  {
  }

  /** `'{}'.format(v)`: the value is converted unchanged except that it is
      moved to the FormattedValue's position. */
  lemma FormattedValueIsFormatCall(p: Pos, v: RawExpr)
    requires WfExpr(v)
    ensures var r := Convert(FormattedValue(p, v));
      && r.CallExpr? && r.callee == MemberExpr(StrExpr("{}", p), "format", p)
      && |r.args| == 1 && r.argKinds == [ArgPos] && r.argNames == [None]
      && r.args[0].pos == p && r.args[0].(pos := Convert(v).pos) == Convert(v)
  {
  }

  /** `f"x = {x}"` becomes `''.join(['x = ', '{}'.format(x)])`. */
  lemma JoinedStrExample(p: Pos, q: Pos, tc: TypeComment, q2: Pos, q3: Pos)
    ensures var e := JoinedStr(p, [Str(q, "x = ", tc), FormattedValue(q2, Name(q3, "x"))]);
      WfExpr(e) && Convert(e) == CallExpr(MemberExpr(StrExpr("", p), "join", p),
                  [ListExpr([StrExpr("x = ", q),
                             CallExpr(MemberExpr(StrExpr("{}", q2), "format", q2),
                                      [NameExpr("x", q2)], [ArgPos], [None], q2)], p)],
                  [ArgPos], [None], p)
  {
    var vs := [Str(q, "x = ", tc), FormattedValue(q2, Name(q3, "x"))];
    assert WfExpr(vs[0]) && WfExpr(vs[1]);
    assert ConvertList(vs) == [Convert(vs[0]), Convert(vs[1])];
  }

  /** op_map and comp_op_map give every operator its own text. */
  lemma OperatorTextIsInjective(a: Operator, b: Operator)
    requires OperatorText(a) == OperatorText(b)
    ensures a == b
  {
  }

  lemma CompOperatorTextIsInjective(a: CmpOperator, b: CmpOperator)
    requires CompOperatorText(a) == CompOperatorText(b)
    ensures a == b
  {
  }
}
