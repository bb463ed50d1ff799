/** What transform_args promises about the parameter list it builds: the
    order and number of each kind, which keyword-only arguments are
    required, the length, and that no_type_check drops every annotation. */
module ArgBinderProps {
  import opened Common
  import opened RawAst
  import opened Nodes
  import opened Options
  import opened ExprConverter
  import opened ArgBinder

  /** Where each group of the parameter list ends. */
  function EndOfPositional(a: RawArguments): int { |a.args| - |a.defaults| }
  function EndOfOptional(a: RawArguments): int { |a.args| }
  function EndOfVararg(a: RawArguments): int { |a.args| + |VarargSlot(a)| }
  function EndOfKeywordOnly(a: RawArguments): int { EndOfVararg(a) + |a.kwonlyargs| }

  /** The kind of the slot at position i, read off the group boundaries. */
  lemma SlotAt(a: RawArguments, i: int)
    requires WfArguments(a) && 0 <= i < |ArgSlots(a)|
    ensures var s := ArgSlots(a)[i];
      && (i < EndOfPositional(a) ==> s == Slot(a.args[i], None, ArgPos))
      && (EndOfPositional(a) <= i < EndOfOptional(a) ==>
            s == Slot(a.args[i], Some(a.defaults[i - EndOfPositional(a)]), ArgOpt))
      && (EndOfOptional(a) <= i < EndOfVararg(a) ==> s == Slot(a.vararg.value, None, ArgStar))
      && (EndOfVararg(a) <= i < EndOfKeywordOnly(a) ==>
            s.arg == a.kwonlyargs[i - EndOfVararg(a)] && s.default == a.kwDefaults[i - EndOfVararg(a)]
            && s.kind == (if s.default.None? then ArgNamed else ArgNamedOpt))
      && (EndOfKeywordOnly(a) <= i ==> s == Slot(a.kwarg.value, None, ArgStar2))
  {
    var p, o, v, k := PositionalSlots(a), OptionalSlots(a), VarargSlot(a), KeywordOnlySlots(a);
    var slots := ArgSlots(a);
    assert slots == p + o + v + k + KwargSlot(a);
    if i < EndOfPositional(a) {
      assert slots[i] == p[i];
    } else if i < EndOfOptional(a) {
      assert slots[i] == o[i - |p|];
    } else if i < EndOfVararg(a) {
      assert slots[i] == v[i - |p| - |o|];
    } else if i < EndOfKeywordOnly(a) {
      assert slots[i] == k[i - |p| - |o| - |v|];
    } else {
      assert slots[i] == KwargSlot(a)[i - |p| - |o| - |v| - |k|];
    }
  }

  /** The length of the list: every argument of every group, once. */
  lemma ArgumentCount(env: Env, a: RawArguments, noTypeCheck: bool)
    requires WfArguments(a)
    ensures |BindArguments(env, a, noTypeCheck).args|
      == |a.args| + |a.kwonlyargs| + (if a.vararg.Some? then 1 else 0) + (if a.kwarg.Some? then 1 else 0)
  {
  }

  /** Each argument is made from its slot: the raw argument's name, the
      slot's kind and the converted default. */
  lemma ArgumentsFollowSlots(env: Env, a: RawArguments, noTypeCheck: bool, i: int)
    requires WfArguments(a) && 0 <= i < |ArgSlots(a)|
    ensures var arg := BindArguments(env, a, noTypeCheck).args[i]; var s := ArgSlots(a)[i];
      arg.name == s.arg.arg && arg.kind == s.kind && arg.initializer == ConvertOpt(s.default)
  {
  }

  /** The weight of a kind in the order ARG_POS < ARG_OPT < ARG_STAR <
      keyword-only < ARG_STAR2. */
  function Rank(k: ArgKind): int {
    match k
    case ArgPos => 0
    case ArgOpt => 1
    case ArgStar => 2
    case ArgNamed => 3
    case ArgNamedOpt => 3
    case ArgStar2 => 4
  }

  /** The rank of the group that position i falls in. */
  function GroupRank(a: RawArguments, i: int): int {
    if i < EndOfPositional(a) then 0
    else if i < EndOfOptional(a) then 1
    else if i < EndOfVararg(a) then 2
    else if i < EndOfKeywordOnly(a) then 3
    else 4
  }

  lemma RankIsGroupRank(env: Env, a: RawArguments, noTypeCheck: bool, i: int)
    requires WfArguments(a) && 0 <= i < |BindArguments(env, a, noTypeCheck).args|
    ensures var k := BindArguments(env, a, noTypeCheck).args[i].kind;
      && Rank(k) == GroupRank(a, i)
      && (k == ArgStar <==> GroupRank(a, i) == 2)
      && (k == ArgStar2 <==> GroupRank(a, i) == 4)
  {
    ArgumentCount(env, a, noTypeCheck);
    ArgumentsFollowSlots(env, a, noTypeCheck, i);
    SlotRank(a, i);
  }

  /** The rank of a slot's kind is the rank of its group. */
  lemma SlotRank(a: RawArguments, i: int)
    requires WfArguments(a) && 0 <= i < |ArgSlots(a)|
    ensures var k := ArgSlots(a)[i].kind;
      && Rank(k) == GroupRank(a, i)
      && (k == ArgStar <==> GroupRank(a, i) == 2)
      && (k == ArgStar2 <==> GroupRank(a, i) == 4)
  {
    SlotAt(a, i);
  }

  /** The kinds follow `ARG_POS* ARG_OPT* ARG_STAR? (ARG_NAMED|ARG_NAMED_OPT)* ARG_STAR2?`:
      ranks never decrease, and neither `*` nor `**` kind repeats. */
  lemma KindsAreOrdered(env: Env, a: RawArguments, noTypeCheck: bool, i: int, j: int)
    requires WfArguments(a)
    requires 0 <= i < j < |BindArguments(env, a, noTypeCheck).args|
    ensures var args := BindArguments(env, a, noTypeCheck).args;
      && Rank(args[i].kind) <= Rank(args[j].kind)
      && (args[i].kind == ArgStar ==> args[j].kind != ArgStar)
      && (args[i].kind == ArgStar2 ==> args[j].kind != ArgStar2)
  {
    RankIsGroupRank(env, a, noTypeCheck, i);
    RankIsGroupRank(env, a, noTypeCheck, j);
    ArgumentCount(env, a, noTypeCheck);
  }

  /** The positions that have each kind: the first len(args) - len(defaults)
      are ARG_POS, the next len(defaults) ARG_OPT, and a keyword-only
      argument is ARG_NAMED exactly when its kw_default is None. */
  lemma KindPositions(env: Env, a: RawArguments, noTypeCheck: bool, i: int)
    requires WfArguments(a) && 0 <= i < |BindArguments(env, a, noTypeCheck).args|
    ensures var k := BindArguments(env, a, noTypeCheck).args[i].kind;
      && (k == ArgPos <==> i < |a.args| - |a.defaults|)
      && (k == ArgOpt <==> |a.args| - |a.defaults| <= i < |a.args|)
      && (k == ArgStar <==> a.vararg.Some? && i == |a.args|)
      && (EndOfVararg(a) <= i < EndOfKeywordOnly(a) ==>
            (k == ArgNamed <==> a.kwDefaults[i - EndOfVararg(a)].None?))
      && (k == ArgStar2 <==> a.kwarg.Some? && i == EndOfKeywordOnly(a))
  {
    SlotAt(a, i);
    ArgumentsFollowSlots(env, a, noTypeCheck, i);
  }

  /** How many entries of `args` have kind k. */
  function CountKind(args: seq<Argument>, k: ArgKind): nat {
    if args == [] then 0 else (if args[0].kind == k then 1 else 0) + CountKind(args[1..], k)
  }

  /** A kind held exactly on the positions lo .. hi - 1 of args[from..]
      occurs hi - lo times there. */
  lemma {:induction false} CountOnInterval(args: seq<Argument>, k: ArgKind, from: int, lo: int, hi: int)
    requires 0 <= from <= lo <= hi <= |args|
    requires forall i :: from <= i < |args| ==> (args[i].kind == k <==> lo <= i < hi)
    ensures CountKind(args[from..], k) == hi - lo
    decreases |args| - from
  {
    if from < |args| {
      assert args[from..][0] == args[from] && args[from..][1..] == args[from + 1..];
      if from == lo && lo < hi {
        CountOnInterval(args, k, from + 1, lo + 1, hi);
      } else if from == lo {
        CountOnInterval(args, k, from + 1, lo + 1, hi + 1);
      } else {
        CountOnInterval(args, k, from + 1, lo, hi);
      }
    }
  }

  /** The number of ARG_OPT entries is len(defaults), of ARG_POS entries
      len(args) - len(defaults). */
  lemma KindCounts(env: Env, a: RawArguments, noTypeCheck: bool)
    requires WfArguments(a)
    ensures var args := BindArguments(env, a, noTypeCheck).args;
      && CountKind(args, ArgOpt) == |a.defaults|
      && CountKind(args, ArgPos) == |a.args| - |a.defaults|
  {
    var args := BindArguments(env, a, noTypeCheck).args;
    forall i | 0 <= i < |args|
      ensures (args[i].kind == ArgOpt <==> |a.args| - |a.defaults| <= i < |a.args|)
      ensures (args[i].kind == ArgPos <==> i < |a.args| - |a.defaults|)
    {
      KindPositions(env, a, noTypeCheck, i);
    }
    assert args[0..] == args;
    if |a.args| - |a.defaults| > 0 {
      CountOnInterval(args, ArgPos, 0, 0, |a.args| - |a.defaults|);
    } else {
      CountOnInterval(args, ArgPos, 0, 0, 0);
    }
    CountOnInterval(args, ArgOpt, 0, |a.args| - |a.defaults|, |a.args|);
  }

  /** Under no_type_check no argument has a type and make_argument reports
      nothing; only check_arg_names can. */
  lemma NoTypeCheckDropsTypes(env: Env, a: RawArguments)
    requires WfArguments(a)
    ensures var b := BindArguments(env, a, true);
      && (forall i :: 0 <= i < |b.args| ==> b.args[i].typeAnnotation.None?)
      && b.diags == env.checkArgNames(SlotArgs(ArgSlots(a)))
  {
    NoTypeCheckReportsNothing(ArgSlots(a));
  }

  lemma {:induction false} NoTypeCheckReportsNothing(slots: seq<Slot>)
    requires WfSlots(slots)
    ensures MakeAll(slots, true).diags == []
    decreases |slots|
  {
    if slots != [] {
      assert WfSlots(slots[1..]) by {
        forall i | 0 <= i < |slots| - 1 ensures WfOptExpr(slots[1..][i].default) {
          assert slots[1..][i] == slots[i + 1];
        }
      }
      NoTypeCheckReportsNothing(slots[1..]);
    }
  }
}
