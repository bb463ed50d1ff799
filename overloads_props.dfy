/** What fix_function_overloads promises: nothing is lost or reordered,
    every group is a real overload (two or more same-named definitions
    opened by a Decorator), a statement list with nothing to merge comes
    back unchanged, and merging twice is merging once. */
module OverloadsProps {
  import opened Common
  import opened Nodes
  import opened Overloads

  /** The statements a converter visit produces: no group yet. */
  predicate NoGroups(s: seq<Statement>) {
    forall i :: 0 <= i < |s| ==> !s[i].OverloadedFuncDef?
  }

  predicate HasGroup(s: seq<Statement>) {
    exists i :: 0 <= i < |s| && s[i].OverloadedFuncDef?
  }

  /** The parts of one output statement. */
  function Parts(st: Statement): seq<Statement> {
    if st.OverloadedFuncDef? then st.items else [st]
  }

  /** Every group replaced by its parts. */
  function Expand(s: seq<Statement>): seq<Statement> {
    if s == [] then [] else Parts(s[0]) + Expand(s[1..])
  }

  /** An overload group as the source builds one. */
  predicate GoodGroup(g: seq<Statement>) {
    && |g| >= 2
    && g[0].Decorator?
    && (forall k :: 0 <= k < |g| ==> IsOverloadPart(g[k]) && PartName(g[k]) == PartName(g[0]))
  }

  /** No Decorator is followed right away by a definition of its name. */
  predicate NoMerge(s: seq<Statement>) {
    forall i :: 0 <= i < |s| - 1 ==>
      s[i].Decorator? ==> !(IsOverloadPart(s[i + 1]) && PartName(s[i + 1]) == s[i].func.name)
  }

  /** The run a Decorator opens is emitted as the Decorator itself or as a
      well-formed group, and its parts are exactly the run. */
  lemma RunIsWrapped(s: seq<Statement>)
    requires s != [] && s[0].Decorator?
    ensures var n := RunLength(s[1..], s[0].func.name);
      var w := Wrap(s[..n + 1]);
      && Parts(w) == s[..n + 1]
      && (n == 0 ==> w == s[0])
      && (n > 0 ==> w.OverloadedFuncDef? && GoodGroup(w.items))
  {
    var n := RunLength(s[1..], s[0].func.name);
    var g := s[..n + 1];
    if n > 0 {
      forall k | 0 <= k < |g|
        ensures IsOverloadPart(g[k]) && PartName(g[k]) == PartName(g[0])
      {
        if k > 0 {
          assert g[k] == s[1..][k - 1];
        }
      }
    }
  }

  /** The first output statement is the first input statement or a group. */
  lemma CoalesceHead(s: seq<Statement>)
    requires s != []
    ensures Coalesce(s) != []
    ensures Coalesce(s)[0] == s[0] || Coalesce(s)[0].OverloadedFuncDef?
  {
    if s[0].Decorator? {
      RunIsWrapped(s);
    }
  }

  lemma ExpandCons(st: Statement, rest: seq<Statement>)
    ensures Expand([st] + rest) == Parts(st) + Expand(rest)
  {
    assert ([st] + rest)[1..] == rest;
  }

  /** Nothing is lost or reordered (mypy/fastparse.py:273-300). */
  lemma {:induction false} ExpandUndoesCoalesce(s: seq<Statement>)
    requires NoGroups(s)
    ensures Expand(Coalesce(s)) == s
    decreases |s|
  {
    if s != [] {
      var out := Coalesce(s);
      if s[0].Decorator? {
        var n := RunLength(s[1..], s[0].func.name);
        RunIsWrapped(s);
        NoGroupsTail(s, n + 1);
        ExpandUndoesCoalesce(s[n + 1..]);
        assert out == [Wrap(s[..n + 1])] + Coalesce(s[n + 1..]);
        ExpandCons(Wrap(s[..n + 1]), Coalesce(s[n + 1..]));
        assert s[..n + 1] + s[n + 1..] == s;
      } else {
        NoGroupsTail(s, 1);
        ExpandUndoesCoalesce(s[1..]);
        assert out == [s[0]] + Coalesce(s[1..]);
        ExpandCons(s[0], Coalesce(s[1..]));
        assert [s[0]] + s[1..] == s;
      }
    }
  }

  /** Every group has at least two parts, all of one name, the first a
      Decorator; a lone definition is never wrapped (mypy/fastparse.py:278-299). */
  lemma {:induction false} GroupsAreWellFormed(s: seq<Statement>)
    requires NoGroups(s)
    ensures forall k :: 0 <= k < |Coalesce(s)| ==>
      Coalesce(s)[k].OverloadedFuncDef? ==> GoodGroup(Coalesce(s)[k].items)
    decreases |s|
  {
    if s != [] {
      var out := Coalesce(s);
      var m := if s[0].Decorator? then RunLength(s[1..], s[0].func.name) + 1 else 1;
      if s[0].Decorator? {
        RunIsWrapped(s);
      }
      assert out[1..] == Coalesce(s[m..]);
      NoGroupsTail(s, m);
      GroupsAreWellFormed(s[m..]);
      forall k | 0 <= k < |out| && out[k].OverloadedFuncDef?
        ensures GoodGroup(out[k].items)
      {
        if k > 0 {
          assert out[k] == Coalesce(s[m..])[k - 1];
        }
      }
    }
  }

  lemma NoGroupsTail(s: seq<Statement>, m: nat)
    requires NoGroups(s) && m <= |s|
    ensures NoGroups(s[m..])
  {
    forall i | 0 <= i < |s| - m ensures !s[m..][i].OverloadedFuncDef? {
      assert s[m..][i] == s[m + i];
    }
  }

  lemma NoMergeTail(s: seq<Statement>, m: nat)
    requires NoMerge(s) && m <= |s|
    ensures NoMerge(s[m..])
  {
    forall i | 0 <= i < |s[m..]| - 1
      ensures s[m..][i].Decorator? ==>
        !(IsOverloadPart(s[m..][i + 1]) && PartName(s[m..][i + 1]) == s[m..][i].func.name)
    {
      assert s[m..][i] == s[m + i] && s[m..][i + 1] == s[m + i + 1];
    }
  }

  /** With nothing to merge the output is the input (mypy/fastparse.py:296-299). */
  lemma {:induction false} NoMergeIsIdentity(s: seq<Statement>)
    requires NoMerge(s)
    ensures Coalesce(s) == s
    decreases |s|
  {
    if s != [] {
      NoMergeTail(s, 1);
      NoMergeIsIdentity(s[1..]);
      if s[0].Decorator? {
        assert RunLength(s[1..], s[0].func.name) == 0;
        assert s[..1] == [s[0]];
      }
      assert [s[0]] + s[1..] == s;
    }
  }

  /** A Decorator followed by a definition of its name ends up in a group. */
  lemma {:induction false} MergeMakesGroup(s: seq<Statement>, i: nat)
    requires i + 1 < |s| && s[i].Decorator?
    requires IsOverloadPart(s[i + 1]) && PartName(s[i + 1]) == s[i].func.name
    ensures HasGroup(Coalesce(s))
    decreases |s|
  {
    var out := Coalesce(s);
    var m := if s[0].Decorator? then RunLength(s[1..], s[0].func.name) + 1 else 1;
    if s[0].Decorator? {
      RunIsWrapped(s);
    }
    if i == 0 {
      assert s[1..][0] == s[1];
      assert out[0].OverloadedFuncDef?;
    } else if s[0].Decorator? && m > 1 {
      assert out[0].OverloadedFuncDef?;
    } else {
      assert out[1..] == Coalesce(s[m..]);
      assert s[m..][i - m] == s[i] && s[m..][i - m + 1] == s[i + 1];
      MergeMakesGroup(s[m..], i - m);
      var k :| 0 <= k < |Coalesce(s[m..])| && Coalesce(s[m..])[k].OverloadedFuncDef?;
      assert out[k + 1] == Coalesce(s[m..])[k];
    }
  }

  /** Given a list with no groups, the output is the input exactly when
      nothing needs merging. */
  lemma IdentityIffNoMerge(s: seq<Statement>)
    requires NoGroups(s)
    ensures Coalesce(s) == s <==> NoMerge(s)
  {
    if NoMerge(s) {
      NoMergeIsIdentity(s);
    } else {
      var i :| 0 <= i < |s| - 1 && s[i].Decorator?
        && IsOverloadPart(s[i + 1]) && PartName(s[i + 1]) == s[i].func.name;
      MergeMakesGroup(s, i);
    }
  }

  /** The output never has anything left to merge. */
  lemma {:induction false} CoalescedHasNoMerge(s: seq<Statement>)
    ensures NoMerge(Coalesce(s))
    decreases |s|
  {
    if s != [] {
      var out := Coalesce(s);
      var m := if s[0].Decorator? then RunLength(s[1..], s[0].func.name) + 1 else 1;
      if s[0].Decorator? {
        RunIsWrapped(s);
      }
      var rest := Coalesce(s[m..]);
      assert out == [out[0]] + rest;
      CoalescedHasNoMerge(s[m..]);
      if out[0].Decorator? && rest != [] {
        CoalesceHead(s[m..]);
        assert m == 1 && s[m..][0] == s[1..][0];
      }
      forall i | 0 <= i < |out| - 1
        ensures out[i].Decorator? ==> !(IsOverloadPart(out[i + 1]) && PartName(out[i + 1]) == out[i].func.name)
      {
        if i > 0 {
          assert out[i] == rest[i - 1] && out[i + 1] == rest[i];
        }
      }
    }
  }

  /** Merging twice is merging once. */
  lemma CoalesceIsIdempotent(s: seq<Statement>)
    ensures Coalesce(Coalesce(s)) == Coalesce(s)
  {
    CoalescedHasNoMerge(s);
    NoMergeIsIdentity(Coalesce(s));
  }

  /** `@overload def f`, `def f`, `def f`, `@d def g` gives one group of three
      and the lone Decorator of g; two bare definitions of f stay apart,
      since only a Decorator opens a run. */
  lemma OverloadExample(f1: FuncDef, f2: FuncDef, f3: FuncDef, g: FuncDef, d: seq<Expression>, p: Pos)
    requires f1.name == "f" && f2.name == "f" && f3.name == "f" && g.name == "g"
    ensures Coalesce([Decorator(f1, d, 1, p), FuncDefStmt(f2), FuncDefStmt(f3), Decorator(g, d, 9, p)])
      == [OverloadedFuncDef([Decorator(f1, d, 1, p), FuncDefStmt(f2), FuncDefStmt(f3)]), Decorator(g, d, 9, p)]
    ensures Coalesce([FuncDefStmt(f1), FuncDefStmt(f2)]) == [FuncDefStmt(f1), FuncDefStmt(f2)]
  {
    var s := [Decorator(f1, d, 1, p), FuncDefStmt(f2), FuncDefStmt(f3), Decorator(g, d, 9, p)];
    assert s[1..][1..][1..] == [s[3]];
    assert RunLength([s[3]], "f") == 0;
    assert RunLength(s[1..], "f") == 2;
    assert s[..3] == [s[0], s[1], s[2]] && s[3..] == [s[3]];
    assert RunLength([], "g") == 0 && [s[3]][..1] == [s[3]] && [s[3]][1..] == [];
    assert Coalesce([s[3]]) == [s[3]];
    assert Coalesce(s) == [Wrap(s[..3])] + Coalesce([s[3]]);
    var t := [FuncDefStmt(f1), FuncDefStmt(f2)];
    assert t[1..] == [t[1]] && t[1..][1..] == [];
  }
}
