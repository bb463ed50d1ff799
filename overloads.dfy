/** fix_function_overloads: runs of same-named definitions that a decorated
    definition opens are merged into one OverloadedFuncDef.

    `Coalesce` states the result run by run; `FixFunctionOverloads` is the
    source's single left-to-right scan with an accumulator, proved to
    compute it. */
module Overloads {
  import opened Common
  import opened Nodes

  /** The length of the longest prefix of `s` made of definitions named `name`. */
  function RunLength(s: seq<Statement>, name: string): (n: nat)
    ensures n <= |s|
    ensures forall k :: 0 <= k < n ==> IsOverloadPart(s[k]) && PartName(s[k]) == name
    ensures n < |s| ==> !(IsOverloadPart(s[n]) && PartName(s[n]) == name)
  {
    if s != [] && IsOverloadPart(s[0]) && PartName(s[0]) == name then 1 + RunLength(s[1..], name) else 0
  }

  /** A run of one definition is emitted as itself, a longer one as a group. */
  function Wrap(run: seq<Statement>): (r: Statement)
    requires |run| >= 1
    ensures |run| == 1 ==> r == run[0]
    ensures |run| > 1 ==> r == OverloadedFuncDef(run)
  {
    if |run| == 1 then run[0] else OverloadedFuncDef(run)
  }

  /** The statements with every run merged: a Decorator takes along the
      definitions of the same name right after it; every other statement
      stands alone. */
  function Coalesce(s: seq<Statement>): seq<Statement>
    decreases |s|
  {
    if s == [] then []
    else if s[0].Decorator? then
      var n := RunLength(s[1..], s[0].func.name);
      [Wrap(s[..n + 1])] + Coalesce(s[n + 1..])
    else [s[0]] + Coalesce(s[1..])
  }

  /** The output still to come when the scan holds the open run `current`
      and has `rest` left to read. */
  function Resume(current: seq<Statement>, rest: seq<Statement>): seq<Statement>
    requires current == [] || IsOverloadPart(current[0])
  {
    if current == [] then Coalesce(rest)
    else
      var n := RunLength(rest, PartName(current[0]));
      [Wrap(current + rest[..n])] + Coalesce(rest[n..])
  }

  /** A run that the next statement continues. */
  lemma ResumeContinued(current: seq<Statement>, rest: seq<Statement>)
    requires current != [] && IsOverloadPart(current[0])
    requires rest != [] && IsOverloadPart(rest[0]) && PartName(rest[0]) == PartName(current[0])
    ensures Resume(current, rest) == Resume(current + [rest[0]], rest[1..])
  {
    var name := PartName(current[0]);
    var m := RunLength(rest[1..], name);
    assert RunLength(rest, name) == 1 + m;
    assert current + rest[..1 + m] == (current + [rest[0]]) + rest[1..][..m];
    assert rest[1 + m..] == rest[1..][m..];
  }

  /** A run that the next statement does not continue is complete. */
  lemma ResumeClosed(current: seq<Statement>, rest: seq<Statement>)
    requires current != [] && IsOverloadPart(current[0])
    requires rest == [] || !(IsOverloadPart(rest[0]) && PartName(rest[0]) == PartName(current[0]))
    ensures Resume(current, rest) == [Wrap(current)] + Coalesce(rest)
  {
    assert RunLength(rest, PartName(current[0])) == 0;
    assert current + rest[..0] == current;
    assert rest[0..] == rest;
  }

  /** A Decorator opens a run. */
  lemma ResumeOpened(rest: seq<Statement>)
    requires rest != [] && rest[0].Decorator?
    ensures Coalesce(rest) == Resume([rest[0]], rest[1..])
  {
    var n := RunLength(rest[1..], rest[0].func.name);
    assert rest[..n + 1] == [rest[0]] + rest[1..][..n];
    assert rest[n + 1..] == rest[1..][n..];
  }

  /** The scan's state is consistent: the open run and its name are
      absent together, and an open run was opened by a Decorator. */
  predicate Open(current: seq<Statement>, currentName: Option<string>) {
    && (currentName.None? <==> current == [])
    && (current != [] ==> current[0].Decorator? && currentName.value == PartName(current[0]))
  }

  /** `ret.append` of the completed run, if there is one. */
  method Flush(ret: seq<Statement>, current: seq<Statement>) returns (out: seq<Statement>)
    ensures current == [] ==> out == ret
    ensures current != [] ==> out == ret + [Wrap(current)]
  {
    out := ret;
    if |current| == 1 {
      out := out + [current[0]];
    } else if |current| > 1 {
      out := out + [OverloadedFuncDef(current)];
    }
  }

  /** One turn of the scan, reading `rest[0]`. */
  method ScanTurn(ret: seq<Statement>, current: seq<Statement>, currentName: Option<string>,
                  ghost rest: seq<Statement>, stmt: Statement)
    returns (ret': seq<Statement>, current': seq<Statement>, currentName': Option<string>)
    requires Open(current, currentName) && rest != [] && rest[0] == stmt
    ensures Open(current', currentName')
    ensures ret' + Resume(current', rest[1..]) == ret + Resume(current, rest)
  {
    if currentName.Some? && IsOverloadPart(stmt) && PartName(stmt) == currentName.value {
      ResumeContinued(current, rest);
      ret' := ret;
      current' := current + [stmt];
      currentName' := currentName;
    } else {
      ret', current', currentName' := StartTurn(ret, current, currentName, rest, stmt);
    }
  }

  /** A turn whose statement does not continue the open run: the run is
      flushed, and the statement opens the next run or is emitted. */
  method StartTurn(ret: seq<Statement>, current: seq<Statement>, currentName: Option<string>,
                   ghost rest: seq<Statement>, stmt: Statement)
    returns (ret': seq<Statement>, current': seq<Statement>, currentName': Option<string>)
    requires Open(current, currentName) && rest != [] && rest[0] == stmt
    requires !(currentName.Some? && IsOverloadPart(stmt) && PartName(stmt) == currentName.value)
    ensures Open(current', currentName')
    ensures ret' + Resume(current', rest[1..]) == ret + Resume(current, rest)
  {
    var flushed := Flush(ret, current);
    ResumeFlushed(ret, flushed, current, rest);
    if stmt.Decorator? {
      ResumeOpened(rest);
      ret', current', currentName' := flushed, [stmt], Some(stmt.func.name);
    } else {
      CoalesceSingle(rest);
      AppendAssoc(flushed, [stmt], Coalesce(rest[1..]));
      ret', current', currentName' := flushed + [stmt], [], None;
    }
  }

  /** Flushing a run the next statement does not continue leaves the same
      output to come. */
  lemma ResumeFlushed(ret: seq<Statement>, flushed: seq<Statement>, current: seq<Statement>, rest: seq<Statement>)
    requires current == [] || IsOverloadPart(current[0])
    requires current == [] ==> flushed == ret
    requires current != [] ==> flushed == ret + [Wrap(current)]
    requires current != [] && rest != [] ==> !(IsOverloadPart(rest[0]) && PartName(rest[0]) == PartName(current[0]))
    ensures flushed + Coalesce(rest) == ret + Resume(current, rest)
  {
    if current != [] {
      ResumeClosed(current, rest);
      AppendAssoc(ret, [Wrap(current)], Coalesce(rest));
    }
  }

  /** A statement other than a Decorator is emitted as it is. */
  lemma CoalesceSingle(rest: seq<Statement>)
    requires rest != [] && !rest[0].Decorator?
    ensures Coalesce(rest) == [rest[0]] + Coalesce(rest[1..])
  {
  }

  /** The scan of fix_function_overloads. */
  method FixFunctionOverloads(stmts: seq<Statement>) returns (ret: seq<Statement>)
    ensures ret == Coalesce(stmts)
  {
    ret := [];
    var currentOverload: seq<Statement> := [];
    var currentOverloadName: Option<string> := None;
    for i := 0 to |stmts|
      invariant Open(currentOverload, currentOverloadName)
      invariant ret + Resume(currentOverload, stmts[i..]) == Coalesce(stmts)
    {
      assert stmts[i..][1..] == stmts[i + 1..];
      ret, currentOverload, currentOverloadName :=
        ScanTurn(ret, currentOverload, currentOverloadName, stmts[i..], stmts[i]);
    }
    if currentOverload != [] {
      ResumeClosed(currentOverload, []);
    }
    ret := Flush(ret, currentOverload);
  }
}
