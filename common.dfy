/** Shared vocabulary of the converter: optional values, source positions,
    diagnostics as the Errors sink records them, argument kinds and the
    flavours of the dynamic type. */
module Common {

  datatype Option<+T> = None | Some(value: T)

  /** A (line, column) pair, as every mypy node (a Context) carries one. */
  datatype Pos = Pos(line: int, column: int)

  /** The position of a node that was never given one: mypy's Context
      starts with line -1 and column -1. */
  const NoPos: Pos := Pos(-1, -1)

  /** `set_line(lineno)` with an int sets the line and leaves the column
      at its default. */
  function LineOnly(line: int): (p: Pos)
    ensures p.line == line && p.column == NoPos.column
  {
    Pos(line, -1)
  }

  /** `fail` reports with blocker=True, `note` with severity 'note'. */
  datatype Severity = Blocker | Note

  /** One entry of the diagnostics sink: (line, column, message, severity). */
  datatype Diagnostic = Diagnostic(line: int, column: int, message: string, severity: Severity)

  function Error(message: string, line: int, column: int): (d: Diagnostic)
    ensures d.severity == Blocker && d.message == message
    ensures d.line == line && d.column == column
  {
    Diagnostic(line, column, message, Blocker)
  }

  function Advice(message: string, line: int, column: int): (d: Diagnostic)
    ensures d.severity == Note && d.message == message
    ensures d.line == line && d.column == column
  {
    Diagnostic(line, column, message, Note)
  }

  predicate HasBlocker(ds: seq<Diagnostic>) {
    exists i :: 0 <= i < |ds| && ds[i].severity == Blocker
  }

  /** A blocker is reported by a sequence of reports exactly when it is
      reported by one of its parts. */
  lemma BlockersOfConcat(a: seq<Diagnostic>, b: seq<Diagnostic>)
    ensures HasBlocker(a + b) <==> HasBlocker(a) || HasBlocker(b)
  {
    if HasBlocker(a) {
      var i :| 0 <= i < |a| && a[i].severity == Blocker;
      assert (a + b)[i] == a[i];
    }
    if HasBlocker(b) {
      var i :| 0 <= i < |b| && b[i].severity == Blocker;
      assert (a + b)[|a| + i] == b[i];
    }
    if HasBlocker(a + b) {
      var i :| 0 <= i < |a + b| && (a + b)[i].severity == Blocker;
      if i < |a| {
        assert a[i] == (a + b)[i];
      } else {
        assert b[i - |a|] == (a + b)[i];
      }
    }
  }

  /** Appending a blocker reports a blocker. */
  lemma BlockerAppended(ds: seq<Diagnostic>, d: Diagnostic)
    requires d.severity == Blocker
    ensures HasBlocker(ds + [d])
  {
    assert (ds + [d])[|ds|] == d;
  }

  const TypeCommentSyntaxError: string := "syntax error in type comment"
  const TypeCommentAstError: string := "invalid type comment or annotation"
  /** The text of mypy's messages.DUPLICATE_TYPE_SIGNATURES. */
  const DuplicateTypeSignatures: string := "Function has duplicate type signatures"

  /** mypy's ARG_POS, ARG_OPT, ARG_STAR, ARG_NAMED, ARG_STAR2, ARG_NAMED_OPT. */
  /** Concatenation regroups freely. */
  lemma AppendAssoc<T>(a: seq<T>, b: seq<T>, c: seq<T>)
    ensures (a + b) + c == a + (b + c)
  {
  }

  datatype ArgKind = ArgPos | ArgOpt | ArgStar | ArgNamed | ArgStar2 | ArgNamedOpt

  /** The flavours of AnyType the converter creates. */
  datatype TypeOfAny = Unannotated | SpecialForm | FromError

  /** `str(x)` of an Optional[str] inside a format string: None prints as "None". */
  function OptText(o: Option<string>): (r: string)
    ensures o.Some? ==> r == o.value
    ensures o.None? ==> r == "None"
  {
    match o
    case Some(s) => s
    case None => "None"
  }

  /** The characters `str.strip()` removes: Python's whitespace, the
      characters `str.isspace()` accepts. */
  predicate IsSpace(c: char) {
    var n := c as int;
    n == 32 || (9 <= n <= 13) || (28 <= n <= 31) || n == 0x85 || n == 0xA0 || n == 0x1680
    || (0x2000 <= n <= 0x200A) || n == 0x2028 || n == 0x2029 || n == 0x202F || n == 0x205F || n == 0x3000
  }

  function StripLeft(s: string): (r: string)
    ensures |r| <= |s| && r == s[|s| - |r|..]
    ensures forall k :: 0 <= k < |s| - |r| ==> IsSpace(s[k])
    ensures |r| > 0 ==> !IsSpace(r[0])
  {
    if |s| > 0 && IsSpace(s[0]) then StripLeft(s[1..]) else s
  }

  function StripRight(s: string): (r: string)
    ensures |r| <= |s| && r == s[..|r|]
    ensures forall k :: |r| <= k < |s| ==> IsSpace(s[k])
    ensures |r| > 0 ==> !IsSpace(r[|r| - 1])
  {
    if |s| > 0 && IsSpace(s[|s| - 1]) then StripRight(s[..|s| - 1]) else s
  }

  /** `str.strip()`: the input without its leading and trailing whitespace. */
  function Strip(s: string): (r: string)
    ensures |r| > 0 ==> !IsSpace(r[0]) && !IsSpace(r[|r| - 1])
    ensures |r| <= |s|
    ensures exists i, j ::
      && 0 <= i <= j <= |s| && r == s[i..j]
      && (forall k :: 0 <= k < i ==> IsSpace(s[k]))
      && (forall k :: j <= k < |s| ==> IsSpace(s[k]))
  {
    var left := StripLeft(s);
    var r := StripRight(left);
    var i := |s| - |left|;
    assert r == s[i..i + |r|];
    assert forall k :: i + |r| <= k < |s| ==> s[k] == left[k - i];
    r
  }
}
