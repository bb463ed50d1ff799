# mypy's fast parser converter, modelled in Dafny

mypy's `fastparse` module turns the tree that the `typed_ast` parser produces
into mypy's own syntax tree. Along the way it reports diagnostics to an
`Errors` sink and collects the module's imports.

This project models that conversion as a deterministic tree-to-tree
translation. The modelled parts are:

- the **raw tree** (`RawAst`): expressions, slices, statements, parameter
  lists, type comments, modules and the parser's outcome, restricted to the
  shapes the converter inspects;
- the **produced tree** (`Types`, `Nodes`): types, expressions, statements,
  blocks and the `MypyFile`;
- the **diagnostics**, as an appended sequence of (line, column, message,
  severity) entries (`Common`);
- the **type-expression evaluator** (`TypeConverter`): `TypeConverter`,
  `stringify_name` and `parse_type_comment`. The converter's `node_stack` is
  only ever read through `parent()`, so it is an explicit `parent` argument.
  The loops of `visit_Call` are also written as methods, proved to compute the
  functions;
- the **expression converter** (`ExprConverter`): the expression visitors
  of `ASTConverter`. They report nothing, so they are pure functions;
- the **overload coalescer** (`Overloads`): `fix_function_overloads`.
  - `Coalesce` states the result run by run.
  - `FixFunctionOverloads` is the source's accumulator scan, proved equal to
    `Coalesce`.
- the **argument binder** (`ArgBinder`): `transform_args` and
  `make_argument`.
  - `ArgSlots` says where each raw argument lands, with which kind and
    default.
  - `TransformArgs` is the source's sequence of loops, proved to compute
    `BindArguments`.
- the **signature half of `do_func_def`** (`Signatures`): `no_type_check`,
  the signature type comment in its `...` and full-list forms, duplicate
  signatures, the implicit receiver type, `set_type_optional`, the arity
  checks and the `CallableType`;
- the **statement converter** (`StmtConverter`): every statement visitor as
  a function. Each returns the node, the diagnostics it reports and the
  imports it records, in visit order. `nesting` is the converter's
  `class_nesting`;
- the **stateful `ASTConverter`** (`Converter`): a class with the fields
  `classNesting`, `imports` and `errors`. Every visit method is proved to
  return the statement function's node and to record exactly its
  diagnostics and imports. It leaves `classNesting` as it found it:
  `visit_ClassDef` raises the level around the class body and lowers it
  afterwards.

The parser's results are inputs:

- a raw module or a `SyntaxError`;
- for each type comment and each string literal read as a type, either the
  parsed expression or the syntax error;
- for each function, the parsed signature comment, or its absence when the
  comment did not parse.

The options the converter reads, and the helpers it calls from modules not
modelled here, are fields of `Options.Env`:

- `check_arg_names` and `argument_elide_name` from mypy.nodes;
- `special_function_elide_names` from mypy.sharedparse.

The three helpers are uninterpreted functions.

Two rules of the code are worth naming:

- When a function has both a return annotation and a signature comment, the
  comment's return type is the one used, after the duplicate is reported
  (mypy/fastparse.py:382-383). See `SignaturesProps.CommentReturnWins`.
- `visit_Attribute` reads any attribute of a call whose callee is the name
  `super` as a `SuperExpr`, whatever the call's arguments
  (mypy/fastparse.py:963-966). See `ExprConverterProps.SuperIsRecognised`.

## Model

| member | source | states |
|---|---|---|
| Common.LineOnly | mypy/fastparse.py:264 | `set_line` with a line number only sets that line and leaves the column at its default |
| Common.Error | mypy/fastparse.py:182-183 | `fail` records a blocking report with the given message, line and column |
| Common.Advice | mypy/fastparse.py:179-180 | `note` records a note with the given message, line and column |
| Common.Strip | mypy/fastparse.py:1123 | `str.strip()` is a slice of its input with only whitespace (Python's whitespace, up to U+3000) cut off before and after it, and it starts and ends with a non-whitespace character |
| Common.OptText | mypy/fastparse.py:1102-1103 | formatting an optional constructor name into a message prints None as "None" |
| Types.Unbound | mypy/fastparse.py:1130-1131 | the type a name becomes is an unbound type with that name and no arguments |
| TypeConverter.StringifyName | mypy/fastparse.py:1187-1194 | the result exists exactly for names and attribute chains over names; it starts with the root name and ends with ".attr" |
| TypeConverter.VisitList | mypy/fastparse.py:1067-1068 | one type per expression, each the conversion of that expression |
| TypeConverter.ParseTypeComment | mypy/fastparse.py:141-152 | a syntax error gives None and one error at the given line and the error's offset; a parsed comment gives the conversion of its body with no parent |
| TypeConverter.VisitAttribute | mypy/fastparse.py:1168-1175 | `a.b` is the unbound name "a.b" exactly when `a` converts to an argument-less unbound type; otherwise it is an error type with a blocker reported |
| TypeConverter.SubscriptParams | mypy/fastparse.py:1147-1153 | a tuple index gives one parameter per element; any other index gives the single converted index |
| TypeConverter.VisitSubscript | mypy/fastparse.py:1142-1161 | a slice that is not an index is a syntax error. Otherwise the result is an unbound type exactly when the base is argument-less and unbound: it keeps the base's name, takes the index as arguments, and is marked empty-tuple exactly for `X[()]`. Anything else is an error type with a blocker |
| TypeConverter.VisitCall | mypy/fastparse.py:1070-1116 | outside a list of types, a call is an error type with a blocker. Inside one, it is an argument constructor that carries the callee's dotted name and the call's position; a callee without a name is reported |
| TypeConverter.MisplacedConstructor | mypy/fastparse.py:1075-1081 | a blocking error, followed by a suggestion exactly when the callee has a name |
| TypeConverter.ConstructorStart | mypy/fastparse.py:1082-1087 | the loops start with no type and no name; they start with nothing reported exactly when the callee has a name, and otherwise with a blocker |
| TypeConverter.ArgConstructor | mypy/fastparse.py:1085-1116 | the constructor built inside a list of types carries the callee's name and the call's position; a nameless callee is reported |
| TypeConverter.PositionalStep | mypy/fastparse.py:1088-1097 | one turn of the positional loop only adds reports, never removes one |
| TypeConverter.CallPositional | mypy/fastparse.py:1088-1097 | the positional loop only adds reports |
| TypeConverter.KeywordStep | mypy/fastparse.py:1098-1115 | one turn of the keyword loop only adds reports; afterwards a type is held exactly when one was held before or the keyword is `type=` |
| TypeConverter.CallKeywords | mypy/fastparse.py:1098-1115 | the keyword loop only adds reports and never loses a type already given |
| TypeConverter.ExtractArgumentName | mypy/fastparse.py:1121-1128 | a name exists exactly for a string literal, and is its stripped text; nothing is reported exactly for a string or the constant None; anything else is reported as a blocker |
| TypeConverter.ConvertArgConstructor | mypy/fastparse.py:1085-1116 | the source's two loops that update `typ` and `name` compute the argument constructor `ArgConstructor` describes |
| TypeConverter.ScanPositional | mypy/fastparse.py:1088-1097 | the `for i, arg in enumerate(e.args)` loop computes the positional-loop function from the start state |
| TypeConverter.ScanKeywords | mypy/fastparse.py:1098-1115 | the `for k in e.keywords` loop computes the keyword-loop function |
| TypeConverter.KeywordTurn | mypy/fastparse.py:1099-1115 | the loop body for one keyword computes one keyword step |
| TypeConverterProps.ErrorTypesAreReported | mypy/fastparse.py:1030-1044 | whenever the evaluator's result contains `AnyType(from_error)` at any depth, a blocking error was reported |
| TypeConverterProps.ListErrorsAreReported | mypy/fastparse.py:1067-1068 | an error type anywhere in a converted list comes with a reported blocker |
| TypeConverterProps.ParamsErrorsAreReported | mypy/fastparse.py:1147-1153 | an error type among a subscript's parameters comes with a reported blocker |
| TypeConverterProps.ConstructorErrorsAreReported | mypy/fastparse.py:1085-1116 | an error type inside an argument constructor comes with a reported blocker |
| TypeConverterProps.PositionalLoopIsSound | mypy/fastparse.py:1088-1097 | the positional loop keeps the invariant "an error type held comes with a reported blocker" |
| TypeConverterProps.KeywordLoopIsSound | mypy/fastparse.py:1098-1115 | the keyword loop keeps the same invariant |
| TypeConverterProps.KeywordStepIsSound | mypy/fastparse.py:1099-1115 | one keyword step keeps the same invariant |
| TypeConverterProps.VisitShapes | mypy/fastparse.py:1130-1184 | a name is an unbound type at the converter's line; a constant is an unbound type at the default line; `...` is an EllipsisType; a tuple and a list become a TupleType and a TypeList of their converted elements, with the container as parent. A shape without a visit method is an error type and one error at the converter's line and the node's column |
| TypeConverterProps.StringShapes | mypy/fastparse.py:1137-1139 | a string read as a type is an error type with the syntax error reported when it does not parse, and otherwise the conversion of what it parses to |
| TypeConverterProps.DottedNameConverts | mypy/fastparse.py:1168-1172 | a dotted name converts, with no report, to the unbound type with the name `stringify_name` spells |
| TypeConverterProps.ExtraPositionalsReported | mypy/fastparse.py:1095-1097 | from the third positional argument on, each argument adds one "Too many arguments" error at the callee, and nothing else changes |
| TypeConverterProps.PositionalArguments | mypy/fastparse.py:1088-1097 | the positional loop in closed form: argument 0 gives the type and argument 1 the name; the reports are those of the two, then one "Too many arguments" per further argument |
| TypeConverterProps.UnexpectedKeywordReported | mypy/fastparse.py:1112-1115 | a keyword other than `name` and `type` is reported as unexpected, at its value's position |
| TypeConverterProps.NameAgainReported | mypy/fastparse.py:1100-1104 | `name=` replaces the name and keeps the type; when a name is already held it is reported as given twice, otherwise only the name's own reports are added |
| TypeConverterProps.TypeAgainReported | mypy/fastparse.py:1105-1108 | `type=` met when a type is already held is reported as given twice, at the callee |
| TypeConverterProps.RepeatedTypeReported | mypy/fastparse.py:1098-1111 | a `type=` keyword reached after a type was given, in the state or by an earlier `type=`, is reported as given twice |
| TypeConverterProps.TypeGivenTwice | mypy/fastparse.py:1088-1111 | in a constructor whose type is given positionally and by `type=`, or by two `type=`, the repetition is reported |
| TypeConverterProps.GenericExample | mypy/fastparse.py:1142-1158 | `List[int]` converts to `List` with the argument `int`, with no reports |
| TypeConverterProps.EmptyTupleIndexExample | mypy/fastparse.py:1147-1151 | `Tuple[()]` has no arguments and the empty-tuple mark |
| TypeConverterProps.ArgConstructorExample | mypy/fastparse.py:1088-1094 | `Arg(int, ' x ')` inside a list of types has type `int` and name `x` |
| TypeConverterProps.StripExample | mypy/fastparse.py:1123 | stripping `" x "` gives `"x"` |
| TypeConverterProps.WideStripExample | mypy/fastparse.py:1123 | stripping an ideographic space (U+3000) before `x` gives `"x"` |
| TypeConverterProps.ExamplePositionals | mypy/fastparse.py:1088-1094 | the positional loop over `int, ' x '` ends with type `int`, name `x` and no reports |
| TypeConverterProps.MisplacedConstructorExample | mypy/fastparse.py:1075-1081 | `Arg(int)` outside a list of types is an error type, with the error and then the suggestion at the converter's line |
| TypeConverterProps.SuggestionExample | mypy/fastparse.py:1078-1079 | the suggestion reads "Suggestion: use Arg[...] instead of Arg(...)" |
| ExprConverter.Spine | mypy/fastparse.py:746-751 | the operands read off a right-nested chain number between 1 and its depth + 1 |
| ExprConverter.Group | mypy/fastparse.py:746-751 | `group` builds a right-nested chain of `len(vals) - 1` OpExpr nodes, all with one operator and the BoolOp's position; its operands read back as `vals` |
| ExprConverter.Convert | mypy/fastparse.py:196-199 | every converted expression carries its raw position, except a NameConstant, which keeps the default position |
| ExprConverter.ConvertList | mypy/fastparse.py:201-207 | one expression per raw expression, each its conversion, in order |
| ExprConverter.ConvertOpt | mypy/fastparse.py:185-187 | `visit(None)` is None, and anything else converts |
| ExprConverter.ConvertSlice | mypy/fastparse.py:1004-1015 | Slice and ExtSlice never get a position |
| ExprConverter.ConvertCall | mypy/fastparse.py:871-884 | a call becomes a CallExpr at the call's position, with three parallel lists of length `len(args) + len(keywords)` |
| ExprConverterProps.BoolOpFoldsRight | mypy/fastparse.py:732-751 | `a and b and c` is a right-nested chain of `len(values) - 1` nodes with one operator; its operands read back as the converted values |
| ExprConverterProps.GroupOfThree | mypy/fastparse.py:746-751 | `group` over three operands is `a op (b op c)` |
| ExprConverterProps.ChainIsGroup | mypy/fastparse.py:746-751 | the right fold is the only chain with that operator, position and operands |
| ExprConverterProps.CallArgumentsAreParallel | mypy/fastparse.py:871-884 | positional entries come first: a starred one is unwrapped and tagged ARG_STAR, others are ARG_POS, and none has a name. Keyword entries follow: ARG_STAR2 when nameless, ARG_NAMED otherwise, named by the keyword |
| ExprConverterProps.CompareArity | mypy/fastparse.py:863-867 | a comparison has one operator fewer than operands; the left operand comes first, and every operator is translated |
| ExprConverterProps.StoreListIsTuple | mypy/fastparse.py:987-994 | a list becomes a tuple exactly in a store context, and a list otherwise, with the same items |
| ExprConverterProps.SuperIsRecognised | mypy/fastparse.py:961-969 | an attribute is a SuperExpr exactly when its value is a call to the name `super`, and a MemberExpr otherwise; both keep the name and the converted value |
| ExprConverterProps.FormattedValueIsFormatCall | mypy/fastparse.py:927-941 | a formatted value is `'{}'.format(v)`, with `v` converted and moved to the formatted value's position |
| ExprConverterProps.JoinedStrExample | mypy/fastparse.py:911-924 | `f"x = {x}"` is `''.join(['x = ', '{}'.format(x)])` |
| ExprConverterProps.OperatorTextIsInjective | mypy/fastparse.py:217-238 | no two binary operators have the same text |
| ExprConverterProps.CompOperatorTextIsInjective | mypy/fastparse.py:240-258 | no two comparison operators have the same text |
| Overloads.RunLength | mypy/fastparse.py:277-281 | the longest prefix of definitions with the given name: every entry in it has that name, and the next statement does not continue it |
| Overloads.Wrap | mypy/fastparse.py:283-286 | a run of one is emitted as itself, a longer run as an OverloadedFuncDef of the run |
| Overloads.ResumeContinued | mypy/fastparse.py:278-281 | a statement of the open run's name joins the run |
| Overloads.ResumeClosed | mypy/fastparse.py:282-286 | a statement that does not continue the run completes it |
| Overloads.ResumeOpened | mypy/fastparse.py:288-290 | a Decorator opens a run |
| Overloads.Flush | mypy/fastparse.py:283-286 | an empty run emits nothing, and any other run is emitted wrapped |
| Overloads.ScanTurn | mypy/fastparse.py:277-294 | one turn of the scan keeps the scan's state consistent and leaves the output to come unchanged |
| Overloads.StartTurn | mypy/fastparse.py:282-294 | a turn that flushes the run and then opens a new one or emits the statement keeps the same invariant |
| Overloads.ResumeFlushed | mypy/fastparse.py:283-294 | flushing a completed run leaves the output to come unchanged |
| Overloads.CoalesceSingle | mypy/fastparse.py:291-294 | a statement that is not a Decorator, and does not continue a run, is emitted as it is |
| Overloads.FixFunctionOverloads | mypy/fastparse.py:273-300 | the scan with its accumulator, its open run and the run's name computes `Coalesce` of its input |
| OverloadsProps.RunIsWrapped | mypy/fastparse.py:283-290 | the run a Decorator opens is emitted as the Decorator itself or as a well-formed group, and its parts are exactly the run |
| OverloadsProps.CoalesceHead | mypy/fastparse.py:277-294 | the first output statement is the first input statement or a group |
| OverloadsProps.ExpandUndoesCoalesce | mypy/fastparse.py:273-300 | expanding every group of the output back into its parts gives exactly the input: nothing is lost or reordered |
| OverloadsProps.GroupsAreWellFormed | mypy/fastparse.py:278-299 | every group has at least two parts, all with one name, and the first is a Decorator |
| OverloadsProps.NoMergeIsIdentity | mypy/fastparse.py:288-299 | when no Decorator is directly followed by a definition of its name, the output is the input |
| OverloadsProps.MergeMakesGroup | mypy/fastparse.py:278-286 | a Decorator directly followed by a definition of its name ends up in a group |
| OverloadsProps.IdentityIffNoMerge | mypy/fastparse.py:273-300 | for a list with no groups, the output equals the input exactly when nothing needs merging |
| OverloadsProps.CoalescedHasNoMerge | mypy/fastparse.py:273-300 | the output has nothing left to merge |
| OverloadsProps.CoalesceIsIdempotent | mypy/fastparse.py:273-300 | merging twice is merging once |
| OverloadsProps.OverloadExample | mypy/fastparse.py:277-299 | `@overload def f`, `def f`, `def f`, `@d def g` gives one group of three and the Decorator of g; two bare definitions of f stay apart |
| ArgBinder.PositionalSlots | mypy/fastparse.py:461-465 | the first `len(args) - len(defaults)` arguments come without defaults |
| ArgBinder.OptionalSlots | mypy/fastparse.py:468-470 | one slot per default |
| ArgBinder.KeywordOnlySlots | mypy/fastparse.py:478-484 | one slot per keyword-only argument |
| ArgBinder.ArgSlots | mypy/fastparse.py:461-489 | every default in the parameter list is well formed |
| ArgBinder.SlotArgs | mypy/fastparse.py:460-489 | `names` holds the raw argument of each slot, in order |
| ArgBinder.ArgumentType | mypy/fastparse.py:500-506 | the annotation converted at the argument's line; failing that, the type comment parsed at that line; failing that, no type |
| ArgBinder.MakeArgument | mypy/fastparse.py:495-507 | name, kind and converted default come from the slot. Under no_type_check there is no type and no report. Otherwise the type is the argument's declared type, and the reports are a duplicate-signature error at the argument exactly when it has both an annotation and a type comment, followed by the reports of reading the declared type |
| ArgBinder.MakeAll | mypy/fastparse.py:463-489 | one argument per slot, each made from its slot |
| ArgBinder.MakeAllAppend | mypy/fastparse.py:464 | making one more argument appends it and its reports |
| ArgBinder.AddArgument | mypy/fastparse.py:464-465 | one `new_args.append` with its `names.append` keeps both lists equal to those made from the slots so far |
| ArgBinder.AddPositional | mypy/fastparse.py:463-465 | the first loop builds the arguments and names of the positional slots |
| ArgBinder.AddOptional | mypy/fastparse.py:468-470 | the second loop appends the arguments and names of the defaulted slots |
| ArgBinder.AddKeywordOnly | mypy/fastparse.py:478-484 | the fourth loop appends the arguments and names of the keyword-only slots |
| ArgBinder.TransformArgs | mypy/fastparse.py:454-493 | the source's successive loops and `check_arg_names` compute `BindArguments` |
| ArgBinderProps.SlotAt | mypy/fastparse.py:461-489 | the slot at each position, by group: positional, defaulted with the matching default, `*args`, keyword-only with its kw_default, `**kwargs` |
| ArgBinderProps.ArgumentCount | mypy/fastparse.py:461-489 | the length is `len(args) + len(kwonlyargs)`, plus one for each of `*args` and `**kwargs` |
| ArgBinderProps.ArgumentsFollowSlots | mypy/fastparse.py:464-488 | each argument has its slot's name and kind and the converted default |
| ArgBinderProps.RankIsGroupRank | mypy/fastparse.py:461-489 | each argument's kind ranks as the group its position falls in |
| ArgBinderProps.SlotRank | mypy/fastparse.py:461-489 | each slot's kind ranks as its group |
| ArgBinderProps.KindsAreOrdered | mypy/fastparse.py:461-489 | the kinds follow `ARG_POS* ARG_OPT* ARG_STAR? (ARG_NAMED\|ARG_NAMED_OPT)* ARG_STAR2?`: ranks never decrease, and neither star kind repeats |
| ArgBinderProps.KindPositions | mypy/fastparse.py:461-489 | ARG_POS is exactly the first `len(args) - len(defaults)` positions; ARG_OPT the rest of `args`; ARG_STAR the position after them; a keyword-only argument is ARG_NAMED exactly when its default is None; ARG_STAR2 is last |
| ArgBinderProps.CountOnInterval | mypy/fastparse.py:461-489 | a kind held exactly on an interval of positions occurs as often as the interval is long |
| ArgBinderProps.KindCounts | mypy/fastparse.py:461-470 | there are `len(defaults)` ARG_OPT entries and `len(args) - len(defaults)` ARG_POS entries |
| ArgBinderProps.NoTypeCheckDropsTypes | mypy/fastparse.py:497-498 | under no_type_check no argument has a type, and only `check_arg_names` reports anything |
| ArgBinderProps.NoTypeCheckReportsNothing | mypy/fastparse.py:497-498 | under no_type_check, making the arguments reports nothing |
| Signatures.UnparsedSignature | mypy/fastparse.py:388-394 | a comment that does not parse makes every argument type and the return type error types; it reports a syntax error at the definition, plus a hint exactly when the comment does not start with `(` |
| Signatures.CommentArgTypes | mypy/fastparse.py:365-381 | the `...` form gives one type per argument and reports nothing; the full-list form converts the comment's list |
| Signatures.CommentSignature | mypy/fastparse.py:382-383 | the return type is the comment's, converted at the definition's line |
| Signatures.DeclaredSignature | mypy/fastparse.py:357-398 | under no_type_check, no argument type, no return type and no report. A comment that did not parse gives the unparsed signature, and a parsed one the comment's signature. Without a comment, the argument types are the arguments' annotations and the return type is the return annotation converted at its own line, with its reports, or none and no report |
| Signatures.SetTypeOptional | mypy/fastparse.py:446-452 | with implicit Optional on, an unbound type becomes Optional exactly when the default is the name `None`; every other type, and every type with the option off, is unchanged |
| Signatures.OptionalTypes | mypy/fastparse.py:400-401 | the types paired with an argument are marked, and types beyond the arguments are kept |
| Signatures.MarkedArguments | mypy/fastparse.py:400-401 | where the type list holds the arguments' own annotations, the arguments' annotations are marked too; otherwise the arguments are unchanged |
| Signatures.ArgNames | mypy/fastparse.py:352-355 | elided names become None, and a special function elides them all |
| Signatures.SignFunction | mypy/fastparse.py:346-419 | the arguments keep their names, kinds and defaults |
| SignaturesProps.NoTypeCheckDecoratorNames | mypy/fastparse.py:155-161 | only `no_type_check` and `typing.no_type_check` are such decorators; another qualifier or a longer path is not |
| SignaturesProps.NoTypeCheckSuppresses | mypy/fastparse.py:357-359 | under no_type_check there is no function type and no report, and the arguments are unchanged |
| SignaturesProps.FuncTypeBuiltIff | mypy/fastparse.py:403-419 | a CallableType is built exactly when some type is given, `...` is not among other types, and the counts agree. Nothing is reported exactly when it is built or no type was given |
| SignaturesProps.ArityFailures | mypy/fastparse.py:404-411 | the failing checks, tried in order: ellipsis mixing, then too many, then too few; each gives no type and one error at column 0 of the definition's line |
| SignaturesProps.FuncTypeShape | mypy/fastparse.py:413-419 | the built type has one type, kind and name per argument; absent types and an absent return type are `AnyType(unannotated)`; it is placed at the definition's line |
| SignaturesProps.ImplicitSelf | mypy/fastparse.py:385-387 | inside a class, a comment with fewer types than arguments gets exactly one `AnyType(special_form)` in front; otherwise the types are kept as they are |
| SignaturesProps.ImplicitSelfDecidesArity | mypy/fastparse.py:385-411 | a full-list comment that leaves out the receiver has the right count inside a class, and yields no function type elsewhere |
| SignaturesProps.DuplicateSignature | mypy/fastparse.py:365-383 | inline types beside a full-list comment are a duplicate signature, and under the `...` form only a return annotation is. The reports are the duplicate error at the definition exactly when there is a duplicate, then the argument list's reports, then the return type's |
| SignaturesProps.EllipsisKeepsAnnotations | mypy/fastparse.py:365-373 | under the `...` form, annotated arguments keep their annotation and the others are `AnyType(unannotated)`; only the return type reports |
| SignaturesProps.CommentReturnWins | mypy/fastparse.py:367-383 | with both a return annotation and a comment, the comment's return type is used and the duplicate is reported first |
| SignaturesProps.UnparsedCommentIsErrorTyped | mypy/fastparse.py:388-394 | an unparsable comment types every argument and the result as errors, still builds the signature, and reports the syntax error first |
| SignaturesProps.MarkingIsShared | mypy/fastparse.py:396-401 | where the types are the arguments' own annotations, the function type and the argument see the same marked type |
| SignaturesProps.OptionalOnlyForNoneDefault | mypy/fastparse.py:446-452 | only an unbound type of an argument defaulting to `None` becomes Optional, and only while implicit Optional is on |
| StmtConverter.TranslateModuleId | mypy/fastparse.py:305-316 | the custom typing module is `typing`; under Python 2, `__builtin__` is `builtins`; any other id is unchanged |
| StmtConverter.ImportNameOf | mypy/fastparse.py:672-680 | the module is translated; an explicit alias is kept; without one, the original name becomes the alias exactly when the translation changed the name |
| StmtConverter.ImportNames | mypy/fastparse.py:672-680 | one entry per alias, in order |
| StmtConverter.ConvertLeaf | mypy/fastparse.py:534-727 | a statement without a body records no import |
| StmtConverter.ClassKeywords | mypy/fastparse.py:519-520 | only keywords with a non-empty name are kept |
| StmtConverter.Metaclass | mypy/fastparse.py:526 | a metaclass exists exactly when some keyword is named `metaclass` |
| StmtConverter.ConvertStmts | mypy/fastparse.py:209-215 | one statement per statement |
| StmtConverter.StmtsSnoc | mypy/fastparse.py:211-214 | converting one more statement appends its node, its reports and its imports |
| StmtConverter.AsRequiredBlock | mypy/fastparse.py:267-271 | the block is positioned at the given line, with the column unset |
| StmtConverter.AsBlock | mypy/fastparse.py:260-265 | there is no block exactly when there are no statements |
| StmtConverter.ConvertHandlers | mypy/fastparse.py:654 | one block per handler |
| StmtConverter.HandlersSnoc | mypy/fastparse.py:654 | one more handler appends its block, reports and imports |
| StmtConverter.WithNode | mypy/fastparse.py:626-627 | one context expression and one target per item, each converted, in two parallel lists |
| StmtConverter.TryNode | mypy/fastparse.py:652-653 | one variable and one type per handler: a variable exactly when the handler names one, and then a bare name |
| StmtConverter.ClassNode | mypy/fastparse.py:522-527 | the class keeps its name, takes the converted body and keywords, and takes the metaclass from the keywords |
| StmtConverter.ConvertModule | mypy/fastparse.py:318-325 | the file's imports are the ones recorded while converting it, and it is not marked BOM |
| StmtConverter.ParseModule | mypy/fastparse.py:131-133 | a syntax error gives an empty file and exactly one blocker, at the error's line and offset |
| StmtConverterProps.ImportTranslated | mypy/fastparse.py:670-683 | `import` reports nothing and records its node; the node is at the statement's position with one translated entry per alias, and gets the implicit alias when a name was translated |
| StmtConverterProps.ImportFromTranslated | mypy/fastparse.py:686-696 | a lone `*` gives an ImportAll of the module as written; otherwise the module is translated, the level kept and the names kept as written. The node is recorded and nothing is reported |
| StmtConverterProps.ImportAliasExamples | mypy/fastparse.py:305-316 | `import mytyping` becomes `import typing as mytyping`; under Python 2, `import __builtin__` becomes `import builtins as __builtin__`; under Python 3 it is unchanged |
| StmtConverterProps.DeleteTargets | mypy/fastparse.py:539-546 | `del a, b` deletes a tuple of the converted targets, at the statement's line with the column unset; `del a` deletes the target itself; nothing is reported |
| StmtConverterProps.AnnotatedAssignment | mypy/fastparse.py:560-569 | an annotated assignment is new syntax with the converted target; its type is the annotation converted at the statement's line, and it reports what that conversion reports; without a value, the right side is a special-form temporary with no right-hand side |
| StmtConverterProps.LeafIsNotGroup | mypy/fastparse.py:534-727 | a statement without a body never converts to an overload group |
| StmtConverterProps.StmtsElement | mypy/fastparse.py:209-215 | the i-th statement of the list is the conversion of the i-th raw statement |
| StmtConverterProps.ConvertedIsNotGroup | mypy/fastparse.py:209-215 | no visited statement is an overload group; only the merge makes those |
| StmtConverterProps.DefinitionIsNotGroup | mypy/fastparse.py:332-697 | definitions and imports never convert to a group |
| StmtConverterProps.LoopOrIfIsNotGroup | mypy/fastparse.py:579-618 | loops and conditionals never convert to a group |
| StmtConverterProps.WithOrTryIsNotGroup | mypy/fastparse.py:621-662 | with and try never convert to a group |
| StmtConverterProps.BlockKeepsStatements | mypy/fastparse.py:267-271 | expanding the groups of a required block gives back the converted statements, in order |
| StmtConverterProps.ForBlocks | mypy/fastparse.py:579-589 | the body is a required block at the statement's line; the else-block is absent exactly when there are no else statements; the type comment reports first, then the body, then the else-block |
| StmtConverterProps.WhileBlocks | mypy/fastparse.py:606-610 | the body is at the statement's line, and the else-block is absent exactly when there are no else statements |
| StmtConverterProps.IfBlocks | mypy/fastparse.py:613-618 | one condition and one body, at the statement's line; the else-block is absent exactly when there are no else statements |
| StmtConverterProps.HandlersElement | mypy/fastparse.py:654 | the i-th handler block is the i-th handler's body as a required block at that handler's line |
| StmtConverterProps.TryHandlers | mypy/fastparse.py:651-662 | the variables, types and handler blocks run parallel to the handlers, each block at its handler's line; the finally-block is absent exactly when empty; the handler bodies report before anything else |
| StmtConverterProps.DefinitionPlacement | mypy/fastparse.py:421-444 | an undecorated def is a FuncDef at its position, with its body at its line. A decorated one is a Decorator at the def's position: the FuncDef and its body move to `lineno + len(decorator_list)`, the Var line is the first decorator's, and the decorators are converted |
| StmtConverterProps.DefSignedInClass | mypy/fastparse.py:346-424 | the FuncDef takes its arguments and type from transform_args and the signature, signed as a method exactly when inside a class; it reports the argument reports, then the signature's, then the body's |
| StmtConverterProps.ClassBodyDeeper | mypy/fastparse.py:517-531 | the class body is a required block converted one class level deeper, with its reports and imports, and nothing lost by merging; the metaclass comes from the keywords |
| StmtConverterProps.MethodSignedInClass | mypy/fastparse.py:386-387 | at class level or deeper, every def of a statement list is signed as a method |
| StmtConverterProps.MetaclassIsLast | mypy/fastparse.py:526 | `dict(keywords).get('metaclass')` is the value of the last `metaclass` entry |
| StmtConverterProps.ClassKeywordsKept | mypy/fastparse.py:519-520 | named keywords are all kept, in order, with their values converted |
| StmtConverterProps.ClassKeywordsDropped | mypy/fastparse.py:519-520 | nameless keywords (`**kwargs`) are dropped |
| StmtConverterProps.ModuleKeepsStatements | mypy/fastparse.py:318-325 | the module's statements expand back to the converted ones; its imports are every import recorded; its ignored lines are exactly the type-ignore lines |
| Converter.ASTConverter.constructor | mypy/fastparse.py:165-174 | a fresh converter has class level 0, no imports and no reports |
| Converter.ASTConverter.VisitStmt | mypy/fastparse.py:185-194 | `visit` on a statement returns the statement function's node, records exactly its reports and imports, and restores the class level |
| Converter.ASTConverter.VisitDefinition | mypy/fastparse.py:332-697 | the same, for defs, classes and imports |
| Converter.ASTConverter.VisitLoopOrIf | mypy/fastparse.py:579-618 | the same, for the loops and the conditional |
| Converter.ASTConverter.VisitWithOrTry | mypy/fastparse.py:621-662 | the same, for with and try |
| Converter.ASTConverter.VisitLeaf | mypy/fastparse.py:534-727 | the statements without a body of their own return the leaf function's node and record exactly its reports, and no import |
| Converter.ASTConverter.TranslateStmtList | mypy/fastparse.py:209-215 | the loop returns the converted statements and records their reports and imports in order |
| Converter.ASTConverter.AsRequiredBlock | mypy/fastparse.py:267-271 | returns the required block, merged, at the given line, and records what its statements record |
| Converter.ASTConverter.AsBlock | mypy/fastparse.py:260-265 | returns no block for no statements, and the block otherwise |
| Converter.ASTConverter.VisitClassDef | mypy/fastparse.py:517-531 | raises the class level for the body and lowers it afterwards: the node is the class function's, whose body is converted one level deeper, and the level ends where it began |
| Converter.ASTConverter.VisitFunctionDef | mypy/fastparse.py:332-444 | returns the definition's FuncDef or Decorator and records its reports |
| Converter.ASTConverter.VisitImport | mypy/fastparse.py:670-683 | appends the import to `imports` and returns it |
| Converter.ASTConverter.VisitImportFrom | mypy/fastparse.py:686-696 | appends the ImportFrom or ImportAll to `imports` and returns it |
| Converter.ASTConverter.VisitFor | mypy/fastparse.py:579-603 | returns the for statement's node and records its reports in visit order |
| Converter.ASTConverter.VisitWhile | mypy/fastparse.py:606-610 | returns the while statement's node and records its reports |
| Converter.ASTConverter.VisitIf | mypy/fastparse.py:613-618 | returns the if statement's node and records its reports |
| Converter.ASTConverter.VisitWith | mypy/fastparse.py:621-643 | returns the with statement's node and records its reports |
| Converter.ASTConverter.VisitTry | mypy/fastparse.py:651-662 | records the handler bodies first, then the body, the else-block and the finally-block |
| Converter.ASTConverter.VisitHandlers | mypy/fastparse.py:654 | one required block per handler, at its line, with their reports in order |
| Converter.ASTConverter.VisitModule | mypy/fastparse.py:318-325 | the file holds the merged statements, every import the converter has recorded, and the set of type-ignore lines |
| Converter.Parse | mypy/fastparse.py:98-138 | a fresh converter visits the parsed module; on a syntax error, the single report is that error |

## Left out

- The `typed_ast` parser calls (`ast3.parse` for the module, type comments
  and signature comments) are foreign code. Their results, or the
  `SyntaxError` they raise, are inputs carried by the raw tree.
- The import-time fallback when `typed_ast` is missing, and the `_overload`
  shim, are environment plumbing.
- The `visitor_cache`/`getattr` dispatch is reflection. It is a `match` on the
  raw datatype. The only case kept from `TypeConverter.visit` is "a shape
  without a visit method is an error and `AnyType(from_error)`".
- The internals of `Errors` are a sink. So are `errors.set_file` and
  `parse`'s raise-on-error wrapper.
  - Reports are an appended sequence of (line, column, message, severity).
  - `TypeConverter.fail` always reports, because within this module it is
    always given an `Errors`.
  - `parse_type_comment`'s re-raise when no `Errors` is given cannot happen
    here.
- `is_stub`, the `.pyi` feature version, `tree.path` and `tree.is_stub`
  concern the file name and the parser version only.
- Converter.Parse: does not model the assertion that a file that is not a
  stub is parsed for Python 3 or later (mypy/fastparse.py:119). The model
  converts under `pythonMajor == 2` as well. In mypy that case is reached
  only for `.pyi` stubs, so the `__builtin__` translation of
  `StmtConverter.TranslateModuleId` only matters there.
- `visit_Num`'s float and complex literals are floating point; only integers
  are modelled. `visit_Bytes` depends on Python's `repr`. Lambda, Dict,
  comprehensions and generator expressions are not modelled: the raw tree
  has no such shapes.
- `check_arg_names`, `argument_elide_name` and `special_function_elide_names`
  live in modules that are not part of this model. They are uninterpreted
  fields of `Env`.
- `CallableType.copy_modified`, `unanalyzed_type`, the `definition`
  back-reference, `_dummy_fallback`,
  `Var.is_ready` and the positions `set_line` gives to the arguments of a
  FuncDef are object plumbing. They carry no behaviour this model speaks
  about.
- `StmtConverterProps.AnnotatedAssignment`: does not model
  `typ.column = n.annotation.col_offset`. Types carry a line only.
- `TypeConverter.visit_List` asserts that the list is in a load context
  (mypy/fastparse.py:1183). The type evaluator ignores the context.
- The `RuntimeError` branches for unknown operators and the assertions on
  BoolOp arity, non-empty bodies and `ImportFrom.level` are ruled out by the
  datatypes and by `WfExpr`/`WfStmt`.
- `visit_Assign`, `visit_AugAssign`, `visit_Return`, `visit_Raise`,
  `visit_Assert`, `visit_Global`, `visit_Nonlocal`, `visit_Expr`, `visit_Pass`,
  `visit_Break` and `visit_Continue` are modelled inside
  `StmtConverter.ConvertLeaf`. They have no lemmas of their own, because each
  only wraps its converted children.
- The `__init__` parameters `options`, `is_stub` and `errors` are the `Env`
  and the `errors` field.
