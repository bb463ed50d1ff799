/** The mypy types the converter builds (mypy.types), restricted to the
    fields the converter sets. */
module Types {
  import opened Common

  datatype Type =
    /** A name not yet bound to a definition, with its generic arguments. */
    | UnboundType(name: string, args: seq<Type>, line: int, emptyTupleIndex: bool, optional: bool)
    | AnyType(typeOfAny: TypeOfAny)
    /** An implicit tuple type; its fallback is patched in a later phase. */
    | TupleType(items: seq<Type>, line: int)
    /** A bracketed list of types, `[int, str]` in `Callable[[int, str], ...]`. */
    | TypeList(items: seq<Type>, line: int)
    | EllipsisType(line: int)
    /** `Arg(type, name)` inside a bracketed list of types. */
    | CallableArgument(typ: Type, argName: Option<string>, ctorName: Option<string>, line: int, column: int)

  /** The signature of a function; its fallback and its `definition`
      back-reference are filled in by later phases. */
  datatype CallableType = CallableType(
    argTypes: seq<Type>,
    argKinds: seq<ArgKind>,
    argNames: seq<Option<string>>,
    retType: Type,
    line: int)

  /** An unbound name to which no generic arguments are attached yet. */
  predicate IsArglessUnbound(t: Type) {
    t.UnboundType? && t.args == []
  }

  function Unbound(name: string, line: int): (t: Type)
    ensures IsArglessUnbound(t) && t.name == name
  {
    UnboundType(name, [], line, false, false)
  }
}
