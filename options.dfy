/** The converter's environment: the options it reads and the helpers it
    calls from modules outside this model (mypy.nodes.check_arg_names and
    mypy.sharedparse's argument_elide_name and special_function_elide_names),
    which are taken as uninterpreted functions. */
module Options {
  import opened Common
  import opened RawAst

  datatype Env = Env(
    /** options.custom_typing_module */
    customTypingModule: Option<string>,
    /** options.python_version[0] */
    pythonMajor: int,
    /** options.no_implicit_optional */
    noImplicitOptional: bool,
    /** The diagnostics `check_arg_names` reports (through `fail_arg`) for
        the raw arguments of one parameter list, in order. */
    checkArgNames: seq<RawArg> -> seq<Diagnostic>,
    /** argument_elide_name */
    argumentElideName: string -> bool,
    /** special_function_elide_names */
    specialFunctionElideNames: string -> bool)
}
