/**
 * The values of the Rhai interpreter that cross into the modelled code.
 * The interpreter itself (parsing, evaluation, merging) is foreign; its
 * results appear here only as values.
 */
module Rhai {
  import opened Wrappers

  /**
   * `Dynamic` restricted to the kinds a configuration document holds:
   * string, integer, boolean, array, map, and unit ("no value").
   */
  datatype Value =
    | Str(s: string)
    | Int(i: int)
    | Bool(b: bool)
    | Arr(items: seq<Value>)
    | Map(entries: map<string, Value>)
    | Unit

  /** A script function as the AST lists it: its name and number of parameters. */
  datatype FnSig = FnSig(name: string, arity: nat)

  /** A compiled script: its script functions and the source tag `set_source` gives it. */
  datatype Ast = Ast(fns: set<FnSig>, source: Option<string>)

  /** A module produced by evaluating an AST: the functions and variables it exports. */
  datatype Module = Module(fns: set<FnSig>, vars: map<string, Value>)

  /** A `Scope`: ordered name/value bindings. */
  datatype Scope = Scope(bindings: seq<(string, Value)>)

  const EmptyScope := Scope([])

  /** A source position carried by errors. */
  datatype Position = Position(line: nat, col: nat) | NoPosition

  /** The chain environment pushed into the scope of an entry-point call. */
  datatype Env = Env(fields: map<string, Value>)
}
