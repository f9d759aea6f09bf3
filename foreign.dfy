/**
 * The code the model cannot see, as values: the zip decoder, the script
 * interpreter (compile, module evaluation, AST merge, function call) and the
 * document parsers. Each is a total function from its inputs to a result or
 * an error, so that every modelled operation is deterministic in them.
 */
module Foreign {
  import opened Wrappers
  import opened Utf8
  import opened Rhai
  import opened ZipResult

  /** An opened archive: entry name to its text, or `None` when the bytes are not UTF-8. */
  type Archive = map<string, Option<string>>

  /** A call of one of the two `storage_set` overloads made by a running script. */
  datatype StorageWrite = SetStr(key: string, val: string) | SetBlob(key: string, blob: Bytes)

  /** What calling a script function did: the storage writes it made, in order, and how it ended. */
  datatype ScriptRun = ScriptRun(writes: seq<StorageWrite>, outcome: Result<Value, string>)

  datatype Host = Host(
    /** `ZipArchive::new`; the error is the `ZipError` text. */
    unzip: Bytes -> Result<Archive, string>,
    /** `Engine::compile_with_scope`: the scope after compiling and the AST, or the `ParseError` text. */
    compile: (Scope, string) -> Result<(Scope, Ast), string>,
    /** `Module::eval_ast_as_new` with a fresh scope. */
    evalModule: Ast -> Result<Module, EvalAltResult>,
    /** `AST::merge`. */
    merge: (Ast, Ast) -> Ast,
    /** `Engine::parse_json`; the error is its text. */
    parseJson: string -> Result<map<string, Value>, string>,
    /** Parsing the engine's YAML configuration document into a map; the error is its text. */
    parseConfig: string -> Result<map<string, Value>, string>,
    /**
     * `Engine::call_fn` of a named zero-argument function with `env` in
     * scope; the flag says whether the `storage_set` functions are
     * registered on the engine.
     */
    callFn: (Ast, string, Env, bool) -> ScriptRun)
}
