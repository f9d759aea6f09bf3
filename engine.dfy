/**
 * The script host (`OmnibusEngine`): installs a core archive, reads its
 * configuration and main script, accumulates the compiled AST, checks the
 * entry points and runs the `handle` entry point against contract storage.
 */
module Engine {
  import opened Wrappers
  import opened Utf8
  import opened Rhai
  import opened ZipResult
  import opened Foreign
  import opened ZipConfig
  import opened ZipResolver
  import opened StdPath
  import opened CortexCfg

  const YamlExtension := "yaml"
  const MainFile := "main"
  const ConfigFile := "config"
  /** The script extension the engine assumes when none is given. */
  const RhaiScriptExtension := "rhai"

  const EndpointFnDeploy := "deploy"
  const EndpointFnHandle := "handle"
  const EndpointFnQuery := "query"
  /** `ENDPOINT_METHODS`, in the order `validate` checks them. */
  const EndpointMethods: seq<string> := [EndpointFnDeploy, EndpointFnHandle, EndpointFnQuery]

  /** The host chain's `HandleResponse`; only the default one is ever produced. */
  datatype HandleResponse = HandleResponse(messages: seq<string>, log: seq<(string, string)>, data: Option<Bytes>)

  const DefaultResponse := HandleResponse([], [], None)

  /** The contract's dependencies; only its key/value storage is modelled. */
  class Deps {
    var storage: map<Bytes, Bytes>

    constructor (storage: map<Bytes, Bytes>)
      ensures this.storage == storage
    {
      this.storage := storage;
    }
  }

  /* ---------------- pure parts ---------------- */

  /** "<path>.<ext>" as the engine's messages name a file. */
  function Named(path: string, customExt: Option<string>): string {
    path + "." + (if customExt.Some? then customExt.value else RhaiScriptExtension)
  }

  /** The message of `get_file` called before a core is loaded. */
  function NoCoreGetFileMessage(path: string, customExt: Option<string>): string {
    "can not 'get_file' without a core loaded (attempting to load '" + Named(path, customExt) + "')"
  }

  /** The error of `load_script` when no core is loaded. */
  const NoCoreScriptMessage := "can not 'load_script' without a core loaded."

  /** The error of `load_config_source` when no core is loaded. */
  const NoCoreConfigMessage := "can not 'load_config_source' without a core loaded."

  /** The message of a failed read of `path`. */
  function LoadFileError(path: string, customExt: Option<string>, e: ResolverError): StdError {
    GenericErr("failed to load file '" + Named(path, customExt) + "': " + Message(e))
  }

  /**
   * `load_script_raw` on the AST held so far: the script compiles, and the
   * result is its AST, merged onto the held one if there is one.
   */
  function AddScript(host: Host, held: Option<Ast>, script: string): (r: Result<Ast, StdError>)
    ensures r.Err? <==> host.compile(EmptyScope, script).Err?
    ensures r.Err? ==> r.error == GenericErr("failed to compile rhai script: " + host.compile(EmptyScope, script).error)
    ensures r.Ok? && held.None? ==> r.value == host.compile(EmptyScope, script).value.1
    ensures r.Ok? && held.Some? ==> r.value == host.merge(held.value, host.compile(EmptyScope, script).value.1)
  {
    match host.compile(EmptyScope, script)
    case Err(err) => Err(GenericErr("failed to compile rhai script: " + err))
    case Ok((_, ast)) => Ok(if held.Some? then host.merge(held.value, ast) else ast)
  }

  /** The AST a script compiles to on its own, if it compiles. */
  function Compiled(host: Host, script: string): Option<Ast> {
    match host.compile(EmptyScope, script)
    case Err(_) => None
    case Ok((_, ast)) => Some(ast)
  }

  /** Loading `scripts` one after another onto `held`; the first failure stops the run. */
  function AddScripts(host: Host, held: Option<Ast>, scripts: seq<string>): Result<Option<Ast>, StdError>
    decreases |scripts|
  {
    if scripts == [] then Ok(held)
    else match AddScripts(host, held, scripts[..|scripts| - 1])
      case Err(e) => Err(e)
      case Ok(h) =>
        match AddScript(host, h, scripts[|scripts| - 1])
        case Err(e) => Err(e)
        case Ok(a) => Ok(Some(a))
  }

  /**
   * Scripts loaded one by one from an empty engine accumulate as the left
   * fold of `merge` over their ASTs, the first script's AST as the seed.
   */
  lemma {:induction false} AddScriptsMerges(host: Host, scripts: seq<string>, asts: seq<Ast>)
    requires |scripts| == |asts| > 0
    requires forall i | 0 <= i < |scripts| :: Compiled(host, scripts[i]) == Some(asts[i])
    ensures AddScripts(host, None, scripts) == Ok(Some(MergeAll(host, asts)))
    decreases |scripts|
  {
    if |scripts| > 1 {
      AddScriptsMerges(host, scripts[..|scripts| - 1], asts[..|asts| - 1]);
    } else {
      assert scripts[..0] == [];
    }
  }

  /** The left fold of `merge` over a non-empty list of ASTs. */
  function MergeAll(host: Host, asts: seq<Ast>): Ast
    requires |asts| > 0
    decreases |asts|
  {
    if |asts| == 1 then asts[0] else host.merge(MergeAll(host, asts[..|asts| - 1]), asts[|asts| - 1])
  }

  /** The error `validate_endpoint_method` reports for `name`. */
  function MissingEndpointMessage(name: string): string {
    "core or script is invalid, missing 'fn " + name + "()' endpoint"
  }

  /** `validate_endpoint_method`: the library holds a zero-parameter script function `name`. */
  function ValidateEndpointMethod(fns: set<FnSig>, name: string): (r: Result<(), StdError>)
    ensures r.Ok? <==> FnSig(name, 0) in fns
    ensures r.Err? ==> r.error == GenericErr(MissingEndpointMessage(name))
  {
    if FnSig(name, 0) in fns then Ok(()) else Err(GenericErr(MissingEndpointMessage(name)))
  }

  /** Index of the first name without a zero-parameter script function, if any. */
  function FirstMissing(fns: set<FnSig>, names: seq<string>): (r: Option<nat>)
    ensures r.Some? ==> r.value < |names| && FnSig(names[r.value], 0) !in fns
    ensures r.Some? ==> forall j | 0 <= j < r.value :: FnSig(names[j], 0) in fns
    ensures r.None? <==> forall j | 0 <= j < |names| :: FnSig(names[j], 0) in fns
  {
    if names == [] then None
    else if FnSig(names[0], 0) !in fns then Some(0)
    else
      match FirstMissing(fns, names[1..])
      case None => None
      case Some(n) => Some(n + 1)
  }

  const NoAstValidateMessage := "cannot call 'validate' without a compiled script or core"

  /** What `validate` answers for the held AST. */
  function ValidateAst(ast: Option<Ast>): (r: Result<(), StdError>)
    ensures ast.None? ==> r == Err(GenericErr(NoAstValidateMessage))
    ensures r.Ok? <==> ast.Some? && forall n | n in EndpointMethods :: FnSig(n, 0) in ast.value.fns
    ensures ast.Some? && r.Err? ==>
      var i := FirstMissing(ast.value.fns, EndpointMethods).value;
      && r.error == GenericErr(MissingEndpointMessage(EndpointMethods[i]))
      && forall j | 0 <= j < i :: FnSig(EndpointMethods[j], 0) in ast.value.fns
  {
    if ast.None? then Err(GenericErr(NoAstValidateMessage))
    else
      var f := FirstMissing(ast.value.fns, EndpointMethods);
      if f.None? then Ok(()) else Err(GenericErr(MissingEndpointMessage(EndpointMethods[f.value])))
  }

  /**
   * The storage after the writes of a script run, in order: no entry is
   * removed, every key written is present, and the last write of the run
   * decides its key's value.
   */
  function ApplyWrites(storage: map<Bytes, Bytes>, writes: seq<StorageWrite>): (r: map<Bytes, Bytes>)
    ensures storage.Keys <= r.Keys
    ensures forall i | 0 <= i < |writes| :: WriteKey(writes[i]) in r
    ensures writes != [] ==> r[WriteKey(writes[|writes| - 1])] == WriteValue(writes[|writes| - 1])
    decreases |writes|
  {
    if writes == [] then storage
    else
      var w := writes[|writes| - 1];
      var st := ApplyWrites(storage, writes[..|writes| - 1]);
      match w
      case SetStr(k, v) => st[AsBytes(k) := AsBytes(v)]
      case SetBlob(k, b) => st[AsBytes(k) := b]
  }

  /** The value a storage write stores: a string as its UTF-8 bytes, bytes as they are. */
  function WriteValue(w: StorageWrite): Bytes {
    match w
    case SetStr(_, v) => AsBytes(v)
    case SetBlob(_, b) => b
  }

  /** The key a storage write names. */
  function WriteKey(w: StorageWrite): Bytes {
    match w
    case SetStr(k, _) => AsBytes(k)
    case SetBlob(k, _) => AsBytes(k)
  }

  /** Script writes touch only the keys they name: every other entry stays as it was. */
  lemma {:induction false} ApplyWritesFrame(storage: map<Bytes, Bytes>, writes: seq<StorageWrite>, key: Bytes)
    requires forall i | 0 <= i < |writes| :: WriteKey(writes[i]) != key
    ensures key in ApplyWrites(storage, writes) <==> key in storage
    ensures key in storage ==> ApplyWrites(storage, writes)[key] == storage[key]
    decreases |writes|
  {
    if writes != [] {
      ApplyWritesFrame(storage, writes[..|writes| - 1], key);
    }
  }

  /** Writing one string key never disturbs a different string key, although both are stored as bytes. */
  lemma DistinctKeysIndependent(storage: map<Bytes, Bytes>, k1: string, k2: string, v: Bytes)
    requires k1 != k2
    ensures AsBytes(k2) in storage[AsBytes(k1) := v] <==> AsBytes(k2) in storage
    ensures AsBytes(k2) in storage ==> storage[AsBytes(k1) := v][AsBytes(k2)] == storage[AsBytes(k2)]
  {
    if AsBytes(k1) == AsBytes(k2) {
      AsBytesInjective(k1, k2);
    }
  }

  const NoAstHandleMessage := "cannot call 'run_handle' without a compiled script or core"

  /** The response of `run_handle` once the script has run. */
  function HandleOutcome(run: ScriptRun): (r: Result<HandleResponse, StdError>)
    ensures r.Ok? <==> run.outcome.Ok?
    ensures r.Ok? ==> r.value == DefaultResponse
    ensures r.Err? ==> r.error == GenericErr("failed to run 'handle' on rhai script: " + run.outcome.error)
  {
    if run.outcome.Err? then Err(GenericErr("failed to run 'handle' on rhai script: " + run.outcome.error))
    else Ok(DefaultResponse)
  }

  /* ---------------- load_core on an archive ---------------- */

  /** The engine's `get_file` over a core with the given archive, base path and extension. */
  function EngineFile(zip: Option<Archive>, basePath: Option<Path>, extension: string, path: string,
                      customExt: Option<string>): (r: Result<string, StdError>)
    ensures r.Ok? <==> ReadFile(zip, FilePath(basePath, extension, path, None, customExt)).Ok?
    ensures r.Ok? ==> ReadFile(zip, FilePath(basePath, extension, path, None, customExt)) == Ok(r.value)
  {
    match ReadFile(zip, FilePath(basePath, extension, path, None, customExt))
    case Err(e) => Err(LoadFileError(path, customExt, e))
    case Ok(s) => Ok(s)
  }

  /** The engine's `get_file` over a freshly loaded core (no base path, the "rhai" extension). */
  function CoreFile(z: Archive, path: string, customExt: Option<string>): Result<string, StdError> {
    EngineFile(Some(z), None, RhaiExtension, path, customExt)
  }

  /** The configuration step of `load_core`: "config.yaml" is read and parsed. */
  function CoreConfig(host: Host, z: Archive): (r: Result<map<string, Value>, StdError>)
    ensures r.Ok? ==>
      (CoreFile(z, ConfigFile, Some(YamlExtension)).Ok?
       && host.parseConfig(CoreFile(z, ConfigFile, Some(YamlExtension)).value) == Ok(r.value))
    ensures var f := CoreFile(z, ConfigFile, Some(YamlExtension));
      f.Err? ==> r == Err(f.error)
    ensures var f := CoreFile(z, ConfigFile, Some(YamlExtension));
      f.Ok? ==> var c := host.parseConfig(f.value);
        && (c.Err? ==> r == Err(GenericErr(c.error)))
        && (c.Ok? ==> r == Ok(c.value))
  {
    ParsedConfig(host, CoreFile(z, ConfigFile, Some(YamlExtension)))
  }

  /** `load_config` on the outcome of reading "config.yaml": a read error, a parse error, or the document. */
  function ParsedConfig(host: Host, source: Result<string, StdError>): Result<map<string, Value>, StdError> {
    match source
    case Err(e) => Err(e)
    case Ok(src) =>
      match host.parseConfig(src)
      case Err(e) => Err(GenericErr(e))
      case Ok(m) => Ok(m)
  }

  /** The main-script step of `load_core`: "main.rhai" is read and added to the held AST. */
  function CoreMain(host: Host, z: Archive, held: Option<Ast>): (r: Result<Ast, StdError>)
    ensures r.Ok? ==>
      (CoreFile(z, MainFile, None).Ok? && AddScript(host, held, CoreFile(z, MainFile, None).value) == r)
    ensures var f := CoreFile(z, MainFile, None);
      f.Err? ==> r == Err(f.error)
    ensures var f := CoreFile(z, MainFile, None);
      f.Ok? ==> r == AddScript(host, held, f.value)
  {
    ScriptLoad(host, held, CoreFile(z, MainFile, None))
  }

  /** `load_script` on the outcome of reading the script: a read error, or the script added to `held`. */
  function ScriptLoad(host: Host, held: Option<Ast>, source: Result<string, StdError>): Result<Ast, StdError> {
    match source
    case Err(e) => Err(e)
    case Ok(src) => AddScript(host, held, src)
  }

  /**
   * `load_core` on an engine holding `held`: open the archive, then the
   * configuration, then the main script; the first failure is the result.
   * On success: the archive, the configuration map and the new AST.
   */
  function CoreLoad(host: Host, bytes: Bytes, held: Option<Ast>): (r: Result<(Archive, map<string, Value>, Ast), StdError>)
    ensures host.unzip(bytes).Err? ==> r == Err(GenericErr("failed to load core: " + Message(InvalidZip(host.unzip(bytes).error))))
    ensures r.Ok? ==>
      (host.unzip(bytes) == Ok(r.value.0)
       && CoreConfig(host, r.value.0) == Ok(r.value.1)
       && CoreMain(host, r.value.0, held) == Ok(r.value.2))
    ensures host.unzip(bytes).Ok? ==> var z := host.unzip(bytes).value;
      CoreConfig(host, z).Err? ==> r == Err(CoreConfig(host, z).error)
    ensures host.unzip(bytes).Ok? ==> var z := host.unzip(bytes).value;
      CoreConfig(host, z).Ok? && CoreMain(host, z, held).Err? ==> r == Err(CoreMain(host, z, held).error)
    ensures host.unzip(bytes).Ok? ==> var z := host.unzip(bytes).value;
      CoreConfig(host, z).Ok? && CoreMain(host, z, held).Ok? ==>
        r == Ok((z, CoreConfig(host, z).value, CoreMain(host, z, held).value))
  {
    match host.unzip(bytes)
    case Err(e) => Err(GenericErr("failed to load core: " + Message(InvalidZip(e))))
    case Ok(z) =>
      match CoreConfig(host, z)
      case Err(e) => Err(e)
      case Ok(m) =>
        match CoreMain(host, z, held)
        case Err(e) => Err(e)
        case Ok(a) => Ok((z, m, a))
  }

  /* ---------------- the engine ---------------- */

  class OmnibusEngine {
    const host: Host
    /** `rh_resolver`: the installed core, if any. */
    var resolver: ZipModuleResolver?
    /** `rh_ast`: the compiled scripts, merged. */
    var ast: Option<Ast>
    const deps: Deps
    var cfg: CortexConfig?
    /** Whether the handlers and the `storage_set` functions have been registered. */
    var componentsRegistered: bool

    /** `new`: no core, no AST, no configuration. */
    constructor (host: Host, deps: Deps)
      ensures this.host == host && this.deps == deps
      ensures resolver == null && ast.None? && cfg == null && !componentsRegistered
    {
      this.host, this.deps := host, deps;
      resolver, ast, cfg, componentsRegistered := null, None, null, false;
    }

    /** `loaded_core`. */
    predicate LoadedCore()
      reads this
    {
      resolver != null
    }

    /** `loaded_ast`. */
    predicate LoadedAst()
      reads this
    {
      ast.Some?
    }

    /** `register_components`: install the handlers and the two `storage_set` functions. */
    method RegisterComponents()
      modifies this`componentsRegistered
      ensures componentsRegistered
    {
      componentsRegistered := true;
    }

    /** `get_file`: a file of the core, under the resolver's path rules. */
    function GetFile(path: string, customExt: Option<string>): (r: Result<string, StdError>)
      reads this, resolver
      ensures resolver == null ==> r == Err(GenericErr(NoCoreGetFileMessage(path, customExt)))
      ensures resolver != null ==> r == EngineFile(resolver.zip, resolver.basePath, resolver.extension, path, customExt)
    {
      if resolver == null then
        Err(GenericErr(NoCoreGetFileMessage(path, customExt)))
      else
        match resolver.GetFile(resolver.GetFilePath(path, None, customExt))
        case Err(e) => Err(LoadFileError(path, customExt, e))
        case Ok(s) => Ok(s)
    }

    /** `load_config_source`: the text of "config.yaml". */
    function LoadConfigSource(): (r: Result<string, StdError>)
      reads this, resolver
      ensures resolver == null ==> r == Err(GenericErr(NoCoreConfigMessage))
      ensures resolver != null ==> r == GetFile(ConfigFile, Some(YamlExtension))
    {
      if resolver == null then Err(GenericErr(NoCoreConfigMessage))
      else GetFile(ConfigFile, Some(YamlExtension))
    }

    /** `load_script_raw`: compile a script and add it to the held AST; a failure leaves the AST as it was. */
    method LoadScriptRaw(script: string) returns (r: Result<(), StdError>)
      modifies this`ast
      ensures var a := AddScript(host, old(ast), script);
        && (a.Err? ==> r == Err(a.error) && ast == old(ast))
        && (a.Ok? ==> r == Ok(()) && ast == Some(a.value))
    {
      var compiled := host.compile(EmptyScope, script);
      if compiled.Err? {
        return Err(GenericErr("failed to compile rhai script: " + compiled.error));
      }
      if ast.Some? {
        ast := Some(host.merge(ast.value, compiled.value.1));
      } else {
        ast := Some(compiled.value.1);
      }
      return Ok(());
    }

    /** `load_script`: read "<path>.rhai" from the core and load it. */
    method LoadScript(path: string) returns (r: Result<(), StdError>)
      modifies this`ast
      ensures resolver == null ==> r == Err(GenericErr(NoCoreScriptMessage)) && ast == old(ast)
      ensures resolver != null ==>
        var a := ScriptLoad(host, old(ast), EngineFile(resolver.zip, resolver.basePath, resolver.extension, path, None));
        a.Err? ==> r == Err(a.error) && ast == old(ast)
      ensures resolver != null ==>
        var a := ScriptLoad(host, old(ast), EngineFile(resolver.zip, resolver.basePath, resolver.extension, path, None));
        a.Ok? ==> r == Ok(()) && ast == Some(a.value)
    {
      if resolver == null {
        return Err(GenericErr(NoCoreScriptMessage));
      }
      var source := GetFile(path, None);
      if source.Err? {
        return Err(source.error);
      }
      r := LoadScriptRaw(source.value);
    }

    /** `load_main`: `load_script` of "main". */
    method LoadMain() returns (r: Result<(), StdError>)
      modifies this`ast
      ensures resolver == null ==> r == Err(GenericErr(NoCoreScriptMessage)) && ast == old(ast)
      ensures resolver != null ==>
        var a := ScriptLoad(host, old(ast), EngineFile(resolver.zip, resolver.basePath, resolver.extension, MainFile, None));
        a.Err? ==> r == Err(a.error) && ast == old(ast)
      ensures resolver != null ==>
        var a := ScriptLoad(host, old(ast), EngineFile(resolver.zip, resolver.basePath, resolver.extension, MainFile, None));
        a.Ok? ==> r == Ok(()) && ast == Some(a.value)
    {
      r := LoadScript(MainFile);
    }

    /** `load_config`: read and parse "config.yaml"; only a success replaces the configuration. */
    method LoadConfig() returns (r: Result<(), StdError>)
      modifies this`cfg
      ensures resolver == null ==> r == Err(GenericErr(NoCoreConfigMessage)) && cfg == old(cfg)
      ensures resolver != null ==>
        var c := ParsedConfig(host, EngineFile(resolver.zip, resolver.basePath, resolver.extension, ConfigFile, Some(YamlExtension)));
        c.Err? ==> r == Err(c.error) && cfg == old(cfg)
      ensures resolver != null ==>
        var c := ParsedConfig(host, EngineFile(resolver.zip, resolver.basePath, resolver.extension, ConfigFile, Some(YamlExtension)));
        c.Ok? ==> r == Ok(()) && cfg != null && fresh(cfg) && fresh(cfg.config)
                  && cfg.config.data == c.value && cfg.config.cache == map[]
    {
      var source := LoadConfigSource();
      if source.Err? {
        return Err(source.error);
      }
      var parsed := host.parseConfig(source.value);
      if parsed.Err? {
        return Err(GenericErr(parsed.error));
      }
      var config := new Config(parsed.value);
      cfg := new CortexConfig(config);
      return Ok(());
    }

    /**
     * `load_core`: a fresh resolver opens the archive (on failure nothing
     * changes); it is installed; then the configuration is loaded, the
     * components registered and the main script loaded, stopping at the
     * first failure with the earlier steps' effects kept.
     */
    method LoadCore(bytes: Bytes) returns (r: Result<(), StdError>)
      modifies this`resolver, this`cfg, this`ast, this`componentsRegistered
      ensures host.unzip(bytes).Err? ==>
        r == Err(GenericErr("failed to load core: " + Message(InvalidZip(host.unzip(bytes).error))))
        && resolver == old(resolver) && cfg == old(cfg) && ast == old(ast)
        && componentsRegistered == old(componentsRegistered)
      ensures host.unzip(bytes).Ok? ==>
        var z := host.unzip(bytes).value;
        var c := CoreConfig(host, z);
        && resolver != null && fresh(resolver) && resolver.zip == Some(z)
        && resolver.basePath.None? && resolver.extension == RhaiExtension
        && (c.Err? ==> r == Err(c.error) && cfg == old(cfg) && ast == old(ast)
                       && componentsRegistered == old(componentsRegistered))
        && (c.Ok? ==>
              (cfg != null && cfg.config.data == c.value && cfg.config.cache == map[] && componentsRegistered
               && var m := CoreMain(host, z, old(ast));
               && (m.Err? ==> r == Err(m.error) && ast == old(ast))
               && (m.Ok? ==> r == Ok(()) && ast == Some(m.value))))
    {
      var res := new ZipModuleResolver.New();
      var unzipped := res.LoadFromBytes(bytes, host.unzip);
      if unzipped.Err? {
        return Err(GenericErr("failed to load core: " + Message(unzipped.error)));
      }
      var z := host.unzip(bytes).value;
      resolver := res;
      r := LoadInstalledCore(z);
    }

    /** The steps of `load_core` after the resolver is installed: configuration, components, main script. */
    method LoadInstalledCore(z: Archive) returns (r: Result<(), StdError>)
      requires resolver != null && resolver.zip == Some(z) && resolver.basePath.None? && resolver.extension == RhaiExtension
      modifies this`cfg, this`ast, this`componentsRegistered
      ensures CoreConfig(host, z).Err? ==>
        r == Err(CoreConfig(host, z).error) && cfg == old(cfg) && ast == old(ast)
        && componentsRegistered == old(componentsRegistered)
      ensures CoreConfig(host, z).Ok? ==>
        cfg != null && cfg.config.data == CoreConfig(host, z).value && cfg.config.cache == map[] && componentsRegistered
      ensures CoreConfig(host, z).Ok? ==>
        var m := CoreMain(host, z, old(ast));
        && (m.Err? ==> r == Err(m.error) && ast == old(ast))
        && (m.Ok? ==> r == Ok(()) && ast == Some(m.value))
    {
      ghost var c := CoreConfig(host, z);
      var loaded := LoadCoreConfig(z);
      if loaded.Err? {
        assert c.Err?;
        return Err(loaded.error);
      }
      var conf := cfg.config;
      assert c.Ok? && conf.data == c.value && conf.cache == map[];
      r := RegisterAndLoadMain(z);
      assert cfg.config == conf && conf.data == c.value && conf.cache == map[];
    }

    /** The configuration step of `load_core`: `load_config` on the installed core. */
    method LoadCoreConfig(z: Archive) returns (r: Result<(), StdError>)
      requires resolver != null && resolver.zip == Some(z) && resolver.basePath.None? && resolver.extension == RhaiExtension
      modifies this`cfg
      ensures CoreConfig(host, z).Err? ==> r == Err(CoreConfig(host, z).error) && cfg == old(cfg)
      ensures CoreConfig(host, z).Ok? ==>
        r == Ok(()) && cfg != null && fresh(cfg) && fresh(cfg.config)
        && cfg.config.data == CoreConfig(host, z).value && cfg.config.cache == map[]
    {
      r := LoadConfig();
    }

    /** The last two steps of `load_core`: register the components, then load the main script. */
    method RegisterAndLoadMain(z: Archive) returns (r: Result<(), StdError>)
      requires resolver != null && resolver.zip == Some(z) && resolver.basePath.None? && resolver.extension == RhaiExtension
      modifies this`ast, this`componentsRegistered
      ensures componentsRegistered
      ensures var m := CoreMain(host, z, old(ast));
        && (m.Err? ==> r == Err(m.error) && ast == old(ast))
        && (m.Ok? ==> r == Ok(()) && ast == Some(m.value))
    {
      RegisterComponents();
      r := LoadMain();
    }

    /** `validate`: the AST is loaded and defines `deploy`, `handle` and `query`, checked in that order. */
    method Validate() returns (r: Result<(), StdError>)
      ensures r == ValidateAst(ast)
    {
      if ast.None? {
        return Err(GenericErr(NoAstValidateMessage));
      }
      var fns := ast.value.fns;
      for i := 0 to |EndpointMethods|
        invariant FirstMissing(fns, EndpointMethods[..i]).None?
      {
        var res := ValidateEndpointMethod(fns, EndpointMethods[i]);
        if res.Err? {
          FirstMissingAt(fns, EndpointMethods, i);
          return res;
        }
        FirstMissingExtend(fns, EndpointMethods, i);
      }
      assert EndpointMethods[..|EndpointMethods|] == EndpointMethods;
      return Ok(());
    }

    /** `run_deploy`: the default response, and nothing else. */
    method RunDeploy(env: Env) returns (r: Result<HandleResponse, StdError>)
      ensures r == Ok(DefaultResponse)
    {
      return Ok(DefaultResponse);
    }

    /** `storage_set` with a string value: both key and value stored as their UTF-8 bytes. */
    method StorageSetStr(key: string, val: string)
      modifies deps`storage
      ensures deps.storage == old(deps.storage)[AsBytes(key) := AsBytes(val)]
    {
      deps.storage := deps.storage[AsBytes(key) := AsBytes(val)];
    }

    /** `storage_set` with a byte value: the key stored as its UTF-8 bytes, the value as given. */
    method StorageSetBlob(key: string, val: Bytes)
      modifies deps`storage
      ensures deps.storage == old(deps.storage)[AsBytes(key) := val]
    {
      deps.storage := deps.storage[AsBytes(key) := val];
    }

    /**
     * `run_handle`: call the script's `handle` with `env` in scope. Its
     * storage writes land in order and stay even when the call then fails.
     * The `storage_set` functions exist only once `register_components` has
     * run; before that no script call can write.
     */
    method RunHandle(env: Env) returns (r: Result<HandleResponse, StdError>)
      modifies deps`storage
      ensures ast.None? ==> r == Err(GenericErr(NoAstHandleMessage)) && deps.storage == old(deps.storage)
      ensures ast.Some? ==>
        r == HandleOutcome(host.callFn(ast.value, EndpointFnHandle, env, componentsRegistered))
      ensures ast.Some? && componentsRegistered ==>
        var run := host.callFn(ast.value, EndpointFnHandle, env, true);
        deps.storage == ApplyWrites(old(deps.storage), run.writes)
      ensures !componentsRegistered ==> deps.storage == old(deps.storage)
    {
      if ast.None? {
        return Err(GenericErr(NoAstHandleMessage));
      }
      var run := host.callFn(ast.value, EndpointFnHandle, env, componentsRegistered);
      if componentsRegistered {
        for i := 0 to |run.writes|
          invariant deps.storage == ApplyWrites(old(deps.storage), run.writes[..i])
        {
          assert run.writes[..i + 1][..i] == run.writes[..i];
          match run.writes[i] {
            case SetStr(k, v) => StorageSetStr(k, v);
            case SetBlob(k, b) => StorageSetBlob(k, b);
          }
        }
        assert run.writes[..|run.writes|] == run.writes;
      }
      r := HandleOutcome(run);
    }
  }

  /** A name whose check fails after all earlier ones passed is the first missing one. */
  lemma FirstMissingAt(fns: set<FnSig>, names: seq<string>, i: nat)
    requires i < |names| && FirstMissing(fns, names[..i]).None? && FnSig(names[i], 0) !in fns
    ensures FirstMissing(fns, names) == Some(i)
  {
    assert forall j | 0 <= j < i :: names[..i][j] == names[j];
    FirstMissingUnique(fns, names, i);
  }

  /** A passing check extends the passing prefix. */
  lemma FirstMissingExtend(fns: set<FnSig>, names: seq<string>, i: nat)
    requires i < |names| && FirstMissing(fns, names[..i]).None? && FnSig(names[i], 0) in fns
    ensures FirstMissing(fns, names[..i + 1]).None?
  {
    assert forall j | 0 <= j < i :: names[..i][j] == names[j];
    assert forall j | 0 <= j <= i :: names[..i + 1][j] == names[j];
  }

  /** The first-missing index is determined by the names' membership alone. */
  lemma FirstMissingUnique(fns: set<FnSig>, names: seq<string>, i: nat)
    requires i < |names| && FnSig(names[i], 0) !in fns
    requires forall j | 0 <= j < i :: FnSig(names[j], 0) in fns
    ensures FirstMissing(fns, names) == Some(i)
  {
  }
}
