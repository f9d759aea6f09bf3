# Omnibus core: a Dafny model

Omnibus runs smart-contract logic written as Rhai scripts shipped inside a
zip archive (the "core"). This project models two parts of it:

- **The zip module resolver** (`ZipModuleResolver`). It keeps a loaded archive, a
  shared scope, an optional base path, a forced file extension and a module
  cache. It turns a requested module path into a canonical archive path,
  reads and compiles the file, evaluates it into a module and caches the
  result. It also loads `config.json` into a `Config`, a dotted-key view over a
  nested map with a memo table, and compiles the entry points the
  configuration lists. Its error type and its messages come with it.
- **The contract engine** (`OmnibusEngine`) and the two operations built on it.
  `load_core` opens the core archive, reads `config.yaml` into a
  `CortexConfig`, registers the `storage_set` host functions and loads
  `main.rhai`. `validate` checks that the script defines `deploy`, `handle`
  and `query`. `run_handle` calls the script's `handle`, whose `storage_set`
  calls write to the contract storage. `deploy` and `handle` each build a
  fresh engine and chain these steps.

Everything the system delegates to code outside the core is a field of a
`Host` value of total functions (`Foreign.Host`):
- unzipping bytes into an archive (entry name to UTF-8 text, or a marker for non-UTF-8 contents);
- compiling a script against a scope;
- evaluating an AST into a module;
- merging two ASTs;
- parsing JSON and YAML into maps;
- calling a script function, which reports the outcome together with the ordered `storage_set` calls the script made.

Files (modules, in dependency order):
- `wrappers.dfy`: `Option`, `Result`.
- `strings.dfy`: `str::split` on a character and `str::find`.
- `utf8.dfy`: bytes and `str::as_bytes`.
- `std_path.dfy`: the part of `PathBuf` the resolver uses: components, `push`, `set_extension`, `parent`, `file_name`, `extension`, `file_stem`.
- `rhai.dfy`: script values (`Dynamic`), ASTs, modules, scopes.
- `zip_result.dfy`: `ResolverError`, its `Display` text, the conversion to an evaluation error.
- `foreign.dfy`: the `Host` and archive types.
- `zip_config.dfy`: `Config`.
- `zip_resolver.dfy`: `ZipModuleResolver`.
- `cortex_config.dfy`: `CortexConfig`.
- `engine.dfy`: `OmnibusEngine`.
- `operations.dfy`: `deploy`, `handle`.

Objects whose fields the source updates in place are classes:
- `Config`: its memo cache;
- `ZipModuleResolver`: archive, scope, configuration, base path, extension, cache;
- `OmnibusEngine`: resolver, AST, configuration;
- `Deps`: contract storage.

Each state-changing method states its new state in terms of specification functions, and the lemmas beside them carry the properties.

## Model

| member | source | states |
|---|---|---|
| Strings.Split | packages/rhai/module-resolver/zip/src/config.rs:94 | splitting on `.` yields at least one part and no part contains the separator |
| Strings.JoinSplit | packages/rhai/module-resolver/zip/src/config.rs:94 | joining the parts of a split with the separator gives back the original key |
| Strings.SplitJoin | packages/rhai/module-resolver/zip/src/config.rs:94 | splitting a join of separator-free parts gives back exactly those parts |
| Strings.SplitFree | packages/rhai/module-resolver/zip/src/config.rs:94 | a key without a dot splits into itself alone |
| Strings.SplitPrefix | packages/rhai/module-resolver/zip/src/config.rs:94 | a dot-free first segment followed by a dot is split off as the first part |
| Strings.JoinAppend | packages/rhai/module-resolver/zip/src/config.rs:94 | joining two part lists end to end is joining each and putting a separator between them |
| Strings.SplitConcat | packages/rhai/module-resolver/zip/src/config.rs:94 | splitting `p.q` gives the parts of `p` followed by the parts of `q` |
| Strings.FindFrom | packages/rhai/module-resolver/zip/src/resolver.rs:599 | the result is the first occurrence of the pattern at or after the start index, and nothing means there is none |
| Strings.Find | packages/rhai/module-resolver/zip/src/resolver.rs:599 | `find` answers nothing exactly when the pattern does not occur, and otherwise the first index where it does |
| Strings.NoOccurrenceInSlice | packages/rhai/module-resolver/zip/src/resolver.rs:580-595 | a slice with no occurrence starting inside it contains no occurrence, so the text before the first `fn ` has none |
| Utf8.EncodeChar | packages/core/src/engine.rs:116-129 | a character's UTF-8 encoding is 1 to 4 bytes |
| Utf8.AsBytes | packages/core/src/engine.rs:119-126 | each character takes one to four bytes, and only the empty string gives no bytes |
| Utf8.EncodeCharDecodes | packages/core/src/engine.rs:116-129 | the encoding's lead byte announces its length, and decoding it gives back the character |
| Utf8.DecodeFirst | packages/core/src/engine.rs:116-129 | an encoded character followed by any bytes decodes to that character and leaves exactly the following bytes |
| Utf8.AsBytesInjective | packages/core/src/engine.rs:116-129 | `as_bytes` is injective: distinct storage keys written by `storage_set` are distinct byte keys |
| StdPath.NormalComps | packages/rhai/module-resolver/zip/src/resolver.rs:292-315 | the normalised components are non-empty, never `.`, and each comes from the input |
| StdPath.Parse | packages/rhai/module-resolver/zip/src/resolver.rs:292-315 | a parsed path is well formed and absolute exactly when the text starts with `/` |
| StdPath.Push | packages/rhai/module-resolver/zip/src/resolver.rs:292-315 | pushing an absolute path replaces the base; pushing a relative one keeps the base as a prefix |
| StdPath.LastDot | packages/rhai/module-resolver/zip/src/resolver.rs:292-315 | the index found holds the last dot of the file name, and nothing means the name has no dot |
| StdPath.SetExtension | packages/rhai/module-resolver/zip/src/resolver.rs:292-315 | `set_extension` leaves a path without a file name alone and otherwise changes only the last component |
| StdPath.Parent | packages/rhai/module-resolver/zip/src/resolver.rs:429-433 | a parent exists exactly when the path has components, and the parent plus the last component is the path |
| StdPath.StemOfDotted | packages/rhai/module-resolver/zip/src/resolver.rs:292-315 | `stem.ext` with a dot-free extension has stem `stem` and extension `ext` |
| StdPath.LastDotAfter | packages/rhai/module-resolver/zip/src/resolver.rs:292-315 | a dot followed by dot-free text is the last dot |
| StdPath.StemNonEmpty | packages/rhai/module-resolver/zip/src/resolver.rs:292-315 | a non-empty file name has a non-empty stem |
| StdPath.SetExtensionForces | packages/rhai/module-resolver/zip/src/resolver.rs:292-315 | after `set_extension(ext)` the extension is `ext` and the stem is unchanged |
| StdPath.WithExtensionNamesFile | packages/rhai/module-resolver/zip/src/resolver.rs:292-315 | a name given an extension keeps its stem and carries exactly that extension |
| StdPath.SetExtensionTwice | packages/rhai/module-resolver/zip/src/resolver.rs:292-315 | setting an extension twice is the same as setting only the second one |
| ZipResult.Message | packages/rhai/module-resolver/zip/src/result.rs:39-54 | every resolver error displays as a non-empty message, and the "not ready" text is displayed by `NotReady` and by no other error |
| ZipResult.CompileFailedMessage | packages/rhai/module-resolver/zip/src/result.rs:47-48 | a compile failure always ends with the inner error's text; with an empty path it is exactly "compile failed: " and that text, otherwise it names the path between quotes |
| ZipResult.MapResolverErrToEvalErr | packages/rhai/module-resolver/zip/src/result.rs:58-61 | a resolver error becomes a system evaluation error with an empty message wrapping the same error |
| ZipConfig.DescendAppend | packages/rhai/module-resolver/zip/src/config.rs:111-134 | walking down a key path in two pieces is walking it in one |
| ZipConfig.Lookup | packages/rhai/module-resolver/zip/src/config.rs:89-138 | the empty key, and a key whose first segment is absent from the data, give unit |
| ZipConfig.DescendUnit | packages/rhai/module-resolver/zip/src/config.rs:113-116 | once a step reaches a non-map, every further key gives unit |
| ZipConfig.LookupExtend | packages/rhai/module-resolver/zip/src/config.rs:89-138 | looking up `p.q` is looking up `p` and walking the parts of `q` below it |
| ZipConfig.FollowAppend | packages/rhai/module-resolver/zip/src/config.rs:96-134 | the loop over a key list in two pieces is the loop over the first piece continued with the second |
| ZipConfig.LookupTop | packages/rhai/module-resolver/zip/src/config.rs:89-109 | a dot-free key is looked up directly in the data, and unit when absent |
| ZipConfig.LookupThroughNonMap | packages/rhai/module-resolver/zip/src/config.rs:113-116 | a key below a value that is not a map resolves to unit |
| ZipConfig.LookupChild | packages/rhai/module-resolver/zip/src/config.rs:111-134 | `p.k` under a map value is that map's `k` entry, or unit when it has none |
| ZipConfig.AsStr | packages/rhai/module-resolver/zip/src/config.rs:34-41 | a value yields a string exactly when it holds a string, and then that string |
| ZipConfig.AsInt | packages/rhai/module-resolver/zip/src/config.rs:43-50 | a value yields an integer exactly when it holds one, and then that integer |
| ZipConfig.AsBool | packages/rhai/module-resolver/zip/src/config.rs:52-59 | a value yields a boolean exactly when it holds one, and then that boolean |
| ZipConfig.AsArray | packages/rhai/module-resolver/zip/src/config.rs:61-68 | a value yields an array exactly when it holds one, and then its items |
| ZipConfig.StrArray | packages/rhai/module-resolver/zip/src/config.rs:70-87 | a string list comes back exactly when the value is an array of strings only, and it holds those strings in order |
| ZipConfig.StringsOfUnique | packages/rhai/module-resolver/zip/src/config.rs:70-87 | an array of strings determines its string list uniquely |
| ZipConfig.CollectStrings | packages/rhai/module-resolver/zip/src/config.rs:74-84 | the loop gives up at a non-string item and otherwise collects every item's string in order |
| ZipConfig.Config.constructor | packages/rhai/module-resolver/zip/src/config.rs:13-18 | a new configuration holds the map and an empty memo table |
| ZipConfig.Config.GetUncached | packages/rhai/module-resolver/zip/src/config.rs:89-138 | the uncached lookup loop computes the dotted-key lookup of the data |
| ZipConfig.Config.Get | packages/rhai/module-resolver/zip/src/config.rs:20-32 | `get` answers the dotted-key lookup, memoises it under the key, and a memoised key leaves the table unchanged and answers the memoised value |
| ZipConfig.Config.GetStr | packages/rhai/module-resolver/zip/src/config.rs:34-41 | the lookup's string if it holds one, else nothing; the key is memoised |
| ZipConfig.Config.GetInt | packages/rhai/module-resolver/zip/src/config.rs:43-50 | the lookup's integer if it holds one, else nothing; the key is memoised |
| ZipConfig.Config.GetBool | packages/rhai/module-resolver/zip/src/config.rs:52-59 | the lookup's boolean if it holds one, else nothing; the key is memoised |
| ZipConfig.Config.GetArray | packages/rhai/module-resolver/zip/src/config.rs:61-68 | the lookup's items if it holds an array, else nothing; the key is memoised |
| ZipConfig.Config.GetStrArray | packages/rhai/module-resolver/zip/src/config.rs:70-87 | the lookup's strings when it is an array of strings only, else nothing; the key is memoised |
| ZipResolver.SplitSource | packages/rhai/module-resolver/zip/src/resolver.rs:598-607 | nothing when the pattern is absent; otherwise the two halves concatenate to the source, the second starts with the pattern, and the first holds no occurrence |
| ZipResolver.SplitSourceConst | packages/rhai/module-resolver/zip/src/resolver.rs:580-595 | a split exists exactly when `const ` occurs before the first `fn `; the preamble starts with `const `, holds no `fn `, and is cut out of the source leaving the body |
| ZipResolver.FilePath | packages/rhai/module-resolver/zip/src/resolver.rs:292-315 | forcing the extension only renames the last component of the located path, and leaves a path without a file name as located |
| ZipResolver.SourcePath | packages/rhai/module-resolver/zip/src/resolver.rs:317-321 | the configured extension plays no part, and a located path that names a file ends in ".rhai" |
| ZipResolver.AbsoluteIgnoresBase | packages/rhai/module-resolver/zip/src/resolver.rs:292-315 | an absolute path is used as given, ignoring the base path and the requesting source |
| ZipResolver.BaseOverridesSource | packages/rhai/module-resolver/zip/src/resolver.rs:292-315 | with a base path set, the requesting source plays no part and the result lies under the base path |
| ZipResolver.SourceWhenNoBase | packages/rhai/module-resolver/zip/src/resolver.rs:292-315 | without a base path, a relative path lies under the requesting source's directory |
| ZipResolver.FilePathExtension | packages/rhai/module-resolver/zip/src/resolver.rs:292-315 | the resolved path carries the custom extension when given and the configured one otherwise |
| ZipResolver.LocatedWellFormed | packages/rhai/module-resolver/zip/src/resolver.rs:292-315 | placing a path under well-formed anchors gives a well-formed path |
| ZipResolver.ParsePlainName | packages/rhai/module-resolver/zip/src/resolver.rs:292-315 | a plain name parses to a one-component relative path |
| ZipResolver.LocatedPlain | packages/rhai/module-resolver/zip/src/resolver.rs:292-315 | a plain name is appended to the anchor directory as its last component |
| ZipResolver.ExtensionForcing | packages/rhai/module-resolver/zip/src/resolver.rs:292-315 | `foo` and `foo.ext` resolve to the same archive path, so they name the same cached module |
| ZipResolver.ReadFile | packages/rhai/module-resolver/zip/src/resolver.rs:324-346 | no archive gives "not ready"; a missing entry gives "file not found"; a present UTF-8 entry gives its text |
| ZipResolver.CompileWithScope | packages/rhai/module-resolver/zip/src/resolver.rs:355-375 | every error is a parse error; without a preamble the result is the whole source compiled; with one, a preamble compile error is the result, and otherwise the result is the body compiled against the scope the preamble compile returned, its error wrapped as a parse error |
| ZipResolver.Compile | packages/rhai/module-resolver/zip/src/resolver.rs:348-353 | errors are parse errors; a source without a preamble compiles whole against a fresh scope |
| ZipResolver.CompilePath | packages/rhai/module-resolver/zip/src/resolver.rs:377-388 | no archive gives "not ready"; a read error of `<path>.rhai` is returned unchanged; otherwise the result is `compile_with_scope` of the text, with a compile error wrapped in a compile failure naming the rendered path |
| ZipResolver.EntrypointsFold | packages/rhai/module-resolver/zip/src/resolver.rs:400-409 | on success an AST is produced exactly when the list is non-empty, and an empty list keeps the scope |
| ZipResolver.FirstFailureAborts | packages/rhai/module-resolver/zip/src/resolver.rs:400-409 | once a prefix of the entry points fails, the whole list fails with that error |
| ZipResolver.FoldNotReady | packages/rhai/module-resolver/zip/src/resolver.rs:400-409 | without an archive every non-empty entry point list fails with "not ready" |
| ZipResolver.CompileAll | packages/rhai/module-resolver/zip/src/resolver.rs:400-409 | the loop computes the ordered, merging fold that stops at the first failure |
| ZipResolver.Entrypoints | packages/rhai/module-resolver/zip/src/resolver.rs:391-417 | when "global.entrypoints" is not an array of strings the result is no AST with the scope unchanged; no AST always means the scope is unchanged; without an archive a non-empty list fails with "not ready" |
| ZipResolver.ZipModuleResolver.New | packages/rhai/module-resolver/zip/src/resolver.rs:46-48 | no archive, empty scope, no configuration, no base path, "rhai" extension, enabled and empty cache |
| ZipResolver.ZipModuleResolver.NewWithScope | packages/rhai/module-resolver/zip/src/resolver.rs:52-63 | the defaults, holding the given scope |
| ZipResolver.ZipModuleResolver.NewWithExtension | packages/rhai/module-resolver/zip/src/resolver.rs:67-78 | the defaults, with the given extension |
| ZipResolver.ZipModuleResolver.NewWithPathAndExtension | packages/rhai/module-resolver/zip/src/resolver.rs:82-96 | the defaults, with the given base path and extension |
| ZipResolver.ZipModuleResolver.Loaded | packages/rhai/module-resolver/zip/src/resolver.rs:100-102 | loaded exactly when no archive read answers "not ready" |
| ZipResolver.ZipModuleResolver.Load | packages/rhai/module-resolver/zip/src/resolver.rs:105-116 | readable bytes install the archive; unreadable ones give "invalid zip" and leave the archive as it was |
| ZipResolver.ZipModuleResolver.LoadFromBytes | packages/rhai/module-resolver/zip/src/resolver.rs:120-122 | the same as `load` on the bytes |
| ZipResolver.ZipModuleResolver.SetScope | packages/rhai/module-resolver/zip/src/resolver.rs:156-159 | the scope is replaced, nothing else changes |
| ZipResolver.ZipModuleResolver.SetBasePath | packages/rhai/module-resolver/zip/src/resolver.rs:178-181 | the base path is set, nothing else changes |
| ZipResolver.ZipModuleResolver.SetExtension | packages/rhai/module-resolver/zip/src/resolver.rs:192-195 | the extension is replaced, nothing else changes |
| ZipResolver.ZipModuleResolver.EnableCache | packages/rhai/module-resolver/zip/src/resolver.rs:199-202 | the cache switch is set, nothing else changes |
| ZipResolver.ZipModuleResolver.GetFilePath | packages/rhai/module-resolver/zip/src/resolver.rs:292-315 | with a base path set, the requesting source plays no part |
| ZipResolver.ZipModuleResolver.GetSourcePath | packages/rhai/module-resolver/zip/src/resolver.rs:317-321 | the configured extension plays no part, and a path naming a file ends in ".rhai" |
| ZipResolver.ZipModuleResolver.GetFile | packages/rhai/module-resolver/zip/src/resolver.rs:324-346 | without an archive "not ready"; a success is the text stored under the rendered path |
| ZipResolver.ZipModuleResolver.IsCached | packages/rhai/module-resolver/zip/src/resolver.rs:214-228 | true exactly when caching is on and the resolved path is in the cache |
| ZipResolver.ZipModuleResolver.ClearCache | packages/rhai/module-resolver/zip/src/resolver.rs:232-235 | the cache is emptied, so no path is cached afterwards |
| ZipResolver.ZipModuleResolver.ClearCacheForPath | packages/rhai/module-resolver/zip/src/resolver.rs:239-251 | only the resolved path's entry is removed and returned, and that path is no longer cached |
| ZipResolver.ZipModuleResolver.LoadConfigSource | packages/rhai/module-resolver/zip/src/resolver.rs:255-262 | without an archive "not ready"; with one, the read of `config.json`, so a success is the text stored under that path |
| ZipResolver.ZipModuleResolver.LoadJsonWithEngine | packages/rhai/module-resolver/zip/src/resolver.rs:280-289 | a read error of `<path>.json` is returned unchanged; a parse error becomes a JSON-parse failure with its message; a successful read and parse give the parsed map; success implies an archive is loaded |
| ZipResolver.ZipModuleResolver.LoadJson | packages/rhai/module-resolver/zip/src/resolver.rs:273-278 | without an archive "not ready"; a success is the parse of the read `<path>.json` |
| ZipResolver.ZipModuleResolver.LoadConfig | packages/rhai/module-resolver/zip/src/resolver.rs:265-271 | on success a fresh configuration holding the parsed `config.json` with an empty memo table; on failure the error, with the old configuration kept |
| ZipResolver.ZipModuleResolver.CompilePathWithScope | packages/rhai/module-resolver/zip/src/resolver.rs:377-388 | no archive gives "not ready"; a read error of the source path is returned unchanged; otherwise `compile_with_scope` of the text, a compile error naming the source path |
| ZipResolver.ZipModuleResolver.CompileEntrypoints | packages/rhai/module-resolver/zip/src/resolver.rs:391-417 | "not ready" without an archive; otherwise the fold over "global.entrypoints", with the final scope stored only on success and the key memoised |
| ZipResolver.ZipModuleResolver.InitWithScope | packages/rhai/module-resolver/zip/src/resolver.rs:132-145 | the scope is installed; a config failure is the result; otherwise a fresh configuration and the entry point fold from the given scope |
| ZipResolver.ZipModuleResolver.Init | packages/rhai/module-resolver/zip/src/resolver.rs:126-128 | `init_with_scope` from an empty scope |
| ZipResolver.ZipModuleResolver.Fetch | packages/rhai/module-resolver/zip/src/resolver.rs:449-477 | an unreadable file is "module not found"; a compile error is an error inside the module wrapping the converted resolver error; an evaluation error is an error inside the module; otherwise the module evaluated from the compiled AST tagged with the requested path |
| ZipResolver.ZipModuleResolver.RequesterDir | packages/rhai/module-resolver/zip/src/resolver.rs:428-433 | the runtime source takes precedence over the given one; the directory is that path without its last component, and no source gives none |
| ZipResolver.ZipModuleResolver.ImplResolve | packages/rhai/module-resolver/zip/src/resolver.rs:420-484 | a cache hit is answered from the cache without reading; a miss fetches; success with caching on stores the module under its resolved path; failures leave the cache unchanged |
| ZipResolver.ZipModuleResolver.Resolve | packages/rhai/module-resolver/zip/src/resolver.rs:490-498 | `impl_resolve` with no runtime source, with the same cache behaviour |
| ZipResolver.ZipModuleResolver.ResolveRaw | packages/rhai/module-resolver/zip/src/resolver.rs:500-508 | `impl_resolve` with the runtime source and no explicit one, with the same cache behaviour |
| ZipResolver.ZipModuleResolver.ResolveAst | packages/rhai/module-resolver/zip/src/resolver.rs:513-541 | always answers; it succeeds exactly when compiling the file's text from an empty scope succeeds, and then the AST is that compiled AST tagged with the requested path; otherwise it is that parse error inside the named module |
| CortexCfg.FirstNonString | packages/core/src/cortex/config.rs:22-34 | the index of the first key not holding a string: every earlier key holds one, and nothing means all do |
| CortexCfg.FirstOfPair | packages/core/src/cortex/config.rs:22-34 | for two keys the first is checked first and the second only when the first passes |
| CortexCfg.FirstNonStringAt | packages/core/src/cortex/config.rs:23-31 | a failing key after passing ones is the first failure |
| CortexCfg.FirstNonStringExtend | packages/core/src/cortex/config.rs:23-31 | a passing key extends the passing prefix |
| CortexCfg.ValidateResult | packages/core/src/cortex/config.rs:22-34 | valid exactly when name and version hold strings; otherwise the message names the first failing key |
| CortexCfg.EmptyStringsPass | packages/core/src/cortex/config.rs:22-34 | validation checks only types: empty strings pass |
| CortexCfg.CortexConfig.constructor | packages/core/src/cortex/config.rs:16-20 | the wrapper holds the given configuration |
| CortexCfg.CortexConfig.Validate | packages/core/src/cortex/config.rs:22-34 | answers the validation result and memoises exactly the keys it examined |
| CortexCfg.CortexConfig.CheckStrKeys | packages/core/src/cortex/config.rs:23-31 | the loop finds the first non-string key and memoises the keys up to it |
| CortexCfg.CortexConfig.Get | packages/core/src/cortex/config.rs:36-38 | delegates: the dotted-key lookup, memoised |
| CortexCfg.CortexConfig.GetStr | packages/core/src/cortex/config.rs:40-42 | delegates to the configuration's `get_str` |
| CortexCfg.CortexConfig.GetInt | packages/core/src/cortex/config.rs:44-46 | delegates to the configuration's `get_int` |
| CortexCfg.CortexConfig.GetBool | packages/core/src/cortex/config.rs:48-50 | delegates to the configuration's `get_bool` |
| CortexCfg.CortexConfig.CortexName | packages/core/src/cortex/config.rs:52-54 | the string stored under "cortex.name" |
| CortexCfg.CortexConfig.CortexVersion | packages/core/src/cortex/config.rs:56-58 | the string stored under "cortex.version" |
| Engine.Deps.constructor | packages/core/src/engine.rs:32 | the dependencies hold the given storage |
| Engine.AddScript | packages/core/src/engine.rs:219-235 | fails exactly when compiling fails, with the compile message; otherwise the new AST, merged after the held one if any |
| Engine.AddScriptsMerges | packages/core/src/engine.rs:219-235 | loading several scripts in turn gives the left-to-right merge of their ASTs |
| Engine.ValidateEndpointMethod | packages/core/src/engine.rs:322-336 | passes exactly when a zero-argument script function of that name exists, otherwise names it in the error |
| Engine.FirstMissing | packages/core/src/engine.rs:279-281 | the first endpoint missing from the script: all earlier ones exist, and nothing means all do |
| Engine.ValidateAst | packages/core/src/engine.rs:268-284 | no AST is an error; otherwise valid exactly when `deploy`, `handle` and `query` all exist, and the error names the first missing one |
| Engine.ApplyWritesFrame | packages/core/src/engine.rs:116-129 | a key that no write touches keeps its storage entry |
| Engine.DistinctKeysIndependent | packages/core/src/engine.rs:116-129 | a string write under one key leaves every other string key's entry unchanged |
| Engine.ApplyWrites | packages/core/src/engine.rs:116-129 | applying a run's writes removes no entry, leaves every written key present, and the last write decides its key's value |
| Engine.HandleOutcome | packages/core/src/engine.rs:302-314 | succeeds exactly when the script call does, with the default response, else with the "failed to run 'handle'" message |
| Engine.EngineFile | packages/core/src/engine.rs:160-186 | succeeds exactly when the resolver's read of the resolved path does, with the same text |
| Engine.CoreConfig | packages/core/src/engine.rs:249-266 | a read error of "config.yaml" is the result; a parse error becomes a generic error with its message; a successful read and parse give the parsed map, and conversely |
| Engine.CoreMain | packages/core/src/engine.rs:203-205 | a read error of "main.rhai" is the result; otherwise the result is adding that script to the held AST, and conversely |
| Engine.CoreLoad | packages/core/src/engine.rs:141-158 | bad bytes give "failed to load core"; otherwise a config failure is the result, then a main-script failure; when all three steps succeed the result is the archive, the configuration and the new AST, and conversely |
| Engine.FirstMissingAt | packages/core/src/engine.rs:279-281 | a missing endpoint after present ones is the first missing |
| Engine.FirstMissingExtend | packages/core/src/engine.rs:279-281 | a present endpoint extends the present prefix |
| Engine.FirstMissingUnique | packages/core/src/engine.rs:279-281 | the first missing endpoint is determined by the script alone |
| Engine.OmnibusEngine.constructor | packages/core/src/engine.rs:39-61 | a new engine has no resolver, no AST, no configuration and no registered functions |
| Engine.OmnibusEngine.RegisterComponents | packages/core/src/engine.rs:64-67 | the storage functions are registered |
| Engine.OmnibusEngine.GetFile | packages/core/src/engine.rs:160-186 | without a core the error names the requested file; otherwise the resolver's read of the resolved path |
| Engine.OmnibusEngine.LoadConfigSource | packages/core/src/engine.rs:238-247 | without a core an error; otherwise the text of "config.yaml" |
| Engine.OmnibusEngine.LoadScriptRaw | packages/core/src/engine.rs:219-235 | the AST becomes the compiled script, merged after the held one; a compile error leaves it unchanged |
| Engine.OmnibusEngine.LoadScript | packages/core/src/engine.rs:189-200 | without a core an error and nothing changes; otherwise the script is read and added, or the read or compile error is returned with the AST unchanged |
| Engine.OmnibusEngine.LoadMain | packages/core/src/engine.rs:203-205 | `load_script` of "main" |
| Engine.OmnibusEngine.LoadConfig | packages/core/src/engine.rs:249-266 | without a core an error; otherwise a fresh configuration holding the parsed "config.yaml", or the error with the old one kept |
| Engine.OmnibusEngine.LoadCore | packages/core/src/engine.rs:141-158 | bad bytes change nothing; otherwise a fresh resolver over the archive, then config, registration and main script, stopping at the first failure with earlier effects kept |
| Engine.OmnibusEngine.LoadInstalledCore | packages/core/src/engine.rs:151-157 | the steps after installing the resolver: a config failure changes nothing; otherwise the config is set, components registered and the main script loaded |
| Engine.OmnibusEngine.LoadCoreConfig | packages/core/src/engine.rs:151 | the configuration step on the installed core |
| Engine.OmnibusEngine.RegisterAndLoadMain | packages/core/src/engine.rs:152-153 | components registered, then the main script loaded or its error returned with the AST unchanged |
| Engine.OmnibusEngine.Validate | packages/core/src/engine.rs:268-284 | the loop answers the endpoint check of the AST |
| Engine.OmnibusEngine.RunDeploy | packages/core/src/engine.rs:286-289 | always the default response |
| Engine.OmnibusEngine.StorageSetStr | packages/core/src/engine.rs:119-121 | the storage maps the key's bytes to the value's bytes, nothing else changes |
| Engine.OmnibusEngine.StorageSetBlob | packages/core/src/engine.rs:124-126 | the storage maps the key's bytes to the given bytes, nothing else changes |
| Engine.OmnibusEngine.RunHandle | packages/core/src/engine.rs:291-315 | no AST is an error with storage untouched; otherwise the outcome follows the call, and once `register_components` has run the script's writes land in order, even when the call then fails; before it, nothing is written |
| Operations.DeployResult | packages/core/src/operations.rs:7-16 | succeeds exactly when the core loads and defines every endpoint, then with the default response; a load failure is the error, and a core that loads but fails validation gives the validation error naming the first missing endpoint |
| Operations.HandleResult | packages/core/src/operations.rs:18-26 | a load failure is the error with storage untouched; otherwise the call's outcome and its writes applied |
| Operations.Deploy | packages/core/src/operations.rs:7-16 | a fresh engine's load, validate and run answer the deploy result |
| Operations.Handle | packages/core/src/operations.rs:18-26 | a fresh engine's load and run answer the handle result and leave the storage it describes |
| Operations.LoadFailureShared | packages/core/src/operations.rs:7-26 | a core that fails to load fails both operations with the same error, and `handle` writes nothing |
| Operations.HandleSkipsValidation | packages/core/src/operations.rs:18-26 | once the core loads, `handle` succeeds exactly when the script call does, whether or not the endpoints exist |
| Operations.DeployedCoreHasHandle | packages/core/src/operations.rs:7-16 | a core that `deploy` accepts defines `handle` |

## Left out

- Integers: the script integer type (`INT`, 64 bits) is an unbounded `int`; no operation of the core does arithmetic on it.
- Archive paths: the resolver looks entries up by the rendered path with its components normalised (empty and interior `.` segments dropped). The source looks them up by the raw text of the pushed `PathBuf`, which keeps such segments; the two agree on paths without them. Non-UTF-8 paths cannot occur for `string`.
- `CortexConfig::new()` and `load_source`, which `engine.rs` calls but which `cortex/config.rs` does not define: the YAML parse is `Host.parseConfig`, and the parsed map is wrapped in a new `Config` and `CortexConfig`.
- `RHAI_SCRIPT_EXTENSION`, imported by `engine.rs` but not defined in `resolver.rs`: taken to be "rhai", like `RHAI_EXTENSION`.
- The `RwLock`/`Rc`/`RefCell` sharing, `locked_read` and `locked_write` (resolver.rs:546-578): the cache is a plain field and the model is single-threaded.
- The resolver clone handed to the interpreter by `set_module_resolver` (engine.rs:149-150): the engine's resolver and the interpreter's are not modelled as separate copies.
- The print and debug handlers (engine.rs:83-114): in the feature builds they only route the script's `print` and `debug` output to the debug printer or standard output; the default build registers nothing.
- The `debug-print`/`test-print` feature build of `load_config` (engine.rs:255-261): it reads `cortex_name()` and `cortex_version()`, which unwrap (cortex/config.rs:52-58), so in that build `load_config`, and with it `load_core`, `deploy` and `handle`, panic on a configuration whose "cortex.name" or "cortex.version" is not a string. The model follows the default build, where `load_config` succeeds on such a configuration.
- `decompress_bytes` and `load_script_raw_compressed` (engine.rs:207-217 and 341-355): gzip is not part of this model.
- `register_modules`, `register_global_module` and `pkg_std` (engine.rs:70-81): they only add interpreter library functions.
- The plain getters `scope`, `config`, `base_path`, `extension`, `is_cache_enabled` and `loaded_core`/`loaded_ast` are fields or one-line predicates, not separate members with contracts.
- `compile_with_scope` takes `&mut Scope`: the scope is threaded as a value, returned with the AST.
- `storage_set` registration is a flag that `Host.callFn` receives; the script's calls reach the model through `Host.callFn`, which reports them as an ordered list of writes. `RunHandle` applies them only when `register_components` has run, since before that `storage_set` does not exist on the engine (engine.rs:116-129, 152); that the call itself then fails with "function not found" is left to the host.
- The zip, JSON and YAML decoders, the Rhai compiler, evaluator, AST merge and function call are `Host` functions; their own behaviour is not part of this model.
- ZipResolver.ZipModuleResolver.ImplResolve: nested imports made while the module is evaluated are not modelled. `eval_ast_as_new` (resolver.rs:467-477) runs the module's top level, whose `import`s go back through this same resolver (engine.rs:149-150) and insert their own cache entries, even when the outer evaluation then fails. `Host.evalModule` is a pure function here, so the cache clauses of `ImplResolve`, `Resolve` and `ResolveRaw` describe only `impl_resolve`'s own insert.
- ZipResolver.ZipModuleResolver.ResolveAst: the source unwraps the file read and panics when the file is missing; the model requires the read to succeed.
- ZipResolver.ZipModuleResolver.CompileEntrypoints: the source unwraps the configuration; the model requires one when an archive is loaded.
- ZipResolver.ZipModuleResolver.Fetch: `impl_resolve` branches on whether a runtime state was passed (resolver.rs:466-472), but both branches call the same `eval_ast_as_new` (the variant that would use the runtime state is commented out), so the model has one evaluation.
- Engine.OmnibusEngine.LoadCore: states that the new configuration has an empty memo table rather than its full class invariant.
- Engine.OmnibusEngine.LoadInstalledCore: states that the new configuration has an empty memo table rather than its full class invariant.
- `CortexConfig::validate` is crate-private and never called by the engine; it is modelled on its own.
