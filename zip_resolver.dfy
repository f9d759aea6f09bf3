/**
 * The archive-backed module resolver (`ZipModuleResolver`): path
 * canonicalisation, reads from the archive, the module cache, the
 * compile pipeline, entry-point compilation and module resolution.
 */
module ZipResolver {
  import opened Wrappers
  import opened Strings
  import opened Utf8
  import opened StdPath
  import opened Rhai
  import opened ZipResult
  import opened Foreign
  import opened ZipConfig

  const RhaiExtension := "rhai"
  const JsonExtension := "json"
  const CfgFile := "config"
  const CfgKeyGlobalEntrypoints := "global.entrypoints"

  /* ---------------- source splitting ---------------- */

  /**
   * `split_source(s, pat)`: cut `s` just before the first occurrence of
   * `pat`; nothing when `pat` does not occur.
   */
  function SplitSource(source: string, pat: string): (r: Option<(string, string)>)
    ensures r.None? <==> !Contains(source, pat)
    ensures r.Some? ==> r.value.0 + r.value.1 == source
    ensures r.Some? ==> |pat| <= |r.value.1| && r.value.1[..|pat|] == pat
    ensures r.Some? ==> forall i: nat | i < |r.value.0| :: !OccursAt(source, pat, i)
  {
    match Find(source, pat)
    case None => None
    case Some(n) =>
      assert source[n..][..|pat|] == source[n..n + |pat|];
      Some((source[..n], source[n..]))
  }

  /** `consts` is cut out of `source` at index `c`, leaving `body`. */
  predicate Excised(source: string, c: nat, consts: string, body: string) {
    c + |consts| <= |source| && source[c..c + |consts|] == consts
    && body == source[..c] + source[c + |consts|..]
  }

  /**
   * `split_source_const`: when a `const ` comes before the first `fn `, the
   * text from that `const ` up to the `fn ` is returned as the constant
   * preamble, and the rest of the source, in order, as the body.
   */
  function SplitSourceConst(source: string): (r: Option<(string, string)>)
    ensures r.Some? ==> Contains(source, "fn ")
    ensures Find(source, "fn ").Some? ==>
      (r.Some? <==> Contains(source[..Find(source, "fn ").value], "const "))
    ensures r.Some? ==> |r.value.0| >= 6 && r.value.0[..6] == "const "
    ensures r.Some? ==> !Contains(r.value.0, "fn ")
    ensures r.Some? ==> exists c: nat :: Excised(source, c, r.value.0, r.value.1)
  {
    match SplitSource(source, "fn ")
    case None => None
    case Some((preamble, body)) =>
      match SplitSource(preamble, "const ")
      case None => None
      case Some((beforeConst, consts)) =>
        var n := |preamble|;
        assert preamble == source[..n];
        NoOccurrenceInSlice(source, "fn ", |beforeConst|, n);
        assert consts == source[|beforeConst|..n];
        assert Excised(source, |beforeConst|, consts, beforeConst + body);
        Some((consts, beforeConst + body))
  }

  /* ---------------- paths ---------------- */

  /** Where a relative path is placed: under the base path, else the requesting source's directory, else the root. */
  function Located(basePath: Option<Path>, path: string, sourcePath: Option<Path>): Path {
    var p := Parse(path);
    if p.absolute then p
    else Push(Anchor(basePath, sourcePath), p)
  }

  /** `get_file_path`: the located path with its extension forced to the custom one, else the configured one. */
  function FilePath(basePath: Option<Path>, extension: string, path: string, sourcePath: Option<Path>,
                    customExt: Option<string>): (r: Path)
    ensures var l := Located(basePath, path, sourcePath);
      r.absolute == l.absolute && |r.comps| == |l.comps|
      && forall i | 0 <= i < |l.comps| - 1 :: r.comps[i] == l.comps[i]
    ensures FileName(Located(basePath, path, sourcePath)).None? ==> r == Located(basePath, path, sourcePath)
  {
    SetExtension(Located(basePath, path, sourcePath), if customExt.Some? then customExt.value else extension)
  }

  /**
   * `get_source_path`: the file path with the "rhai" extension forced, so
   * the configured extension plays no part, and a path naming a file
   * always ends in ".rhai".
   */
  function SourcePath(basePath: Option<Path>, extension: string, path: string, sourcePath: Option<Path>): (r: Path)
    ensures r == FilePath(basePath, RhaiExtension, path, sourcePath, None)
    ensures (basePath.Some? ==> WellFormed(basePath.value)) && (sourcePath.Some? ==> WellFormed(sourcePath.value))
            && FileName(Located(basePath, path, sourcePath)).Some?
            ==> Extension(r) == Some(RhaiExtension)
  {
    if (basePath.Some? ==> WellFormed(basePath.value)) && (sourcePath.Some? ==> WellFormed(sourcePath.value))
       && FileName(Located(basePath, path, sourcePath)).Some?
    then
      FilePathExtension(basePath, extension, path, sourcePath, Some(RhaiExtension));
      FilePath(basePath, extension, path, sourcePath, Some(RhaiExtension))
    else
      FilePath(basePath, extension, path, sourcePath, Some(RhaiExtension))
  }

  /** An absolute path ignores both the base path and the source path. */
  lemma AbsoluteIgnoresBase(basePath: Option<Path>, path: string, sourcePath: Option<Path>)
    requires |path| > 0 && path[0] == '/'
    ensures Located(basePath, path, sourcePath) == Parse(path)
  {
  }

  /** With a base path set, the requesting source path plays no part, and the result lies under the base path. */
  lemma BaseOverridesSource(base: Path, path: string, s1: Option<Path>, s2: Option<Path>)
    requires !(|path| > 0 && path[0] == '/') && base != Empty
    ensures Located(Some(base), path, s1) == Located(Some(base), path, s2)
    ensures var l := Located(Some(base), path, s1);
      l.absolute == base.absolute && |l.comps| >= |base.comps| && l.comps[..|base.comps|] == base.comps
  {
  }

  /** Without a base path, a relative path lies under the requesting source's directory. */
  lemma SourceWhenNoBase(src: Path, path: string)
    requires !(|path| > 0 && path[0] == '/') && src != Empty
    ensures var l := Located(None, path, Some(src));
      l.absolute == src.absolute && |l.comps| >= |src.comps| && l.comps[..|src.comps|] == src.comps
  {
  }

  /**
   * The resolved path carries the custom extension when one is given, and
   * the configured one otherwise, whatever extension the input had.
   */
  lemma FilePathExtension(basePath: Option<Path>, extension: string, path: string, sourcePath: Option<Path>,
                          customExt: Option<string>)
    requires basePath.Some? ==> WellFormed(basePath.value)
    requires sourcePath.Some? ==> WellFormed(sourcePath.value)
    requires FileName(Located(basePath, path, sourcePath)).Some?
    requires var e := if customExt.Some? then customExt.value else extension; e != "" && '.' !in e
    ensures Extension(FilePath(basePath, extension, path, sourcePath, customExt))
      == Some(if customExt.Some? then customExt.value else extension)
  {
    LocatedWellFormed(basePath, path, sourcePath);
    SetExtensionForces(Located(basePath, path, sourcePath), if customExt.Some? then customExt.value else extension);
  }

  lemma LocatedWellFormed(basePath: Option<Path>, path: string, sourcePath: Option<Path>)
    requires basePath.Some? ==> WellFormed(basePath.value)
    requires sourcePath.Some? ==> WellFormed(sourcePath.value)
    ensures WellFormed(Located(basePath, path, sourcePath))
  {
    var p := Parse(path);
    var b := Anchor(basePath, sourcePath);
    if !p.absolute && b != Empty {
      var tail := if p.comps != [] && p.comps[0] == "." then p.comps[1..] else p.comps;
      assert WellFormed(Path(false, tail)) by {
        forall i | 0 <= i < |tail| ensures tail[i] != "" && '/' !in tail[i] {
          assert tail[i] == p.comps[if tail == p.comps then i else i + 1];
        }
      }
      var r := Located(basePath, path, sourcePath);
      assert r.comps == b.comps + tail;
      forall i | 0 <= i < |r.comps| ensures r.comps[i] != "" && '/' !in r.comps[i] {
        if i < |b.comps| { assert r.comps[i] == b.comps[i]; } else { assert r.comps[i] == tail[i - |b.comps|]; }
      }
    }
  }

  /** A plain name without `/` parses to a one-component relative path. */
  lemma ParsePlainName(name: string)
    requires name != "" && '/' !in name && name != "."
    ensures Parse(name) == Path(false, [name])
  {
    SplitFree(name, '/');
    assert NormalComps([name]) == [name] + NormalComps([]);
  }

  /** The directory a relative path is placed under. */
  function Anchor(basePath: Option<Path>, sourcePath: Option<Path>): Path {
    if basePath.Some? then basePath.value else if sourcePath.Some? then sourcePath.value else Empty
  }

  /** A plain name is appended to the anchor as its last component. */
  lemma LocatedPlain(basePath: Option<Path>, name: string, sourcePath: Option<Path>)
    requires name != "" && '/' !in name && name != "."
    ensures var l := Located(basePath, name, sourcePath); var a := Anchor(basePath, sourcePath);
      l == Path(a.absolute, a.comps + [name])
  {
    ParsePlainName(name);
  }

  /**
   * "foo", "foo.txt" and "foo.rhai" name the same module: a dot-free
   * extension on the input is dropped in favour of the forced one.
   */
  lemma ExtensionForcing(basePath: Option<Path>, extension: string, stem: string, ext: string,
                         sourcePath: Option<Path>)
    requires stem != "" && '/' !in stem && '.' !in stem
    requires '/' !in ext && '.' !in ext
    ensures FilePath(basePath, extension, stem, sourcePath, None)
         == FilePath(basePath, extension, stem + "." + ext, sourcePath, None)
  {
    var dotted := stem + "." + ext;
    assert '/' !in dotted by {
      assert forall i | 0 <= i < |dotted| :: dotted[i] in stem || dotted[i] == '.' || dotted[i] in ext;
    }
    assert dotted != "." && dotted != ".." by { assert |dotted| >= 2 && dotted[0] == stem[0]; }
    assert stem != "." && stem != ".." by { assert stem[0] != '.'; }
    var a := Anchor(basePath, sourcePath);
    LocatedPlain(basePath, stem, sourcePath);
    LocatedPlain(basePath, dotted, sourcePath);
    StemOfDotted(stem, ext);
    assert LastDot(stem) == None;
    assert WithExtension(stem, extension) == WithExtension(dotted, extension);
    assert (a.comps + [stem])[..|a.comps|] == a.comps;
    assert (a.comps + [dotted])[..|a.comps|] == a.comps;
  }

  /* ---------------- the resolver ---------------- */

  /** `get_file` on an archive: the text of the entry named by `p`. */
  function ReadFile(zip: Option<Archive>, p: Path): (r: Result<string, ResolverError>)
    ensures zip.None? ==> r == Err(NotReady)
    ensures zip.Some? && Render(p) !in zip.value ==> r == Err(FileNotFound)
    ensures r.Ok? ==> zip.Some? && Render(p) in zip.value && zip.value[Render(p)] == Some(r.value)
    ensures zip.Some? && Render(p) in zip.value && zip.value[Render(p)].Some? ==> r.Ok?
  {
    if zip.None? then Err(NotReady)
    else if Render(p) !in zip.value then Err(FileNotFound)
    else match zip.value[Render(p)]
      case None => Err(FileReadFailed("stream did not contain valid UTF-8"))
      case Some(text) => Ok(text)
  }

  /**
   * `compile_with_scope`: a source with a constant preamble compiles the
   * preamble first (its AST discarded) and then the rest against the
   * resulting scope; any other source compiles whole.
   */
  function CompileWithScope(scope: Scope, host: Host, source: string): (r: Result<(Scope, Ast), ResolverError>)
    ensures r.Err? ==> r.error.ParseError?
    ensures SplitSourceConst(source).None? ==>
      (r.Ok? <==> host.compile(scope, source).Ok?) && (r.Ok? ==> r.value == host.compile(scope, source).value)
    ensures SplitSourceConst(source).None? && host.compile(scope, source).Err? ==>
      r == Err(ParseError(host.compile(scope, source).error))
    ensures SplitSourceConst(source).Some? ==>
      var (consts, body) := SplitSourceConst(source).value;
      host.compile(scope, consts).Err? ==> r == Err(ParseError(host.compile(scope, consts).error))
    ensures SplitSourceConst(source).Some? ==>
      var (consts, body) := SplitSourceConst(source).value;
      host.compile(scope, consts).Ok? ==>
        var b := host.compile(host.compile(scope, consts).value.0, body);
        (b.Err? ==> r == Err(ParseError(b.error))) && (b.Ok? ==> r == Ok(b.value))
  {
    match SplitSourceConst(source)
    case None =>
      (match host.compile(scope, source)
       case Err(e) => Err(ParseError(e))
       case Ok(res) => Ok(res))
    case Some((consts, body)) =>
      match host.compile(scope, consts)
      case Err(e) => Err(ParseError(e))
      case Ok((scope1, _)) =>
        match host.compile(scope1, body)
        case Err(e) => Err(ParseError(e))
        case Ok(res) => Ok(res)
  }

  /** `compile`: `compile_with_scope` with a fresh scope. */
  function Compile(host: Host, source: string): (r: Result<(Scope, Ast), ResolverError>)
    ensures r.Err? ==> r.error.ParseError?
    ensures SplitSourceConst(source).None? ==>
      (r.Ok? <==> host.compile(EmptyScope, source).Ok?) && (r.Ok? ==> r.value == host.compile(EmptyScope, source).value)
  {
    CompileWithScope(EmptyScope, host, source)
  }

  /**
   * `compile_path_with_scope`: compile "<path>.rhai" (the "rhai" extension
   * forced, no requesting source); a read error comes back as it is, a
   * compile error tagged with the file's path.
   */
  function CompilePath(zip: Option<Archive>, basePath: Option<Path>, extension: string, path: string,
                       scope: Scope, host: Host): (r: Result<(Scope, Ast), ResolverError>)
    ensures r.Err? ==> r.error in {NotReady, FileNotFound} || r.error.FileReadFailed? || r.error.SourceCompileFailed?
    ensures r.Err? && r.error.SourceCompileFailed? ==>
      r.error.path == Render(SourcePath(basePath, extension, path, None)) && r.error.inner.ParseError?
    ensures zip.None? ==> r == Err(NotReady)
    ensures var f := ReadFile(zip, SourcePath(basePath, extension, path, None));
      f.Err? ==> r == Err(f.error)
    ensures var f := ReadFile(zip, SourcePath(basePath, extension, path, None));
      f.Ok? ==> var c := CompileWithScope(scope, host, f.value);
        && (c.Ok? ==> r == Ok(c.value))
        && (c.Err? ==> r == Err(SourceCompileFailed(Render(SourcePath(basePath, extension, path, None)), c.error)))
    ensures r.Ok? ==> ReadFile(zip, SourcePath(basePath, extension, path, None)).Ok?
  {
    var sourcePath := SourcePath(basePath, extension, path, None);
    match ReadFile(zip, sourcePath)
    case Err(e) => Err(e)
    case Ok(source) =>
      match CompileWithScope(scope, host, source)
      case Err(err) => Err(SourceCompileFailed(Render(sourcePath), err))
      case Ok(res) => Ok(res)
  }

  /**
   * The entry points `names`, compiled in order against a threaded scope
   * and merged left to right; the first failure is the result.
   */
  function EntrypointsFold(zip: Option<Archive>, basePath: Option<Path>, extension: string, names: seq<string>,
                           scope0: Scope, host: Host): (r: Result<(Scope, Option<Ast>), ResolverError>)
    ensures r.Ok? ==> (r.value.1.None? <==> names == [])
    ensures names == [] ==> r == Ok((scope0, None))
    decreases |names|
  {
    if names == [] then Ok((scope0, None))
    else
      match EntrypointsFold(zip, basePath, extension, names[..|names| - 1], scope0, host)
      case Err(e) => Err(e)
      case Ok((sc, ast)) =>
        match CompilePath(zip, basePath, extension, names[|names| - 1], sc, host)
        case Err(e) => Err(e)
        case Ok((sc1, cur)) => Ok((sc1, Some(if ast.Some? then host.merge(ast.value, cur) else cur)))
  }

  /** Once compiling a prefix of the entry points has failed, the whole list fails with that error. */
  lemma {:induction false} FirstFailureAborts(zip: Option<Archive>, basePath: Option<Path>, extension: string,
                                              names: seq<string>, k: nat, scope0: Scope, host: Host)
    requires k <= |names|
    requires EntrypointsFold(zip, basePath, extension, names[..k], scope0, host).Err?
    ensures EntrypointsFold(zip, basePath, extension, names, scope0, host)
         == EntrypointsFold(zip, basePath, extension, names[..k], scope0, host)
    decreases |names| - k
  {
    if k < |names| {
      var longer := names[..k + 1];
      assert longer[..|longer| - 1] == names[..k];
      FirstFailureAborts(zip, basePath, extension, names, k + 1, scope0, host);
    } else {
      assert names[..k] == names;
    }
  }

  /** Without an archive every non-empty list of entry points fails with `NotReady`. */
  lemma {:induction false} FoldNotReady(basePath: Option<Path>, extension: string, names: seq<string>,
                                        scope0: Scope, host: Host)
    requires names != []
    ensures EntrypointsFold(None, basePath, extension, names, scope0, host) == Err(NotReady)
    decreases |names|
  {
    if |names| > 1 {
      FoldNotReady(basePath, extension, names[..|names| - 1], scope0, host);
    }
  }

  /**
   * What `compile_entrypoints` computes from a configuration: nothing (and
   * the scope as it was) when "global.entrypoints" is not an array of
   * strings, else the fold over the names it lists.
   */
  function Entrypoints(zip: Option<Archive>, basePath: Option<Path>, extension: string, data: map<string, Value>,
                       scope0: Scope, host: Host): (r: Result<(Scope, Option<Ast>), ResolverError>)
    ensures StrArray(Lookup(data, CfgKeyGlobalEntrypoints)).None? ==> r == Ok((scope0, None))
    ensures r.Ok? && r.value.1.None? ==> r.value.0 == scope0
    ensures var names := StrArray(Lookup(data, CfgKeyGlobalEntrypoints));
      zip.None? && names.Some? && names.value != [] ==> r == Err(NotReady)
  {
    match StrArray(Lookup(data, CfgKeyGlobalEntrypoints))
    case None => Ok((scope0, None))
    case Some(names) =>
      if zip.None? && names != [] then
        FoldNotReady(basePath, extension, names, scope0, host);
        EntrypointsFold(zip, basePath, extension, names, scope0, host)
      else
        EntrypointsFold(zip, basePath, extension, names, scope0, host)
  }

  /** The loop of `compile_entrypoints`: compile each entry point in turn, stopping at the first failure. */
  method CompileAll(zip: Option<Archive>, basePath: Option<Path>, extension: string, names: seq<string>,
                    scope0: Scope, host: Host) returns (r: Result<(Scope, Option<Ast>), ResolverError>)
    ensures r == EntrypointsFold(zip, basePath, extension, names, scope0, host)
  {
    var sc := scope0;
    var ast: Option<Ast> := None;
    for i := 0 to |names|
      invariant EntrypointsFold(zip, basePath, extension, names[..i], scope0, host) == Ok((sc, ast))
    {
      assert names[..i + 1][..i] == names[..i];
      var cur := CompilePath(zip, basePath, extension, names[i], sc, host);
      if cur.Err? {
        FirstFailureAborts(zip, basePath, extension, names, i + 1, scope0, host);
        return Err(cur.error);
      }
      if ast.Some? {
        ast := Some(host.merge(ast.value, cur.value.1));
      } else {
        ast := Some(cur.value.1);
      }
      sc := cur.value.0;
    }
    assert names[..|names|] == names;
    return Ok((sc, ast));
  }

  class ZipModuleResolver {
    var zip: Option<Archive>
    var scope: Scope
    var config: Config?
    var basePath: Option<Path>
    var extension: string
    var cacheEnabled: bool
    var cache: map<Path, Module>

    /** `new`: no archive, the "rhai" extension, no base path, an enabled and empty cache. */
    constructor New()
      ensures zip.None? && scope == EmptyScope && config == null && basePath.None?
      ensures extension == RhaiExtension && cacheEnabled && cache == map[]
    {
      zip, scope, config, basePath := None, EmptyScope, null, None;
      extension, cacheEnabled, cache := RhaiExtension, true, map[];
    }

    /** `new_with_scope`. */
    constructor NewWithScope(scope: Scope)
      ensures zip.None? && this.scope == scope && config == null && basePath.None?
      ensures extension == RhaiExtension && cacheEnabled && cache == map[]
    {
      zip, this.scope, config, basePath := None, scope, null, None;
      extension, cacheEnabled, cache := RhaiExtension, true, map[];
    }

    /** `new_with_extension`. */
    constructor NewWithExtension(extension: string)
      ensures zip.None? && scope == EmptyScope && config == null && basePath.None?
      ensures this.extension == extension && cacheEnabled && cache == map[]
    {
      zip, scope, config, basePath := None, EmptyScope, null, None;
      this.extension, cacheEnabled, cache := extension, true, map[];
    }

    /** `new_with_path_and_extension`. */
    constructor NewWithPathAndExtension(path: string, extension: string)
      ensures zip.None? && scope == EmptyScope && config == null && basePath == Some(Parse(path))
      ensures this.extension == extension && cacheEnabled && cache == map[]
    {
      zip, scope, config, basePath := None, EmptyScope, null, Some(Parse(path));
      this.extension, cacheEnabled, cache := extension, true, map[];
    }

    /** `loaded`: an archive is present, which is exactly when no read answers "not ready". */
    predicate Loaded(): (r: bool)
      reads this`zip
      ensures r <==> forall p: Path :: GetFile(p) != Err(NotReady)
    {
      if zip.Some? then true
      else
        assert GetFile(Empty) == Err(NotReady);
        false
    }

    /** `load`: open the archive; bad bytes leave the resolver as it was. */
    method Load(bytes: Bytes, unzip: Bytes -> Result<Archive, string>) returns (r: Result<(), ResolverError>)
      modifies this`zip
      ensures unzip(bytes).Ok? ==> r == Ok(()) && zip == Some(unzip(bytes).value) && Loaded()
      ensures unzip(bytes).Err? ==> r == Err(InvalidZip(unzip(bytes).error)) && zip == old(zip)
    {
      match unzip(bytes) {
        case Ok(z) =>
          zip := Some(z);
          return Ok(());
        case Err(err) =>
          return Err(InvalidZip(err));
      }
    }

    /** `load_from_bytes`: `load` of the bytes. */
    method LoadFromBytes(bytes: Bytes, unzip: Bytes -> Result<Archive, string>) returns (r: Result<(), ResolverError>)
      modifies this`zip
      ensures unzip(bytes).Ok? ==> r == Ok(()) && zip == Some(unzip(bytes).value) && Loaded()
      ensures unzip(bytes).Err? ==> r == Err(InvalidZip(unzip(bytes).error)) && zip == old(zip)
    {
      r := Load(bytes, unzip);
    }

    /** `set_scope`. */
    method SetScope(scope: Scope)
      modifies this`scope
      ensures this.scope == scope
    {
      this.scope := scope;
    }

    /** `set_base_path`. */
    method SetBasePath(path: string)
      modifies this`basePath
      ensures basePath == Some(Parse(path))
    {
      basePath := Some(Parse(path));
    }

    /** `set_extension`. */
    method SetExtension(extension: string)
      modifies this`extension
      ensures this.extension == extension
    {
      this.extension := extension;
    }

    /** `enable_cache`. */
    method EnableCache(enable: bool)
      modifies this`cacheEnabled
      ensures cacheEnabled == enable
    {
      cacheEnabled := enable;
    }

    /**
     * `get_file_path`, for a requesting source given as text: with a base
     * path set the requesting source plays no part.
     */
    function GetFilePath(path: string, sourcePath: Option<string>, customExt: Option<string>): (r: Path)
      reads this`basePath, this`extension
      ensures basePath.Some? ==> r == FilePath(basePath, extension, path, None, customExt)
    {
      FilePath(basePath, extension, path, if sourcePath.Some? then Some(Parse(sourcePath.value)) else None, customExt)
    }

    /**
     * `get_source_path`: `get_file_path` with the "rhai" extension forced;
     * the configured extension plays no part, and a path naming a file ends
     * in ".rhai".
     */
    function GetSourcePath(path: string, sourcePath: Option<string>): (r: Path)
      reads this`basePath, this`extension
      ensures r == FilePath(basePath, RhaiExtension, path, if sourcePath.Some? then Some(Parse(sourcePath.value)) else None, None)
      ensures (basePath.Some? ==> WellFormed(basePath.value))
              && FileName(Located(basePath, path, if sourcePath.Some? then Some(Parse(sourcePath.value)) else None)).Some?
              ==> Extension(r) == Some(RhaiExtension)
    {
      SourcePath(basePath, extension, path, if sourcePath.Some? then Some(Parse(sourcePath.value)) else None)
    }

    /** `get_file`: "not ready" without an archive; a success is the text stored under the rendered path. */
    function GetFile(filePath: Path): (r: Result<string, ResolverError>)
      reads this`zip
      ensures zip.None? ==> r == Err(NotReady)
      ensures r.Ok? ==> zip.Some? && Render(filePath) in zip.value && zip.value[Render(filePath)] == Some(r.value)
    {
      ReadFile(zip, filePath)
    }

    /** `is_cached`: false while the cache is disabled; otherwise whether the resolved path is cached. */
    function IsCached(path: string, sourcePath: Option<string>): (r: bool)
      reads this`cacheEnabled, this`cache, this`basePath, this`extension
      ensures r <==> cacheEnabled && GetFilePath(path, sourcePath, None) in cache
    {
      if !cacheEnabled then false
      else
        var filePath := GetFilePath(path, sourcePath, None);
        if |cache| != 0 then filePath in cache else false
    }

    /** `clear_cache`. */
    method ClearCache()
      modifies this`cache
      ensures cache == map[]
      ensures forall p: string, s: Option<string> :: !IsCached(p, s)
    {
      cache := map[];
    }

    /** `clear_cache_for_path`: removes the resolved path's entry only, and returns it. */
    method ClearCacheForPath(path: string, sourcePath: Option<string>) returns (r: Option<Module>)
      modifies this`cache
      ensures var k := GetFilePath(path, sourcePath, None);
        && r == (if k in old(cache) then Some(old(cache)[k]) else None)
        && cache == old(cache) - {k}
      ensures !IsCached(path, sourcePath)
    {
      var filePath := GetFilePath(path, sourcePath, None);
      if filePath in cache {
        r := Some(cache[filePath]);
      } else {
        r := None;
      }
      cache := cache - {filePath};
    }

    /** `load_config_source`: the text of "config.json". */
    function LoadConfigSource(): (r: Result<string, ResolverError>)
      reads this`zip, this`basePath, this`extension
      ensures !Loaded() ==> r == Err(NotReady)
      ensures Loaded() ==> r == GetFile(GetFilePath(CfgFile, None, Some(JsonExtension)))
      ensures r.Ok? ==> ReadFile(zip, FilePath(basePath, extension, CfgFile, None, Some(JsonExtension))) == Ok(r.value)
    {
      if !Loaded() then Err(NotReady)
      else GetFile(GetFilePath(CfgFile, None, Some(JsonExtension)))
    }

    /** `load_json_with_engine`: read "<path>.json" and parse it into a map. */
    function LoadJsonWithEngine(path: string, host: Host): (r: Result<map<string, Value>, ResolverError>)
      reads this`zip, this`basePath, this`extension
      ensures r.Err? ==> r.error.JsonParseFailed? || r.error in {NotReady, FileNotFound} || r.error.FileReadFailed?
      ensures r.Ok? ==> var f := GetFile(GetFilePath(path, None, Some(JsonExtension)));
        f.Ok? && host.parseJson(f.value) == Ok(r.value)
      ensures r.Ok? ==> Loaded()
      ensures var f := GetFile(GetFilePath(path, None, Some(JsonExtension)));
        f.Err? ==> r == Err(f.error)
      ensures var f := GetFile(GetFilePath(path, None, Some(JsonExtension)));
        f.Ok? ==> var j := host.parseJson(f.value);
          && (j.Err? ==> r == Err(JsonParseFailed(j.error)))
          && (j.Ok? ==> r == Ok(j.value))
    {
      match GetFile(GetFilePath(path, None, Some(JsonExtension)))
      case Err(e) => Err(e)
      case Ok(jsonSource) =>
        match host.parseJson(jsonSource)
        case Err(err) => Err(JsonParseFailed(err))
        case Ok(m) => Ok(m)
    }

    /** `load_json`: the same read and parse with a raw engine; "not ready" without an archive. */
    function LoadJson(path: string, host: Host): (r: Result<map<string, Value>, ResolverError>)
      reads this`zip, this`basePath, this`extension
      ensures zip.None? ==> r == Err(NotReady)
      ensures var f := GetFile(GetFilePath(path, None, Some(JsonExtension)));
        r.Ok? ==> f.Ok? && host.parseJson(f.value) == Ok(r.value)
    {
      LoadJsonWithEngine(path, host)
    }

    /** `load_config`: a fresh configuration from "config.json"; on failure the old one stays. */
    method LoadConfig(host: Host) returns (r: Result<(), ResolverError>)
      modifies this`config
      ensures var j := old(LoadJsonWithEngine(CfgFile, host));
        && (j.Err? ==> r == Err(j.error) && config == old(config))
        && (j.Ok? ==> r == Ok(()) && config != null && fresh(config) && config.data == j.value
                      && config.cache == map[])
    {
      var cfgMap := LoadJsonWithEngine(CfgFile, host);
      if cfgMap.Err? {
        return Err(cfgMap.error);
      }
      config := new Config(cfgMap.value);
      return Ok(());
    }

    /** `compile_path_with_scope`, on this resolver's archive and settings. */
    function CompilePathWithScope(path: string, scope: Scope, host: Host): (r: Result<(Scope, Ast), ResolverError>)
      reads this`zip, this`basePath, this`extension
      ensures zip.None? ==> r == Err(NotReady)
      ensures var f := GetFile(GetSourcePath(path, None));
        f.Err? ==> r == Err(f.error)
      ensures var f := GetFile(GetSourcePath(path, None));
        f.Ok? ==> var c := CompileWithScope(scope, host, f.value);
          && (c.Ok? ==> r == Ok(c.value))
          && (c.Err? ==> r == Err(SourceCompileFailed(Render(GetSourcePath(path, None)), c.error)))
    {
      CompilePath(zip, basePath, extension, path, scope, host)
    }

    /**
     * `compile_entrypoints`: `NotReady` without an archive; nothing when
     * "global.entrypoints" is not an array of strings; otherwise the merged
     * AST of the entry points, the final scope stored only on success.
     */
    method CompileEntrypoints(host: Host) returns (r: Result<Option<Ast>, ResolverError>)
      requires Loaded() ==> config != null && config.Valid()
      modifies this`scope, config
      ensures !old(Loaded()) ==> r == Err(NotReady) && scope == old(scope)
      ensures old(Loaded()) ==>
        && config.Valid()
        && config.cache == old(config.cache)[CfgKeyGlobalEntrypoints := Lookup(config.data, CfgKeyGlobalEntrypoints)]
        && var e := Entrypoints(zip, basePath, extension, config.data, old(scope), host);
        && (e.Err? ==> r == Err(e.error) && scope == old(scope))
        && (e.Ok? ==> r == Ok(e.value.1) && scope == e.value.0)
    {
      if !Loaded() {
        return Err(NotReady);
      }
      var entrypoints := config.GetStrArray(CfgKeyGlobalEntrypoints);
      if entrypoints.None? {
        return Ok(None);
      }
      var f := CompileAll(zip, basePath, extension, entrypoints.value, scope, host);
      if f.Err? {
        return Err(f.error);
      }
      scope := f.value.0;
      return Ok(f.value.1);
    }

    /**
     * `init_with_scope`: install the scope, load "config.json" (its failure
     * is the result) and compile the entry points it names.
     */
    method InitWithScope(host: Host, scope0: Scope) returns (r: Result<Option<Ast>, ResolverError>)
      modifies this`scope, this`config
      ensures var j := old(LoadJsonWithEngine(CfgFile, host));
        && (j.Err? ==> r == Err(j.error) && scope == scope0 && config == old(config))
        && (j.Ok? ==>
              && config != null && fresh(config) && config.data == j.value
              && config.cache == map[CfgKeyGlobalEntrypoints := Lookup(j.value, CfgKeyGlobalEntrypoints)]
              && var e := Entrypoints(zip, basePath, extension, j.value, scope0, host);
              && (e.Err? ==> r == Err(e.error) && scope == scope0)
              && (e.Ok? ==> r == Ok(e.value.1) && scope == e.value.0))
    {
      SetScope(scope0);
      var loaded := LoadConfig(host);
      if loaded.Err? {
        return Err(loaded.error);
      }
      r := CompileEntrypoints(host);
    }

    /** `init`: `init_with_scope` with a fresh scope. */
    method Init(host: Host) returns (r: Result<Option<Ast>, ResolverError>)
      modifies this`scope, this`config
      ensures var j := old(LoadJsonWithEngine(CfgFile, host));
        && (j.Err? ==> r == Err(j.error) && scope == EmptyScope && config == old(config))
        && (j.Ok? ==>
              && config != null && fresh(config) && config.data == j.value
              && config.cache == map[CfgKeyGlobalEntrypoints := Lookup(j.value, CfgKeyGlobalEntrypoints)]
              && var e := Entrypoints(zip, basePath, extension, j.value, EmptyScope, host);
              && (e.Err? ==> r == Err(e.error) && scope == EmptyScope)
              && (e.Ok? ==> r == Ok(e.value.1) && scope == e.value.0))
    {
      r := InitWithScope(host, EmptyScope);
    }

    /** The directory of the requesting module: the runtime's source, else the given one. */
    static function RequesterDir(globalSource: Option<string>, source: Option<string>): (r: Option<Path>)
      ensures globalSource.None? && source.None? ==> r.None?
      ensures r.Some? ==>
        var req := if globalSource.Some? then globalSource else source;
        req.Some? && var p := Parse(req.value);
        p.comps != [] && r.value.absolute == p.absolute && r.value.comps + [p.comps[|p.comps| - 1]] == p.comps
    {
      var requester := if globalSource.Some? then globalSource else source;
      if requester.None? then None else Parent(Parse(requester.value))
    }

    /**
     * A cache miss of `impl_resolve`: read the file, compile it against a
     * clone of the shared scope, tag it with the import path, evaluate it
     * into a module.
     */
    function Fetch(filePath: Path, path: string, pos: Position, host: Host): (r: Result<Module, EvalAltResult>)
      reads this`zip, this`scope
      ensures r.Err? ==> (r.error.ErrorModuleNotFound? || r.error.ErrorInModule?) && r.error.name == path
      ensures GetFile(filePath).Err? ==> r == Err(ErrorModuleNotFound(path, pos))
      ensures r.Ok? ==> GetFile(filePath).Ok? && CompileWithScope(scope, host, GetFile(filePath).value).Ok?
      ensures GetFile(filePath).Ok? ==> var c := CompileWithScope(scope, host, GetFile(filePath).value);
        c.Err? ==> r == Err(ErrorInModule(path, MapResolverErrToEvalErr(c.error), pos))
      ensures GetFile(filePath).Ok? ==> var c := CompileWithScope(scope, host, GetFile(filePath).value);
        c.Ok? ==> var m := host.evalModule(c.value.1.(source := Some(path)));
          && (m.Err? ==> r == Err(ErrorInModule(path, m.error, pos)))
          && (m.Ok? ==> r == Ok(m.value))
    {
      match GetFile(filePath)
      case Err(_) => Err(ErrorModuleNotFound(path, pos))
      case Ok(script) =>
        match CompileWithScope(scope, host, script)
        case Err(err) => Err(ErrorInModule(path, MapResolverErrToEvalErr(err), pos))
        case Ok((_, ast)) =>
          match host.evalModule(ast.(source := Some(path)))
          case Err(err) => Err(ErrorInModule(path, err, pos))
          case Ok(m) => Ok(m)
    }

    /**
     * `impl_resolve`: a cached module is returned without reading the
     * archive; otherwise the module is fetched and, on success and with the
     * cache enabled, stored under its resolved path. Failures leave the cache
     * as it was.
     */
    method ImplResolve(host: Host, globalSource: Option<string>, source: Option<string>, path: string, pos: Position)
      returns (r: Result<Module, EvalAltResult>)
      modifies this`cache
      ensures var key := FilePath(basePath, extension, path, RequesterDir(globalSource, source), None);
        cacheEnabled && key in old(cache) ==> r == Ok(old(cache)[key]) && cache == old(cache)
      ensures var key := FilePath(basePath, extension, path, RequesterDir(globalSource, source), None);
        !(cacheEnabled && key in old(cache)) ==> r == Fetch(key, path, pos, host)
      ensures r.Err? ==> cache == old(cache)
      ensures var key := FilePath(basePath, extension, path, RequesterDir(globalSource, source), None);
        r.Ok? ==> cache == if cacheEnabled then old(cache)[key := r.value] else old(cache)
    {
      var filePath := FilePath(basePath, extension, path, RequesterDir(globalSource, source), None);
      if cacheEnabled && filePath in cache {
        return Ok(cache[filePath]);
      }
      r := Fetch(filePath, path, pos, host);
      if r.Ok? && cacheEnabled {
        cache := cache[filePath := r.value];
      }
    }

    /** `resolve`: `impl_resolve` without a runtime state. */
    method Resolve(host: Host, source: Option<string>, path: string, pos: Position)
      returns (r: Result<Module, EvalAltResult>)
      modifies this`cache
      ensures var key := FilePath(basePath, extension, path, RequesterDir(None, source), None);
        cacheEnabled && key in old(cache) ==> r == Ok(old(cache)[key]) && cache == old(cache)
      ensures var key := FilePath(basePath, extension, path, RequesterDir(None, source), None);
        !(cacheEnabled && key in old(cache)) ==> r == Fetch(key, path, pos, host)
      ensures r.Err? ==> cache == old(cache)
      ensures var key := FilePath(basePath, extension, path, RequesterDir(None, source), None);
        r.Ok? ==> cache == if cacheEnabled then old(cache)[key := r.value] else old(cache)
    {
      r := ImplResolve(host, None, source, path, pos);
    }

    /** `resolve_raw`: `impl_resolve` with the runtime state's source and no explicit one. */
    method ResolveRaw(host: Host, globalSource: Option<string>, path: string, pos: Position)
      returns (r: Result<Module, EvalAltResult>)
      modifies this`cache
      ensures var key := FilePath(basePath, extension, path, RequesterDir(globalSource, None), None);
        cacheEnabled && key in old(cache) ==> r == Ok(old(cache)[key]) && cache == old(cache)
      ensures var key := FilePath(basePath, extension, path, RequesterDir(globalSource, None), None);
        !(cacheEnabled && key in old(cache)) ==> r == Fetch(key, path, pos, host)
      ensures r.Err? ==> cache == old(cache)
      ensures var key := FilePath(basePath, extension, path, RequesterDir(globalSource, None), None);
        r.Ok? ==> cache == if cacheEnabled then old(cache)[key := r.value] else old(cache)
    {
      r := ImplResolve(host, globalSource, None, path, pos);
    }

    /**
     * `resolve_ast`: compiles the file afresh on every call, bypassing the
     * cache, and always answers. The source unwraps the file read, so the
     * file must be present and readable.
     */
    function ResolveAst(host: Host, sourcePath: Option<string>, path: string, pos: Position)
      : (r: Option<Result<Ast, EvalAltResult>>)
      reads this`zip, this`basePath, this`extension
      requires GetFile(GetFilePath(path, sourcePath, None)).Ok?
      ensures r.Some?
      ensures var c := host.compile(EmptyScope, GetFile(GetFilePath(path, sourcePath, None)).value);
        r.value.Ok? <==> c.Ok?
      ensures var c := host.compile(EmptyScope, GetFile(GetFilePath(path, sourcePath, None)).value);
        c.Ok? ==> r.value.value == c.value.1.(source := Some(path))
      ensures var c := host.compile(EmptyScope, GetFile(GetFilePath(path, sourcePath, None)).value);
        c.Err? ==> r.value.error == ErrorInModule(path, ErrorParsing(c.error), pos)
    {
      var script := GetFile(GetFilePath(path, sourcePath, None)).value;
      match host.compile(EmptyScope, script)
      case Ok((_, ast)) => Some(Ok(ast.(source := Some(path))))
      case Err(err) => Some(Err(ErrorInModule(path, ErrorParsing(err), pos)))
    }
  }
}
