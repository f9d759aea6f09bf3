/**
 * Errors of the archive resolver (`ResolverError`) with their `Display`
 * text, and the part of the interpreter's `EvalAltResult` that the resolver
 * produces. The payloads of foreign error types (zip, I/O, parse and
 * interpreter errors) are carried as their rendered text.
 */
module ZipResult {
  import opened Rhai

  datatype ResolverError =
    | InvalidZip(zipErr: string)
    | FileNotFound
    | FileReadFailed(ioErr: string)
    | NoAstProduced
    | JsonParseFailed(jsonErr: string)
    | SourceCompileFailed(path: string, inner: ResolverError)
    | ParseError(parseErr: string)
    | EvalError(evalErr: string)
    | NotReady

  datatype EvalAltResult =
    | ErrorModuleNotFound(name: string, pos: Position)
    | ErrorInModule(name: string, cause: EvalAltResult, pos: Position)
    | ErrorSystem(msg: string, err: ResolverError)
    | ErrorParsing(parseErr: string)
    | ErrorRuntime(runtimeErr: string)

  const NotReadyMessage := "the resolver zip isn't ready, did you load?"
  const FileNotFoundMessage := "specified file not found in resolver archive"

  /**
   * `impl Display for ResolverError`. The "not ready" text is told apart
   * from every other error's text.
   */
  function Message(e: ResolverError): (r: string)
    ensures |r| > 0
    ensures r == NotReadyMessage <==> e.NotReady?
  {
    match e
    case InvalidZip(err) =>
      assert ("invalid resolver Zip: " + err)[0] != NotReadyMessage[0];
      "invalid resolver Zip: " + err
    case FileNotFound => FileNotFoundMessage
    case FileReadFailed(err) =>
      assert ("file read failed: " + err)[0] != NotReadyMessage[0];
      "file read failed: " + err
    case NoAstProduced => "no AST produced (is the file empty?)"
    case JsonParseFailed(err) =>
      assert ("json file parse failed: " + err)[0] != NotReadyMessage[0];
      "json file parse failed: " + err
    case SourceCompileFailed(s, err) =>
      if s == "" then
        assert ("compile failed: " + Message(err))[0] != NotReadyMessage[0];
        "compile failed: " + Message(err)
      else
        assert ("compile of '" + s + "' failed: " + Message(err))[0] != NotReadyMessage[0];
        "compile of '" + s + "' failed: " + Message(err)
    case ParseError(err) =>
      assert ("parse error: " + err)[0] != NotReadyMessage[0];
      "parse error: " + err
    case EvalError(err) =>
      assert ("eval error: " + err)[0] != NotReadyMessage[0];
      "eval error: " + err
    case NotReady => NotReadyMessage
  }

  /**
   * A compile failure's text ends with the text of its cause; with an empty
   * path it is exactly "compile failed: " and the cause, otherwise it names
   * the path between quotes.
   */
  lemma CompileFailedMessage(s: string, inner: ResolverError)
    ensures var m := Message(SourceCompileFailed(s, inner));
      && |m| > |Message(inner)|
      && m[|m| - |Message(inner)|..] == Message(inner)
      && (s == "" ==> m == "compile failed: " + Message(inner))
      && (s != "" ==> m[..12] == "compile of '" && m[12..12 + |s|] == s && m[12 + |s|] == '\'')
  {
    var m := Message(SourceCompileFailed(s, inner));
    if s != "" {
      assert m == "compile of '" + s + "' failed: " + Message(inner);
      assert m[12..12 + |s|] == s;
    }
  }

  /** `map_resolver_err_to_eval_err`: the error, unchanged, inside a system error with no message. */
  function MapResolverErrToEvalErr(err: ResolverError): (r: EvalAltResult)
    ensures r.ErrorSystem? && r.msg == "" && r.err == err
  {
    ErrorSystem("", err)
  }
}
