/**
 * The two contract entry points: each builds a fresh engine over the
 * contract's dependencies, loads the core archive and runs one endpoint.
 */
module Operations {
  import opened Wrappers
  import opened Utf8
  import opened Rhai
  import opened Foreign
  import opened CortexCfg
  import opened Engine

  /** What `deploy` answers: load the core, check the endpoints, run `deploy`; the first failure wins. */
  function DeployResult(host: Host, data: Bytes): (r: Result<HandleResponse, StdError>)
    ensures r.Ok? <==> CoreLoad(host, data, None).Ok? && ValidateAst(Some(CoreLoad(host, data, None).value.2)).Ok?
    ensures r.Ok? ==> r.value == DefaultResponse
    ensures CoreLoad(host, data, None).Err? ==> r == Err(CoreLoad(host, data, None).error)
    ensures CoreLoad(host, data, None).Ok? ==> var v := ValidateAst(Some(CoreLoad(host, data, None).value.2));
      v.Err? ==> r == Err(v.error)
  {
    match CoreLoad(host, data, None)
    case Err(e) => Err(e)
    case Ok((_, _, ast)) =>
      match ValidateAst(Some(ast))
      case Err(e) => Err(e)
      case Ok(_) => Ok(DefaultResponse)
  }

  /** What `handle` answers and the storage it leaves: load the core, then run the script's `handle`. */
  function HandleResult(host: Host, data: Bytes, env: Env, storage: map<Bytes, Bytes>)
    : (r: (Result<HandleResponse, StdError>, map<Bytes, Bytes>))
    ensures CoreLoad(host, data, None).Err? ==> r == (Err(CoreLoad(host, data, None).error), storage)
    ensures CoreLoad(host, data, None).Ok? ==>
      var run := host.callFn(CoreLoad(host, data, None).value.2, EndpointFnHandle, env, true);
      r == (HandleOutcome(run), ApplyWrites(storage, run.writes))
  {
    match CoreLoad(host, data, None)
    case Err(e) => (Err(e), storage)
    case Ok((_, _, ast)) =>
      var run := host.callFn(ast, EndpointFnHandle, env, true);
      (HandleOutcome(run), ApplyWrites(storage, run.writes))
  }

  /**
   * `deploy`: a fresh engine loads the core, validates it and runs
   * `deploy`. Nothing of an earlier engine carries over, and storage is
   * not touched.
   */
  method Deploy(host: Host, deps: Deps, env: Env, data: Bytes) returns (r: Result<HandleResponse, StdError>)
    ensures r == DeployResult(host, data)
  {
    var engine := new OmnibusEngine(host, deps);
    var loaded := engine.LoadCore(data);
    if loaded.Err? {
      return Err(loaded.error);
    }
    var valid := engine.Validate();
    if valid.Err? {
      return Err(valid.error);
    }
    r := engine.RunDeploy(env);
  }

  /** `handle`: a fresh engine loads the core and runs `handle`; `validate` is never called. */
  method Handle(host: Host, deps: Deps, env: Env, data: Bytes) returns (r: Result<HandleResponse, StdError>)
    modifies deps`storage
    ensures (r, deps.storage) == HandleResult(host, data, env, old(deps.storage))
  {
    var engine := new OmnibusEngine(host, deps);
    var loaded := engine.LoadCore(data);
    if loaded.Err? {
      return Err(loaded.error);
    }
    r := engine.RunHandle(env);
  }

  /** A core that fails to load fails both operations with the same error, and `handle` then writes nothing. */
  lemma LoadFailureShared(host: Host, data: Bytes, env: Env, storage: map<Bytes, Bytes>)
    requires CoreLoad(host, data, None).Err?
    ensures DeployResult(host, data).Err? && HandleResult(host, data, env, storage).0.Err?
    ensures DeployResult(host, data).error == HandleResult(host, data, env, storage).0.error
    ensures HandleResult(host, data, env, storage).1 == storage
  {
  }

  /**
   * `handle` does not validate: once the core loads, its only failure is
   * the script call's, even for a script that lacks the endpoints `deploy`
   * would demand, and its writes are exactly the script's.
   */
  lemma HandleSkipsValidation(host: Host, data: Bytes, env: Env, storage: map<Bytes, Bytes>)
    requires CoreLoad(host, data, None).Ok?
    ensures var run := host.callFn(CoreLoad(host, data, None).value.2, EndpointFnHandle, env, true);
      HandleResult(host, data, env, storage).0.Ok? <==> run.outcome.Ok?
  {
  }

  /** A core that `deploy` accepts defines every endpoint, `handle` among them. */
  lemma DeployedCoreHasHandle(host: Host, data: Bytes)
    requires DeployResult(host, data).Ok?
    ensures FnSig(EndpointFnHandle, 0) in CoreLoad(host, data, None).value.2.fns
  {
    assert EndpointFnHandle in EndpointMethods;
  }
}
