/**
 * The cortex's view of its configuration (`CortexConfig`): delegating
 * typed accessors over a `Config`, the check that the two required keys
 * hold strings, and the name and version readers.
 */
module CortexCfg {
  import opened Wrappers
  import opened Rhai
  import opened ZipConfig

  /** The host chain's generic error: only its message is modelled. */
  datatype StdError = GenericErr(msg: string)

  const CfgKeyCortexName := "cortex.name"
  const CfgKeyCortexVersion := "cortex.version"

  /** `REQ_STR_KEYS`, in the order `validate` checks them. */
  const ReqStrKeys: seq<string> := [CfgKeyCortexName, CfgKeyCortexVersion]

  /** The message `validate` gives for a key that does not hold a string. */
  function MissingKeyMessage(key: string): string {
    "cortex config missing key '" + key + "'"
  }

  /** Index of the first key that does not resolve to a string, if any. */
  function FirstNonString(data: map<string, Value>, keys: seq<string>): (r: Option<nat>)
    ensures r.Some? ==> r.value < |keys| && !Lookup(data, keys[r.value]).Str?
    ensures r.Some? ==> forall j | 0 <= j < r.value :: Lookup(data, keys[j]).Str?
    ensures r.None? <==> forall j | 0 <= j < |keys| :: Lookup(data, keys[j]).Str?
  {
    if keys == [] then None
    else if !Lookup(data, keys[0]).Str? then Some(0)
    else
      match FirstNonString(data, keys[1..])
      case None => None
      case Some(n) => Some(n + 1)
  }

  /** The keys `validate` looks up: all of them, or those up to and including the first failure. */
  function Examined(data: map<string, Value>, keys: seq<string>): seq<string> {
    var f := FirstNonString(data, keys);
    if f.None? then keys else keys[..f.value + 1]
  }

  /** For two keys: the first fails first, the second only when the first holds. */
  lemma FirstOfPair(data: map<string, Value>, a: string, b: string)
    ensures FirstNonString(data, [a, b]) ==
      if !Lookup(data, a).Str? then Some(0) else if !Lookup(data, b).Str? then Some(1) else None
  {
    assert [a, b][1..] == [b];
  }

  /** A memo table after looking up `keys` in order. */
  function Memoised(cache: map<string, Value>, data: map<string, Value>, keys: seq<string>): map<string, Value>
    decreases |keys|
  {
    if keys == [] then cache
    else Memoised(cache, data, keys[..|keys| - 1])[keys[|keys| - 1] := Lookup(data, keys[|keys| - 1])]
  }

  /** A key that fails after all earlier ones passed is the first failure. */
  lemma FirstNonStringAt(data: map<string, Value>, keys: seq<string>, i: nat)
    requires i < |keys| && FirstNonString(data, keys[..i]).None? && !Lookup(data, keys[i]).Str?
    ensures FirstNonString(data, keys) == Some(i)
  {
    assert forall j | 0 <= j < i :: keys[..i][j] == keys[j];
  }

  /** A passing key extends the passing prefix. */
  lemma FirstNonStringExtend(data: map<string, Value>, keys: seq<string>, i: nat)
    requires i < |keys| && FirstNonString(data, keys[..i]).None? && Lookup(data, keys[i]).Str?
    ensures FirstNonString(data, keys[..i + 1]).None?
  {
    assert forall j | 0 <= j < i :: keys[..i][j] == keys[j];
    assert forall j | 0 <= j <= i :: keys[..i + 1][j] == keys[j];
  }

  /** What `validate` answers for a configuration. */
  function ValidateResult(data: map<string, Value>): (r: Result<(), StdError>)
    ensures r.Ok? <==> Lookup(data, CfgKeyCortexName).Str? && Lookup(data, CfgKeyCortexVersion).Str?
    ensures !Lookup(data, CfgKeyCortexName).Str? ==> r == Err(GenericErr(MissingKeyMessage(CfgKeyCortexName)))
    ensures Lookup(data, CfgKeyCortexName).Str? && !Lookup(data, CfgKeyCortexVersion).Str? ==>
      r == Err(GenericErr(MissingKeyMessage(CfgKeyCortexVersion)))
  {
    var f := FirstNonString(data, ReqStrKeys);
    FirstOfPair(data, CfgKeyCortexName, CfgKeyCortexVersion);
    if f.None? then Ok(()) else Err(GenericErr(MissingKeyMessage(ReqStrKeys[f.value])))
  }

  /** Only the type is checked: empty strings under both keys pass. */
  lemma EmptyStringsPass(data: map<string, Value>)
    requires Lookup(data, CfgKeyCortexName) == Str("") && Lookup(data, CfgKeyCortexVersion) == Str("")
    ensures ValidateResult(data) == Ok(())
  {
  }

  class CortexConfig {
    const config: Config

    /** `new`: wrap a configuration. */
    constructor (config: Config)
      ensures this.config == config
    {
      this.config := config;
    }

    /**
     * `validate`: each required key in turn must hold a string; the first
     * that does not is named in the error. Every key looked up is cached.
     */
    method Validate() returns (r: Result<(), StdError>)
      requires config.Valid()
      modifies config`cache
      ensures config.Valid()
      ensures r == ValidateResult(config.data)
      ensures config.cache == Memoised(old(config.cache), config.data, Examined(config.data, ReqStrKeys))
    {
      var missing := CheckStrKeys(ReqStrKeys);
      if missing.Some? {
        return Err(GenericErr(MissingKeyMessage(ReqStrKeys[missing.value])));
      }
      return Ok(());
    }

    /** The loop of `validate`: look up each key in turn, stopping at the first that is not a string. */
    method CheckStrKeys(keys: seq<string>) returns (r: Option<nat>)
      requires config.Valid()
      modifies config`cache
      ensures config.Valid()
      ensures r == FirstNonString(config.data, keys)
      ensures config.cache == Memoised(old(config.cache), config.data, Examined(config.data, keys))
    {
      for i := 0 to |keys|
        invariant config.Valid()
        invariant FirstNonString(config.data, keys[..i]).None?
        invariant config.cache == Memoised(old(config.cache), config.data, keys[..i])
      {
        var val := config.GetStr(keys[i]);
        assert keys[..i + 1][..i] == keys[..i];
        if val.None? {
          FirstNonStringAt(config.data, keys, i);
          return Some(i);
        }
        FirstNonStringExtend(config.data, keys, i);
      }
      assert keys[..|keys|] == keys;
      return None;
    }

    /** `get`: what the wrapped configuration returns. */
    method Get(key: string) returns (r: Value)
      requires config.Valid()
      modifies config`cache
      ensures config.Valid() && config.cache == old(config.cache)[key := r]
      ensures r == Lookup(config.data, key)
    {
      r := config.Get(key);
    }

    /** `get_str`. */
    method GetStr(key: string) returns (r: Option<string>)
      requires config.Valid()
      modifies config`cache
      ensures config.Valid() && config.cache == old(config.cache)[key := Lookup(config.data, key)]
      ensures r == AsStr(Lookup(config.data, key))
    {
      r := config.GetStr(key);
    }

    /** `get_int`. */
    method GetInt(key: string) returns (r: Option<int>)
      requires config.Valid()
      modifies config`cache
      ensures config.Valid() && config.cache == old(config.cache)[key := Lookup(config.data, key)]
      ensures r == AsInt(Lookup(config.data, key))
    {
      r := config.GetInt(key);
    }

    /** `get_bool`. */
    method GetBool(key: string) returns (r: Option<bool>)
      requires config.Valid()
      modifies config`cache
      ensures config.Valid() && config.cache == old(config.cache)[key := Lookup(config.data, key)]
      ensures r == AsBool(Lookup(config.data, key))
    {
      r := config.GetBool(key);
    }

    /** `cortex_name`: the stored name; the source panics when it is not a string. */
    method CortexName() returns (r: string)
      requires config.Valid() && Lookup(config.data, CfgKeyCortexName).Str?
      modifies config`cache
      ensures config.Valid() && config.cache == old(config.cache)[CfgKeyCortexName := Lookup(config.data, CfgKeyCortexName)]
      ensures Lookup(config.data, CfgKeyCortexName) == Str(r)
    {
      var s := GetStr(CfgKeyCortexName);
      r := s.value;
    }

    /** `cortex_version`: the stored version; the source panics when it is not a string. */
    method CortexVersion() returns (r: string)
      requires config.Valid() && Lookup(config.data, CfgKeyCortexVersion).Str?
      modifies config`cache
      ensures config.Valid() && config.cache == old(config.cache)[CfgKeyCortexVersion := Lookup(config.data, CfgKeyCortexVersion)]
      ensures Lookup(config.data, CfgKeyCortexVersion) == Str(r)
    {
      var s := GetStr(CfgKeyCortexVersion);
      r := s.value;
    }
  }
}
