/**
 * The dot-path configuration accessor of the archive resolver: a nested
 * document addressed by paths such as "cortex.name", with a per-instance
 * memo table of every full path asked for.
 */
module ZipConfig {
  import opened Wrappers
  import opened Strings
  import opened Rhai

  /** Following `keys` from `cur`: each step must pass through a map that holds the key. */
  function Descend(cur: Value, keys: seq<string>): Value {
    if keys == [] then cur
    else if cur.Map? && keys[0] in cur.entries then Descend(cur.entries[keys[0]], keys[1..])
    else Unit
  }

  /**
   * The value at dot-path `key` in the document `data`: `Unit` for the
   * empty path, for an absent first segment, and whenever a later segment
   * meets a non-map or a missing key.
   */
  function Lookup(data: map<string, Value>, key: string): (r: Value)
    ensures key == "" ==> r == Unit
    ensures key != "" && Split(key, '.')[0] !in data ==> r == Unit
  {
    if key == "" then Unit else Follow(data, Split(key, '.'))
  }

  /** The value at the segments `ks` of a path: the first names an entry of `data`, the rest descend from it. */
  function Follow(data: map<string, Value>, ks: seq<string>): Value
    requires |ks| >= 1
  {
    if ks[0] in data then Descend(data[ks[0]], ks[1..]) else Unit
  }

  /** Descending along `a + b` is descending along `a`, then along `b`. */
  lemma {:induction false} DescendAppend(cur: Value, a: seq<string>, b: seq<string>)
    ensures Descend(cur, a + b) == Descend(Descend(cur, a), b)
  {
    if a == [] {
      assert a + b == b;
    } else if cur.Map? && a[0] in cur.entries {
      assert (a + b)[1..] == a[1..] + b;
      DescendAppend(cur.entries[a[0]], a[1..], b);
    } else {
      assert (a + b)[0] == a[0];
      DescendUnit(b);
    }
  }

  /** Nothing is found below `Unit`. */
  lemma DescendUnit(keys: seq<string>)
    ensures Descend(Unit, keys) == Unit
  {
  }

  /**
   * Looking up "p.q" is looking up "p" and then following the segments of
   * "q" from what was found.
   */
  lemma LookupExtend(data: map<string, Value>, p: string, q: string)
    requires p != ""
    ensures Lookup(data, p + "." + q) == Descend(Lookup(data, p), Split(q, '.'))
  {
    SplitConcat(p, q, '.');
    FollowAppend(data, Split(p, '.'), Split(q, '.'));
  }

  /** Following `ps + qs` is following `ps`, then descending along `qs`. */
  lemma FollowAppend(data: map<string, Value>, ps: seq<string>, qs: seq<string>)
    requires |ps| >= 1
    ensures Follow(data, ps + qs) == Descend(Follow(data, ps), qs)
  {
    assert (ps + qs)[0] == ps[0];
    if ps[0] in data {
      assert (ps + qs)[1..] == ps[1..] + qs;
      DescendAppend(data[ps[0]], ps[1..], qs);
    } else {
      DescendUnit(qs);
    }
  }

  /** A path of one segment reads the root map directly. */
  lemma LookupTop(data: map<string, Value>, k: string)
    requires k != "" && '.' !in k
    ensures Lookup(data, k) == if k in data then data[k] else Unit
  {
    SplitFree(k, '.');
  }

  /** When "p" is not a map, "p.k" has no value: there is no partial result. */
  lemma LookupThroughNonMap(data: map<string, Value>, p: string, k: string)
    requires p != "" && !Lookup(data, p).Map?
    ensures Lookup(data, p + "." + k) == Unit
  {
    LookupExtend(data, p, k);
  }

  /** One more segment under a map: the value under that key, unchanged, or `Unit` when it is missing. */
  lemma LookupChild(data: map<string, Value>, p: string, k: string)
    requires p != "" && '.' !in k && Lookup(data, p).Map?
    ensures var m := Lookup(data, p).entries;
      Lookup(data, p + "." + k) == if k in m then m[k] else Unit
  {
    LookupExtend(data, p, k);
    SplitFree(k, '.');
  }

  /** `is::<String>()` then `into_string()`: the string, only for a string. */
  function AsStr(v: Value): (r: Option<string>)
    ensures r.Some? <==> v.Str?
    ensures r.Some? ==> v == Str(r.value)
  {
    if v.Str? then Some(v.s) else None
  }

  /** `is::<INT>()` then `as_int()`: the integer, only for an integer. */
  function AsInt(v: Value): (r: Option<int>)
    ensures r.Some? <==> v.Int?
    ensures r.Some? ==> v == Int(r.value)
  {
    if v.Int? then Some(v.i) else None
  }

  /** `is::<bool>()` then `as_bool()`: the boolean, only for a boolean. */
  function AsBool(v: Value): (r: Option<bool>)
    ensures r.Some? <==> v.Bool?
    ensures r.Some? ==> v == Bool(r.value)
  {
    if v.Bool? then Some(v.b) else None
  }

  /** `is::<Array>()` then a copy of the array: the elements, only for an array. */
  function AsArray(v: Value): (r: Option<seq<Value>>)
    ensures r.Some? <==> v.Arr?
    ensures r.Some? ==> v == Arr(r.value)
  {
    if v.Arr? then Some(v.items) else None
  }

  /** Every element is a string. */
  predicate AllStr(vs: seq<Value>) {
    forall i | 0 <= i < |vs| :: vs[i].Str?
  }

  /** `ss` are the strings held by `vs`, one for one, in order. */
  predicate StringsOf(vs: seq<Value>, ss: seq<string>) {
    |vs| == |ss| && forall i | 0 <= i < |vs| :: vs[i] == Str(ss[i])
  }

  /** The strings of an array value whose elements are all strings; `None` otherwise. */
  function StrArray(v: Value): (r: Option<seq<string>>)
    ensures r.None? <==> !v.Arr? || !AllStr(v.items)
    ensures r.Some? ==> StringsOf(v.items, r.value)
  {
    if v.Arr? && AllStr(v.items) then Some(seq(|v.items|, i requires 0 <= i < |v.items| => v.items[i].s))
    else None
  }

  /** The strings an array holds are determined by it. */
  lemma StringsOfUnique(vs: seq<Value>, ss: seq<string>, tt: seq<string>)
    requires StringsOf(vs, ss) && StringsOf(vs, tt)
    ensures ss == tt
  {
    assert forall i | 0 <= i < |ss| :: Str(ss[i]) == Str(tt[i]);
  }

  /**
   * The loop of `get_str_array`: collects the strings of an array, and gives
   * up on the first element that is not a string.
   */
  method CollectStrings(items: seq<Value>) returns (r: Option<seq<string>>)
    ensures r.None? <==> !AllStr(items)
    ensures r.Some? ==> StringsOf(items, r.value)
  {
    var strVec: seq<string> := [];
    for i := 0 to |items|
      invariant StringsOf(items[..i], strVec)
    {
      if !items[i].Str? {
        return None;
      }
      strVec := strVec + [items[i].s];
    }
    assert items[..|items|] == items;
    return Some(strVec);
  }

  class Config {
    const data: map<string, Value>
    var cache: map<string, Value>

    /** Every memoised path holds what the document gives for it. */
    ghost predicate Valid()
      reads this
    {
      forall k | k in cache :: cache[k] == Lookup(data, k)
    }

    /** `Config::new`: the document, and an empty memo table. */
    constructor (m: map<string, Value>)
      ensures data == m && cache == map[] && Valid()
    {
      data := m;
      cache := map[];
    }

    /** `_get`: walks the segments of `key`, from the root map down. */
    method GetUncached(key: string) returns (r: Value)
      ensures r == Lookup(data, key)
    {
      if key == "" {
        return Unit;
      }
      var keys := Split(key, '.');
      if keys[0] !in data {
        return Unit;
      }
      var cur := data[keys[0]];
      if |keys| >= 2 {
        for ki := 1 to |keys|
          invariant Descend(cur, keys[ki..]) == Lookup(data, key)
        {
          if !cur.Map? {
            return Unit;
          }
          if keys[ki] !in cur.entries {
            return Unit;
          }
          cur := cur.entries[keys[ki]];
        }
      }
      return cur;
    }

    /**
     * `get`: the value at `key`, from the memo table when it is there, else
     * computed and memoised (`Unit` included); no other entry changes.
     */
    method Get(key: string) returns (r: Value)
      requires Valid()
      modifies this`cache
      ensures Valid()
      ensures r == Lookup(data, key)
      ensures cache == old(cache)[key := r]
      ensures key in old(cache) ==> cache == old(cache) && r == old(cache)[key]
    {
      if key in cache {
        return cache[key];
      }
      var val := GetUncached(key);
      cache := cache[key := val];
      return val;
    }

    /** `get_str`: the string at `key`, `None` for any other kind. */
    method GetStr(key: string) returns (r: Option<string>)
      requires Valid()
      modifies this`cache
      ensures Valid() && cache == old(cache)[key := Lookup(data, key)]
      ensures r == AsStr(Lookup(data, key))
    {
      var val := Get(key);
      return AsStr(val);
    }

    /** `get_int`: the integer at `key`, `None` for any other kind. */
    method GetInt(key: string) returns (r: Option<int>)
      requires Valid()
      modifies this`cache
      ensures Valid() && cache == old(cache)[key := Lookup(data, key)]
      ensures r == AsInt(Lookup(data, key))
    {
      var val := Get(key);
      return AsInt(val);
    }

    /** `get_bool`: the boolean at `key`, `None` for any other kind. */
    method GetBool(key: string) returns (r: Option<bool>)
      requires Valid()
      modifies this`cache
      ensures Valid() && cache == old(cache)[key := Lookup(data, key)]
      ensures r == AsBool(Lookup(data, key))
    {
      var val := Get(key);
      return AsBool(val);
    }

    /** `get_array`: the array at `key`, `None` for any other kind. */
    method GetArray(key: string) returns (r: Option<seq<Value>>)
      requires Valid()
      modifies this`cache
      ensures Valid() && cache == old(cache)[key := Lookup(data, key)]
      ensures r == AsArray(Lookup(data, key))
    {
      var val := Get(key);
      return AsArray(val);
    }

    /**
     * `get_str_array`: the strings of the array at `key`, in order; `None`
     * when there is no array there or one element is not a string.
     */
    method GetStrArray(key: string) returns (r: Option<seq<string>>)
      requires Valid()
      modifies this`cache
      ensures Valid() && cache == old(cache)[key := Lookup(data, key)]
      ensures var v := Lookup(data, key);
        r.None? <==> !v.Arr? || !AllStr(v.items)
      ensures r.Some? ==> StringsOf(Lookup(data, key).items, r.value)
      ensures r == StrArray(Lookup(data, key))
    {
      var a := GetArray(key);
      match a {
        case None => return None;
        case Some(items) =>
          r := CollectStrings(items);
          if r.Some? {
            StringsOfUnique(items, r.value, StrArray(Lookup(data, key)).value);
          }
      }
    }
  }
}
