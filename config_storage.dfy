/**
 * The file-backed configuration store (config/storage.go): an in-memory
 * cache of key/value pairs, written as a whole to one JSON file, first to
 * `<path>.tmp` and then renamed over `<path>`. The file is a name in the
 * directory `dir`; the JSON encoding of the cache is the codec `codec`.
 */
module ConfigStorage {
  import opened Base
  import opened Fs
  import opened Json
  import opened ConfigValue

  /** The temporary file `save` writes before renaming it over `path`. */
  function TempPath(path: string): (tmp: string)
    ensures tmp != path
  {
    path + ".tmp"
  }

  /** `Get` on a cache: the value under `key`, or "key not found". */
  function Lookup(cache: map<string, Value>, key: string): (r: Result<Value>)
    ensures r.Ok? <==> key in cache
    ensures r.Ok? ==> r.value == cache[key]
    ensures r.Err? ==> r.error == "key not found: " + key
  {
    if key in cache then Ok(cache[key]) else Err("key not found: " + key)
  }

  class FileStore {
    const path: string
    const dir: Dir
    const codec: Codec<map<string, Value>>
    var cache: map<string, Value>

    constructor (path: string, dir: Dir, codec: Codec<map<string, Value>>)
      ensures this.path == path && this.dir == dir && this.codec == codec
      ensures cache == map[]
    {
      this.path := path;
      this.dir := dir;
      this.codec := codec;
      cache := map[];
    }

    /**
     * `NewFileStore`: creates the directory and reads the file if there is
     * one. A missing file gives an empty store; any other read or decode
     * failure is an error and no store.
     */
    static method Open(path: string, dir: Dir, codec: Codec<map<string, Value>>)
      returns (store: FileStore?, err: Option<string>)
      ensures err.None? <==> store != null
      ensures store != null ==> fresh(store) && store.path == path && store.dir == dir && store.codec == codec
      ensures store != null && path !in dir.entries ==> store.cache == map[]
      ensures store != null && path in dir.entries ==>
                dir.entries[path].File? && codec.unmarshal(dir.entries[path].data) == Ok(store.cache)
      ensures path in dir.entries && dir.entries[path].File? && codec.unmarshal(dir.entries[path].data).Err? ==>
                err.Some?
      ensures path in dir.entries && dir.entries[path].Directory? ==> err.Some?
    {
      var made := dir.MkdirAll();
      if made.Some? {
        return null, Some("failed to create config directory: " + made.value.text);
      }
      store := new FileStore(path, dir, codec);
      var e, notExist := store.Load();
      if e.Some? && !notExist {
        return null, Some("failed to load config: " + e.value);
      }
      if e.None? {
        var decoded := codec.unmarshal(dir.entries[path].data).value;
        assert map[] + decoded == decoded;
      }
      return store, None;
    }

    /**
     * `load`: decodes the file into the cache. `json.Unmarshal` into a map
     * adds the decoded pairs to what the map already holds.
     */
    method Load() returns (err: Option<string>, notExist: bool)
      modifies this
      ensures notExist <==> path !in dir.entries
      ensures notExist ==> err.Some?
      ensures err.None? ==> path in dir.entries && dir.entries[path].File?
      ensures err.None? ==> codec.unmarshal(dir.entries[path].data).Ok?
      ensures err.None? ==> cache == old(cache) + codec.unmarshal(dir.entries[path].data).value
      ensures path in dir.entries && dir.entries[path].File? && codec.unmarshal(dir.entries[path].data).Err? ==>
                err.Some?
      ensures path in dir.entries && dir.entries[path].Directory? ==> err.Some?
      ensures err.Some? ==> cache == old(cache)
    {
      var data, missing := dir.ReadFile(path);
      if data.Err? {
        return Some(data.error), missing;
      }
      var decoded := codec.unmarshal(data.value);
      if decoded.Err? {
        return Some(decoded.error), false;
      }
      cache := cache + decoded.value;
      return None, false;
    }

    /**
     * `save`: writes the encoded cache to `<path>.tmp` and renames it over
     * `path`; a failed rename removes the temporary file. `path` changes
     * only on success; a failure can leave only the temporary file behind.
     */
    method Save() returns (err: Option<string>)
      modifies dir
      ensures codec.marshal(cache).Err? ==>
                err == Some("failed to marshal config: " + codec.marshal(cache).error) && dir.entries == old(dir.entries)
      ensures err.None? ==> codec.marshal(cache).Ok?
      ensures err.None? ==>
                dir.entries == (old(dir.entries) - {TempPath(path)})[path := File(codec.marshal(cache).value)]
      ensures err.Some? ==> dir.entries - {TempPath(path)} == old(dir.entries) - {TempPath(path)}
    {
      var data := codec.marshal(cache);
      if data.Err? {
        return Some("failed to marshal config: " + data.error);
      }
      var tmp := TempPath(path);
      var w := dir.WriteFile(tmp, data.value);
      if w.Some? {
        return Some("failed to write config: " + w.value.text);
      }
      var r := dir.Rename(tmp, path);
      if r.Some? {
        var _ := dir.Remove(tmp);
        return Some("failed to save config: " + r.value.text);
      }
      return None;
    }

    /** `Get`. */
    function Get(key: string): (r: Result<Value>)
      reads this
      ensures r == Lookup(cache, key)
    {
      Lookup(cache, key)
    }

    /**
     * `Set`: updates the cache and saves it. If saving fails the key is
     * removed from the cache altogether, even when it had a value before.
     */
    method Set(key: string, value: Value) returns (err: Option<string>)
      modifies this, dir
      ensures err.None? ==> cache == old(cache)[key := value] && Get(key) == Ok(value)
      ensures err.None? ==> codec.marshal(cache).Ok?
      ensures err.None? ==> dir.entries == (old(dir.entries) - {TempPath(path)})[path := File(codec.marshal(cache).value)]
      ensures err.Some? ==> cache == old(cache) - {key} && Get(key).Err?
      ensures err.Some? ==> dir.entries - {TempPath(path)} == old(dir.entries) - {TempPath(path)}
    {
      cache := cache[key := value];
      err := Save();
      if err.Some? {
        cache := cache - {key};
      }
    }

    /**
     * `Delete`: an absent key is an error and changes nothing. Otherwise the
     * key leaves the cache, and stays out of it even when saving fails.
     */
    method Delete(key: string) returns (err: Option<string>)
      modifies this, dir
      ensures key !in old(cache) ==>
                err == Some("key not found: " + key) && cache == old(cache) && dir.entries == old(dir.entries)
      ensures key in old(cache) ==> cache == old(cache) - {key} && Get(key).Err?
      ensures err.None? ==> key in old(cache) && codec.marshal(cache).Ok?
      ensures err.None? ==> dir.entries == (old(dir.entries) - {TempPath(path)})[path := File(codec.marshal(cache).value)]
      ensures err.Some? ==> dir.entries - {TempPath(path)} == old(dir.entries) - {TempPath(path)}
    {
      if key !in cache {
        return Some("key not found: " + key);
      }
      cache := cache - {key};
      var e := Save();
      if e.Some? {
        return Some("failed to save config after delete: " + e.value);
      }
      return None;
    }

    /**
     * `List`: a copy of the cache, built pair by pair. The copy is a value,
     * so what the caller does with it cannot reach the store.
     */
    method List() returns (r: Result<map<string, Value>>)
      ensures r == Ok(cache)
    {
      var result: map<string, Value> := map[];
      var rest := cache.Keys;
      while rest != {}
        invariant rest <= cache.Keys
        invariant result.Keys == cache.Keys - rest
        invariant forall k | k in result :: result[k] == cache[k]
        decreases rest
      {
        var k :| k in rest;
        result := result[k := cache[k]];
        rest := rest - {k};
      }
      assert result.Keys == cache.Keys - {};
      assert result == cache;
      return Ok(result);
    }
  }

  /** A value set is read back: after `Set(k, v)` succeeded, `Get(k)` gives `v`, and other keys are untouched. */
  lemma SetThenGet(cache: map<string, Value>, key: string, value: Value, other: string)
    requires other != key
    ensures Lookup(cache[key := value], key) == Ok(value)
    ensures Lookup(cache[key := value], other) == Lookup(cache, other)
  {
  }

  /** A failed `Set` loses the earlier value of its key, and only that one. */
  lemma FailedSetForgets(cache: map<string, Value>, key: string, value: Value, other: string)
    requires other != key
    ensures Lookup(cache[key := value] - {key}, key) == Err("key not found: " + key)
    ensures Lookup(cache[key := value] - {key}, other) == Lookup(cache, other)
  {
  }

  /**
   * What decoding a saved value gives back. The file is decoded into a
   * `map[string]interface{}`, so only a string returns as it was: an alias,
   * like any other value that is not a string, returns as a generic decoded
   * value (a `map[string]interface{}` for a struct) and loses its Go type.
   */
  predicate ReadsBackAs(v: Value, w: Value)
  {
    if v.Text? then w == v else w.Decoded?
  }

  /** `reopened` is what decoding a file written from `cache` gives: the same keys, each value read back. */
  predicate ReadBack(cache: map<string, Value>, reopened: map<string, Value>)
  {
    reopened.Keys == cache.Keys && forall k | k in cache :: ReadsBackAs(cache[k], reopened[k])
  }

  /**
   * The law of `json.Marshal` of the cache followed by `json.Unmarshal`
   * into a `map[string]interface{}`: what the encoder produced decodes, to
   * the cache read back value by value.
   */
  ghost predicate ConfigRoundTrips(codec: Codec<map<string, Value>>)
  {
    forall m: map<string, Value> | codec.marshal(m).Ok? ::
      codec.unmarshal(codec.marshal(m).value).Ok? && ReadBack(m, codec.unmarshal(codec.marshal(m).value).value)
  }

  /**
   * The file a successful save leaves behind decodes, and a store opened on
   * it starts from the saved cache read back: the same keys and the same
   * strings, with every other value, aliases included, turned into a
   * generic decoded value.
   */
  lemma SavedFileReadsBack(codec: Codec<map<string, Value>>, cache: map<string, Value>,
                           before: map<string, Entry>, path: string)
    requires ConfigRoundTrips(codec)
    requires codec.marshal(cache).Ok?
    ensures var after := (before - {TempPath(path)})[path := File(codec.marshal(cache).value)];
      && path in after && after[path].File?
      && codec.unmarshal(after[path].data).Ok?
      && ReadBack(cache, map[] + codec.unmarshal(after[path].data).value)
  {
    var reopened := codec.unmarshal(codec.marshal(cache).value).value;
    assert map[] + reopened == reopened;
  }

  /** A cache of strings only is read back exactly. */
  lemma TextsReadBackExactly(cache: map<string, Value>, reopened: map<string, Value>)
    requires forall k | k in cache :: cache[k].Text?
    requires ReadBack(cache, reopened)
    ensures reopened == cache
  {
    forall k | k in cache
      ensures reopened[k] == cache[k]
    {
      assert ReadsBackAs(cache[k], reopened[k]);
    }
  }

  /** Nothing read back is an alias. */
  lemma NoAliasReadBack(cache: map<string, Value>, reopened: map<string, Value>, k: string)
    requires ReadBack(cache, reopened)
    requires k in reopened
    ensures !reopened[k].AliasValue?
  {
    assert ReadsBackAs(cache[k], reopened[k]);
  }
}
