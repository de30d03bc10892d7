/**
 * The configuration manager (config/manager.go): a global store, an
 * optional local store and the environment, with environment values taking
 * precedence over local ones and local over global. Both stores are
 * `FileStore`s over the same file system `root`, keyed by path.
 */
module ConfigManager {
  import opened Base
  import opened GoStrings
  import opened Fs
  import opened Json
  import opened ConfigValue
  import opened ConfigStorage

  const ScopeGlobal := "global"
  const ScopeLocal := "local"

  /**
   * An `EnvProvider`: the variables it holds. `Get` of an unset variable is
   * "", as `os.Getenv` and the test provider both give.
   */
  class EnvProvider {
    var vars: map<string, string>

    constructor (vars: map<string, string>)
      ensures this.vars == vars
    {
      this.vars := vars;
    }

    function Get(key: string): (v: string)
      reads this
      ensures key in vars ==> v == vars[key]
      ensures key !in vars ==> v == ""
    {
      if key in vars then vars[key] else ""
    }

    method Set(key: string, value: string)
      modifies this
      ensures vars == old(vars)[key := value]
    {
      vars := vars[key := value];
    }

    /** `List`: every variable, with the value `Get` reads. */
    function List(): (r: map<string, string>)
      reads this
      ensures r.Keys == vars.Keys
      ensures forall k | k in r :: Get(k) == r[k]
      ensures forall k :: k !in r ==> Get(k) == ""
    {
      vars
    }
  }

  /** The value the environment contributes: always a string. */
  function Texts(vars: map<string, string>): (m: map<string, Value>)
    ensures m.Keys == vars.Keys
    ensures forall k | k in m :: m[k] == Text(vars[k])
  {
    map k | k in vars :: Text(vars[k])
  }

  /** The value of an environment variable, "" when it is unset. */
  function EnvGet(vars: map<string, string>, key: string): (v: string)
    ensures v == "" || (key in vars && v == vars[key])
    ensures key in vars ==> v == vars[key]
  {
    if key in vars then vars[key] else ""
  }

  /**
   * `Get`'s precedence: a non-empty environment value, then (in local scope,
   * with a local store holding the key) the local value, then whatever the
   * global store gives, its "key not found" included.
   */
  function Resolve(vars: map<string, string>, local: Option<map<string, Value>>,
                   global: map<string, Value>, key: string, scope: string): (r: Result<Value>)
    ensures EnvGet(vars, key) != "" ==> r == Ok(Text(EnvGet(vars, key)))
    ensures EnvGet(vars, key) == "" && scope == ScopeLocal && local.Some? && key in local.value ==>
              r == Ok(local.value[key])
    ensures EnvGet(vars, key) == "" && !(scope == ScopeLocal && local.Some? && key in local.value) ==>
              r == Lookup(global, key)
  {
    var envVal := EnvGet(vars, key);
    if envVal != "" then Ok(Text(envVal))
    else if scope == ScopeLocal && local.Some? && Lookup(local.value, key).Ok? then Lookup(local.value, key)
    else Lookup(global, key)
  }

  /** In global scope the local store is never consulted. */
  lemma GlobalScopeIgnoresLocal(vars: map<string, string>, l1: Option<map<string, Value>>,
                                l2: Option<map<string, Value>>, global: map<string, Value>, key: string)
    ensures Resolve(vars, l1, global, key, ScopeGlobal) == Resolve(vars, l2, global, key, ScopeGlobal)
  {
  }

  /** Once a key is deleted from the local store, local scope falls back to the global value. */
  lemma DeletedLocalFallsBack(vars: map<string, string>, local: map<string, Value>,
                              global: map<string, Value>, key: string)
    requires EnvGet(vars, key) == ""
    ensures Resolve(vars, Some(local - {key}), global, key, ScopeLocal) == Lookup(global, key)
  {
  }

  /**
   * `splitEnv`: the text before the first '=' and the text after it; with
   * no '=', no split.
   */
  method SplitEnv(env: string) returns (key: string, value: string, ok: bool)
    ensures ok <==> '=' in env
    ensures ok ==> key + "=" + value == env && '=' !in key
    ensures !ok ==> key == "" && value == ""
  {
    var i := 0;
    while i < |env|
      invariant 0 <= i <= |env|
      invariant '=' !in env[..i]
    {
      if env[i] == '=' {
        assert env[..i] + "=" + env[i + 1..] == env;
        return env[..i], env[i + 1..], true;
      }
      assert env[..i + 1] == env[..i] + [env[i]];
      i := i + 1;
    }
    assert env[..i] == env;
    return "", "", false;
  }

  /** The split `splitEnv` makes, as a function: the first '=' is the separator. */
  function Split(env: string): (r: Option<(string, string)>)
    ensures r.Some? <==> '=' in env
    ensures r.Some? ==> r.value.0 + "=" + r.value.1 == env && '=' !in r.value.0
    decreases |env|
  {
    if |env| == 0 then None
    else if env[0] == '=' then
      assert [] + "=" + env[1..] == env;
      Some(([], env[1..]))
    else match Split(env[1..])
      case None => None
      case Some(kv) =>
        assert [env[0]] + kv.0 + "=" + kv.1 == [env[0]] + (kv.0 + "=" + kv.1) == env;
        Some(([env[0]] + kv.0, kv.1))
  }

  /** The key and value of every environment entry that has an '=', later entries winning. */
  function EnvironMap(environ: seq<string>): map<string, string>
    decreases |environ|
  {
    if |environ| == 0 then map[]
    else
      var m := EnvironMap(environ[..|environ| - 1]);
      match Split(environ[|environ| - 1])
      case None => m
      case Some(kv) => m[kv.0 := kv.1]
  }

  /** The split is unique: a key without '=' followed by "=" fixes both halves. */
  lemma SplitUnique(env: string, key: string, value: string)
    requires key + "=" + value == env && '=' !in key
    ensures Split(env) == Some((key, value))
    decreases |env|
  {
    if |key| > 0 {
      assert env[0] == key[0];
      assert key[0] != '=' by { assert key[0] in key; }
      assert env[1..] == key[1..] + "=" + value;
      assert '=' !in key[1..] by {
        forall c | c in key[1..] ensures c != '=' {
          assert c in key;
        }
      }
      SplitUnique(env[1..], key[1..], value);
      assert [key[0]] + key[1..] == key;
    } else {
      assert env[0] == '=';
      assert env[1..] == value;
    }
  }

  /**
   * `defaultEnvProvider.List`: every entry of `os.Environ()` with an '='
   * becomes a variable, split at its first '='.
   */
  method DefaultList(environ: seq<string>) returns (vars: map<string, string>)
    ensures vars == EnvironMap(environ)
  {
    vars := map[];
    var i := 0;
    while i < |environ|
      invariant 0 <= i <= |environ|
      invariant vars == EnvironMap(environ[..i])
    {
      assert environ[..i + 1][..i] == environ[..i];
      var k, v, ok := SplitEnv(environ[i]);
      if ok {
        SplitUnique(environ[i], k, v);
        vars := vars[k := v];
      }
      i := i + 1;
    }
    assert environ[..i] == environ;
  }

  /** Every variable the default provider lists comes from an entry "key=value" of the environment. */
  lemma {:induction false} EnvironMapFromEntries(environ: seq<string>, key: string)
    requires key in EnvironMap(environ)
    ensures exists i | 0 <= i < |environ| :: environ[i] == key + "=" + EnvironMap(environ)[key]
    ensures '=' !in key
    decreases |environ|
  {
    var n := |environ| - 1;
    var init := environ[..n];
    var m := EnvironMap(init);
    match Split(environ[n])
    case None =>
      EnvironMapFromEntries(init, key);
      var i :| 0 <= i < |init| && init[i] == key + "=" + m[key];
      assert environ[i] == init[i];
    case Some(kv) =>
      if kv.0 == key {
        assert environ[n] == key + "=" + EnvironMap(environ)[key];
      } else {
        EnvironMapFromEntries(init, key);
        var i :| 0 <= i < |init| && init[i] == key + "=" + m[key];
        assert environ[i] == init[i];
      }
  }

  /** The path of the global configuration file, `<configDir>/config.json`, with `$HOME/.config/github-mcp` as the default directory. */
  function GlobalConfigPath(configDir: string, home: string): (path: string)
    ensures configDir != "" ==> path == configDir + "/config.json"
    ensures configDir == "" ==> path == home + "/.config/github-mcp/config.json"
  {
    (if configDir == "" then home + "/.config/github-mcp" else configDir) + "/config.json"
  }

  /**
   * The pairs of `from` copied over `into`, one by one: `from` wins where
   * both have a key.
   */
  method Overlay(into: map<string, Value>, from: map<string, Value>) returns (r: map<string, Value>)
    ensures r == into + from
  {
    r := into;
    var rest := from.Keys;
    while rest != {}
      invariant rest <= from.Keys
      invariant r.Keys == into.Keys + (from.Keys - rest)
      invariant forall k | k in r :: r[k] == if k in from && k !in rest then from[k] else into[k]
      decreases rest
    {
      var k :| k in rest;
      r := r[k := from[k]];
      rest := rest - {k};
    }
    assert r.Keys == (into + from).Keys;
  }

  const GlobalStoreError := "failed to create global config store: "
  const LocalStoreError := "failed to create local config store: "

  /**
   * A store opened on `path` starts empty when there is no such file, and
   * otherwise from what the file decodes to.
   */
  ghost predicate StartsFromFile(cache: map<string, Value>, entries: map<string, Entry>, path: string,
                                 codec: Codec<map<string, Value>>)
  {
    && (path !in entries ==> cache == map[])
    && (path in entries ==> entries[path].File? && codec.unmarshal(entries[path].data) == Ok(cache))
  }

  /** `path` is there but is a directory or a file that does not decode: opening a store on it fails. */
  ghost predicate FileUnreadable(entries: map<string, Entry>, path: string, codec: Codec<map<string, Value>>)
  {
    path in entries && (entries[path].Directory? || codec.unmarshal(entries[path].data).Err?)
  }

  class Manager {
    const global: FileStore
    const local: FileStore?
    const env: EnvProvider

    /** The stores are two objects, so a write to one leaves the other's cache alone. */
    predicate Valid()
    {
      local != global
    }

    /** The local store's cache, if there is a local store. */
    function LocalCache(): (c: Option<map<string, Value>>)
      reads local
      ensures c.Some? <==> local != null
      ensures local != null ==> c.value == local.cache
    {
      if local == null then None else Some(local.cache)
    }

    /** What a write in this scope may change. */
    function Stores(): set<object>
    {
      {global, global.dir} + if local == null then {} else {local, local.dir}
    }

    constructor (global: FileStore, local: FileStore?, env: EnvProvider)
      ensures this.global == global && this.local == local && this.env == env
    {
      this.global := global;
      this.local := local;
      this.env := env;
    }

    /**
     * `NewManager`: the global store at `GlobalConfigPath`, a local store
     * only when a local path is given, and the given environment.
     */
    static method Open(configDir: string, home: string, localPath: string, env: EnvProvider,
                       root: Dir, codec: Codec<map<string, Value>>)
      returns (m: Manager?, err: Option<string>)
      ensures err.None? <==> m != null
      ensures m != null ==> m.Valid() && m.env == env && m.global.path == GlobalConfigPath(configDir, home)
      ensures m != null ==> m.global.dir == root && fresh(m.global)
      ensures m != null ==> (m.local == null <==> localPath == "")
      ensures m != null && m.local != null ==> m.local.path == localPath && m.local.dir == root && fresh(m.local)
      ensures m != null ==> StartsFromFile(m.global.cache, root.entries, GlobalConfigPath(configDir, home), codec)
      ensures m != null && m.local != null ==> StartsFromFile(m.local.cache, root.entries, localPath, codec)
      ensures err.Some? ==> HasPrefix(err.value, GlobalStoreError) || (localPath != "" && HasPrefix(err.value, LocalStoreError))
      ensures FileUnreadable(root.entries, GlobalConfigPath(configDir, home), codec) ==>
                err.Some? && HasPrefix(err.value, GlobalStoreError)
    {
      var global, e := FileStore.Open(GlobalConfigPath(configDir, home), root, codec);
      if global == null {
        var text := GlobalStoreError + e.value;
        assert text[..|GlobalStoreError|] == GlobalStoreError;
        return null, Some(text);
      }
      var local: FileStore? := null;
      if localPath != "" {
        var l, e2 := FileStore.Open(localPath, root, codec);
        if l == null {
          var text := LocalStoreError + e2.value;
          assert text[..|LocalStoreError|] == LocalStoreError;
          return null, Some(text);
        }
        local := l;
      }
      m := new Manager(global, local, env);
      return m, None;
    }

    /** `Get`. */
    function Get(key: string, scope: string): (r: Result<Value>)
      reads this, env, global, local
      ensures r == Resolve(env.vars, LocalCache(), global.cache, key, scope)
    {
      Resolve(env.vars, LocalCache(), global.cache, key, scope)
    }

    /**
     * `Set`: writes to the store of the scope and to no other; local scope
     * without a local store, and a scope that is neither, change nothing.
     */
    method Set(key: string, value: Value, scope: string) returns (err: Option<string>)
      requires Valid()
      modifies Stores()
      ensures scope == ScopeLocal && local == null ==> err == Some("local configuration is not available")
      ensures scope != ScopeLocal && scope != ScopeGlobal ==> err == Some("invalid scope: " + scope)
      ensures !(scope == ScopeGlobal || (scope == ScopeLocal && local != null)) ==>
                global.cache == old(global.cache) && global.dir.entries == old(global.dir.entries)
      ensures !(scope == ScopeGlobal || (scope == ScopeLocal && local != null)) && local != null ==>
                local.cache == old(local.cache) && local.dir.entries == old(local.dir.entries)
      ensures scope == ScopeGlobal && err.None? ==> global.cache == old(global.cache)[key := value]
      ensures scope == ScopeGlobal && err.Some? ==> global.cache == old(global.cache) - {key}
      ensures scope == ScopeGlobal && local != null ==> local.cache == old(local.cache)
      ensures scope == ScopeLocal && local != null && err.None? ==> local.cache == old(local.cache)[key := value]
      ensures scope == ScopeLocal && local != null && err.Some? ==> local.cache == old(local.cache) - {key}
      ensures scope == ScopeLocal ==> global.cache == old(global.cache)
    {
      if scope == ScopeLocal {
        if local == null {
          return Some("local configuration is not available");
        }
        err := local.Set(key, value);
      } else if scope == ScopeGlobal {
        err := global.Set(key, value);
      } else {
        return Some("invalid scope: " + scope);
      }
    }

    /**
     * `Delete`: removes the key from the store of the scope only; local
     * scope without a local store, and a scope that is neither, change
     * nothing. Deleting in local scope leaves the global value in place.
     */
    method Delete(key: string, scope: string) returns (err: Option<string>)
      requires Valid()
      modifies Stores()
      ensures scope == ScopeLocal && local == null ==> err == Some("local configuration is not available")
      ensures scope != ScopeLocal && scope != ScopeGlobal ==> err == Some("invalid scope: " + scope)
      ensures !(scope == ScopeGlobal || (scope == ScopeLocal && local != null)) ==>
                global.cache == old(global.cache) && global.dir.entries == old(global.dir.entries)
      ensures !(scope == ScopeGlobal || (scope == ScopeLocal && local != null)) && local != null ==>
                local.cache == old(local.cache) && local.dir.entries == old(local.dir.entries)
      ensures scope == ScopeGlobal ==> global.cache == old(global.cache) - {key}
      ensures scope == ScopeGlobal && key !in old(global.cache) ==> err == Some("key not found: " + key)
      ensures scope == ScopeGlobal && local != null ==> local.cache == old(local.cache)
      ensures scope == ScopeLocal && local != null ==> local.cache == old(local.cache) - {key}
      ensures scope == ScopeLocal && local != null && key !in old(local.cache) ==>
                err == Some("key not found: " + key)
      ensures scope == ScopeLocal ==> global.cache == old(global.cache)
    {
      if scope == ScopeLocal {
        if local == null {
          return Some("local configuration is not available");
        }
        err := local.Delete(key);
        assert old(local.cache) - {key} == local.cache;
      } else if scope == ScopeGlobal {
        err := global.Delete(key);
      } else {
        return Some("invalid scope: " + scope);
      }
    }

    /** `List`: the entries of the scope's store with every environment variable laid over them. */
    method List(scope: string) returns (r: Result<map<string, Value>>)
      ensures scope == ScopeLocal && local == null ==> r == Err("local configuration is not available")
      ensures scope != ScopeLocal && scope != ScopeGlobal ==> r == Err("invalid scope: " + scope)
      ensures scope == ScopeLocal && local != null ==> r == Ok(local.cache + Texts(env.vars))
      ensures scope == ScopeGlobal ==> r == Ok(global.cache + Texts(env.vars))
    {
      var result: Result<map<string, Value>>;
      if scope == ScopeLocal {
        if local == null {
          return Err("local configuration is not available");
        }
        result := local.List();
      } else if scope == ScopeGlobal {
        result := global.List();
      } else {
        return Err("invalid scope: " + scope);
      }
      var all := Overlay(result.value, Texts(env.List()));
      return Ok(all);
    }

    /** `ListAll`: global entries, then local ones over them, then the environment over both. */
    method ListAll() returns (r: map<string, Value>)
      ensures r == AllEntries(global.cache, LocalCache(), env.vars)
    {
      r := map[];
      var g := global.List();
      if g.Ok? {
        r := Overlay(r, g.value);
      }
      if local != null {
        var l := local.List();
        if l.Ok? {
          r := Overlay(r, l.value);
        }
      }
      r := Overlay(r, Texts(env.List()));
      assert map[] + global.cache == global.cache;
    }
  }

  /** The union `ListAll` builds: the environment over the local store over the global one. */
  function AllEntries(global: map<string, Value>, local: Option<map<string, Value>>,
                      vars: map<string, string>): map<string, Value>
  {
    (if local.Some? then global + local.value else global) + Texts(vars)
  }

  /**
   * Every key of every source shows up in `ListAll`, with the environment's
   * value where it has one, else the local store's, else the global store's.
   */
  lemma ListAllPrecedence(global: map<string, Value>, local: Option<map<string, Value>>,
                          vars: map<string, string>, key: string)
    ensures key in AllEntries(global, local, vars) <==>
              key in global || (local.Some? && key in local.value) || key in vars
    ensures key in vars ==> AllEntries(global, local, vars)[key] == Text(vars[key])
    ensures key !in vars && local.Some? && key in local.value ==>
              AllEntries(global, local, vars)[key] == local.value[key]
    ensures key !in vars && !(local.Some? && key in local.value) && key in global ==>
              AllEntries(global, local, vars)[key] == global[key]
  {
  }

  /**
   * `Get` and `ListAll` agree on a key whose environment value is not
   * empty, and on a key with no environment variable at all (in local
   * scope, when the key is stored somewhere).
   */
  lemma GetAgreesWithListAll(global: map<string, Value>, local: Option<map<string, Value>>,
                             vars: map<string, string>, key: string)
    requires key !in vars || vars[key] != ""
    requires key in AllEntries(global, local, vars)
    ensures Resolve(vars, local, global, key, ScopeLocal) == Ok(AllEntries(global, local, vars)[key])
  {
    ListAllPrecedence(global, local, vars, key);
  }

  /**
   * An environment variable set to "" is where they part: `ListAll` (and
   * `List`) show "", while `Get` skips the variable and falls back to the
   * stores.
   */
  lemma EmptyEnvValueDisagrees(global: map<string, Value>, key: string, value: Value)
    requires global == map[key := value] && value != Text("")
    ensures AllEntries(global, None, map[key := ""])[key] == Text("")
    ensures Resolve(map[key := ""], None, global, key, ScopeGlobal) == Ok(value)
  {
  }
}
