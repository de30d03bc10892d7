/**
 * Command aliases (config/alias.go): named command templates kept in the
 * configuration store under "alias:<name>", with `$1` ... `$9` placeholders
 * that `ExpandAlias` fills from the arguments. The clock is an input: the
 * two readings the code takes for `Created` and `Updated`.
 */
module ConfigAlias {
  import opened Base
  import opened GoStrings
  import opened ConfigValue
  import opened ConfigStorage
  import opened Json

  const AliasPrefix := "alias:"

  /** The store key of an alias. */
  function AliasKey(name: string): (key: string)
    ensures HasPrefix(key, AliasPrefix) && TrimPrefix(key, AliasPrefix) == name
  {
    AliasPrefix + name
  }

  /** `isAlphanumeric`: an ASCII letter or digit. */
  predicate IsAlphanumeric(c: char): (r: bool)
    ensures r ==> c < '\U{80}'
  {
    ('a' <= c <= 'z') || ('A' <= c <= 'Z') || ('0' <= c <= '9')
  }

  /** A character an alias name may contain. */
  predicate IsAliasChar(c: char)
  {
    IsAlphanumeric(c) || c == '-' || c == '_'
  }

  /** What `validateAliasName` accepts: a non-empty name of letters, digits, '-' and '_'. */
  predicate ValidAliasName(name: string)
  {
    |name| > 0 && forall i | 0 <= i < |name| :: IsAliasChar(name[i])
  }

  /** `isValidAliasName`: every character may appear in an alias name. */
  method IsValidAliasName(name: string) returns (ok: bool)
    ensures ok <==> forall i | 0 <= i < |name| :: IsAliasChar(name[i])
  {
    var i := 0;
    while i < |name|
      invariant 0 <= i <= |name|
      invariant forall j | 0 <= j < i :: IsAliasChar(name[j])
    {
      if !IsAlphanumeric(name[i]) && name[i] != '-' && name[i] != '_' {
        return false;
      }
      i := i + 1;
    }
    return true;
  }

  /** `validateAliasName`: the empty name and a name with another character are errors, each with its own text. */
  method ValidateAliasName(name: string) returns (err: Option<string>)
    ensures err.None? <==> ValidAliasName(name)
    ensures name == "" ==> err == Some("alias name cannot be empty")
    ensures name != "" && !ValidAliasName(name) ==>
              err == Some("invalid alias name: must contain only letters, numbers, hyphens, and underscores")
  {
    if name == "" {
      return Some("alias name cannot be empty");
    }
    var ok := IsValidAliasName(name);
    if !ok {
      return Some("invalid alias name: must contain only letters, numbers, hyphens, and underscores");
    }
    return None;
  }

  /**
   * Whether `extractParameters` records a word: it starts with '$', has
   * more after it, and what follows lies between "1" and "9" in string
   * order (so "10" and "1x" count, "0" and "a" do not).
   */
  predicate IsParamToken(part: string)
  {
    HasPrefix(part, "$") && |part| > 1 && LessEq("1", part[1..]) && LessEq(part[1..], "9")
  }

  /** The parameter names a command mentions. */
  function ParamNames(command: string): set<string>
  {
    set p | p in Fields(command) && IsParamToken(p) :: p[1..]
  }

  /** `extractParameters`: every parameter name of the command, mapped to "". */
  method ExtractParameters(command: string) returns (params: map<string, string>)
    ensures params.Keys == ParamNames(command)
    ensures forall k | k in params :: params[k] == ""
  {
    params := map[];
    var parts := Fields(command);
    var i := 0;
    while i < |parts|
      invariant 0 <= i <= |parts|
      invariant params.Keys == set p | p in parts[..i] && IsParamToken(p) :: p[1..]
      invariant forall k | k in params :: params[k] == ""
    {
      var part := parts[i];
      assert parts[..i + 1] == parts[..i] + [part];
      if HasPrefix(part, "$") && |part| > 1 {
        var num := TrimPrefix(part, "$");
        if LessEq("1", num) && LessEq(num, "9") {
          params := params[num := ""];
        }
      }
      i := i + 1;
    }
    assert parts[..i] == parts;
  }

  /** The map `extractParameters` builds. */
  function Params(command: string): (m: map<string, string>)
  {
    map k | k in ParamNames(command) :: ""
  }

  /** `fmt.Sprintf("$%d", n)`. */
  function Placeholder(n: nat): (p: string)
    ensures |p| >= 2 && p[0] == '$'
  {
    "$" + NatToString(n)
  }

  /** The command after the first loop of `ExpandAlias` has run `n` times: `$1` ... `$n` replaced by the arguments. */
  function Filled(command: string, args: seq<string>, n: nat): string
    requires n <= |args|
    decreases n
  {
    if n == 0 then command else ReplaceAll(Filled(command, args, n - 1), Placeholder(n), args[n - 1])
  }

  /** The second loop of `ExpandAlias` from `$from` on: every `$from` ... `$9` left is removed. */
  function Blanked(command: string, from: nat): string
    decreases 10 - from
  {
    if from > 9 then command else Blanked(ReplaceAll(command, Placeholder(from), ""), from + 1)
  }

  /** What `ExpandAlias` makes of a command and its arguments. */
  function Expansion(command: string, args: seq<string>): (r: string)
    ensures r == [] || (!IsSpace(r[0]) && !IsSpace(r[|r| - 1]))
  {
    TrimSpace(Blanked(Filled(command, args, |args|), |args| + 1))
  }

  /** `Alias.Params` of a new alias: a map from each parameter name to "". */
  lemma ParamsOfCommand(command: string, params: map<string, string>)
    requires params.Keys == ParamNames(command)
    requires forall k | k in params :: params[k] == ""
    ensures params == Params(command)
  {
  }

  /** One step of the second loop of `ExpandAlias`. */
  lemma BlankStep(s: string, from: nat, t: string)
    requires from <= 9 && t == ReplaceAll(s, Placeholder(from), "")
    ensures Blanked(s, from) == Blanked(t, from + 1)
  {
  }

  /** Removing placeholders leaves a command without '$' unchanged. */
  lemma {:induction false} BlankedAbsent(s: string, from: nat)
    requires '$' !in s
    ensures Blanked(s, from) == s
    decreases 10 - from
  {
    if from <= 9 {
      ReplaceAbsent(s, Placeholder(from), "");
      BlankedAbsent(s, from + 1);
    }
  }

  /** Once the command has no '$' left, later arguments change nothing. */
  lemma {:induction false} FilledAbsent(c: string, args: seq<string>, m: nat, n: nat)
    requires m <= n <= |args|
    requires '$' !in Filled(c, args, m)
    ensures Filled(c, args, n) == Filled(c, args, m)
    decreases n
  {
    if n > m {
      FilledAbsent(c, args, m, n - 1);
      ReplaceAbsent(Filled(c, args, m), Placeholder(n), args[n - 1]);
    }
  }

  /** A command without placeholders expands to itself, trimmed, whatever the arguments. */
  lemma ExpandWithoutPlaceholders(command: string, args: seq<string>)
    requires '$' !in command
    ensures Expansion(command, args) == TrimSpace(command)
  {
    FilledAbsent(command, args, 0, |args|);
    BlankedAbsent(command, |args| + 1);
  }

  /** Filling `$1` in a two-placeholder command `a$1b$2`. */
  lemma FillFirst(a: string, b: string, x: string)
    requires '$' !in a && '$' !in b && '$' !in x
    ensures ReplaceAll(a + "$1" + b + "$2", "$1", x) == a + x + b + "$2"
  {
    var tail := b + "$2";
    assert a + "$1" + b + "$2" == a + ("$1" + tail);
    ReplaceAfter(a, "$1" + tail, "$1", x);
    ReplaceAt("$1", x, tail);
    ReplaceAfter(b, "$2", "$1", x);
    ReplaceOther("$2", "$1", x);
    assert a + (x + (b + "$2")) == a + x + b + "$2";
  }

  /** Filling the trailing `$2`. */
  lemma FillSecond(s: string, y: string)
    requires '$' !in s
    ensures ReplaceAll(s + "$2", "$2", y) == s + y
  {
    ReplaceAfter(s, "$2", "$2", y);
    ReplaceAt("$2", y, "");
    assert "$2" + "" == "$2";
  }

  /**
   * Expanding a command `a$1b$2` whose text has no '$': the placeholders
   * without an argument become "", the arguments past the second are
   * ignored, and only the outer white space is trimmed (`a` and `b` keep
   * theirs).
   */
  lemma ExpandTwoPlaceholders(a: string, b: string, args: seq<string>)
    requires '$' !in a && '$' !in b && forall i | 0 <= i < |args| && i < 2 :: '$' !in args[i]
    ensures |args| == 0 ==> Expansion(a + "$1" + b + "$2", args) == TrimSpace(a + b)
    ensures |args| == 1 ==> Expansion(a + "$1" + b + "$2", args) == TrimSpace(a + args[0] + b)
    ensures |args| >= 2 ==> Expansion(a + "$1" + b + "$2", args) == TrimSpace(a + args[0] + b + args[1])
  {
    var c := a + "$1" + b + "$2";
    assert Placeholder(1) == "$1" && Placeholder(2) == "$2";
    if |args| == 0 {
      var ab := a + b;
      FillFirst(a, b, "");
      assert a + "" + b + "$2" == ab + "$2";
      BlankStep(c, 1, ab + "$2");
      FillSecond(ab, "");
      assert ab + "" == ab;
      BlankStep(ab + "$2", 2, ab);
      BlankedAbsent(ab, 3);
    } else if |args| == 1 {
      var axb := a + args[0] + b;
      FillFirst(a, b, args[0]);
      assert Filled(c, args, 1) == axb + "$2";
      FillSecond(axb, "");
      assert axb + "" == axb;
      BlankStep(axb + "$2", 2, axb);
      BlankedAbsent(axb, 3);
    } else {
      var axb := a + args[0] + b;
      FillFirst(a, b, args[0]);
      assert Filled(c, args, 1) == axb + "$2";
      FillSecond(axb, args[1]);
      assert Filled(c, args, 2) == axb + args[1];
      FilledAbsent(c, args, 2, |args|);
      BlankedAbsent(axb + args[1], |args| + 1);
    }
  }

  /** `ExpandTwoPlaceholders`, with the trimmed result `e` of the untrimmed `t` worked out by the caller. */
  lemma ExpandTrimmed(command: string, a: string, b: string, args: seq<string>, t: string, e: string)
    requires '$' !in a && '$' !in b && command == a + "$1" + b + "$2"
    requires forall i | 0 <= i < |args| && i < 2 :: '$' !in args[i]
    requires |args| == 0 ==> t == a + b
    requires |args| == 1 ==> t == a + args[0] + b
    requires |args| >= 2 ==> t == a + args[0] + b + args[1]
    requires TrimSpace(t) == e
    ensures Expansion(command, args) == e
  {
    ExpandTwoPlaceholders(a, b, args);
  }

  /** "git commit -m $1 -a $2" with both arguments. */
  lemma ExpandAllParameters(command: string)
    requires command == "git commit -m $1 -a $2"
    ensures Expansion(command, ["message", "true"]) == "git commit -m message -a true"
  {
    var t := "git commit -m " + "message" + " -a " + "true";
    TrimSpaceNone(t);
    ExpandTrimmed(command, "git commit -m ", " -a ", ["message", "true"], t, "git commit -m message -a true");
  }

  /** "git commit -m $1 -a $2" with one argument: the missing one leaves a trailing space, which is trimmed. */
  lemma ExpandPartialParameters(command: string)
    requires command == "git commit -m $1 -a $2"
    ensures Expansion(command, ["message"]) == "git commit -m message -a"
  {
    var t := "git commit -m " + "message" + " -a ";
    TrimSpaceLast(t);
    ExpandTrimmed(command, "git commit -m ", " -a ", ["message"], t, "git commit -m message -a");
  }

  /** "git commit -m $1 -a $2" with a third argument, which has no placeholder and is ignored. */
  lemma ExpandExtraParameters(command: string)
    requires command == "git commit -m $1 -a $2"
    ensures Expansion(command, ["message", "true", "extra"]) == "git commit -m message -a true"
  {
    var t := "git commit -m " + "message" + " -a " + "true";
    TrimSpaceNone(t);
    ExpandTrimmed(command, "git commit -m ", " -a ", ["message", "true", "extra"], t, "git commit -m message -a true");
  }

  /**
   * "git commit -m $1 -a $2" with no argument: both placeholders go, the
   * spaces on either side of `$1` both stay, so the result has a double
   * space inside and is not "git commit -m -a".
   */
  lemma ExpandNoParameters(command: string)
    requires command == "git commit -m $1 -a $2"
    ensures Expansion(command, []) == "git commit -m  -a"
    ensures Expansion(command, []) != "git commit -m -a"
  {
    var t := "git commit -m " + " -a ";
    TrimSpaceLast(t);
    ExpandTrimmed(command, "git commit -m ", " -a ", [], t, "git commit -m  -a");
  }

  /** A word such as "$10" has its name recorded: string order puts "10" between "1" and "9". */
  lemma TwoDigitParameter(command: string)
    requires "$10" in Fields(command)
    ensures "10" in ParamNames(command)
  {
    assert "$10"[1..] == "10";
    assert IsParamToken("$10");
  }

  class AliasManager {
    const store: FileStore

    constructor (store: FileStore)
      ensures this.store == store
    {
      this.store := store;
    }

    /** `GetAlias`: the store's error, or "invalid alias data" when the value is not an alias. */
    function GetAlias(name: string): (r: Result<Alias>)
      reads store
      ensures AliasKey(name) !in store.cache ==> r == Err("key not found: " + AliasKey(name))
      ensures AliasKey(name) in store.cache && !store.cache[AliasKey(name)].AliasValue? ==>
                r == Err("invalid alias data")
      ensures r.Ok? <==> AliasKey(name) in store.cache && store.cache[AliasKey(name)].AliasValue?
      ensures r.Ok? ==> store.cache[AliasKey(name)] == AliasValue(r.value)
    {
      match store.Get(AliasKey(name))
      case Err(e) => Err(e)
      case Ok(v) => if v.AliasValue? then Ok(v.alias) else Err("invalid alias data")
    }

    /**
     * `CreateAlias`: validates the name and the command, then stores the
     * alias, with its parameter names, under "alias:<name>".
     */
    method CreateAlias(name: string, command: string, description: string, created: Time, updated: Time)
      returns (err: Option<string>)
      modifies store, store.dir
      ensures !ValidAliasName(name) || command == "" ==>
                err.Some? && store.cache == old(store.cache) && store.dir.entries == old(store.dir.entries)
      ensures err.None? ==> ValidAliasName(name) && command != ""
      ensures err.None? ==>
                store.cache == old(store.cache)[AliasKey(name) :=
                  AliasValue(Alias(name, command, description, Params(command), created, updated))]
      ensures err.None? ==> GetAlias(name) == Ok(Alias(name, command, description, Params(command), created, updated))
      ensures err.Some? && ValidAliasName(name) && command != "" ==>
                store.cache == old(store.cache) - {AliasKey(name)}
    {
      err := ValidateAliasName(name);
      if err.Some? {
        return;
      }
      if command == "" {
        return Some("command cannot be empty");
      }
      var params := ExtractParameters(command);
      ParamsOfCommand(command, params);
      var alias := Alias(name, command, description, params, created, updated);
      err := store.Set(AliasKey(name), AliasValue(alias));
    }

    /** `DeleteAlias`. */
    method DeleteAlias(name: string) returns (err: Option<string>)
      modifies store, store.dir
      ensures AliasKey(name) !in old(store.cache) ==>
                err == Some("key not found: " + AliasKey(name)) && store.cache == old(store.cache)
      ensures AliasKey(name) in old(store.cache) ==> store.cache == old(store.cache) - {AliasKey(name)}
      ensures AliasKey(name) in old(store.cache) ==> GetAlias(name).Err?
    {
      err := store.Delete(AliasKey(name));
    }

    /**
     * `ListAliases`: the alias values stored under "alias:" keys, in the
     * order the store's listing is walked (`order`, every key once).
     */
    method ListAliases() returns (r: Result<seq<Alias>>, ghost order: seq<string>)
      ensures Enumerates(order, store.cache.Keys)
      ensures r == Ok(AliasesIn(store.cache, order))
    {
      var values := store.List();
      var cache := values.value;
      var aliases: seq<Alias> := [];
      order := [];
      var rest := cache.Keys;
      while rest != {}
        invariant rest <= cache.Keys
        invariant forall i | 0 <= i < |order| :: order[i] in cache && order[i] !in rest
        invariant forall k | k in cache :: k in rest || k in order
        invariant forall i, j | 0 <= i < j < |order| :: order[i] != order[j]
        invariant aliases == AliasesIn(cache, order)
        decreases rest
      {
        var key :| key in rest;
        assert (order + [key])[..|order|] == order;
        if HasPrefix(key, AliasPrefix) && cache[key].AliasValue? {
          aliases := aliases + [cache[key].alias];
        }
        order := order + [key];
        rest := rest - {key};
      }
      return Ok(aliases), order;
    }

    /**
     * `ExpandAlias`: fills `$1` ... `$n` with the `n` arguments in turn,
     * removes every `$k` left for `k` up to 9, and trims the outer white space.
     */
    method ExpandAlias(name: string, args: seq<string>) returns (r: Result<string>)
      ensures GetAlias(name).Err? ==> r == Err(GetAlias(name).error)
      ensures GetAlias(name).Ok? ==> r == Ok(Expansion(GetAlias(name).value.command, args))
    {
      var alias := GetAlias(name);
      if alias.Err? {
        return Err(alias.error);
      }
      var command := alias.value.command;
      var i := 0;
      while i < |args|
        invariant 0 <= i <= |args|
        invariant command == Filled(alias.value.command, args, i)
      {
        command := ReplaceAll(command, Placeholder(i + 1), args[i]);
        i := i + 1;
      }
      var k := |args| + 1;
      while k <= 9
        invariant k == |args| + 1 || |args| + 1 < k <= 10
        invariant Blanked(command, k) == Blanked(Filled(alias.value.command, args, |args|), |args| + 1)
      {
        command := ReplaceAll(command, Placeholder(k), "");
        k := k + 1;
      }
      return Ok(TrimSpace(command));
    }
  }

  /** The value under `key` as `ListAliases` hands it out: an alias under an "alias:" key, nothing otherwise. */
  function AliasAt(cache: map<string, Value>, key: string): seq<Alias>
    requires key in cache
  {
    if HasPrefix(key, AliasPrefix) && cache[key].AliasValue? then [cache[key].alias] else []
  }

  /** The aliases `ListAliases` collects walking the keys in `order`. */
  function AliasesIn(cache: map<string, Value>, order: seq<string>): seq<Alias>
    requires forall i | 0 <= i < |order| :: order[i] in cache
    decreases |order|
  {
    if |order| == 0 then []
    else AliasesIn(cache, order[..|order| - 1]) + AliasAt(cache, order[|order| - 1])
  }

  /**
   * `ListAliases` lists exactly the aliases stored under "alias:" keys: a
   * value under another key, or a stored value that is not an alias, is
   * never listed.
   */
  lemma {:induction false} AliasesInListsAliasKeys(cache: map<string, Value>, order: seq<string>, a: Alias)
    requires forall i | 0 <= i < |order| :: order[i] in cache
    ensures a in AliasesIn(cache, order) <==>
              exists i | 0 <= i < |order| :: HasPrefix(order[i], AliasPrefix) && cache[order[i]] == AliasValue(a)
    decreases |order|
  {
    if |order| > 0 {
      var init := order[..|order| - 1];
      var last := order[|order| - 1];
      AliasesInListsAliasKeys(cache, init, a);
      if a in AliasesIn(cache, order) && a !in AliasesIn(cache, init) {
        assert a in AliasAt(cache, last);
      }
      if exists i | 0 <= i < |order| :: HasPrefix(order[i], AliasPrefix) && cache[order[i]] == AliasValue(a) {
        var i :| 0 <= i < |order| && HasPrefix(order[i], AliasPrefix) && cache[order[i]] == AliasValue(a);
        if i < |order| - 1 {
          assert init[i] == order[i];
        } else {
          assert AliasAt(cache, last) == [a];
        }
      }
      if exists i | 0 <= i < |init| :: HasPrefix(init[i], AliasPrefix) && cache[init[i]] == AliasValue(a) {
        var i :| 0 <= i < |init| && HasPrefix(init[i], AliasPrefix) && cache[init[i]] == AliasValue(a);
        assert order[i] == init[i];
      }
    }
  }

  /**
   * A cache read back from its file holds no alias, so listing it finds
   * none, whatever order its keys are walked in.
   */
  lemma ReadBackListsNoAliases(saved: map<string, Value>, reopened: map<string, Value>, order: seq<string>)
    requires ReadBack(saved, reopened)
    requires forall i | 0 <= i < |order| :: order[i] in reopened
    ensures AliasesIn(reopened, order) == []
  {
    if AliasesIn(reopened, order) != [] {
      var a := AliasesIn(reopened, order)[0];
      AliasesInListsAliasKeys(reopened, order, a);
      var i :| 0 <= i < |order| && HasPrefix(order[i], AliasPrefix) && reopened[order[i]] == AliasValue(a);
      NoAliasReadBack(saved, reopened, order[i]);
    }
  }

  /**
   * Aliases do not survive a restart: once a store is opened on the file a
   * save wrote, an alias that was saved under its key is "invalid alias
   * data" to `GetAlias`, and `ListAliases` lists no alias at all.
   */
  lemma AliasLostOnRestart(codec: Codec<map<string, Value>>, saved: map<string, Value>, m: AliasManager,
                           name: string, order: seq<string>)
    requires ConfigRoundTrips(codec)
    requires codec.marshal(saved).Ok?
    requires codec.unmarshal(codec.marshal(saved).value) == Ok(m.store.cache)
    requires AliasKey(name) in saved && saved[AliasKey(name)].AliasValue?
    requires forall i | 0 <= i < |order| :: order[i] in m.store.cache
    ensures m.GetAlias(name) == Err("invalid alias data")
    ensures AliasesIn(m.store.cache, order) == []
  {
    assert ReadBack(saved, m.store.cache);
    NoAliasReadBack(saved, m.store.cache, AliasKey(name));
    ReadBackListsNoAliases(saved, m.store.cache, order);
  }
}
