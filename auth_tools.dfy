/**
 * The authentication tools (auth/tools.go): log in with a personal access
 * token, log out, report the authentication status. The one token lives in
 * the token store under the fixed id "pat".
 */
module AuthTools {
  import opened Base
  import opened GoStrings
  import opened Fs
  import opened Json
  import opened TokenStore
  import Protocol

  /** The fixed id of the personal access token. */
  const PatId := "pat"
  const DefaultScopes := ["repo", "user"]

  type Args = map<string, Protocol.Any>

  /** The "token" argument, when it is a non-empty string. */
  function TokenArg(args: Args): (v: Option<string>)
    ensures v.Some? <==> "token" in args && args["token"].Str? && args["token"].s != ""
    ensures v.Some? ==> v.value == args["token"].s
  {
    if "token" in args && args["token"].Str? && args["token"].s != "" then Some(args["token"].s) else None
  }

  /** The "scopes" argument when it is a `[]string`, otherwise ["repo", "user"]. */
  function Scopes(args: Args): (scopes: seq<string>)
    ensures "scopes" in args && args["scopes"].Strings? ==> scopes == args["scopes"].items
    ensures !("scopes" in args && args["scopes"].Strings?) ==> scopes == DefaultScopes
  {
    if "scopes" in args && args["scopes"].Strings? then args["scopes"].items else DefaultScopes
  }

  /** The token a login stores, before the store stamps it. */
  function LoginToken(value: string, scopes: seq<string>): Token
  {
    Token(PatId, value, "bearer", "", scopes, Zero, Zero, Zero)
  }

  /** `%v` of a `[]string`: the items separated by spaces, in brackets. */
  function FormatStrings(items: seq<string>): string
  {
    "[" + Join(items, " ") + "]"
  }

  /** A tool result holding one text content. */
  function TextResult(text: string): Protocol.CallToolResult
  {
    Protocol.CallToolResult([Protocol.TextContent(text)])
  }

  function LoginText(scopes: seq<string>): string
  {
    "Successfully authenticated with personal access token (scopes: " + FormatStrings(scopes) + ")"
  }

  function StatusText(t: Token): string
  {
    "Authenticated with " + t.tokenType + " token (scopes: " + FormatStrings(t.scope) + ")"
  }

  const NotAuthenticated := "Not authenticated"

  /** `isNotFoundError`: the exact text the token store gives for a missing "pat". */
  predicate IsNotFoundError(err: string)
    ensures IsNotFoundError(err) <==> err == "token not found: " + PatId
  {
    err == "token not found: pat"
  }

  /**
   * Of the store's "token not found" errors only the one for "pat" counts as
   * not found; none of the store's other error texts does.
   */
  lemma NotFoundOnlyForPat(id: string, text: string)
    ensures IsNotFoundError("token not found: " + id) <==> id == PatId
    ensures !IsNotFoundError("failed to read token file: " + text)
    ensures !IsNotFoundError("failed to unmarshal token: " + text)
    ensures !IsNotFoundError("failed to delete token file: " + text)
  {
    if IsNotFoundError("token not found: " + id) {
      assert id == ("token not found: " + id)[|"token not found: "|..];
    }
    assert ("failed to read token file: " + text)[0] != "token not found: pat"[0];
    assert ("failed to unmarshal token: " + text)[0] != "token not found: pat"[0];
    assert ("failed to delete token file: " + text)[0] != "token not found: pat"[0];
  }

  /** The token a successful login leaves in the store: id "pat", a bearer token with the given value and scopes. */
  lemma LoginStoresPat(codec: Codec<Token>, before: map<string, Entry>, args: Args, now: Time)
    requires RoundTrips(codec)
    requires TokenArg(args).Some?
    requires codec.marshal(Stamped(LoginToken(TokenArg(args).value, Scopes(args)), now)).Ok?
    ensures var t := Stamped(LoginToken(TokenArg(args).value, Scopes(args)), now);
      var after := before[JsonFile(PatId) := File(codec.marshal(t).value)];
      && JsonFile(PatId) in after && after[JsonFile(PatId)].File?
      && codec.unmarshal(after[JsonFile(PatId)].data).Ok?
      && var read := codec.unmarshal(after[JsonFile(PatId)].data).value;
      && read.id == PatId && read.accessToken == args["token"].s && read.tokenType == "bearer"
      && read.scope == Scopes(args) && read.createdAt == now && read.updatedAt == now
  {
    var t := Stamped(LoginToken(TokenArg(args).value, Scopes(args)), now);
    StoredTokenReadsBack(codec, before, t);
  }

  class Tool {
    const store: FileSystemStore

    constructor (store: FileSystemStore)
      ensures this.store == store
    {
      this.store := store;
    }

    /**
     * `NewTool`: a tool over a token store in `dir` (the "auth" directory
     * under the storage path).
     */
    static method NewTool(dir: Dir, codec: Codec<Token>) returns (tool: Tool?, err: Option<string>)
      ensures err.None? <==> tool != null
      ensures tool != null ==> fresh(tool) && tool.store.dir == dir && tool.store.codec == codec
      ensures err.Some? ==> HasPrefix(err.value, "failed to create token store: ")
    {
      var store, e := FileSystemStore.Open(dir, codec);
      if e.Some? {
        var text := "failed to create token store: " + e.value;
        assert text[..|"failed to create token store: "|] == "failed to create token store: ";
        return null, Some(text);
      }
      tool := new Tool(store);
      return tool, None;
    }

    /**
     * `LoginWithToken`: stores the token argument as the bearer token "pat"
     * with the given or the default scopes.
     */
    method LoginWithToken(args: Args, now: Time) returns (r: Result<Protocol.CallToolResult>)
      modifies store.dir
      ensures TokenArg(args).None? ==> r == Err("token argument is required") && store.dir.entries == old(store.dir.entries)
      ensures r.Ok? ==> TokenArg(args).Some?
      ensures r.Ok? ==> var t := Stamped(LoginToken(TokenArg(args).value, Scopes(args)), now);
        && store.codec.marshal(t).Ok?
        && store.dir.entries == old(store.dir.entries)[JsonFile(PatId) := File(store.codec.marshal(t).value)]
      ensures r.Ok? ==> r.value == TextResult(LoginText(Scopes(args)))
      ensures TokenArg(args).Some? && r.Err? ==> HasPrefix(r.error, "failed to store token: ")
      ensures r.Err? ==> store.dir.entries - {JsonFile(PatId)} == old(store.dir.entries) - {JsonFile(PatId)}
    {
      var value := TokenArg(args);
      if value.None? {
        return Err("token argument is required");
      }
      var scopes := Scopes(args);
      var token := new TokenRef(LoginToken(value.value, scopes));
      var e := store.StoreToken(token, now);
      if e.Some? {
        var text := "failed to store token: " + e.value;
        assert text[..|"failed to store token: "|] == "failed to store token: ";
        return Err(text);
      }
      return Ok(TextResult(LoginText(scopes)));
    }

    /**
     * `Logout`: removes the token. A token that is not there is no error;
     * so logging out succeeds exactly when no token is left afterwards.
     */
    method Logout(args: Args) returns (r: Result<Protocol.CallToolResult>)
      modifies store.dir
      ensures r.Ok? <==> JsonFile(PatId) !in store.dir.entries
      ensures r.Ok? ==> r.value == TextResult("Successfully logged out")
      ensures r.Ok? ==> store.dir.entries == old(store.dir.entries) - {JsonFile(PatId)}
      ensures r.Err? ==> HasPrefix(r.error, "failed to remove token: ") && store.dir.entries == old(store.dir.entries)
    {
      var e := store.DeleteToken(PatId);
      assert "token not found: " + PatId == "token not found: pat";
      if e.Some? && !IsNotFoundError(e.value) {
        var text := "failed to remove token: " + e.value;
        assert text[..|"failed to remove token: "|] == "failed to remove token: ";
        return Err(text);
      }
      return Ok(TextResult("Successfully logged out"));
    }

    /**
     * `GetAuthStatus`: "Not authenticated" exactly when there is no token;
     * any other failure to read it is an error.
     */
    method GetAuthStatus(args: Args) returns (r: Result<Protocol.CallToolResult>)
      ensures r == Ok(TextResult(NotAuthenticated)) <==> JsonFile(PatId) !in store.dir.entries
      ensures r.Ok? && JsonFile(PatId) in store.dir.entries ==>
                store.dir.entries[JsonFile(PatId)].File?
                && store.codec.unmarshal(store.dir.entries[JsonFile(PatId)].data).Ok?
                && r.value == TextResult(StatusText(store.codec.unmarshal(store.dir.entries[JsonFile(PatId)].data).value))
      ensures Malformed(store.dir.entries, JsonFile(PatId), store.codec) ==> r.Err?
      ensures r.Err? ==> HasPrefix(r.error, "failed to get token status: ")
    {
      var token := store.GetToken(PatId);
      if token.Err? {
        if IsNotFoundError(token.error) {
          return Ok(TextResult(NotAuthenticated));
        }
        var text := "failed to get token status: " + token.error;
        assert text[..|"failed to get token status: "|] == "failed to get token status: ";
        return Err(text);
      }
      var status := StatusText(token.value);
      assert status[0] != NotAuthenticated[0];
      return Ok(TextResult(status));
    }

    /** `GetToken`: the stored "pat" token. */
    method GetToken() returns (r: Result<Token>)
      ensures r == Err("token not found: pat") <==> JsonFile(PatId) !in store.dir.entries
      ensures r.Ok? ==> JsonFile(PatId) in store.dir.entries && store.dir.entries[JsonFile(PatId)].File?
      ensures r.Ok? ==> store.codec.unmarshal(store.dir.entries[JsonFile(PatId)].data) == Ok(r.value)
      ensures Malformed(store.dir.entries, JsonFile(PatId), store.codec) ==> r.Err?
    {
      r := store.GetToken(PatId);
    }
  }
}
