/**
 * The file-system token store (storage/token.go): one JSON file
 * `<id>.json` per token in the store's directory, written in place. The
 * clock reading `StoreToken` takes is a parameter; the JSON encoding of a
 * token is the codec `codec`.
 */
module TokenStore {
  import opened Base
  import opened GoStrings
  import opened Fs
  import opened Json

  /** A `Token`. */
  datatype Token = Token(
    id: string,
    accessToken: string,
    tokenType: string,
    refreshToken: string,
    scope: seq<string>,
    expiresAt: Time,
    createdAt: Time,
    updatedAt: Time)

  /** A `*Token` the caller holds: `StoreToken` writes its timestamps back through it. */
  class TokenRef {
    var token: Token

    constructor (token: Token)
      ensures this.token == token
    {
      this.token := token;
    }
  }

  /** The timestamps `StoreToken` gives a token: `CreatedAt` only when it is still zero, `UpdatedAt` always. */
  function Stamped(t: Token, now: Time): (s: Token)
    ensures s.createdAt == (if t.createdAt == Zero then now else t.createdAt)
    ensures s.updatedAt == now
    ensures s.(createdAt := t.createdAt, updatedAt := t.updatedAt) == t
  {
    t.(createdAt := if t.createdAt.Zero? then now else t.createdAt, updatedAt := now)
  }

  /** Stamping twice keeps the first creation time. */
  lemma StampKeepsCreation(t: Token, first: Time, second: Time)
    requires first != Zero
    ensures Stamped(Stamped(t, first), second).createdAt == Stamped(t, first).createdAt
    ensures Stamped(Stamped(t, first), second).updatedAt == second
  {
  }

  /** An entry `ListTokens` reads: a file (not a directory) whose extension is ".json". */
  predicate Candidate(e: DirEntry)
  {
    !e.isDir && Ext(e.name) == ".json"
  }

  /** The entries `ListTokens` reads, in listing order. */
  function Candidates(listing: seq<DirEntry>): (cs: seq<DirEntry>)
    ensures forall j | 0 <= j < |cs| :: Candidate(cs[j])
    ensures |cs| <= |listing|
    decreases |listing|
  {
    if |listing| == 0 then []
    else if Candidate(listing[0]) then [listing[0]] + Candidates(listing[1..])
    else Candidates(listing[1..])
  }

  /**
   * The tokens a listing yields when every candidate file is there and
   * decodes: the decoded tokens, one per candidate, in order; `None` when
   * one of them is missing, a directory, or malformed.
   */
  function Decoded(listing: seq<DirEntry>, files: map<string, Entry>, codec: Codec<Token>): Option<seq<Token>>
    decreases |listing|
  {
    if |listing| == 0 then Some([])
    else
      var e := listing[0];
      if !Candidate(e) then Decoded(listing[1..], files, codec)
      else if e.name !in files || !files[e.name].File? then None
      else match codec.unmarshal(files[e.name].data)
        case Err(_) => None
        case Ok(t) =>
          match Decoded(listing[1..], files, codec)
          case None => None
          case Some(ts) => Some([t] + ts)
  }

  /** `ListTokens` yields one token per candidate entry, each decoded from that entry's file. */
  lemma {:induction false} DecodedPerCandidate(listing: seq<DirEntry>, files: map<string, Entry>, codec: Codec<Token>)
    requires Decoded(listing, files, codec).Some?
    ensures var ts := Decoded(listing, files, codec).value;
      && |ts| == |Candidates(listing)|
      && forall j | 0 <= j < |ts| ::
           Candidates(listing)[j].name in files && files[Candidates(listing)[j].name].File?
           && codec.unmarshal(files[Candidates(listing)[j].name].data) == Ok(ts[j])
    decreases |listing|
  {
    if |listing| > 0 {
      DecodedPerCandidate(listing[1..], files, codec);
    }
  }

  /** A malformed candidate file makes the whole listing fail. */
  lemma {:induction false} DecodedFailsOnMalformed(listing: seq<DirEntry>, files: map<string, Entry>,
                                                   codec: Codec<Token>, i: int)
    requires 0 <= i < |listing| && Candidate(listing[i])
    requires listing[i].name in files && files[listing[i].name].File?
    requires codec.unmarshal(files[listing[i].name].data).Err?
    ensures Decoded(listing, files, codec).None?
    decreases |listing|
  {
    if i > 0 {
      DecodedFailsOnMalformed(listing[1..], files, codec, i - 1);
    }
  }

  /** `name` is a file whose contents do not decode. */
  predicate Malformed(files: map<string, Entry>, name: string, codec: Codec<Token>)
  {
    name in files && files[name].File? && codec.unmarshal(files[name].data).Err?
  }

  /** What `ListTokens` has collected so far, followed by what the rest of the listing yields. */
  function Then(tokens: seq<Token>, rest: Option<seq<Token>>): Option<seq<Token>>
  {
    match rest
    case None => None
    case Some(ts) => Some(tokens + ts)
  }

  /** A step of `ListTokens` past an entry it does not read. */
  lemma DecodedSkip(listing: seq<DirEntry>, i: nat, files: map<string, Entry>, codec: Codec<Token>)
    requires i < |listing| && !Candidate(listing[i])
    ensures Decoded(listing[i..], files, codec) == Decoded(listing[i + 1..], files, codec)
  {
    assert listing[i..][0] == listing[i] && listing[i..][1..] == listing[i + 1..];
  }

  /** A step of `ListTokens` that reads and decodes a candidate entry. */
  lemma DecodedTake(listing: seq<DirEntry>, i: nat, files: map<string, Entry>, codec: Codec<Token>,
                    tokens: seq<Token>, t: Token)
    requires i < |listing| && Candidate(listing[i])
    requires listing[i].name in files && files[listing[i].name].File?
    requires codec.unmarshal(files[listing[i].name].data) == Ok(t)
    ensures Then(tokens, Decoded(listing[i..], files, codec))
            == Then(tokens + [t], Decoded(listing[i + 1..], files, codec))
  {
    assert listing[i..][0] == listing[i] && listing[i..][1..] == listing[i + 1..];
    match Decoded(listing[i + 1..], files, codec)
    case None =>
    case Some(ts) => assert tokens + [t] + ts == tokens + ([t] + ts);
  }

  class FileSystemStore {
    const dir: Dir
    const codec: Codec<Token>

    constructor (dir: Dir, codec: Codec<Token>)
      ensures this.dir == dir && this.codec == codec
    {
      this.dir := dir;
      this.codec := codec;
    }

    /** `NewFileSystemStore`: creates the directory; its failure is the store's. */
    static method Open(dir: Dir, codec: Codec<Token>) returns (store: FileSystemStore?, err: Option<string>)
      ensures err.None? <==> store != null
      ensures store != null ==> fresh(store) && store.dir == dir && store.codec == codec
      ensures err.Some? ==> HasPrefix(err.value, "failed to create token store directory: ")
    {
      var made := dir.MkdirAll();
      if made.Some? {
        var e := "failed to create token store directory: " + made.value.text;
        assert e[..|"failed to create token store directory: "|] == "failed to create token store directory: ";
        return null, Some(e);
      }
      store := new FileSystemStore(dir, codec);
      return store, None;
    }

    /**
     * `StoreToken`: stamps the caller's token (even when the write then
     * fails) and writes it to its file, replacing what was there.
     */
    method StoreToken(ref: TokenRef, now: Time) returns (err: Option<string>)
      modifies ref, dir
      ensures ref.token == Stamped(old(ref.token), now)
      ensures codec.marshal(ref.token).Err? ==>
                err == Some("failed to marshal token: " + codec.marshal(ref.token).error)
                && dir.entries == old(dir.entries)
      ensures err.None? ==> codec.marshal(ref.token).Ok?
      ensures err.None? ==> dir.entries == old(dir.entries)[JsonFile(ref.token.id) := File(codec.marshal(ref.token).value)]
      ensures err.Some? ==> dir.entries - {JsonFile(ref.token.id)} == old(dir.entries) - {JsonFile(ref.token.id)}
    {
      ref.token := Stamped(ref.token, now);
      var data := codec.marshal(ref.token);
      if data.Err? {
        return Some("failed to marshal token: " + data.error);
      }
      var w := dir.WriteFile(JsonFile(ref.token.id), data.value);
      if w.Some? {
        return Some("failed to write token file: " + w.value.text);
      }
      return None;
    }

    /** `GetToken`: the token in `<id>.json`; a missing file is "token not found: <id>". */
    method GetToken(id: string) returns (r: Result<Token>)
      ensures r == Err("token not found: " + id) <==> JsonFile(id) !in dir.entries
      ensures r.Ok? ==> JsonFile(id) in dir.entries && dir.entries[JsonFile(id)].File?
      ensures r.Ok? ==> codec.unmarshal(dir.entries[JsonFile(id)].data) == Ok(r.value)
      ensures Malformed(dir.entries, JsonFile(id), codec) ==> r.Err?
      ensures JsonFile(id) in dir.entries && dir.entries[JsonFile(id)].Directory? ==> r.Err?
    {
      var data, notExist := dir.ReadFile(JsonFile(id));
      if data.Err? {
        if notExist {
          return Err("token not found: " + id);
        }
        assert ("failed to read token file: " + data.error)[0] != ("token not found: " + id)[0];
        return Err("failed to read token file: " + data.error);
      }
      var token := codec.unmarshal(data.value);
      if token.Err? {
        assert ("failed to unmarshal token: " + token.error)[0] != ("token not found: " + id)[0];
        return Err("failed to unmarshal token: " + token.error);
      }
      return Ok(token.value);
    }

    /**
     * `ListTokens`: reads the directory and decodes every candidate entry in
     * listing order (`listing`), stopping at the first file that cannot be
     * read or decoded.
     */
    method ListTokens() returns (r: Result<seq<Token>>, ghost listing: seq<DirEntry>)
      ensures r.Ok? ==> Lists(listing, dir.entries) && Decoded(listing, dir.entries, codec) == Some(r.value)
      ensures Lists(listing, dir.entries) && Decoded(listing, dir.entries, codec).None? ==> r.Err?
    {
      var entries := dir.ReadDir();
      if entries.Err? {
        return Err("failed to read token directory: " + entries.error), [];
      }
      var es := entries.value;
      listing := es;
      var tokens: seq<Token> := [];
      var i := 0;
      assert es[0..] == es;
      assert Then([], Decoded(es, dir.entries, codec)) == Decoded(es, dir.entries, codec) by {
        match Decoded(es, dir.entries, codec)
        case None =>
        case Some(ts) => assert [] + ts == ts;
      }
      while i < |es|
        invariant 0 <= i <= |es|
        invariant Decoded(es, dir.entries, codec) == Then(tokens, Decoded(es[i..], dir.entries, codec))
      {
        var e := es[i];
        if e.isDir || Ext(e.name) != ".json" {
          DecodedSkip(es, i, dir.entries, codec);
          i := i + 1;
          continue;
        }
        var data, _ := dir.ReadFile(e.name);
        if data.Err? {
          return Err("failed to read token file " + e.name + ": " + data.error), listing;
        }
        var token := codec.unmarshal(data.value);
        if token.Err? {
          return Err("failed to unmarshal token from " + e.name + ": " + token.error), listing;
        }
        DecodedTake(es, i, dir.entries, codec, tokens, token.value);
        tokens := tokens + [token.value];
        i := i + 1;
      }
      assert es[i..] == [];
      assert tokens + [] == tokens;
      return Ok(tokens), listing;
    }

    /** `DeleteToken`: removes `<id>.json`; a missing file is "token not found: <id>". */
    method DeleteToken(id: string) returns (err: Option<string>)
      modifies dir
      ensures err == Some("token not found: " + id) <==> JsonFile(id) !in old(dir.entries)
      ensures err.None? ==> dir.entries == old(dir.entries) - {JsonFile(id)}
      ensures err.Some? ==> dir.entries == old(dir.entries)
    {
      var e := dir.Remove(JsonFile(id));
      if e.Some? {
        if e.value.notExist {
          return Some("token not found: " + id);
        }
        assert ("failed to delete token file: " + e.value.text)[0] != ("token not found: " + id)[0];
        return Some("failed to delete token file: " + e.value.text);
      }
      return None;
    }
  }

  /**
   * With a codec that reads back what it wrote, the file a successful
   * `StoreToken` leaves decodes to the stamped token, so a `GetToken` of
   * its id that succeeds returns the same ID, AccessToken and TokenType.
   */
  lemma StoredTokenReadsBack(codec: Codec<Token>, before: map<string, Entry>, t: Token)
    requires RoundTrips(codec)
    requires codec.marshal(t).Ok?
    ensures var after := before[JsonFile(t.id) := File(codec.marshal(t).value)];
      JsonFile(t.id) in after && after[JsonFile(t.id)].File?
      && codec.unmarshal(after[JsonFile(t.id)].data) == Ok(t)
  {
  }
}
