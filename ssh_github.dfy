/**
 * Reconciling the local key store with the keys registered on GitHub
 * (ssh/github.go). The GitHub client is the `Remote` below: a list of
 * registered keys that can be listed, added to and deleted from, where every
 * call may fail for reasons the program cannot see (the network, the API).
 */
module SshGitHub {
  import opened Base
  import opened GoStrings
  import opened SshKey
  import opened SshCrypto
  import opened SshStorage

  /** A `github.SSHKey`: the fields the manager reads and writes. */
  datatype RemoteKey = RemoteKey(id: int, title: string, key: string)

  /** Whether some registered key has exactly the public-key text `pk`. */
  predicate OnRemote(keys: seq<RemoteKey>, pk: string)
  {
    exists i | 0 <= i < |keys| :: keys[i].key == pk
  }

  /** The public-key texts of a listing. */
  function KeyTexts(keys: seq<RemoteKey>): (s: set<string>)
    ensures forall pk :: pk in s <==> OnRemote(keys, pk)
  {
    set i | 0 <= i < |keys| :: keys[i].key
  }

  /** The keys GitHub holds for the user. */
  class Remote {
    var keys: seq<RemoteKey>

    constructor (keys: seq<RemoteKey>)
      ensures this.keys == keys
    {
      this.keys := keys;
    }

    /** `Client.ListSSHKeys`. */
    method List() returns (r: Result<seq<RemoteKey>>)
      ensures r.Ok? ==> r.value == keys
    {
      var fails: bool := *;
      if fails {
        var text: string := *;
        return Err(text);
      }
      return Ok(keys);
    }

    /** `Client.CreateSSHKey`: registers a key under an id GitHub picks. */
    method Create(title: string, key: string) returns (err: Option<string>)
      modifies this
      ensures err.None? ==> |keys| == |old(keys)| + 1 && keys[..|old(keys)|] == old(keys)
      ensures err.None? ==> keys[|old(keys)|].title == title && keys[|old(keys)|].key == key
      ensures err.Some? ==> keys == old(keys)
    {
      var fails: bool := *;
      if fails {
        var text: string := *;
        return Some(text);
      }
      var id: int := *;
      keys := keys + [RemoteKey(id, title, key)];
      return None;
    }

    /** `Client.DeleteSSHKey`: an id GitHub does not hold is an error. */
    method Delete(id: int) returns (err: Option<string>)
      modifies this
      ensures err.None? ==> (exists i | 0 <= i < |old(keys)| :: old(keys)[i].id == id)
      ensures err.None? ==> keys == Without(old(keys), id)
      ensures err.Some? ==> keys == old(keys)
    {
      var text: string := *;
      if !exists i | 0 <= i < |keys| :: keys[i].id == id {
        return Some(text);
      }
      var fails: bool := *;
      if fails {
        return Some(text);
      }
      keys := Without(keys, id);
      return None;
    }
  }

  /** The listing with every key of id `id` removed, the rest in order. */
  function Without(keys: seq<RemoteKey>, id: int): (r: seq<RemoteKey>)
    ensures forall i | 0 <= i < |r| :: r[i].id != id && r[i] in keys
    ensures forall k | k in keys && k.id != id :: k in r
  {
    if |keys| == 0 then []
    else if keys[0].id == id then Without(keys[1..], id)
    else [keys[0]] + Without(keys[1..], id)
  }

  /** One key `SyncKeys` means to upload: the local id, the title and the public-key text. */
  datatype Upload = Upload(id: string, title: string, key: string)

  /** `after` is `before` followed by one new key per upload, with its title and text, in order. */
  ghost predicate Added(before: seq<RemoteKey>, after: seq<RemoteKey>, ups: seq<Upload>)
  {
    && |after| == |before| + |ups|
    && after[..|before|] == before
    && forall j | 0 <= j < |ups| ::
         after[|before| + j].title == ups[j].title && after[|before| + j].key == ups[j].key
  }

  /** The title an uploaded key gets. */
  function SyncedTitle(name: string): (t: string)
    ensures HasPrefix(t, name) && HasSuffix(t, " (synced)")
  {
    name + " (synced)"
  }

  /** `Load` of a key store: the decrypted record of an id, or why there is none. */
  type Loader = string -> Result<SSHKey>

  /** The loader of a key store holding the records `recs`. */
  function LoaderOf(crypto: KeyEncryption, recs: map<string, SSHKey>): (load: Loader)
    ensures forall id :: load(id) == Lookup(crypto, recs, id)
  {
    id => Lookup(crypto, recs, id)
  }

  /** What `SyncKeys` does with one local key. */
  datatype Action = Skip | Send(up: Upload) | Fail(msg: string)

  /**
   * One turn of the `SyncKeys` loop for the listed copy `local`, against the
   * snapshot `remote` of registered texts. The key is loaded; a key whose text
   * is missing from the snapshot is loaded a second time, by `UploadKey`,
   * under the id of the first copy, and that second copy's text is sent.
   */
  function Step(load: Loader, local: SSHKey, remote: set<string>): (a: Action)
    ensures a.Send? ==> load(local.id).Ok?
    ensures a.Send? ==> a.up.title == SyncedTitle(load(local.id).value.name)
    ensures a.Send? ==> load(local.id).value.publicKey !in remote
    ensures a.Skip? <==> load(local.id).Ok? && load(local.id).value.publicKey in remote
  {
    var full := load(local.id);
    if full.Err? then Fail("failed to load key " + local.id + ": " + full.error)
    else if full.value.publicKey in remote then Skip
    else
      var again := load(full.value.id);
      if again.Err? then Fail("failed to sync key " + full.value.id + ": " + ("failed to load key: " + again.error))
      else Send(Upload(full.value.id, SyncedTitle(full.value.name), again.value.publicKey))
  }

  /**
   * The work `SyncKeys` does for the local keys `locals`, in order: the
   * uploads it attempts, and the error of the first load that fails, which
   * ends the loop.
   */
  function Wanted(load: Loader, locals: seq<SSHKey>,
                  remote: set<string>): (r: (seq<Upload>, Option<string>))
    ensures |r.0| <= |locals|
    decreases |locals|
  {
    if |locals| == 0 then ([], None)
    else
      match Step(load, locals[0], remote)
      case Fail(m) => ([], Some(m))
      case Skip => Wanted(load, locals[1..], remote)
      case Send(u) =>
        var rest := Wanted(load, locals[1..], remote);
        ([u] + rest.0, rest.1)
  }

  /**
   * After `n` local keys of which `u` were uploaded, what is left of the work
   * is the work for the rest of the listing.
   */
  ghost predicate Progress(load: Loader, locals: seq<SSHKey>,
                           remote: set<string>, n: int, u: int)
  {
    && 0 <= n <= |locals|
    && var w := Wanted(load, locals, remote);
    var t := Wanted(load, locals[n..], remote);
    && 0 <= u && u + |t.0| == |w.0| && w.0[u..] == t.0 && w.1 == t.1
  }

  lemma ProgressStart(load: Loader, locals: seq<SSHKey>, remote: set<string>)
    ensures Progress(load, locals, remote, 0, 0)
  {
    assert locals[0..] == locals;
  }

  /** One more turn of the loop: a skip moves on, a failure ends the work, an upload is the next one. */
  lemma ProgressStep(load: Loader, locals: seq<SSHKey>, remote: set<string>,
                     n: int, u: int)
    requires Progress(load, locals, remote, n, u) && n < |locals|
    ensures var w := Wanted(load, locals, remote);
      match Step(load, locals[n], remote)
      case Skip => Progress(load, locals, remote, n + 1, u)
      case Fail(m) => u == |w.0| && w.1 == Some(m)
      case Send(up) => u < |w.0| && w.0[u] == up && Progress(load, locals, remote, n + 1, u + 1)
  {
    var w := Wanted(load, locals, remote);
    var t := Wanted(load, locals[n..], remote);
    var t' := Wanted(load, locals[n + 1..], remote);
    assert locals[n..][0] == locals[n] && locals[n..][1..] == locals[n + 1..];
    if Step(load, locals[n], remote).Send? {
      assert t.0 == [w.0[u]] + t'.0;
      assert w.0[u + 1..] == w.0[u..][1..];
    }
  }

  /** With the whole listing done, every upload was made and nothing failed. */
  lemma ProgressEnd(load: Loader, locals: seq<SSHKey>, remote: set<string>, u: int)
    requires Progress(load, locals, remote, |locals|, u)
    ensures var w := Wanted(load, locals, remote);
      u == |w.0| && w.1.None?
  {
    assert locals[|locals|..] == [];
  }

  /**
   * What one turn of the loop leaves behind: on an error the loop ends with
   * the work done so far, otherwise the next turn starts where this one left off.
   */
  lemma Advance(load: Loader, locals: seq<SSHKey>, remote: set<string>,
                w: (seq<Upload>, Option<string>), n: int, u: int,
                start: seq<RemoteKey>, mid: seq<RemoteKey>, end: seq<RemoteKey>, a: Action, e: Option<string>)
    requires w == Wanted(load, locals, remote)
    requires Progress(load, locals, remote, n, u) && n < |locals|
    requires Added(start, mid, w.0[..u])
    requires a == Step(load, locals[n], remote)
    requires a.Skip? ==> e.None? && end == mid
    requires a.Fail? ==> e == Some(a.msg) && end == mid
    requires a.Send? && e.None? ==> Added(mid, end, [a.up])
    requires a.Send? && e.Some? ==> end == mid
    ensures e.Some? ==> u <= |w.0| && Added(start, end, w.0[..u])
    ensures e.Some? ==> !(u == |w.0| && w.1.None?) && (u == |w.0| ==> e == w.1)
    ensures e.None? && a.Send? ==> Progress(load, locals, remote, n + 1, u + 1)
    ensures e.None? && a.Send? ==> Added(start, end, w.0[..u + 1])
    ensures e.None? && !a.Send? ==> Progress(load, locals, remote, n + 1, u)
    ensures e.None? && !a.Send? ==> Added(start, end, w.0[..u])
  {
    ProgressStep(load, locals, remote, n, u);
    if a.Send? && e.None? {
      AddedStep(start, mid, end, w.0, u, a.up);
    }
  }

  /** Every key a loader hands back carries the id it was asked for, as the key store's do. */
  ghost predicate KeepsIds(load: Loader)
  {
    forall id :: load(id).Ok? ==> load(id).value.id == id
  }

  /** A key store that files every record under its own id loads keys that keep their ids. */
  lemma StoreKeepsIds(store: KeyStore)
    requires store.Indexed()
    ensures KeepsIds(LoaderOf(store.crypto, store.Records()))
  {
  }

  /** The upload `SyncKeys` makes for the listed copy `local`: its decrypted record's id, title and text. */
  ghost predicate Sends(load: Loader, local: SSHKey, up: Upload)
  {
    var k := load(local.id);
    k.Ok? && up == Upload(local.id, SyncedTitle(k.value.name), k.value.publicKey)
  }

  /** The texts a sequence of uploads sends. */
  function Texts(ups: seq<Upload>): (s: set<string>)
    ensures forall j | 0 <= j < |ups| :: ups[j].key in s
    ensures forall pk | pk in s :: exists j | 0 <= j < |ups| :: ups[j].key == pk
  {
    set j | 0 <= j < |ups| :: ups[j].key
  }

  /** With records filed under their own ids, the second load finds what the first did. */
  lemma StepOwnId(load: Loader, local: SSHKey, remote: set<string>)
    requires KeepsIds(load)
    ensures var k := load(local.id);
      Step(load, local, remote) ==
        if k.Err? then Fail("failed to load key " + local.id + ": " + k.error)
        else if k.value.publicKey in remote then Skip
        else Send(Upload(local.id, SyncedTitle(k.value.name), k.value.publicKey))
  {
  }

  /** With records filed under their own ids, a walk that ends without error loaded every key. */
  lemma {:induction false} WantedLoadsAll(load: Loader, locals: seq<SSHKey>, remote: set<string>)
    requires KeepsIds(load)
    requires Wanted(load, locals, remote).1.None?
    ensures forall i | 0 <= i < |locals| :: load(locals[i].id).Ok?
    decreases |locals|
  {
    if |locals| > 0 {
      var rest := locals[1..];
      StepOwnId(load, locals[0], remote);
      WantedLoadsAll(load, rest, remote);
      forall i | 0 < i < |locals|
        ensures load(locals[i].id).Ok?
      {
        assert locals[i] == rest[i - 1];
      }
    }
  }

  /** Every upload of a walk is for a listed key whose text is not in the snapshot. */
  lemma {:induction false} WantedSendsOnlyMissing(load: Loader, locals: seq<SSHKey>, remote: set<string>, j: int)
    requires KeepsIds(load)
    requires 0 <= j < |Wanted(load, locals, remote).0|
    ensures Wanted(load, locals, remote).0[j].key !in remote
    ensures exists i | 0 <= i < |locals| :: Sends(load, locals[i], Wanted(load, locals, remote).0[j])
    decreases |locals|
  {
    var rest := locals[1..];
    StepOwnId(load, locals[0], remote);
    var ups := Wanted(load, locals, remote).0;
    var tail := Wanted(load, rest, remote).0;
    var a := Step(load, locals[0], remote);
    if a.Send? && j == 0 {
      assert ups[0] == a.up;
      assert Sends(load, locals[0], ups[0]);
    } else {
      var j' := if a.Send? then j - 1 else j;
      assert ups[j] == tail[j'];
      WantedSendsOnlyMissing(load, rest, remote, j');
      var i :| 0 <= i < |rest| && Sends(load, rest[i], tail[j']);
      assert locals[i + 1] == rest[i];
    }
  }

  /**
   * A listed key that loads and whose text is not in the snapshot is
   * uploaded, when the walk ends without error.
   */
  lemma {:induction false} WantedSendsMissing(load: Loader, locals: seq<SSHKey>, remote: set<string>, i: int)
    requires KeepsIds(load)
    requires Wanted(load, locals, remote).1.None?
    requires 0 <= i < |locals| && load(locals[i].id).Ok?
    requires load(locals[i].id).value.publicKey !in remote
    ensures exists j | 0 <= j < |Wanted(load, locals, remote).0| ::
              Sends(load, locals[i], Wanted(load, locals, remote).0[j])
    decreases i
  {
    var rest := locals[1..];
    StepOwnId(load, locals[0], remote);
    var ups := Wanted(load, locals, remote).0;
    var tail := Wanted(load, rest, remote).0;
    var a := Step(load, locals[0], remote);
    if i == 0 {
      assert ups[0] == a.up;
      assert Sends(load, locals[0], ups[0]);
    } else {
      assert !a.Fail?;
      assert locals[i] == rest[i - 1];
      WantedSendsMissing(load, rest, remote, i - 1);
      var j :| 0 <= j < |tail| && Sends(load, rest[i - 1], tail[j]);
      if a.Send? {
        assert ups[j + 1] == tail[j];
      } else {
        assert ups[j] == tail[j];
      }
    }
  }

  /**
   * With records filed under their own ids, the walk fails exactly when some
   * listed key does not load.
   */
  lemma {:induction false} WantedFailsOnLoad(load: Loader, locals: seq<SSHKey>, remote: set<string>)
    requires KeepsIds(load)
    ensures Wanted(load, locals, remote).1.Some? <==>
              exists i | 0 <= i < |locals| :: load(locals[i].id).Err?
    decreases |locals|
  {
    if |locals| > 0 {
      var rest := locals[1..];
      WantedFailsOnLoad(load, rest, remote);
      var full := load(locals[0].id);
      if full.Ok? {
        assert full.value.id == locals[0].id;
        if exists i | 0 <= i < |locals| :: load(locals[i].id).Err? {
          var i :| 0 <= i < |locals| && load(locals[i].id).Err?;
          assert locals[i] == rest[i - 1];
        }
        if exists i | 0 <= i < |rest| :: load(rest[i].id).Err? {
          var i :| 0 <= i < |rest| && load(rest[i].id).Err?;
          assert locals[i + 1] == rest[i];
        }
      }
    }
  }

  /** A walk over keys that all load and whose texts are all registered uploads nothing. */
  lemma {:induction false} WantedNothing(load: Loader, locals: seq<SSHKey>, remote: set<string>)
    requires forall i | 0 <= i < |locals| ::
               load(locals[i].id).Ok? && load(locals[i].id).value.publicKey in remote
    ensures Wanted(load, locals, remote) == ([], None)
    decreases |locals|
  {
    if |locals| > 0 {
      var rest := locals[1..];
      forall i | 0 <= i < |rest|
        ensures load(rest[i].id).Ok? && load(rest[i].id).value.publicKey in remote
      {
        assert rest[i] == locals[i + 1];
      }
      WantedNothing(load, rest, remote);
    }
  }

  /** The texts registered after uploads were added are the earlier ones and the uploaded ones. */
  lemma AddedTexts(before: seq<RemoteKey>, after: seq<RemoteKey>, ups: seq<Upload>)
    requires Added(before, after, ups)
    ensures KeyTexts(after) == KeyTexts(before) + Texts(ups)
  {
    forall pk | pk in KeyTexts(after)
      ensures pk in KeyTexts(before) + Texts(ups)
    {
      var i :| 0 <= i < |after| && after[i].key == pk;
      if i < |before| {
        assert after[..|before|][i] == before[i];
      } else {
        assert ups[i - |before|].key == pk;
      }
    }
    forall pk | pk in KeyTexts(before)
      ensures pk in KeyTexts(after)
    {
      var i :| 0 <= i < |before| && before[i].key == pk;
      assert after[..|before|][i] == before[i];
      assert after[i].key == pk;
    }
    forall pk | pk in Texts(ups)
      ensures pk in KeyTexts(after)
    {
      var j :| 0 <= j < |ups| && ups[j].key == pk;
      assert after[|before| + j].key == pk;
    }
  }

  /**
   * Against a remote that records what is uploaded, a second sync right after
   * a successful one uploads nothing: every key the second listing holds was
   * in the first, and its text is now registered.
   */
  lemma SecondSyncUploadsNothing(load: Loader, first: seq<SSHKey>, second: seq<SSHKey>,
                                 before: seq<RemoteKey>, after: seq<RemoteKey>)
    requires KeepsIds(load)
    requires Wanted(load, first, KeyTexts(before)).1.None?
    requires Added(before, after, Wanted(load, first, KeyTexts(before)).0)
    requires forall i | 0 <= i < |second| :: exists k | 0 <= k < |first| :: second[i].id == first[k].id
    ensures Wanted(load, second, KeyTexts(after)) == ([], None)
  {
    var ups := Wanted(load, first, KeyTexts(before)).0;
    WantedLoadsAll(load, first, KeyTexts(before));
    AddedTexts(before, after, ups);
    forall i | 0 <= i < |second|
      ensures load(second[i].id).Ok?
      ensures load(second[i].id).value.publicKey in KeyTexts(after)
    {
      assert exists k | 0 <= k < |first| :: second[i].id == first[k].id;
      var k :| 0 <= k < |first| && second[i].id == first[k].id;
      var pk := load(first[k].id).value.publicKey;
      if pk !in KeyTexts(before) {
        WantedSendsMissing(load, first, KeyTexts(before), k);
        var j :| 0 <= j < |ups| && Sends(load, first[k], ups[j]);
        assert ups[j].key == pk;
      }
    }
    WantedNothing(load, second, KeyTexts(after));
  }

  /**
   * The snapshot is taken before the walk, so two local keys with one
   * unregistered text are both uploaded.
   */
  lemma DuplicatesBothUploaded(load: Loader, a: SSHKey, b: SSHKey,
                               remote: set<string>)
    requires KeepsIds(load)
    requires load(a.id).Ok? && load(b.id).Ok?
    requires load(a.id).value.publicKey == load(b.id).value.publicKey
    requires load(a.id).value.publicKey !in remote
    ensures var w := Wanted(load, [a, b], remote);
      && w.1.None? && |w.0| == 2
      && w.0[0].key == w.0[1].key == load(a.id).value.publicKey
      && w.0[0].id == a.id && w.0[1].id == b.id
  {
    assert [a, b][0] == a && [a, b][1..] == [b];
    assert [b][0] == b && [b][1..] == [];
    StepOwnId(load, a, remote);
    StepOwnId(load, b, remote);
    assert Wanted(load, [b], remote).0 == [Step(load, b, remote).up];
  }

  /** The map `SyncKeys` builds from the snapshot: each registered text to the last key that has it. */
  method IndexTexts(keys: seq<RemoteKey>) returns (m: map<string, int>)
    ensures m.Keys == KeyTexts(keys)
    ensures forall pk | pk in m :: 0 <= m[pk] < |keys| && keys[m[pk]].key == pk
  {
    m := map[];
    var i := 0;
    while i < |keys|
      invariant 0 <= i <= |keys|
      invariant m.Keys == set j | 0 <= j < i :: keys[j].key
      invariant forall pk | pk in m :: 0 <= m[pk] < i && keys[m[pk]].key == pk
    {
      m := m[keys[i].key := i];
      i := i + 1;
    }
  }

  lemma AddedStep(start: seq<RemoteKey>, mid: seq<RemoteKey>, end: seq<RemoteKey>, ups: seq<Upload>, u: int, v: Upload)
    requires 0 <= u < |ups|
    requires Added(start, mid, ups[..u]) && Added(mid, end, [v])
    requires v.title == ups[u].title && v.key == ups[u].key
    ensures Added(start, end, ups[..u + 1])
  {
    assert end[..|mid|] == mid;
    forall k | |start| <= k < |mid|
      ensures end[k] == mid[k]
    {
      assert end[..|mid|][k] == mid[k];
    }
    assert end[|mid| + 0].title == [v][0].title && end[|mid| + 0].key == [v][0].key;
    assert end[..|start|] == mid[..|start|];
  }

  class GitHubKeyManager {
    const remote: Remote
    const store: KeyStore

    constructor (remote: Remote, store: KeyStore)
      ensures this.remote == remote && this.store == store
    {
      this.remote := remote;
      this.store := store;
    }

    /** `UploadKey`: sends the public-key text of the stored key under `title`. */
    method UploadKey(keyId: string, title: string) returns (err: Option<string>)
      modifies remote
      ensures store.Loaded(keyId).Err? ==>
                err == Some("failed to load key: " + store.Loaded(keyId).error) && remote.keys == old(remote.keys)
      ensures err.None? ==> store.Loaded(keyId).Ok?
      ensures err.None? ==>
                Added(old(remote.keys), remote.keys, [Upload(keyId, title, store.Loaded(keyId).value.publicKey)])
      ensures err.Some? ==> remote.keys == old(remote.keys)
      ensures err.Some? && store.Loaded(keyId).Ok? ==> HasPrefix(err.value, "failed to upload key to GitHub: ")
    {
      var key := store.Load(keyId);
      if key.Err? {
        return Some("failed to load key: " + key.error);
      }
      var e := remote.Create(title, key.value.publicKey);
      if e.Some? {
        return Some("failed to upload key to GitHub: " + e.value);
      }
      return None;
    }

    /** `ListGitHubKeys`. */
    method ListGitHubKeys() returns (r: Result<seq<RemoteKey>>)
      ensures r.Ok? ==> r.value == remote.keys
      ensures r.Err? ==> HasPrefix(r.error, "failed to list GitHub SSH keys: ")
    {
      var keys := remote.List();
      if keys.Err? {
        return Err("failed to list GitHub SSH keys: " + keys.error);
      }
      return keys;
    }

    /** `DeleteGitHubKey`. */
    method DeleteGitHubKey(id: int) returns (err: Option<string>)
      modifies remote
      ensures err.None? ==> remote.keys == Without(old(remote.keys), id)
      ensures err.Some? ==> remote.keys == old(remote.keys) && HasPrefix(err.value, "failed to delete GitHub SSH key: ")
    {
      var e := remote.Delete(id);
      if e.Some? {
        return Some("failed to delete GitHub SSH key: " + e.value);
      }
      return None;
    }

    /**
     * `VerifyKey`: succeeds exactly when the stored key loads and some
     * registered key has its public-key text, character for character.
     */
    method VerifyKey(keyId: string) returns (err: Option<string>)
      ensures store.Loaded(keyId).Err? ==> err == Some("failed to load key: " + store.Loaded(keyId).error)
      ensures err.None? ==> store.Loaded(keyId).Ok? && OnRemote(remote.keys, store.Loaded(keyId).value.publicKey)
      ensures store.Loaded(keyId).Ok? && !OnRemote(remote.keys, store.Loaded(keyId).value.publicKey) ==> err.Some?
      ensures store.Loaded(keyId).Ok? && OnRemote(remote.keys, store.Loaded(keyId).value.publicKey) && err.Some? ==>
                HasPrefix(err.value, "failed to list GitHub SSH keys: ")
      ensures err == Some("key not found on GitHub") ==>
                store.Loaded(keyId).Ok? && !OnRemote(remote.keys, store.Loaded(keyId).value.publicKey)
    {
      var key := store.Load(keyId);
      if key.Err? {
        return Some("failed to load key: " + key.error);
      }
      var githubKeys := ListGitHubKeys();
      if githubKeys.Err? {
        assert githubKeys.error[0] != "key not found on GitHub"[0];
        return Some(githubKeys.error);
      }
      var keys := githubKeys.value;
      var keyExists := false;
      var i := 0;
      while i < |keys|
        invariant 0 <= i <= |keys|
        invariant !keyExists
        invariant forall j | 0 <= j < i :: keys[j].key != key.value.publicKey
      {
        if keys[i].key == key.value.publicKey {
          keyExists := true;
          break;
        }
        i := i + 1;
      }
      if !keyExists {
        return Some("key not found on GitHub");
      }
      return None;
    }

    /** The body of the second loop of `SyncKeys`: `known` holds the registered texts of the snapshot. */
    method SyncOne(local: SSHKey, known: map<string, int>, ghost snapshot: set<string>, ghost load: Loader)
      returns (err: Option<string>, ghost a: Action)
      requires known.Keys == snapshot
      requires load == LoaderOf(store.crypto, store.Records())
      modifies remote
      ensures store.Records() == old(store.Records())
      ensures a == Step(load, local, snapshot)
      ensures a.Skip? ==> err.None? && remote.keys == old(remote.keys)
      ensures a.Fail? ==> err == Some(a.msg) && remote.keys == old(remote.keys)
      ensures a.Send? && err.None? ==> Added(old(remote.keys), remote.keys, [a.up])
      ensures a.Send? && err.Some? ==> remote.keys == old(remote.keys)
    {
      a := Step(load, local, snapshot);
      var full := store.Load(local.id);
      if full.Err? {
        return Some("failed to load key " + local.id + ": " + full.error), a;
      }
      if full.value.publicKey !in known {
        var e := UploadKey(full.value.id, SyncedTitle(full.value.name));
        if e.Some? {
          return Some("failed to sync key " + full.value.id + ": " + e.value), a;
        }
      }
      return None, a;
    }

    /**
     * `SyncKeys`: snapshots the registered texts, then walks the local keys
     * in the order `List` gave them and uploads each one whose text is not in
     * the snapshot. The first failure ends the walk and the uploads already
     * made stay. Nothing is ever deleted, on either side.
     * `locals` is the listing of the local store; `listed` the remote
     * snapshot, or `None` when listing it failed; `uploaded` how many uploads
     * went through.
     */
    method SyncKeys() returns (err: Option<string>, ghost ids: seq<string>, ghost locals: seq<SSHKey>,
                               ghost listed: Option<seq<RemoteKey>>, ghost uploaded: nat,
                               ghost w: (seq<Upload>, Option<string>))
      modifies remote
      ensures Enumerates(ids, store.keyMap.Keys) && |locals| == |ids|
      ensures forall i | 0 <= i < |locals| :: locals[i] == Stripped(store.Records()[ids[i]])
      ensures listed.None? ==> remote.keys == old(remote.keys) && err.Some?
      ensures listed.None? ==> HasPrefix(err.value, "failed to list GitHub keys: " + "failed to list GitHub SSH keys: ")
      ensures listed.Some? ==> listed.value == old(remote.keys)
      ensures listed.Some? ==> w == Wanted(LoaderOf(store.crypto, store.Records()), locals, KeyTexts(listed.value))
      ensures listed.Some? ==> uploaded <= |w.0| && Added(old(remote.keys), remote.keys, w.0[..uploaded])
      ensures listed.Some? ==> (err.None? <==> uploaded == |w.0| && w.1.None?)
      ensures listed.Some? && uploaded == |w.0| ==> err == w.1
    {
      var localKeys;
      localKeys, ids := store.List();
      locals := localKeys;
      var githubKeys := ListGitHubKeys();
      if githubKeys.Err? {
        PrefixWrapped("failed to list GitHub keys: ", githubKeys.error, "failed to list GitHub SSH keys: ");
        return Some("failed to list GitHub keys: " + githubKeys.error), ids, locals, None, 0, ([], None);
      }
      listed := Some(githubKeys.value);
      var keys := githubKeys.value;
      var githubKeyMap := IndexTexts(keys);
      ghost var snapshot := KeyTexts(keys);
      ghost var recs := store.Records();
      ghost var load := LoaderOf(store.crypto, recs);
      w := Wanted(load, localKeys, snapshot);
      err, uploaded := SyncAll(localKeys, githubKeyMap, snapshot, load, w);
    }

    /** The second loop of `SyncKeys`: one `SyncOne` per local key, until the first failure. */
    method SyncAll(localKeys: seq<SSHKey>, known: map<string, int>, ghost snapshot: set<string>,
                   ghost load: Loader, ghost w: (seq<Upload>, Option<string>))
      returns (err: Option<string>, ghost uploaded: nat)
      requires known.Keys == snapshot
      requires load == LoaderOf(store.crypto, store.Records())
      requires w == Wanted(load, localKeys, snapshot)
      modifies remote
      ensures store.Records() == old(store.Records())
      ensures uploaded <= |w.0| && Added(old(remote.keys), remote.keys, w.0[..uploaded])
      ensures err.None? <==> uploaded == |w.0| && w.1.None?
      ensures uploaded == |w.0| ==> err == w.1
    {
      ProgressStart(load, localKeys, snapshot);
      uploaded := 0;
      var n := 0;
      while n < |localKeys|
        invariant 0 <= n <= |localKeys|
        invariant store.Records() == old(store.Records())
        invariant Progress(load, localKeys, snapshot, n, uploaded)
        invariant Added(old(remote.keys), remote.keys, w.0[..uploaded])
      {
        ghost var mid := remote.keys;
        var e;
        ghost var a;
        e, a := SyncOne(localKeys[n], known, snapshot, load);
        Advance(load, localKeys, snapshot, w, n, uploaded, old(remote.keys), mid, remote.keys, a, e);
        if e.Some? {
          err := e;
          return;
        }
        if a.Send? {
          uploaded := uploaded + 1;
        }
        n := n + 1;
      }
      ProgressEnd(load, localKeys, snapshot, uploaded);
      err := None;
    }
  }
}
