/**
 * The SSH key store (ssh/storage.go): an index from key id to record,
 * kept in step with one JSON file per key in the store's directory. The
 * index holds the records with their private keys encrypted; `Load` hands
 * out decrypted copies and `List` copies without private keys.
 */
module SshStorage {
  import opened Base
  import opened GoStrings
  import opened Fs
  import opened Json
  import opened Primitives
  import opened SshKey
  import opened SshCrypto

  /** The temporary file a save writes first. */
  function TempFile(id: string): (name: string)
    ensures name != JsonFile(id)
  {
    JsonFile(id) + ".tmp"
  }

  /** `ssh.SSHKey` with its private key dropped, as `List` hands it out. */
  function Stripped(k: SSHKey): (r: SSHKey)
    ensures r.privateKey == [] && r.(privateKey := k.privateKey) == k
  {
    k.(privateKey := [])
  }

  /** Whether `loadKeys` reads an entry: a non-directory whose extension is ".json". */
  predicate Candidate(e: DirEntry)
  {
    !e.isDir && Ext(e.name) == ".json"
  }

  /**
   * The index `loadKeys` builds from a listing, taken in order, when every
   * read succeeds: each candidate file is decoded and filed under the id it
   * holds; the first file that does not decode aborts the scan.
   */
  function Scan(listing: seq<DirEntry>, files: map<string, Entry>, codec: Codec<SSHKey>,
                acc: map<string, SSHKey>): Result<map<string, SSHKey>>
    decreases |listing|
  {
    if |listing| == 0 then Ok(acc)
    else
      var e := listing[0];
      if !Candidate(e) then Scan(listing[1..], files, codec, acc)
      else
        var id := TrimSuffix(e.name, ".json");
        if JsonFile(id) !in files || !files[JsonFile(id)].File? then
          Err("failed to load key " + id + ": failed to read key file")
        else
          match codec.unmarshal(files[JsonFile(id)].data)
          case Err(m) => Err("failed to load key " + id + ": failed to unmarshal key data: " + m)
          case Ok(k) => Scan(listing[1..], files, codec, acc[k.id := k])
  }

  /** Every record the scan indexes is filed under its own id. */
  lemma {:induction false} ScanFilesByOwnId(listing: seq<DirEntry>, files: map<string, Entry>,
                                            codec: Codec<SSHKey>, acc: map<string, SSHKey>)
    requires forall id | id in acc :: acc[id].id == id
    requires Scan(listing, files, codec, acc).Ok?
    ensures var m := Scan(listing, files, codec, acc).value;
      forall id | id in m :: m[id].id == id
    decreases |listing|
  {
    if |listing| > 0 {
      var e := listing[0];
      if !Candidate(e) {
        ScanFilesByOwnId(listing[1..], files, codec, acc);
      } else {
        var k := codec.unmarshal(files[JsonFile(TrimSuffix(e.name, ".json"))].data).value;
        ScanFilesByOwnId(listing[1..], files, codec, acc[k.id := k]);
      }
    }
  }

  /** Every indexed record was read from a ".json" file of the directory, or was there before. */
  lemma {:induction false} ScanReadsJsonFiles(listing: seq<DirEntry>, files: map<string, Entry>,
                                              codec: Codec<SSHKey>, acc: map<string, SSHKey>)
    requires Scan(listing, files, codec, acc).Ok?
    ensures var m := Scan(listing, files, codec, acc).value;
      forall id | id in m :: (id in acc && m[id] == acc[id])
        || exists i | 0 <= i < |listing| :: Decodes(listing[i], files, codec, m[id])
    decreases |listing|
  {
    if |listing| > 0 {
      var e := listing[0];
      var m := Scan(listing, files, codec, acc).value;
      if !Candidate(e) {
        ScanReadsJsonFiles(listing[1..], files, codec, acc);
        forall id | id in m && !(id in acc && m[id] == acc[id])
          ensures exists i | 0 <= i < |listing| :: Decodes(listing[i], files, codec, m[id])
        {
          var i :| 0 <= i < |listing[1..]| && Decodes(listing[1..][i], files, codec, m[id]);
          assert Decodes(listing[i + 1], files, codec, m[id]);
        }
      } else {
        var name := JsonFile(TrimSuffix(e.name, ".json"));
        var k := codec.unmarshal(files[name].data).value;
        ScanReadsJsonFiles(listing[1..], files, codec, acc[k.id := k]);
        ExtIsJsonIffSuffix(e.name);
        assert name == e.name;
        assert Decodes(listing[0], files, codec, k);
        forall id | id in m && !(id in acc && m[id] == acc[id])
          ensures exists i | 0 <= i < |listing| :: Decodes(listing[i], files, codec, m[id])
        {
          if id == k.id && m[id] == k {
            assert Decodes(listing[0], files, codec, m[id]);
          } else {
            var i :| 0 <= i < |listing[1..]| && Decodes(listing[1..][i], files, codec, m[id]);
            assert Decodes(listing[i + 1], files, codec, m[id]);
          }
        }
      }
    }
  }

  /** Entry `e` is a ".json" file of the directory whose contents decode to `k`. */
  ghost predicate Decodes(e: DirEntry, files: map<string, Entry>, codec: Codec<SSHKey>, k: SSHKey)
  {
    Candidate(e) && HasSuffix(e.name, ".json") && e.name in files && files[e.name].File?
      && codec.unmarshal(files[e.name].data) == Ok(k)
  }

  /** One malformed ".json" file anywhere in the listing aborts the whole scan. */
  lemma {:induction false} ScanAbortsOnMalformed(listing: seq<DirEntry>, files: map<string, Entry>,
                                                 codec: Codec<SSHKey>, acc: map<string, SSHKey>, i: int)
    requires 0 <= i < |listing| && Candidate(listing[i])
    requires listing[i].name in files && files[listing[i].name].File?
    requires codec.unmarshal(files[listing[i].name].data).Err?
    ensures Scan(listing, files, codec, acc).Err?
    decreases |listing|
  {
    var e := listing[0];
    ExtIsJsonIffSuffix(listing[i].name);
    assert JsonFile(TrimSuffix(listing[i].name, ".json")) == listing[i].name;
    if i > 0 && Candidate(e) {
      var name := JsonFile(TrimSuffix(e.name, ".json"));
      if name in files && files[name].File? && codec.unmarshal(files[name].data).Ok? {
        ScanAbortsOnMalformed(listing[1..], files, codec, acc[codec.unmarshal(files[name].data).value.id := codec.unmarshal(files[name].data).value], i - 1);
      }
    } else if i > 0 {
      ScanAbortsOnMalformed(listing[1..], files, codec, acc, i - 1);
    }
  }

  /** Directories and files without the ".json" extension are never read. */
  lemma {:induction false} ScanSkipsNonCandidates(listing: seq<DirEntry>, files: map<string, Entry>,
                                                  codec: Codec<SSHKey>, acc: map<string, SSHKey>, other: seq<DirEntry>)
    requires forall i | 0 <= i < |other| :: !Candidate(other[i])
    ensures Scan(other + listing, files, codec, acc) == Scan(listing, files, codec, acc)
    decreases |other|
  {
    if |other| > 0 {
      var whole := other + listing;
      assert whole[0] == other[0] && whole[1..] == other[1..] + listing;
      assert Scan(whole, files, codec, acc) == Scan(whole[1..], files, codec, acc);
      ScanSkipsNonCandidates(listing, files, codec, acc, other[1..]);
    } else {
      assert other + listing == listing;
    }
  }

  lemma ScanSkip(es: seq<DirEntry>, i: int, files: map<string, Entry>, codec: Codec<SSHKey>, acc: map<string, SSHKey>)
    requires 0 <= i < |es| && !Candidate(es[i])
    ensures Scan(es[i..], files, codec, acc) == Scan(es[i + 1..], files, codec, acc)
  {
    assert es[i..][0] == es[i] && es[i..][1..] == es[i + 1..];
  }

  lemma ScanRead(es: seq<DirEntry>, i: int, files: map<string, Entry>, codec: Codec<SSHKey>,
                 acc: map<string, SSHKey>, k: SSHKey)
    requires 0 <= i < |es| && Candidate(es[i])
    requires var name := JsonFile(TrimSuffix(es[i].name, ".json"));
      name in files && files[name].File? && codec.unmarshal(files[name].data) == Ok(k)
    ensures Scan(es[i..], files, codec, acc) == Scan(es[i + 1..], files, codec, acc[k.id := k])
  {
    assert es[i..][0] == es[i] && es[i..][1..] == es[i + 1..];
  }

  /** A decrypted copy of the record filed under `id`, as `Load` hands it out. */
  function Lookup(crypto: KeyEncryption, recs: map<string, SSHKey>, id: string): (r: Result<SSHKey>)
    ensures id !in recs ==> r == Err("key not found: " + id)
    ensures r.Ok? ==> id in recs && r.value == recs[id].(privateKey := r.value.privateKey)
    ensures id in recs && crypto.DecryptRecord(recs[id]).Err? ==> r.Err? && HasPrefix(r.error, "failed to decrypt key: ")
    ensures id in recs ==> (r.Ok? <==> crypto.DecryptRecord(recs[id]).Ok?)
    ensures r.Ok? ==> crypto.DecryptRecord(recs[id]) == r
  {
    if id !in recs then Err("key not found: " + id)
    else
      match crypto.DecryptRecord(recs[id])
      case Err(e) => Err("failed to decrypt key: " + e)
      case Ok(k) => Ok(k)
  }

  /** The records an index of references points to. */
  function Deref(m: map<string, KeyRef>): (r: map<string, SSHKey>)
    reads m.Values
    ensures r.Keys == m.Keys
  {
    map id | id in m :: m[id].key
  }

  lemma DerefUpdate(m: map<string, KeyRef>, id: string, ref: KeyRef)
    ensures Deref(m[id := ref]) == Deref(m)[id := ref.key]
  {
  }

  class KeyStore {
    var keyMap: map<string, KeyRef>
    const crypto: KeyEncryption
    const dir: Dir
    const codec: Codec<SSHKey>

    constructor (crypto: KeyEncryption, dir: Dir, codec: Codec<SSHKey>)
      ensures this.crypto == crypto && this.dir == dir && this.codec == codec
      ensures keyMap == map[]
    {
      this.crypto := crypto;
      this.dir := dir;
      this.codec := codec;
      keyMap := map[];
    }

    /** The records the index points to. */
    function Records(): map<string, SSHKey>
      reads this, keyMap.Values
    {
      Deref(keyMap)
    }

    /** What `Load(id)` returns: a decrypted copy of the indexed record. */
    function Loaded(id: string): Result<SSHKey>
      reads this, keyMap.Values
    {
      Lookup(crypto, Records(), id)
    }

    /** Every record is filed under its own id. */
    predicate Indexed()
      reads this, keyMap.Values
    {
      forall id | id in keyMap :: keyMap[id].key.id == id
    }

    /**
     * `NewKeyStore`: creates the directory, derives the encryption key from
     * the master key and a fresh salt, and indexes the keys already on disk.
     */
    static method Open(lib: Library, dir: Dir, codec: Codec<SSHKey>, masterKey: string, salt: Bytes)
      returns (store: KeyStore?, err: Option<string>, ghost listing: seq<DirEntry>)
      requires |salt| == SaltLength
      ensures err.None? <==> store != null
      ensures store != null ==> fresh(store) && store.dir == dir && store.codec == codec
      ensures store != null ==> store.crypto == NewKeyEncryption(lib, masterKey, salt)
      ensures store != null ==> Lists(listing, dir.entries)
      ensures store != null ==> Scan(listing, dir.entries, codec, map[]) == Ok(store.Records())
      ensures store != null ==> store.Indexed()
    {
      var mk := dir.MkdirAll();
      if mk.Some? {
        return null, Some("failed to create key store directory: " + mk.value.text), [];
      }
      var s := new KeyStore(NewKeyEncryption(lib, masterKey, salt), dir, codec);
      var e;
      e, listing := s.LoadKeys();
      if e.Some? {
        return null, e, listing;
      }
      ScanFilesByOwnId(listing, dir.entries, codec, map[]);
      return s, None, listing;
    }

    /** `loadKeys`: indexes every ".json" file of the directory by the id inside it. */
    method LoadKeys() returns (err: Option<string>, ghost listing: seq<DirEntry>)
      modifies this
      ensures err.None? ==> Lists(listing, dir.entries)
      ensures err.None? ==> Scan(listing, dir.entries, codec, old(Records())) == Ok(Records())
    {
      var entries := dir.ReadDir();
      if entries.Err? {
        return Some("failed to read key store directory: " + entries.error), [];
      }
      var es := entries.value;
      listing := es;
      ghost var start := Records();
      var i := 0;
      while i < |es|
        invariant 0 <= i <= |es|
        invariant Scan(es, dir.entries, codec, start) == Scan(es[i..], dir.entries, codec, Records())
      {
        var e := es[i];
        if !Candidate(e) {
          ScanSkip(es, i, dir.entries, codec, Records());
          i := i + 1;
          continue;
        }
        var id := TrimSuffix(e.name, ".json");
        var k := LoadKeyFromDisk(id);
        if k.Err? {
          return Some("failed to load key " + id + ": " + k.error), listing;
        }
        ScanRead(es, i, dir.entries, codec, Records(), k.value);
        Index(k.value);
        i := i + 1;
      }
      assert es[i..] == [];
      err := None;
    }

    /** Files `key` under its id, in a reference of its own. */
    method Index(key: SSHKey)
      modifies this
      ensures Records() == old(Records())[key.id := key]
    {
      var ref := new KeyRef(key);
      DerefUpdate(keyMap, key.id, ref);
      keyMap := keyMap[key.id := ref];
    }

    /** `loadKeyFromDisk`: reads `<id>.json` and decodes it. */
    method LoadKeyFromDisk(id: string) returns (r: Result<SSHKey>)
      ensures r.Ok? ==> JsonFile(id) in dir.entries && dir.entries[JsonFile(id)].File?
      ensures r.Ok? ==> codec.unmarshal(dir.entries[JsonFile(id)].data) == Ok(r.value)
      ensures (JsonFile(id) in dir.entries && dir.entries[JsonFile(id)].File?
               && codec.unmarshal(dir.entries[JsonFile(id)].data).Err?) ==> r.Err?
      ensures (JsonFile(id) !in dir.entries || !dir.entries[JsonFile(id)].File?) ==> r.Err?
    {
      var data, _ := dir.ReadFile(JsonFile(id));
      if data.Err? {
        return Err("failed to read key file: " + data.error);
      }
      var k := codec.unmarshal(data.value);
      if k.Err? {
        return Err("failed to unmarshal key data: " + k.error);
      }
      return Ok(k.value);
    }
  
    /**
     * `Save`: encrypts the caller's record in place, indexes that same record,
     * and writes it to disk; if the disk write fails the id is dropped from
     * the index, even when an earlier record was filed under it.
     */
    method Save(ref: KeyRef, nonce: Result<Bytes>) returns (err: Option<string>)
      requires nonce.Ok? ==> |nonce.value| == NonceSize
      modifies this, ref, dir
      ensures crypto.EncryptRecord(old(ref.key), nonce).Err? ==>
                err == Some("failed to encrypt key: " + crypto.EncryptRecord(old(ref.key), nonce).error)
                && ref.key == old(ref.key) && keyMap == old(keyMap) && dir.entries == old(dir.entries)
      ensures crypto.EncryptRecord(old(ref.key), nonce).Ok? ==>
                ref.key == crypto.EncryptRecord(old(ref.key), nonce).value
      ensures err.None? ==> keyMap == old(keyMap)[old(ref.key).id := ref] && codec.marshal(ref.key).Ok?
      ensures err.None? ==> dir.entries == (old(dir.entries) - {TempFile(ref.key.id)})[JsonFile(ref.key.id) := File(codec.marshal(ref.key).value)]
      ensures err.None? && Lawful(crypto.lib) ==> Loaded(old(ref.key).id) == Ok(old(ref.key))
      ensures err.Some? && crypto.EncryptRecord(old(ref.key), nonce).Ok? ==>
                keyMap == old(keyMap) - {old(ref.key).id}
                && dir.entries - {TempFile(ref.key.id)} == old(dir.entries) - {TempFile(ref.key.id)}
      ensures forall id | id in keyMap && keyMap[id] != ref :: id in old(keyMap) && keyMap[id] == old(keyMap)[id]
      ensures old(Indexed()) ==> Indexed()
    {
      ghost var plain, before := ref.key, keyMap;
      ghost var wasIndexed := Indexed();
      var e := crypto.EncryptKey(ref, nonce);
      if e.Some? {
        return Some("failed to encrypt key: " + e.value);
      }
      err := Commit(ref);
      if wasIndexed {
        forall id | id in keyMap
          ensures keyMap[id].key.id == id
        {
          if id != plain.id {
            assert id in before && keyMap[id] == before[id];
          }
        }
      }
      if err.None? && Lawful(crypto.lib) {
        DecryptRecordEncryptRecord(crypto, plain, nonce.value);
      }
    }

    /** Files `ref` under its id and writes it out; a failed write takes it out of the index again. */
    method Commit(ref: KeyRef) returns (err: Option<string>)
      modifies this, dir
      ensures err.None? ==> keyMap == old(keyMap)[ref.key.id := ref] && codec.marshal(ref.key).Ok?
      ensures err.None? ==> dir.entries == (old(dir.entries) - {TempFile(ref.key.id)})[JsonFile(ref.key.id) := File(codec.marshal(ref.key).value)]
      ensures err.Some? ==> keyMap == old(keyMap) - {ref.key.id}
      ensures err.Some? ==> dir.entries - {TempFile(ref.key.id)} == old(dir.entries) - {TempFile(ref.key.id)}
      ensures forall id | id in keyMap && id != ref.key.id :: id in old(keyMap) && keyMap[id] == old(keyMap)[id]
    {
      keyMap := keyMap[ref.key.id := ref];
      err := SaveKey(ref.key);
      if err.Some? {
        keyMap := keyMap - {ref.key.id};
      }
    }

    /**
     * `saveKey`: writes `<id>.json.tmp`, then renames it to `<id>.json`; a
     * failed rename removes the temporary file. Only the temporary file can
     * be left behind by a failure: `<id>.json` changes only on success.
     */
    method SaveKey(key: SSHKey) returns (err: Option<string>)
      modifies dir
      ensures codec.marshal(key).Err? ==> err.Some? && dir.entries == old(dir.entries)
      ensures err.None? ==> codec.marshal(key).Ok?
      ensures err.None? ==> dir.entries == (old(dir.entries) - {TempFile(key.id)})[JsonFile(key.id) := File(codec.marshal(key).value)]
      ensures err.Some? ==> dir.entries - {TempFile(key.id)} == old(dir.entries) - {TempFile(key.id)}
    {
      var data := codec.marshal(key);
      if data.Err? {
        return Some("failed to marshal key data: " + data.error);
      }
      var name, tmp := JsonFile(key.id), TempFile(key.id);
      var w := dir.WriteFile(tmp, data.value);
      if w.Some? {
        return Some("failed to write key file: " + w.value.text);
      }
      var r := dir.Rename(tmp, name);
      if r.Some? {
        var _ := dir.Remove(tmp);
        return Some("failed to save key file: " + r.value.text);
      }
      return None;
    }

    /** `Load`: a decrypted copy of the indexed record; the index is not touched. */
    method Load(id: string) returns (r: Result<SSHKey>)
      ensures r == Loaded(id)
      ensures id !in keyMap ==> r == Err("key not found: " + id)
    {
      if id !in keyMap {
        return Err("key not found: " + id);
      }
      var copy := new KeyRef(keyMap[id].key);
      var e := crypto.DecryptKey(copy);
      if e.Some? {
        return Err("failed to decrypt key: " + e.value);
      }
      return Ok(copy.key);
    }

    /** `List`: one copy per indexed record, each without its private key, in no set order. */
    method List() returns (keys: seq<SSHKey>, ghost ids: seq<string>)
      ensures Enumerates(ids, keyMap.Keys)
      ensures |keys| == |ids|
      ensures forall i | 0 <= i < |keys| :: keys[i] == Stripped(keyMap[ids[i]].key)
    {
      keys, ids := [], [];
      var rest := keyMap.Keys;
      while rest != {}
        invariant rest <= keyMap.Keys
        invariant forall id | id in keyMap :: id in rest <==> id !in ids
        invariant forall i | 0 <= i < |ids| :: ids[i] in keyMap
        invariant forall i, j | 0 <= i < j < |ids| :: ids[i] != ids[j]
        invariant |keys| == |ids|
        invariant forall i | 0 <= i < |keys| :: keys[i] == Stripped(keyMap[ids[i]].key)
        decreases rest
      {
        var id :| id in rest;
        keys := keys + [Stripped(keyMap[id].key)];
        ids := ids + [id];
        rest := rest - {id};
      }
    }

    /** `Delete`: removes the file first, then the index entry. */
    method Delete(id: string) returns (err: Option<string>)
      modifies this, dir
      ensures id !in old(keyMap) ==> err == Some("key not found: " + id)
      ensures err.None? ==> id in old(keyMap) && keyMap == old(keyMap) - {id}
      ensures err.None? ==> dir.entries == old(dir.entries) - {JsonFile(id)}
      ensures err.Some? ==> keyMap == old(keyMap) && dir.entries == old(dir.entries)
      ensures err.None? ==> Loaded(id).Err?
      ensures old(Indexed()) ==> Indexed()
    {
      if id !in keyMap {
        return Some("key not found: " + id);
      }
      err := DeleteKey(id);
      if err.Some? {
        return err;
      }
      keyMap := keyMap - {id};
    }

    /** `deleteKey`: `os.Remove` of `<id>.json`. */
    method DeleteKey(id: string) returns (err: Option<string>)
      modifies dir
      ensures err.None? ==> JsonFile(id) in old(dir.entries) && dir.entries == old(dir.entries) - {JsonFile(id)}
      ensures err.Some? ==> dir.entries == old(dir.entries)
      ensures JsonFile(id) !in old(dir.entries) ==> err.Some?
    {
      var r := dir.Remove(JsonFile(id));
      if r.Some? {
        return Some("failed to delete key file: " + r.value.text);
      }
      return None;
    }
  }
}
