/**
 * One directory of the local file system, as the `os` calls of the stores
 * see it: a map from file name to entry. Every call may fail for reasons the
 * program cannot see (permissions, a full disk, ...); each such outcome is a
 * nondeterministic choice, and the error carries the text `os` would give.
 */
module Fs {
  import opened Base
  import opened GoStrings

  /**
   * The file a store keeps the record with id `id` in: `<id>.json` in its
   * directory (`filepath.Join(dir, id + ".json")`, for ids without a
   * separator or a dot-dot element).
   */
  function JsonFile(id: string): (name: string)
    ensures HasSuffix(name, ".json") && TrimSuffix(name, ".json") == id
  {
    id + ".json"
  }

  /** Different ids have different files. */
  lemma JsonFileInjective(a: string, b: string)
    requires JsonFile(a) == JsonFile(b)
    ensures a == b
  {
    assert a == JsonFile(a)[..|a|];
    assert b == JsonFile(b)[..|b|];
  }

  /** An `*os.PathError`: whether `os.IsNotExist` holds of it, and its text. */
  datatype IoError = IoError(notExist: bool, text: string)

  datatype Entry = Directory | File(data: Bytes)

  /** An `os.DirEntry`. */
  datatype DirEntry = DirEntry(name: string, isDir: bool)

  class Dir {
    var entries: map<string, Entry>

    constructor (entries: map<string, Entry>)
      ensures this.entries == entries
    {
      this.entries := entries;
    }

    /** `os.MkdirAll` of this directory: nothing changes here, but it may fail. */
    method MkdirAll() returns (err: Option<IoError>)
      ensures err.Some? ==> !err.value.notExist
    {
      var fails: bool := *;
      var text: string := *;
      err := if fails then Some(IoError(false, text)) else None;
    }

    /**
     * `os.ReadFile`: a missing file gives a not-exist error, a directory an
     * error; otherwise the contents, unless the read fails.
     */
    method ReadFile(name: string) returns (r: Result<Bytes>, notExist: bool)
      ensures notExist <==> name !in entries
      ensures notExist ==> r.Err?
      ensures name in entries && entries[name].Directory? ==> r.Err?
      ensures r.Ok? ==> name in entries && entries[name] == File(r.value)
    {
      var text: string := *;
      if name !in entries {
        return Err(text), true;
      }
      var fails: bool := *;
      if entries[name].Directory? || fails {
        return Err(text), false;
      }
      return Ok(entries[name].data), false;
    }

    /**
     * `os.WriteFile`: creates or truncates the file and writes `data`. A
     * failure may leave any prefix of `data` behind, or nothing at all.
     */
    method WriteFile(name: string, data: Bytes) returns (err: Option<IoError>)
      modifies this
      ensures err.None? ==> old(name !in entries || entries[name].File?)
      ensures err.None? ==> entries == old(entries)[name := File(data)]
      ensures err.Some? ==> !err.value.notExist
      ensures err.Some? ==>
                (entries == old(entries)
                 || exists k | 0 <= k <= |data| :: entries == old(entries)[name := File(data[..k])])
    {
      var text: string := *;
      if name in entries && entries[name].Directory? {
        return Some(IoError(false, text));
      }
      var fails: bool := *;
      if !fails {
        entries := entries[name := File(data)];
        return None;
      }
      var truncated: bool := *;
      if truncated {
        var k: int := *;
        if 0 <= k <= |data| {
          entries := entries[name := File(data[..k])];
        }
      }
      return Some(IoError(false, text));
    }

    /**
     * `os.Rename`: moves `from` to `to`, replacing a file already there; on
     * failure nothing moves.
     */
    method Rename(from: string, to: string) returns (err: Option<IoError>)
      modifies this
      ensures from !in old(entries) ==> err.Some? && err.value.notExist
      ensures err.None? ==> from in old(entries)
      ensures err.None? ==> entries == (old(entries) - {from})[to := old(entries)[from]]
      ensures err.Some? ==> entries == old(entries)
    {
      var text: string := *;
      if from !in entries {
        return Some(IoError(true, text));
      }
      var fails: bool := *;
      if fails || (to in entries && entries[to].Directory? && from != to) {
        return Some(IoError(false, text));
      }
      entries := (entries - {from})[to := entries[from]];
      return None;
    }

    /** `os.Remove`: deletes the entry; a missing one gives a not-exist error. */
    method Remove(name: string) returns (err: Option<IoError>)
      modifies this
      ensures name !in old(entries) ==> err.Some? && err.value.notExist
      ensures err.Some? && err.value.notExist ==> name !in old(entries)
      ensures err.None? ==> name in old(entries) && entries == old(entries) - {name}
      ensures err.Some? ==> entries == old(entries)
    {
      var text: string := *;
      if name !in entries {
        return Some(IoError(true, text));
      }
      var fails: bool := *;
      if fails {
        return Some(IoError(false, text));
      }
      entries := entries - {name};
      return None;
    }

    /**
     * `os.ReadDir`: every entry once, unless reading the directory fails.
     * (Go sorts the listing by name; this model promises no order.)
     */
    method ReadDir() returns (r: Result<seq<DirEntry>>)
      ensures r.Ok? ==> Lists(r.value, entries)
    {
      var fails: bool := *;
      if fails {
        var text: string := *;
        return Err(text);
      }
      var listed: seq<DirEntry> := [];
      var rest := entries.Keys;
      while rest != {}
        invariant rest <= entries.Keys
        invariant forall k | k in entries.Keys :: k in rest <==> !Named(listed, k)
        invariant forall i | 0 <= i < |listed| ::
                    listed[i].name in entries && listed[i].isDir == entries[listed[i].name].Directory?
        invariant forall i, j | 0 <= i < j < |listed| :: listed[i].name != listed[j].name
        decreases rest
      {
        var name :| name in rest;
        NamedAppend(listed, DirEntry(name, entries[name].Directory?));
        listed := listed + [DirEntry(name, entries[name].Directory?)];
        rest := rest - {name};
      }
      return Ok(listed);
    }
  }

  predicate Named(listed: seq<DirEntry>, name: string)
  {
    exists i | 0 <= i < |listed| :: listed[i].name == name
  }

  lemma NamedAppend(listed: seq<DirEntry>, e: DirEntry)
    ensures forall k :: Named(listed + [e], k) <==> Named(listed, k) || k == e.name
  {
    forall k | Named(listed, k)
      ensures Named(listed + [e], k)
    {
      var i :| 0 <= i < |listed| && listed[i].name == k;
      assert (listed + [e])[i] == listed[i];
    }
    assert (listed + [e])[|listed|] == e;
  }

  /** `listed` names every entry exactly once, each with its kind. */
  ghost predicate Lists(listed: seq<DirEntry>, entries: map<string, Entry>)
  {
    && (forall i | 0 <= i < |listed| ::
          listed[i].name in entries && listed[i].isDir == entries[listed[i].name].Directory?)
    && (forall k | k in entries :: Named(listed, k))
    && (forall i, j | 0 <= i < j < |listed| :: listed[i].name != listed[j].name)
  }
}
