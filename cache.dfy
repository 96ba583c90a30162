/**
 * The file cache: one JSON file per key in the cache directory, holding the
 * time it was written and the value. An entry older than `ttl` seconds is
 * deleted when it is read.
 *
 * The directory is the map `files` from a file name (relative to the cache
 * directory) to what the file holds; the clock read (`datetime.now()`) is
 * the parameter `now`, in seconds.
 */
module Cache {
  import opened Wrappers
  import opened Text

  /**
   * One cache file: a readable record with its write time and its value (a
   * JSON `null` is `None`); a record whose `timestamp` parses but which has
   * no `value` field; or a file whose timestamp cannot be read (bad JSON, no
   * `timestamp` field, a timestamp that does not parse).
   */
  datatype CacheFile<V> = Stored(timestamp: real, value: Option<V>) | Timed(timestamp: real) | Unreadable

  type Dir<V> = map<string, CacheFile<V>>

  /** `_get_cache_path`: the file name for a key. */
  function CachePath(key: string): (p: string)
    ensures |p| == |key| + 5 && p[..|key|] == key && p[|key|..] == ".json"
  {
    key + ".json"
  }

  /** Distinct keys name distinct files, so one key has one entry. */
  lemma CachePathInjective(k1: string, k2: string)
    ensures CachePath(k1) == CachePath(k2) <==> k1 == k2
  {
    if CachePath(k1) == CachePath(k2) {
      assert k1 == CachePath(k1)[..|k1|];
    }
  }

  /** A path names a file directly inside the cache directory. */
  predicate TopLevel(path: string) {
    '/' !in path
  }

  /** Every file lies directly inside the cache directory, as with a directory that only the cache writes into. */
  predicate Flat<V>(files: Dir<V>) {
    forall path :: path in files ==> TopLevel(path)
  }

  /**
   * `get(key)` at time `now`: the value returned and the directory after the
   * call. A missing or unreadable file gives `None`; an entry whose
   * timestamp is more than `ttl` seconds old gives `None` and is deleted,
   * before its value is looked at; otherwise the stored value is returned,
   * and a record with no value gives `None` and stays.
   */
  function Lookup<V>(files: Dir<V>, ttl: int, key: string, now: real): (r: (Option<V>, Dir<V>))
    ensures r.1.Keys <= files.Keys
    ensures forall path :: path in r.1 ==> r.1[path] == files[path]
    ensures r.0.Some? ==>
      CachePath(key) in files && files[CachePath(key)].Stored? &&
      files[CachePath(key)].value == r.0 && now - files[CachePath(key)].timestamp <= ttl as real
  {
    var path := CachePath(key);
    if path !in files then (None, files)
    else match files[path]
      case Unreadable => (None, files)
      case Timed(t) => if now - t > ttl as real then (None, files - {path}) else (None, files)
      case Stored(t, v) => if now - t > ttl as real then (None, files - {path}) else (v, files)
  }

  /** The directory after `set(key, value)` at time `now`, with the file written. */
  function Store<V>(files: Dir<V>, key: string, value: Option<V>, now: real): (r: Dir<V>)
    ensures r.Keys == files.Keys + {CachePath(key)}
    ensures r[CachePath(key)] == Stored(now, value)
    ensures forall path :: path in files && path != CachePath(key) ==> r[path] == files[path]
  {
    files[CachePath(key) := Stored(now, value)]
  }

  /**
   * The directory part of a path: what comes before its last '/', or `""`
   * for a path directly inside the cache directory. A key and its file
   * `key + ".json"` share it, since `.json` holds no '/'.
   */
  function Parent(path: string): (d: string)
    ensures d <= path
    ensures TopLevel(path) ==> d == ""
    ensures !TopLevel(path) ==> |d| < |path| && path[|d|] == '/' && TopLevel(path[|d| + 1..])
  {
    if path == [] then []
    else if path[|path| - 1] == '/' then path[..|path| - 1]
    else
      var q := path[..|path| - 1];
      var d := Parent(q);
      assert path == q + [path[|path| - 1]];
      if TopLevel(q) then d
      else
        assert q[|d| + 1..] == path[|d| + 1..|path| - 1];
        assert path[|d| + 1..] == path[|d| + 1..|path| - 1] + [path[|path| - 1]];
        d
  }

  /** The path lies somewhere below the sub-directory `dir`. */
  predicate Below(path: string, dir: string) {
    |dir| < |path| && path[..|dir|] == dir && path[|dir|] == '/'
  }

  /**
   * The sub-directory `dir` exists: some file lies below it. Directories
   * are not recorded apart from the files in them.
   */
  predicate DirExists<V>(files: Dir<V>, dir: string) {
    exists path :: path in files && Below(path, dir)
  }

  /** `open(cache_dir / f"{key}.json", 'w')` finds the directory it writes into. */
  predicate Writable<V>(files: Dir<V>, key: string) {
    TopLevel(key) || DirExists(files, Parent(key))
  }

  /** A flat directory has no sub-directories, so only a key without '/' is writable there. */
  lemma FlatWritable<V>(files: Dir<V>, key: string)
    requires Flat(files)
    ensures Writable(files, key) <==> TopLevel(key)
  {
    forall path | path in files ensures !Below(path, Parent(key)) {
      if |Parent(key)| < |path| {
        assert path[|Parent(key)|] in path;
      }
    }
  }

  /**
   * `set` as written: `open` creates the file `cache_dir / f"{key}.json"`
   * but no directory, so it fails for a key whose sub-directory does not
   * exist. Gives whether the file was written and the directory after the
   * call.
   */
  function StoreAsWritten<V>(files: Dir<V>, key: string, value: Option<V>, now: real): (r: (bool, Dir<V>))
    ensures r.0 <==> TopLevel(key) || exists path :: path in files && Below(path, Parent(key))
    ensures r.1 == if r.0 then Store(files, key, value, now) else files
  {
    if Writable(files, key) then (true, Store(files, key, value, now)) else (false, files)
  }

  /** With a file already inside `a`, the key `a/c` is written. */
  lemma NestedKeyWritable()
    ensures StoreAsWritten(map["a/b.json" := Stored(0.0, None)], "a/c", Some(1), 0.0) ==
      (true, map["a/b.json" := Stored(0.0, None), "a/c.json" := Stored(0.0, Some(1))])
  {
    var files: Dir<int> := map["a/b.json" := Stored(0.0, None)];
    assert "a/c"[..2] == "a/" && "a/"[..1] == "a";
    assert Parent("a/c") == "a";
    assert Below("a/b.json", "a") by {
      assert "a/b.json"[..1] == "a";
    }
    assert Writable(files, "a/c");
    assert CachePath("a/c") == "a/c.json";
  }

  /** The directory after `delete(key)`. */
  function Remove<V>(files: Dir<V>, key: string): (r: Dir<V>)
    ensures r.Keys == files.Keys - {CachePath(key)}
    ensures forall path :: path in r ==> r[path] == files[path]
  {
    files - {CachePath(key)}
  }

  /** `get` of a key with no file returns `None` and changes nothing. */
  lemma GetMissing<V>(files: Dir<V>, ttl: int, key: string, now: real)
    requires CachePath(key) !in files
    ensures Lookup(files, ttl, key, now) == (None, files)
  {
  }

  /** An unreadable file makes `get` return `None`, and the file stays. */
  lemma GetUnreadable<V>(files: Dir<V>, ttl: int, key: string, now: real)
    requires CachePath(key) in files && files[CachePath(key)] == Unreadable
    ensures Lookup(files, ttl, key, now) == (None, files)
  {
  }

  /** An entry more than `ttl` seconds old reads as `None` and is deleted; no other file is touched. */
  lemma GetExpired<V>(files: Dir<V>, ttl: int, key: string, now: real)
    requires CachePath(key) in files && files[CachePath(key)].Stored?
    requires now - files[CachePath(key)].timestamp > ttl as real
    ensures Lookup(files, ttl, key, now) == (None, Remove(files, key))
  {
  }

  /**
   * A record with a timestamp and no value: expired, it is deleted like any
   * other entry, since expiry is checked before the value is read; otherwise
   * reading the value fails, `get` returns `None` and the file stays.
   */
  lemma GetTimedNoValue<V>(files: Dir<V>, ttl: int, key: string, now: real)
    requires CachePath(key) in files && files[CachePath(key)].Timed?
    ensures now - files[CachePath(key)].timestamp > ttl as real ==>
      Lookup(files, ttl, key, now) == (None, Remove(files, key))
    ensures now - files[CachePath(key)].timestamp <= ttl as real ==>
      Lookup(files, ttl, key, now) == (None, files)
  {
  }

  /** An entry exactly `ttl` seconds old is still returned: expiry is strict. */
  lemma GetAtTtl<V>(files: Dir<V>, ttl: int, key: string, now: real)
    requires CachePath(key) in files && files[CachePath(key)].Stored?
    requires now - files[CachePath(key)].timestamp == ttl as real
    ensures Lookup(files, ttl, key, now) == (files[CachePath(key)].value, files)
  {
  }

  /** `set(k, v)` and then, at most `ttl` seconds later, `get(k)` returns `v` and changes nothing. */
  lemma SetThenGet<V>(files: Dir<V>, ttl: int, key: string, value: Option<V>, at: real, now: real)
    requires now - at <= ttl as real
    ensures Lookup(Store(files, key, value, at), ttl, key, now) == (value, Store(files, key, value, at))
  {
  }

  /** A second `set` of the same key replaces the first entire. */
  lemma SetOverwrites<V>(files: Dir<V>, key: string, v1: Option<V>, t1: real, v2: Option<V>, t2: real)
    ensures Store(Store(files, key, v1, t1), key, v2, t2) == Store(files, key, v2, t2)
  {
  }

  /** `set(k, v)` leaves what `get` finds under every other key as it was. */
  lemma SetOtherKey<V>(files: Dir<V>, ttl: int, key: string, value: Option<V>, at: real, other: string, now: real)
    requires other != key
    ensures Lookup(Store(files, key, value, at), ttl, other, now).0 == Lookup(files, ttl, other, now).0
  {
    CachePathInjective(key, other);
  }

  /** After `delete(k)`, `get(k)` finds nothing; every other key reads as before. */
  lemma DeleteRemovesOnly<V>(files: Dir<V>, ttl: int, key: string, other: string, now: real)
    ensures Lookup(Remove(files, key), ttl, key, now) == (None, Remove(files, key))
    ensures other != key ==> Lookup(Remove(files, key), ttl, other, now).0 == Lookup(files, ttl, other, now).0
  {
    CachePathInjective(key, other);
  }

  /** Deleting a key that has no file changes nothing. */
  lemma DeleteAbsent<V>(files: Dir<V>, key: string)
    requires CachePath(key) !in files
    ensures Remove(files, key) == files
  {
  }

  /** A file `clear()` removes: one that `cache_dir.glob("*.json")` lists, directly inside the directory and named `….json`. */
  predicate JsonFile(path: string) {
    TopLevel(path) && EndsWith(path, ".json")
  }

  /** The directory after `clear()`: every top-level `.json` file is gone, every other file is as it was. */
  function Cleared<V>(files: Dir<V>): (r: Dir<V>)
    ensures forall path :: path in r <==> path in files && !JsonFile(path)
    ensures forall path :: path in r ==> r[path] == files[path]
  {
    map path | path in files && !JsonFile(path) :: files[path]
  }

  /** After `clear()` a key without '/' has no entry, and reading it changes nothing. */
  lemma GetAfterClear<V>(files: Dir<V>, ttl: int, key: string, now: real)
    requires TopLevel(key)
    ensures Lookup(Cleared(files), ttl, key, now) == (None, Cleared(files))
  {
    assert JsonFile(CachePath(key)) by {
      assert CachePath(key)[|CachePath(key)| - 5..] == ".json";
    }
  }

  /** `clear()` leaves an entry whose key holds a '/': its file lies in a sub-directory the glob does not enter. */
  lemma ClearKeepsNested<V>(files: Dir<V>, ttl: int, key: string, now: real)
    requires !TopLevel(key)
    ensures Lookup(Cleared(files), ttl, key, now).0 == Lookup(files, ttl, key, now).0
  {
    var i :| 0 <= i < |key| && key[i] == '/';
    assert CachePath(key)[i] == '/';
    assert !JsonFile(CachePath(key));
  }

  /** On a directory only the cache writes into, as written, `clear()` empties it. */
  lemma ClearFlatStore<V>(files: Dir<V>)
    requires Flat(files) && forall path :: path in files ==> EndsWith(path, ".json")
    ensures Cleared(files) == map[]
  {
    assert Cleared(files).Keys == {};
  }

  /**
   * As written, a key containing '/' is never cached: the write fails, so a
   * later `get` of that key, however soon, finds nothing.
   */
  lemma SlashKeyNeverCached<V>(files: Dir<V>, ttl: int, key: string, value: Option<V>, at: real, now: real)
    requires Flat(files) && !TopLevel(key)
    ensures !StoreAsWritten(files, key, value, at).0
    ensures Lookup(StoreAsWritten(files, key, value, at).1, ttl, key, now) == (None, files)
  {
    FlatWritable(files, key);
    assert !TopLevel(CachePath(key)) by {
      var i :| 0 <= i < |key| && key[i] == '/';
      assert CachePath(key)[i] == '/';
    }
  }

  /** A flat directory stays flat under every operation as written. */
  lemma FlatPreserved<V>(files: Dir<V>, ttl: int, key: string, value: Option<V>, now: real)
    requires Flat(files)
    ensures Flat(StoreAsWritten(files, key, value, now).1)
    ensures Flat(Lookup(files, ttl, key, now).1)
    ensures Flat(Remove(files, key))
  {
    FlatWritable(files, key);
    if TopLevel(key) {
      assert TopLevel(CachePath(key));
    }
  }

  /** `CacheManager(cache_dir, ttl)` over the directory's current files. */
  class CacheManager<V> {
    const ttl: int
    var files: Dir<V>

    /** The directory may already hold files from earlier runs; `mkdir(exist_ok=True)` keeps them. */
    constructor (ttl: int, existing: Dir<V>)
      ensures this.ttl == ttl && files == existing
    {
      this.ttl := ttl;
      files := existing;
    }

    /** `get(key)` at time `now`. */
    method Get(key: string, now: real) returns (r: Option<V>)
      modifies this
      ensures (r, files) == Lookup(old(files), ttl, key, now)
    {
      var path := CachePath(key);
      r := None;
      if path in files {
        match files[path]
        case Unreadable =>
        case Timed(t) =>
          if now - t > ttl as real {
            Delete(key);
          }
        case Stored(t, v) =>
          if now - t > ttl as real {
            Delete(key);
          } else {
            r := v;
          }
      }
    }

    /**
     * `set(key, value)` at time `now`, writing the file under its key's
     * name wherever that is (the sub-directory a '/' in the key names is
     * created first).
     */
    method Set(key: string, value: Option<V>, now: real)
      modifies this
      ensures files == Store(old(files), key, value, now)
    {
      files := files[CachePath(key) := Stored(now, value)];
    }

    /** `set` exactly as written: returns whether the file could be opened and written. */
    method SetAsWritten(key: string, value: Option<V>, now: real) returns (written: bool)
      modifies this
      ensures (written, files) == StoreAsWritten(old(files), key, value, now)
    {
      written := Writable(files, key);
      if written {
        files := files[CachePath(key) := Stored(now, value)];
      }
    }

    /** `delete(key)`: removes the key's file if there is one. */
    method Delete(key: string)
      modifies this
      ensures files == Remove(old(files), key)
    {
      var path := CachePath(key);
      if path in files {
        files := files - {path};
      }
    }

    /** `clear()`: removes the files `glob("*.json")` lists, one at a time. */
    method Clear()
      modifies this
      ensures files == Cleared(old(files))
    {
      var remaining := set path | path in files && JsonFile(path);
      while remaining != {}
        invariant forall path :: path in files <==> path in old(files) && (!JsonFile(path) || path in remaining)
        invariant forall path :: path in files ==> files[path] == old(files)[path]
        decreases remaining
      {
        var path :| path in remaining;
        files := files - {path};
        remaining := remaining - {path};
      }
      assert files.Keys == Cleared(old(files)).Keys;
    }
  }
}
