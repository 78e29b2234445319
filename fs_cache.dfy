/**
 * `FilesystemCache` (app/cache/fs_cache.py): one JSON file per key in the
 * cache directory, modelled as a map from key to what the file holds.
 * MD5 is an uninterpreted deterministic function; a filesystem or JSON
 * error is a fault parameter.
 */
module FsCache {
  import opened Common
  import opened Text

  /** The contents of one cache file. Its "timestamp" is the file's stem, i.e. the key. */
  datatype Record = Record(
    query: string, answer: string, sessionId: string, userId: string,
    metadata: map<string, Json>, timestamp: string)

  /** The text that is hashed: "session_id:user_id:query", lowercased, then stripped. */
  function Composite(query: string, sessionId: string, userId: string): string {
    Strip(Lower(sessionId + ":" + userId + ":" + query))
  }

  /** `_generate_key`. */
  function Key(md5: string -> string, query: string, sessionId: string, userId: string): string {
    md5(Composite(query, sessionId, userId))
  }

  /** All three parts are case-insensitive. */
  lemma KeyIgnoresCase(md5: string -> string, query: string, sessionId: string, userId: string)
    ensures Key(md5, Lower(query), Lower(sessionId), Lower(userId)) == Key(md5, query, sessionId, userId)
  {
    LowerIsLower(query);
    LowerIsLower(sessionId);
    LowerIsLower(userId);
    LowerConcat(sessionId + ":" + userId + ":", query);
    LowerConcat(sessionId + ":" + userId, ":");
    LowerConcat(sessionId + ":", userId);
    LowerConcat(sessionId, ":");
    LowerConcat(Lower(sessionId) + ":" + Lower(userId) + ":", Lower(query));
    LowerConcat(Lower(sessionId) + ":" + Lower(userId), ":");
    LowerConcat(Lower(sessionId) + ":", Lower(userId));
    LowerConcat(Lower(sessionId), ":");
  }

  /**
   * Only the outer ends are stripped: when the session id does not start and
   * the query does not end with whitespace, the composite is the lowercased
   * parts joined by ':' with all inner whitespace kept.
   */
  lemma CompositeKeepsInnerWhitespace(query: string, sessionId: string, userId: string)
    requires sessionId == "" || !IsSpace(sessionId[0])
    requires query == "" || !IsSpace(query[|query| - 1])
    ensures Composite(query, sessionId, userId) == Lower(sessionId) + ":" + Lower(userId) + ":" + Lower(query)
  {
    var raw := sessionId + ":" + userId + ":" + query;
    var low := Lower(raw);
    LowerConcat(sessionId + ":" + userId + ":", query);
    LowerConcat(sessionId + ":" + userId, ":");
    LowerConcat(sessionId + ":", userId);
    LowerConcat(sessionId, ":");
    assert low == Lower(sessionId) + ":" + Lower(userId) + ":" + Lower(query);
    assert raw[0] == (if sessionId == "" then ':' else sessionId[0]);
    assert raw[|raw| - 1] == (if query == "" then ':' else query[|query| - 1]);
    StripNoOuterSpace(low);
  }

  /** Different triples can share a key: ':' inside a part is not escaped. */
  lemma CompositeAmbiguous()
    ensures Composite("q", "a:b", "") == Composite("q", "a", "b:")
  {
    assert "a:b" + ":" + "" + ":" + "q" == "a" + ":" + "b:" + ":" + "q";
  }

  /**
   * A cache file: the record it holds, or a file whose JSON cannot be read
   * back (`open(cache_file, "w")` truncated it and `json.dump` failed).
   */
  datatype CacheFile = Intact(record: Record) | Truncated

  /** Where a failing `set` failed: opening the file for writing, or dumping the JSON into it. */
  datatype WriteFault = NoWriteFault | OpenFailed | DumpFailed

  /** The lookup `get` performs on the cache files; an unreadable file is a miss. */
  function Find(files: map<string, CacheFile>, key: string): Option<string> {
    if key in files && files[key].Intact? then Some(files[key].record.answer) else None
  }

  /** The record `set` writes. */
  function NewRecord(key: string, query: string, answer: string, sessionId: string, userId: string,
                     metadata: map<string, Json>): Record {
    Record(query, answer, sessionId, userId, metadata, key)
  }

  /** The files after `set` wrote `record` under `key`, given where it failed. */
  function Written(files: map<string, CacheFile>, key: string, record: Record, fault: WriteFault): map<string, CacheFile> {
    match fault
    case NoWriteFault => files[key := Intact(record)]
    case OpenFailed => files
    case DumpFailed => files[key := Truncated]
  }

  /** `set` then `get` with the same query, session and user returns the stored answer. */
  lemma SetThenGet(md5: string -> string, files: map<string, CacheFile>, query: string, answer: string,
                   sessionId: string, userId: string, metadata: map<string, Json>)
    ensures var key := Key(md5, query, sessionId, userId);
      Find(Written(files, key, NewRecord(key, query, answer, sessionId, userId, metadata), NoWriteFault), key) == Some(answer)
  {
  }

  /**
   * A `set` whose dump fails loses the answer stored before under the same
   * key, and only that one; a `set` that cannot open the file changes no lookup.
   */
  lemma FailedWriteLookups(files: map<string, CacheFile>, key: string, record: Record, other: string)
    ensures Find(Written(files, key, record, DumpFailed), key) == None
    ensures other != key ==> Find(Written(files, key, record, DumpFailed), other) == Find(files, other)
    ensures Find(Written(files, key, record, OpenFailed), other) == Find(files, other)
  {
  }

  class FilesystemCache {
    const md5: string -> string
    var files: map<string, CacheFile>

    constructor (md5: string -> string, files: map<string, CacheFile>)
      ensures this.md5 == md5 && this.files == files
    {
      this.md5 := md5;
      this.files := files;
    }

    /** `get`: the stored answer, or None on a miss, on an unreadable file or on any other error. */
    method Get(query: string, sessionId: string, userId: string, fault: bool) returns (r: Option<string>)
      ensures fault ==> r.None?
      ensures var key := Key(md5, query, sessionId, userId);
        !fault ==> (r.Some? <==> key in files && files[key].Intact?)
      ensures r.Some? ==> r.value == files[Key(md5, query, sessionId, userId)].record.answer
    {
      if fault {
        return None;
      }
      var key := Key(md5, query, sessionId, userId);
      if key in files {
        var file := files[key];
        if file.Intact? {
          return Some(file.record.answer);
        }
      }
      return None;
    }

    /**
     * `set`: writes (or overwrites) the key's file and returns True. When the
     * file cannot be opened nothing changes; when the dump fails the file has
     * already been truncated, so any earlier record under the key is lost.
     * Both failures return False.
     */
    method Set(query: string, answer: string, sessionId: string, userId: string,
               metadata: map<string, Json>, fault: WriteFault) returns (ok: bool)
      modifies this`files
      ensures ok == fault.NoWriteFault?
      ensures var key := Key(md5, query, sessionId, userId);
        files == Written(old(files), key, NewRecord(key, query, answer, sessionId, userId, metadata), fault)
    {
      var key := Key(md5, query, sessionId, userId);
      if fault.OpenFailed? {
        return false;
      }
      if fault.DumpFailed? {
        files := files[key := Truncated];
        return false;
      }
      files := files[key := Intact(NewRecord(key, query, answer, sessionId, userId, metadata))];
      return true;
    }

    /**
     * `clear`: deletes every file. A failure part-way returns False and
     * leaves the files not yet deleted (`survivors`).
     */
    method Clear(fault: bool, survivors: set<string>) returns (ok: bool)
      modifies this`files
      ensures ok == !fault
      ensures ok ==> files == map[]
      ensures !ok ==> files == map k | k in old(files) && k in survivors :: old(files)[k]
    {
      if fault {
        files := map k | k in files && k in survivors :: files[k];
        return false;
      }
      files := map[];
      return true;
    }

    /** `get_stats`: the number of cache files, readable or not (the size in megabytes is not modelled). */
    method GetStats() returns (totalCachedQueries: nat)
      ensures totalCachedQueries == |files.Keys|
    {
      totalCachedQueries := |files.Keys|;
    }
  }
}
