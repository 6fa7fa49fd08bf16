/** The cache coordinator: which media type a URL is served as, how a
    request is turned back into its full URL, where that URL is cached on
    disk, and the lock-file protocol that fills the cache from the origin. */
module Caching {

  import opened Wrappers
  import opened GoStrings
  import opened FilePath
  import opened HttpModel

  /** The directory every content file and lock file lives in, and its parent. */
  const CacheDir := "/src/packages"
  const CacheDirParent := "/src"

  const PypiIndex := "pypi.org/simple"
  const WheelMetadata := ".whl.metadata"
  const Wheel := ".whl"
  const Rpm := ".rpm"

  const TextHtml := "text/html"
  const TextPlain := "text/plain; charset=UTF-8"
  const OctetStream := "application/octet-stream"

  // ---------------------------------------------------------------------
  // Content type

  /** The media type a URL is served as on the tunnel path: the package
      index is HTML even when the URL also names a metadata file, metadata
      files are plain text, and everything else (wheels included) is opaque
      binary. */
  function URLToContentType(fullUrl: string): (ct: string)
    ensures Contains(fullUrl, PypiIndex) ==> ct == TextHtml
    ensures !Contains(fullUrl, PypiIndex) && Contains(fullUrl, WheelMetadata) ==> ct == TextPlain
    ensures !Contains(fullUrl, PypiIndex) && !Contains(fullUrl, WheelMetadata) ==> ct == OctetStream
    ensures ct in {TextHtml, TextPlain, OctetStream}
    ensures IsAscii(ct)
  {
    if Contains(fullUrl, PypiIndex) then TextHtml
    else if Contains(fullUrl, WheelMetadata) then TextPlain
    else if Contains(fullUrl, Wheel) then OctetStream
    else OctetStream
  }

  // ---------------------------------------------------------------------
  // Full URL

  /** The scheme of the reconstructed URL: a non-empty X-Forwarded-Proto
      value wins verbatim; otherwise "https" exactly when the request came
      over TLS or its host names one of the two known secure origins, and
      "http" when not. */
  function Scheme(req: Request): (proto: string)
    ensures proto != ""
    ensures HeaderGet(req.header, "X-Forwarded-Proto") != "" ==>
      proto == HeaderGet(req.header, "X-Forwarded-Proto")
    ensures HeaderGet(req.header, "X-Forwarded-Proto") == "" ==>
      && proto in {"http", "https"}
      && (proto == "https" <==>
           req.tls || Contains(req.host, "pypi.org") || Contains(req.host, "files.pythonhosted.org"))
  {
    var proto := if req.tls || Contains(req.host, "pypi.org") || Contains(req.host, "files.pythonhosted.org")
                 then "https" else "http";
    var forwarded := HeaderGet(req.header, "X-Forwarded-Proto");
    if forwarded != "" then forwarded else proto
  }

  /** The full URL: scheme, "://", host and path, then "?" and the raw query
      exactly when the query is non-empty. It always holds a character other
      than '/', so its base name is a single slash-free element. */
  function FullURL(req: Request): (url: string)
    ensures req.rawQuery == "" ==> url == Scheme(req) + "://" + req.host + req.path
    ensures req.rawQuery != "" ==> url == Scheme(req) + "://" + req.host + req.path + "?" + req.rawQuery
    ensures |Scheme(req)| < |url| && url[|Scheme(req)|] == ':'
    ensures HasNonSlash(url)
  {
    var url := Scheme(req) + "://" + req.host + req.path;
    if req.rawQuery != "" then url + "?" + req.rawQuery else url
  }

  // ---------------------------------------------------------------------
  // Cache path

  /** A hex SHA-1 digest as hashing.Sha1Hash prints it: 40 lower-case hex digits. */
  predicate IsHexDigest(s: string)
  {
    |s| == 40 && forall i | 0 <= i < |s| :: '0' <= s[i] <= '9' || 'a' <= s[i] <= 'f'
  }

  type HexDigest = s: string | IsHexDigest(s) witness "0000000000000000000000000000000000000000"

  /** URLs cached under their bare file name: an RPM suffix, or a wheel or
      wheel-metadata file anywhere in the URL (query included). */
  predicate IsPinnedArtifact(fullUrl: string)
  {
    HasSuffix(fullUrl, Rpm) || Contains(fullUrl, WheelMetadata) || Contains(fullUrl, Wheel)
  }

  /** The name of the content file inside the cache directory. */
  function CacheFileName(fullUrl: string, sha1: string -> HexDigest): (name: string)
    requires HasNonSlash(fullUrl)
    ensures name != "" && '/' !in name
    ensures IsPinnedArtifact(fullUrl) ==> name == Base(fullUrl)
    ensures !IsPinnedArtifact(fullUrl) ==> name == sha1(fullUrl) + "_" + Base(fullUrl)
  {
    if HasSuffix(fullUrl, Rpm) then Base(fullUrl)
    else if Contains(fullUrl, WheelMetadata) then Base(fullUrl)
    else if Contains(fullUrl, Wheel) then Base(fullUrl)
    else
      HashedNameSlashFree(sha1(fullUrl), Base(fullUrl));
      sha1(fullUrl) + "_" + Base(fullUrl)
  }

  lemma HashedNameSlashFree(h: HexDigest, base: string)
    requires '/' !in base
    ensures '/' !in h + "_" + base
  {
    assert '/' !in h;
  }

  /** filepath.Join(CacheDir, name) for one slash-free element: Join cleans
      its result, so "." stays in the directory and ".." leaves it; any other
      name becomes an entry directly inside the directory, and Base gives the
      name back. */
  function JoinCacheDir(name: string): (p: string)
    requires name != "" && '/' !in name
    ensures name == "." ==> p == CacheDir
    ensures name == ".." ==> p == CacheDirParent
    ensures name != "." && name != ".." ==> p == CacheDir + "/" + name && Base(p) == name
  {
    if name == "." then CacheDir
    else if name == ".." then CacheDirParent
    else
      BaseOfEntry(CacheDir, name);
      CacheDir + "/" + name
  }

  /** Where the content of `fullUrl` is cached. An RPM URL always lands
      directly under the cache directory by its base name; any other pinned
      artifact does too unless its base name is "." or ".."; every other URL
      is stored as "<sha1>_<base name>". */
  function CachePath(fullUrl: string, sha1: string -> HexDigest): (p: string)
    requires HasNonSlash(fullUrl)
    ensures HasSuffix(fullUrl, Rpm) ==> p == CacheDir + "/" + Base(fullUrl)
    ensures IsPinnedArtifact(fullUrl) && Base(fullUrl) != "." && Base(fullUrl) != ".." ==>
      p == CacheDir + "/" + Base(fullUrl)
    ensures IsPinnedArtifact(fullUrl) && Base(fullUrl) == "." ==> p == CacheDir
    ensures IsPinnedArtifact(fullUrl) && Base(fullUrl) == ".." ==> p == CacheDirParent
    ensures !IsPinnedArtifact(fullUrl) ==> p == CacheDir + "/" + sha1(fullUrl) + "_" + Base(fullUrl)
  {
    if !IsPinnedArtifact(fullUrl) then
      HashedJoin(sha1(fullUrl), Base(fullUrl));
      JoinCacheDir(CacheFileName(fullUrl, sha1))
    else if HasSuffix(fullUrl, Rpm) then
      RpmBaseIsPlainName(fullUrl);
      JoinCacheDir(CacheFileName(fullUrl, sha1))
    else
      JoinCacheDir(CacheFileName(fullUrl, sha1))
  }

  lemma HashedJoin(h: HexDigest, base: string)
    requires '/' !in base && base != ""
    ensures JoinCacheDir(h + "_" + base) == CacheDir + "/" + h + "_" + base
  {
    var name := h + "_" + base;
    HashedNameSlashFree(h, base);
    assert |name| > 40;
    assert name != "." && name != "..";
    assert CacheDir + "/" + name == CacheDir + "/" + h + "_" + base;
  }

  /** The base name of an RPM URL keeps the ".rpm" ending, so it is never "." or "..". */
  lemma RpmBaseIsPlainName(fullUrl: string)
    requires HasSuffix(fullUrl, Rpm)
    ensures HasSuffix(Base(fullUrl), Rpm)
    ensures Base(fullUrl) != "." && Base(fullUrl) != ".."
  {
    BaseKeepsSuffix(fullUrl, Rpm);
  }

  /** The lock marker of a content file. */
  function LockPath(cachePath: string): (lock: string)
    ensures HasPrefix(lock, cachePath) && |lock| == |cachePath| + 5
    ensures HasSuffix(lock, ".lock")
  {
    cachePath + ".lock"
  }

  /** The wheel-metadata test adds nothing to the wheel test: the pinned rule
      is "ends in .rpm or contains .whl". */
  lemma PinnedRuleIsRpmOrWheel(fullUrl: string)
    ensures IsPinnedArtifact(fullUrl) <==> HasSuffix(fullUrl, Rpm) || Contains(fullUrl, Wheel)
  {
    if Contains(fullUrl, WheelMetadata) {
      assert WheelMetadata == Wheel + ".metadata";
      ContainsPrefix(fullUrl, Wheel, ".metadata");
    }
  }

  /** The RPM rule looks at the end of the whole URL, so a non-empty query
      decides it: the URL ends in ".rpm" exactly when the query does. */
  lemma RpmRuleReadsQuery(req: Request)
    requires req.rawQuery != ""
    ensures HasSuffix(FullURL(req), Rpm) <==> HasSuffix(req.rawQuery, Rpm)
  {
    var q := req.rawQuery;
    var url := FullURL(req);
    var front := Scheme(req) + "://" + req.host + req.path + "?";
    assert url == front + q;
    var tail := url[|url| - 4..];
    if |q| >= 4 {
      assert tail == q[|q| - 4..];
    } else {
      assert tail[3 - |q|] == url[|front| - 1] == '?';
      assert Rpm[3 - |q|] != '?';
    }
  }

  /** An RPM path without a query is cached under the path's own base name,
      whatever the host and scheme. */
  lemma RpmPathIsBaseOfPath(r: Request, sha1: string -> HexDigest)
    requires r.rawQuery == "" && r.path != "" && r.path[0] == '/' && HasSuffix(r.path, Rpm)
    ensures CachePath(FullURL(r), sha1) == CacheDir + "/" + Base(r.path)
  {
    var front := Scheme(r) + "://" + r.host;
    assert FullURL(r) == front + r.path;
    RpmAppend(front, r.path);
  }

  lemma RpmAppend(front: string, path: string)
    requires path != "" && path[0] == '/' && HasSuffix(path, Rpm)
    ensures HasSuffix(front + path, Rpm)
    ensures Base(front + path) == Base(path)
  {
    assert path[|path| - 1] == path[|path| - 4..][3];
    assert (front + path)[|front + path| - 4..] == path[|path| - 4..];
    BaseOfAppend(front, path);
  }

  /** Two requests for the same RPM path without a query share one cache
      file whatever their host and scheme: the path's own base name. */
  lemma RpmPathIgnoresHostAndScheme(r1: Request, r2: Request, sha1: string -> HexDigest)
    requires r1.path == r2.path && r1.rawQuery == "" && r2.rawQuery == ""
    requires r1.path != "" && r1.path[0] == '/' && HasSuffix(r1.path, Rpm)
    ensures CachePath(FullURL(r1), sha1) == CacheDir + "/" + Base(r1.path)
    ensures CachePath(FullURL(r1), sha1) == CachePath(FullURL(r2), sha1)
  {
    RpmPathIsBaseOfPath(r1, sha1);
    RpmPathIsBaseOfPath(r2, sha1);
  }

  /** The digest sits right after the cache directory in a hashed path. */
  lemma DigestInHashedPath(h: HexDigest, base: string)
    ensures (CacheDir + "/" + h + "_" + base)[|CacheDir| + 1..|CacheDir| + 41] == h
  {
  }

  /** Hashed cache paths differ whenever the digests of the URLs differ,
      whatever their base names. */
  lemma HashedPathsDiffer(u1: string, u2: string, sha1: string -> HexDigest)
    requires HasNonSlash(u1) && HasNonSlash(u2)
    requires !IsPinnedArtifact(u1) && !IsPinnedArtifact(u2)
    requires sha1(u1) != sha1(u2)
    ensures CachePath(u1, sha1) != CachePath(u2, sha1)
  {
    DigestInHashedPath(sha1(u1), Base(u1));
    DigestInHashedPath(sha1(u2), Base(u2));
  }

  // ---------------------------------------------------------------------
  // The lock / hit / fetch / write protocol

  /** The cache directory's files by path; a lock marker is an empty file. */
  type FileMap = map<string, Bytes>

  /** What http.Get gives back: an error, or a status, headers and the body
      as the origin sends it. */
  datatype Fetch = FetchFailed | Fetched(status: int, header: Header, body: Bytes)

  /** How io.Copy into the new content file ends: the whole body, or an
      error after the first `written` bytes of it. */
  datatype Copy = Copied | CopyFailed(written: nat)

  /** The outcome of every fallible step of one resolve: creating the lock
      file, fetching from the origin, creating the content file, copying. */
  datatype CacheIo = CacheIo(lockCreated: bool, fetch: Fetch, cacheCreated: bool, copy: Copy)

  /** Which step failed. */
  datatype CacheError = LockFileError | OriginError | CacheFileError | CopyError

  /** The part of the origin's *http.Response that callers read. */
  datatype ResponseMeta = ResponseMeta(status: int, header: Header)

  /** The result of GetCachedUrl: `Waiting` while it is still polling because
      the lock file exists (the source sleeps and polls again; nothing has been
      done yet), otherwise the triple (content path, response or nil, error or nil). */
  datatype Resolution =
    | Waiting(path: string)
    | Returned(path: string, resp: Option<ResponseMeta>, err: Option<CacheError>)

  /** A lock marker never coincides with its content file. */
  lemma LockPathDiffers(cachePath: string)
    ensures LockPath(cachePath) != cachePath
  {
    assert |LockPath(cachePath)| == |cachePath| + 5;
  }

  /** Creating and later removing a lock file that was absent leaves no trace of it. */
  lemma LockRoundTrip(files: FileMap, lock: string, path: string, body: Bytes)
    requires lock !in files && lock != path
    ensures files[lock := []][path := []][path := body] - {lock} == files[path := body]
  {
  }

  /** Writing a file twice keeps only the second content. */
  lemma OverwriteOnce(files: FileMap, path: string, content: Bytes)
    ensures files[path := []][path := content] == files[path := content]
  {
  }

  /** One test of the polling loop: go on waiting while the lock file exists. */
  datatype Poll = Wait | Proceed

  function PollLock(files: FileMap, lockPath: string): (poll: Poll)
    ensures poll == Wait <==> lockPath in files
  {
    if lockPath in files then Wait else Proceed
  }

  /** The bytes io.Copy has written when it stops after `n` bytes. */
  function Written(body: Bytes, n: nat): (w: Bytes)
    ensures |w| <= |body| && w == body[..|w|]
  {
    if n <= |body| then body[..n] else body
  }

  /** The protocol of one GetCachedUrl call whose content file is `path`,
      against the cache directory `files`: its result and the directory
      afterwards. */
  function ResolveAt(files: FileMap, path: string, io: CacheIo): (r: (Resolution, FileMap))
    ensures r.0.path == path
    ensures r.0.Returned? && r.0.err.None? ==> path in r.1 && LockPath(path) !in r.1
    ensures r.0.Returned? && r.0.err.Some? ==> r.0.resp.None?
    ensures forall q | q != path && q != LockPath(path) ::
      (q in r.1 <==> q in files) && (q in files ==> r.1[q] == files[q])
  {
    var lock := LockPath(path);
    if PollLock(files, lock) == Wait then (Waiting(path), files)
    else if path in files then (Returned(path, None, None), files)
    else if !io.lockCreated then (Returned(path, None, Some(LockFileError)), files)
    else match io.fetch
      case FetchFailed => (Returned(path, None, Some(OriginError)), files[lock := []])
      case Fetched(status, header, body) =>
        if !io.cacheCreated then (Returned(path, None, Some(CacheFileError)), files[lock := []])
        else match io.copy
          case CopyFailed(n) =>
            (Returned(path, None, Some(CopyError)), files[lock := []][path := Written(body, n)])
          case Copied =>
            (Returned(path, Some(ResponseMeta(status, header)), None), files[path := body])
  }

  /** One call of GetCachedUrl for `req`: every return, errors included,
      carries the content path derived from the request's full URL. */
  function Resolve(files: FileMap, req: Request, io: CacheIo, sha1: string -> HexDigest): (r: (Resolution, FileMap))
    ensures r.0.path == CachePath(FullURL(req), sha1)
  {
    ResolveAt(files, CachePath(FullURL(req), sha1), io)
  }

  /** The cache directory and the digest function the keys are built with. */
  class CacheStore {
    var files: FileMap
    /** Every request GetCachedUrl has been asked to resolve, in order. */
    ghost var lookups: seq<Request>
    const sha1: string -> HexDigest

    constructor (files: FileMap, sha1: string -> HexDigest)
      ensures this.files == files && this.sha1 == sha1 && lookups == []
    {
      this.files := files;
      this.sha1 := sha1;
      lookups := [];
    }

    /** GetCachedUrl: derive the content and lock paths, stop while the lock
        exists, return a hit untouched, otherwise create the lock, fetch,
        create the content file, copy the body and remove the lock. Every
        failure returns at once and leaves what was created in place. */
    method GetCachedUrl(req: Request, io: CacheIo) returns (r: Resolution)
      modifies this
      ensures (r, files) == Resolve(old(files), req, io, sha1)
      ensures lookups == old(lookups) + [req]
    {
      lookups := lookups + [req];
      var fullUrl := FullURL(req);
      var cacheFilePath := CachePath(fullUrl, sha1);
      var lockFilePath := LockPath(cacheFilePath);
      LockPathDiffers(cacheFilePath);
      if PollLock(files, lockFilePath) == Wait {
        return Waiting(cacheFilePath);
      }
      if cacheFilePath in files {
        return Returned(cacheFilePath, None, None);
      }
      if !io.lockCreated {
        return Returned(cacheFilePath, None, Some(LockFileError));
      }
      files := files[lockFilePath := []];
      if io.fetch.FetchFailed? {
        return Returned(cacheFilePath, None, Some(OriginError));
      }
      var resp := io.fetch;
      if !io.cacheCreated {
        return Returned(cacheFilePath, None, Some(CacheFileError));
      }
      files := files[cacheFilePath := []];
      if io.copy.CopyFailed? {
        OverwriteOnce(old(files)[lockFilePath := []], cacheFilePath, Written(resp.body, io.copy.written));
        files := files[cacheFilePath := Written(resp.body, io.copy.written)];
        return Returned(cacheFilePath, None, Some(CopyError));
      }
      files := files[cacheFilePath := resp.body];
      files := files - {lockFilePath};
      LockRoundTrip(old(files), lockFilePath, cacheFilePath, resp.body);
      return Returned(cacheFilePath, Some(ResponseMeta(resp.status, resp.header)), None);
    }
  }

  /** The call is still waiting exactly when the lock file exists, and
      waiting changes nothing. */
  lemma WaitsExactlyWhileLocked(files: FileMap, path: string, io: CacheIo)
    ensures var r := ResolveAt(files, path, io);
      && (r.0.Waiting? <==> LockPath(path) in files)
      && (r.0.Waiting? ==> r.1 == files)
  {
  }

  /** Past the wait, an existing content file is a hit: its path, no
      response, no error, no fetch and no change to the directory. */
  lemma HitChangesNothing(files: FileMap, path: string, io: CacheIo)
    requires LockPath(path) !in files && path in files
    ensures ResolveAt(files, path, io) == (Returned(path, None, None), files)
  {
  }

  /** A miss that succeeds stores exactly the fetched body, leaves no lock
      file and hands the origin's status and headers back. */
  lemma MissStoresTheBody(files: FileMap, path: string, status: int, header: Header, body: Bytes)
    requires LockPath(path) !in files && path !in files
    ensures var r := ResolveAt(files, path, CacheIo(true, Fetched(status, header, body), true, Copied));
      && r.0 == Returned(path, Some(ResponseMeta(status, header)), None)
      && r.1 == files[path := body]
      && LockPath(path) !in r.1
  {
  }

  /** Idempotence: once a call has returned without error, the same path
      again is a hit with no response, whatever the outcome oracles say. */
  lemma SecondResolveHits(files: FileMap, path: string, io1: CacheIo, io2: CacheIo)
    requires ResolveAt(files, path, io1).0.Returned? && ResolveAt(files, path, io1).0.err.None?
    ensures var after := ResolveAt(files, path, io1).1;
      ResolveAt(after, path, io2) == (Returned(path, None, None), after)
  {
  }

  /** Idempotence for requests: the same request twice in a row. */
  lemma SecondRequestHits(files: FileMap, req: Request, io1: CacheIo, io2: CacheIo, sha1: string -> HexDigest)
    requires Resolve(files, req, io1, sha1).0.Returned? && Resolve(files, req, io1, sha1).0.err.None?
    ensures var after := Resolve(files, req, io1, sha1).1;
      Resolve(after, req, io2, sha1) == (Returned(CachePath(FullURL(req), sha1), None, None), after)
  {
    SecondResolveHits(files, CachePath(FullURL(req), sha1), io1, io2);
  }

  /** Every failure after the lock file is created leaves it in place; a
      failed copy also leaves the part of the body already written. A failure
      to create the lock leaves the directory as it was. */
  lemma FailuresStrandTheLock(files: FileMap, path: string, io: CacheIo)
    requires var r := ResolveAt(files, path, io); r.0.Returned? && r.0.err.Some?
    ensures var r := ResolveAt(files, path, io);
      && (r.0.err == Some(LockFileError) ==> r.1 == files)
      && (r.0.err != Some(LockFileError) ==> LockPath(path) in r.1 && r.1[LockPath(path)] == [])
      && (r.0.err == Some(CopyError) ==>
            io.fetch.Fetched? && io.copy.CopyFailed? && path in r.1
            && r.1[path] == Written(io.fetch.body, io.copy.written))
  {
    LockPathDiffers(path);
  }

  /** The origin's status and headers reach nothing but the returned
      response: two fetches with the same body leave the same directory and
      the same path and error. */
  lemma OriginMetadataOnlyInResponse(files: FileMap, path: string, io: CacheIo, status: int, header: Header)
    requires io.fetch.Fetched?
    ensures var other := io.(fetch := Fetched(status, header, io.fetch.body));
      var r1 := ResolveAt(files, path, io);
      var r2 := ResolveAt(files, path, other);
      && r1.1 == r2.1
      && (r1.0.Waiting? <==> r2.0.Waiting?)
      && (r1.0.Returned? ==> r2.0 == r1.0.(resp := r2.0.resp))
  {
  }
}
