# pkgproxy core in Dafny

pkgproxy is a caching forward proxy for package downloads (PyPI indexes,
wheels, RPMs). This project models its two core pieces and proves what they
promise:

- **The cache coordinator** (`pkg/proxycore/caching/caching.go`).
  - `URLToContentType` picks the media type of a URL.
  - `GetFullURL` rebuilds the URL of a request.
  - The cache-path rule inside `GetCachedUrl` puts RPMs and wheels under
    their base name and everything else under `<sha1>_<base name>`, all
    inside `/src/packages`.
  - `GetCachedUrl` runs the lock-file protocol. It waits while
    `<path>.lock` exists, returns a hit unchanged, and otherwise creates the
    lock, fetches from the origin, writes the content file and removes the
    lock. Every failure returns at once.
- **The request handlers** (`pkg/proxycore/handlers/handlers.go`).
  - `ProxyHandler` serves plain requests from the cache. After a miss it
    relays the origin's headers and status.
  - `HandleConnectRequest` answers a CONNECT. It dials the target, hijacks
    the connection, sends the acknowledgment, terminates TLS with a minted
    certificate, and passes the one inner request to
    `HandleAndForwardHTTPRequest`.
  - `HandleAndForwardHTTPRequest` answers that inner request from the cache
    with a synthesized response.

Layout, one module per file:

| file | module | contents |
|---|---|---|
| `wrappers.dfy` | `Wrappers` | `Option` |
| `gostrings.dfy` | `GoStrings` | Go's `strings.Contains`, `HasPrefix` and `HasSuffix`; `strings.Split(s, c)[0]`; ASCII text as bytes |
| `filepath.dfy` | `FilePath` | Go's `filepath.Base`, written out exactly, including `"."` for `""` and `"/"` for an all-slash path |
| `http.dfy` | `HttpModel` | header maps, the request fields the core reads, `Header.Add`, and the result of the header-copy loop |
| `caching.dfy` | `Caching` | content type, scheme, full URL and cache path as functions |
| `handlers.dfy` | `Handlers` | the response writer as a class, the handler methods, and the effect functions they follow |
| `handler_properties.dfy` | `HandlerProperties` | what the handlers promise, per cache outcome and end to end |

More about `caching.dfy`:
- The lock protocol is specified by a function, `ResolveAt`, over an
  abstract cache directory (`map<path, bytes>`; a lock file is an empty
  entry).
- The class `CacheStore` holds that directory. Its method `GetCachedUrl`
  changes it step by step and is proved to follow `Resolve`.

How the outside world enters the model:
- Every step whose outcome the model cannot compute is an oracle. Such a
  step is I/O, the network, TLS or certificate generation. The oracles are
  `CacheIo` (lock create, origin fetch, content-file create, copy) and
  `HandlerIo` (dial, hijack, acknowledgment write, certificate, handshake,
  the parsed inner request, the two header writes into the TLS session).
- SHA-1 is a parameter `sha1: string -> HexDigest`. A `HexDigest` is 40
  lower-case hex digits, as `hashing.Sha1Hash` prints them.
- What reaches the client is a trace of writes, `Connection.wire`. Each
  entry is one of:
  - a committed status with its header map;
  - body bytes;
  - an `http.Error` reply;
  - bytes on the hijacked connection;
  - plaintext into the TLS session.

Source details that are easy to misread:
- The `.rpm` test applies to the whole full URL, query included. So
  `/x.rpm?arch=1` is hashed (`.../<sha1>_x.rpm?arch=1`), while `/list?f=a.rpm`
  is not hashed and is cached as `/src/packages/list?f=a.rpm`
  (`RpmRuleReadsQuery`). `filepath.Base` splits only at `/`, so the query
  stays in the name. When the query itself holds a slash, only the text
  after it survives: `/list?f=x/a.rpm` is cached as `/src/packages/a.rpm`.
- `filepath.Base` of an all-slash string is `"/"`, not `"."`.
- `filepath.Join` cleans its result. A pinned URL whose base name is `..`
  therefore joins to `/src`, and one whose base name is `.` joins to
  `/src/packages` itself (`JoinCacheDir`, `CachePath`).
- `http.ReadRequest` never sets the TLS state of the request it parses. The
  inner request of a tunnel is therefore rebuilt as `http://` unless its host
  contains `pypi.org` or `files.pythonhosted.org`, or its `X-Forwarded-Proto`
  value is non-empty (`TunnelRequest`, `Scheme`).
- The `.whl` branch of `URLToContentType` returns the same value as the
  final default, so it changes nothing.

## Model

| member | source | states |
|---|---|---|
| Caching.URLToContentType | pkg/proxycore/caching/caching.go:21-32 | The index substring wins even over `.whl.metadata`. Otherwise `.whl.metadata` gives plain text and anything else gives octet-stream. The result is always one of the three ASCII strings. |
| Caching.Scheme | pkg/proxycore/caching/caching.go:36-47 | A non-empty X-Forwarded-Proto is taken verbatim. Otherwise the scheme is `https` iff TLS is set or the host contains `pypi.org` or `files.pythonhosted.org`, else `http`. |
| Caching.FullURL | pkg/proxycore/caching/caching.go:50-59 | The URL is scheme + `://` + host + path. `?` + query is appended iff the query is non-empty. The scheme is followed by `:`, and the URL always holds a non-slash character. |
| Caching.CacheFileName | pkg/proxycore/caching/caching.go:71-82 | The name is non-empty and slash-free. It is `Base(url)` for an `.rpm` suffix, `.whl.metadata` or `.whl`, and `sha1(url) + "_" + Base(url)` otherwise. |
| Caching.JoinCacheDir | pkg/proxycore/caching/caching.go:73-81 | `filepath.Join(cacheDir, name)` after cleaning. `.` gives `/src/packages` and `..` gives `/src`. Any other name gives an entry directly inside `/src/packages` whose base name is the name again. |
| Caching.CachePath | pkg/proxycore/caching/caching.go:71-82 | An `.rpm` URL is cached at `/src/packages/` + `Base(url)`. So is any other pinned URL whose base is not `.` or `..`. A pinned base `.` gives `/src/packages` and `..` gives `/src`. Every other URL is cached at `/src/packages/<sha1>_<base>`. |
| Caching.PinnedRuleIsRpmOrWheel | pkg/proxycore/caching/caching.go:72-77 | The `.whl.metadata` branch is subsumed by the `.whl` branch: pinned iff the URL ends in `.rpm` or contains `.whl`. |
| Caching.RpmRuleReadsQuery | pkg/proxycore/caching/caching.go:54-72 | With a non-empty query, the full URL ends in `.rpm` iff the query does. |
| Caching.RpmPathIsBaseOfPath | pkg/proxycore/caching/caching.go:72-73 | With no query and an `.rpm` path, the cache path is `/src/packages/` + the path's own base name. |
| Caching.RpmPathIgnoresHostAndScheme | pkg/proxycore/caching/caching.go:72-73 | Two such requests with the same path share one cache file, whatever their host and scheme. |
| Caching.RpmBaseIsPlainName | pkg/proxycore/caching/caching.go:72-73 | The base name of an `.rpm` URL still ends in `.rpm`, so Join cannot turn it into `.` or `..`. |
| Caching.HashedPathsDiffer | pkg/proxycore/caching/caching.go:79-81 | Unpinned URLs with different digests get different cache paths. |
| Caching.LockPath | pkg/proxycore/caching/caching.go:85 | The lock path is the cache path followed by `.lock`: it starts with the cache path, is five characters longer and ends in `.lock`. |
| Caching.PollLock | pkg/proxycore/caching/caching.go:86-91 | One test of the polling loop: keep waiting iff the lock file exists. |
| Caching.LockPathDiffers | pkg/proxycore/caching/caching.go:85 | The lock path (cache path + `.lock`) is never the cache path itself. |
| Caching.Written | pkg/proxycore/caching/caching.go:130-135 | What an interrupted copy leaves is a prefix of the body. |
| Caching.ResolveAt | pkg/proxycore/caching/caching.go:84-144 | Every outcome carries the given path. Success leaves the content file present and the lock absent. An error carries no response. No path other than the content file and its lock changes. |
| Caching.Resolve | pkg/proxycore/caching/caching.go:62-85 | Every return, errors included, carries the path derived from the request's full URL. |
| Caching.CacheStore.GetCachedUrl | pkg/proxycore/caching/caching.go:62-145 | Result and new directory equal `Resolve` on the old directory. The request is appended to the lookup log. |
| Caching.WaitsExactlyWhileLocked | pkg/proxycore/caching/caching.go:84-91 | The call waits iff the lock file exists, and waiting changes nothing. |
| Caching.HitChangesNothing | pkg/proxycore/caching/caching.go:93-103 | With no lock and the content file present, the result is (path, no response, no error) and the directory is unchanged. |
| Caching.MissStoresTheBody | pkg/proxycore/caching/caching.go:105-144 | With no lock and no file, when every step succeeds the file holds exactly the fetched body, the lock is gone, and the origin status and headers are returned. |
| Caching.SecondResolveHits | pkg/proxycore/caching/caching.go:93-144 | After a call without error, the next call for the same path is a hit with no response and no change, whatever the oracles say. |
| Caching.SecondRequestHits | pkg/proxycore/caching/caching.go:62-144 | The same idempotence for the same request. |
| Caching.FailuresStrandTheLock | pkg/proxycore/caching/caching.go:105-135 | A lock-create failure leaves the directory unchanged. Every later failure leaves the lock file in place. A copy failure also leaves the partially written file. |
| Caching.OriginMetadataOnlyInResponse | pkg/proxycore/caching/caching.go:116-144 | The origin's status and headers affect only the returned response, never the directory, the path or the error. |
| FilePath.Base | pkg/proxycore/caching/caching.go:73 | `""` gives `.` and all slashes give `/`. Otherwise the result is the last non-empty slash-free element before any trailing slashes. |
| FilePath.BaseKeepsSuffix | pkg/proxycore/caching/caching.go:73 | A slash-free suffix of the path is a suffix of its base name. |
| FilePath.BaseOfAppend | pkg/proxycore/caching/caching.go:73 | A prefix before a path that starts with `/` and ends without one does not change the base name. |
| GoStrings.Contains | pkg/proxycore/caching/caching.go:22-28 | `strings.Contains` holds iff the needle occurs at some position of the text. |
| GoStrings.HasSuffix | pkg/proxycore/caching/caching.go:72 | `strings.HasSuffix` holds iff the needle is no longer than the text and matches its last characters one by one. |
| FilePath.BaseOfEntry | pkg/proxycore/caching/caching.go:73-81 | A slash-free name joined under a directory has that name as its base name. |
| GoStrings.BeforeFirst | pkg/proxycore/handlers/handlers.go:95 | The result is the longest colon-free prefix: it is followed by `:` or is the whole string. |
| GoStrings.Ascii | pkg/proxycore/handlers/handlers.go:88 | `[]byte(s)` for ASCII text: same length and the same code at every position. |
| HttpModel.HeaderGet | pkg/proxycore/caching/caching.go:45 | `Header.Get` gives the first value under the key, or `""` when the key is absent or has no values. |
| HttpModel.AddValue | pkg/proxycore/handlers/handlers.go:43 | `Header.Add` appends the value under the key and leaves every other key's values unchanged. |
| HttpModel.MergeHeaders | pkg/proxycore/handlers/handlers.go:41-45 | After the loops every key holds the writer's values followed by the origin's. A key is present iff it was before or the origin has values for it. |
| Handlers.TunnelRequest | pkg/proxycore/handlers/handlers.go:135 | The parsed request is unchanged except that it carries no TLS state. |
| Handlers.Connection.AddHeader | pkg/proxycore/handlers/handlers.go:43 | The header map becomes `AddValue` of the old one; nothing is written. |
| Handlers.Connection.WriteHeader | pkg/proxycore/handlers/handlers.go:46 | Appends the status with the header map as it stands. |
| Handlers.Connection.Write | pkg/proxycore/handlers/handlers.go:57 | Appends body bytes. |
| Handlers.Connection.Error | pkg/proxycore/handlers/handlers.go:33 | Appends one error reply with its text and status. |
| Handlers.Connection.WriteRaw | pkg/proxycore/handlers/handlers.go:88 | Appends bytes on the hijacked connection. |
| Handlers.Connection.WriteTls | pkg/proxycore/handlers/handlers.go:161-176 | Appends plaintext into the TLS session. |
| Handlers.AddValues | pkg/proxycore/handlers/handlers.go:42-44 | The inner loop appends all of the values, in order, under one key; other keys and the trace are unchanged. |
| Handlers.CopyHeaders | pkg/proxycore/handlers/handlers.go:41-45 | The nested loops leave the header map equal to `MergeHeaders(old map, origin)`, whatever order the keys are visited in. |
| Handlers.ServeReply | pkg/proxycore/handlers/handlers.go:29-61 | The plain reply to a cache outcome leaves the directory the cache call left and logs the one lookup of the request. It waits iff the cache waits. It writes nothing on a hijacked connection or into TLS. Apart from the `http.Error` reply, which is one `ErrorReply` entry, a status (`Head`) is written only after a miss and only as the first write. The model's header map changes only after a miss (see "## Left out" on `http.Error`). The cases are in `ServeReplyFailureIs500`, `ServeReplyHit` and `ServeReplyMiss`. |
| Handlers.ProxySpec | pkg/proxycore/handlers/handlers.go:18-64 | The CONNECT dispatch. A plain request is looked up exactly once, as itself, and never touches a hijacked connection or TLS. On a CONNECT, apart from an `http.Error` reply (one `ErrorReply` entry), nothing reaches the response writer as `Head` or `Body`, and the model's header map stays as it was. `PlainEffect` and `ConnectLooksUpOnlyTheInnerRequest` state the dispatch itself. |
| Handlers.ConnectSpec | pkg/proxycore/handlers/handlers.go:66-121 | The dial, hijack, acknowledgment, certificate and handshake sequence does not change the header map. Without a cache lookup the directory is unchanged. Apart from the `http.Error` replies, which are single `ErrorReply` entries, nothing reaches the response writer as `Head` or `Body`. The only raw write is the acknowledgment, and only as the first write. Each stopping step is stated in its own lemma: `DialFailureIs500`, `HijackFailureIs500`, `AckFailureWritesNothing`, `AcknowledgmentFirst` and `CertOrHandshakeFailureStops`. `ConnectLooksUpOnlyThroughOpenTunnel` shows the cache is reached only when every step succeeds. |
| Handlers.AfterAcknowledgment | pkg/proxycore/handlers/handlers.go:87-121 | After a completed handshake the acknowledgment comes first, then the inner exchange unchanged. It is the only raw write, and nothing reaches the response writer as `Head` or `Body`. |
| Handlers.TunnelReply | pkg/proxycore/handlers/handlers.go:148-180 | The inner reply to a cache outcome writes only into the TLS session, starting with the status line when it writes at all. It keeps the header map, leaves the directory the cache call left, looks up only the inner request, and waits iff the cache waits. |
| Handlers.ForwardSpec | pkg/proxycore/handlers/handlers.go:124-186 | The tunnelled exchange keeps the header map and writes only into the TLS session. An unreadable inner request writes nothing, touches no file and looks nothing up. A readable one is looked up once, without TLS state. The early stops after a failed TLS write are in `TunnelStatusWriteFails` and `TunnelHeaderWriteFails`. |
| Handlers.ProxyHandler | pkg/proxycore/handlers/handlers.go:18-64 | The new trace, header map, cache directory and lookup log are exactly those of `ProxySpec` on the old state, including the relay of the origin's headers by `CopyHeaders` before the status. |
| Handlers.HandleConnectRequest | pkg/proxycore/handlers/handlers.go:66-122 | The same, against `ConnectSpec`: each early return, the acknowledgment on the raw connection, then the inner exchange. |
| Handlers.HandleAndForwardHTTPRequest | pkg/proxycore/handlers/handlers.go:124-186 | The same, against `ForwardSpec`: read, resolve, then the status line, the Content-Type block and the file into TLS, stopping at the first failed write. |
| HandlerProperties.ServeReplyFailureIs500 | pkg/proxycore/handlers/handlers.go:29-35 | A cache error gives exactly one 500 "Internal Server Error" entry, with no relayed origin status and no file bytes. |
| HandlerProperties.ServeReplyHit | pkg/proxycore/handlers/handlers.go:36-61 | A hit writes the whole content file and nothing else, with no status and no header change. |
| HandlerProperties.ServeReplyMiss | pkg/proxycore/handlers/handlers.go:39-61 | After a miss the trace is the origin status with the merged headers, then the whole file. |
| HandlerProperties.PlainEffect | pkg/proxycore/handlers/handlers.go:28-35 | A non-CONNECT request's effect is the plain reply to its own cache outcome. |
| HandlerProperties.ConnectLooksUpOnlyTheInnerRequest | pkg/proxycore/handlers/handlers.go:22-26 | A CONNECT goes to `ConnectSpec`, and the outer request is never looked up. At most one request is looked up, the inner one, and it carries no TLS state. |
| HandlerProperties.PlainCacheFailureIs500 | pkg/proxycore/handlers/handlers.go:29-35 | End to end: a failed cache call gives one 500 reply and no body bytes. |
| HandlerProperties.PlainHitWritesOnlyTheFile | pkg/proxycore/handlers/handlers.go:36-61 | End to end: a hit's whole effect is one write of the stored file, with the header map, directory and waiting state unchanged. |
| HandlerProperties.PlainMissRelaysOrigin | pkg/proxycore/handlers/handlers.go:39-61 | End to end: after a miss the origin status, with every value of every origin header, is committed before the body. The body is exactly the fetched bytes, which are also stored. |
| HandlerProperties.PlainPathRelaysOriginStatus | pkg/proxycore/handlers/handlers.go:40-47 | On the plain path two different origin statuses give two different traces. |
| HandlerProperties.DialFailureIs500 | pkg/proxycore/handlers/handlers.go:67-71 | A failed dial gives one 500 "Failed to connect to destination", with no raw bytes and no cache call. |
| HandlerProperties.AcknowledgmentFirst | pkg/proxycore/handlers/handlers.go:74-92 | Once dial, hijack and the acknowledgment succeed, the reply starts with the acknowledgment. |
| HandlerProperties.AcknowledgmentIsTheOnlyRawWrite | pkg/proxycore/handlers/handlers.go:74-92 | Once dial, hijack and the acknowledgment succeed, the first write is `HTTP/1.1 200 Connection Established\r\n\r\n` and it is the only thing written on the raw connection. |
| HandlerProperties.CertificateHostBeforeFirstColon | pkg/proxycore/handlers/handlers.go:95 | The certificate host is the target up to its first `:`. |
| HandlerProperties.CertificateHostWithoutPort | pkg/proxycore/handlers/handlers.go:95 | The certificate host is the whole target when it has no `:`. |
| HandlerProperties.HijackFailureIs500 | pkg/proxycore/handlers/handlers.go:74-84 | A writer that cannot be hijacked, or a failed hijack, gives one 500 reply with that step's text. No raw bytes are written and there is no cache call. |
| HandlerProperties.AckFailureWritesNothing | pkg/proxycore/handlers/handlers.go:87-92 | A failed acknowledgment write leaves nothing written, the directory unchanged and no cache call. |
| HandlerProperties.CertOrHandshakeFailureStops | pkg/proxycore/handlers/handlers.go:97-115 | A failed certificate or handshake leaves the acknowledgment as the only write, with no TLS byte and no cache call. |
| HandlerProperties.ConnectLooksUpOnlyThroughOpenTunnel | pkg/proxycore/handlers/handlers.go:66-148 | A CONNECT hands a request to the cache only when dial, hijack, acknowledgment, certificate, handshake and reading the inner request all succeed. |
| HandlerProperties.TunnelStatusWriteFails | pkg/proxycore/handlers/handlers.go:161-165 | If the status line cannot be written, nothing is written into the tunnel. |
| HandlerProperties.TunnelHeaderWriteFails | pkg/proxycore/handlers/handlers.go:167-171 | If the Content-Type block cannot be written after a successful cache call, the status line is the only write and no file byte follows. |
| HandlerProperties.TunnelEffect | pkg/proxycore/handlers/handlers.go:117-121 | An opened tunnel's effect is the acknowledgment followed by the inner reply. |
| HandlerProperties.TunnelReplyIgnoresResponse | pkg/proxycore/handlers/handlers.go:148 | The inner reply does not depend on the origin response that the cache returns. |
| HandlerProperties.TunnelReplyCacheFailure | pkg/proxycore/handlers/handlers.go:148-152 | A cache error inside the tunnel writes nothing. |
| HandlerProperties.TunnelHeadBytes | pkg/proxycore/handlers/handlers.go:161-167 | The two header writes together are the bytes of `HTTP/1.1 200 OK\r\n` + `Content-Type: ` + type + `\r\n\r\n`. |
| HandlerProperties.TunnelReplyBytes | pkg/proxycore/handlers/handlers.go:157-180 | A served inner request gets the status line, the Content-Type block for its URL, and the whole cached file, as one byte stream. |
| HandlerProperties.TunnelServesCachedBytes | pkg/proxycore/handlers/handlers.go:142-180 | End to end the TLS plaintext is that byte stream, built from the directory the cache call leaves. |
| HandlerProperties.TunnelCacheFailureWritesNothing | pkg/proxycore/handlers/handlers.go:148-152 | End to end, with a failing cache call the acknowledgment is the only write. |
| HandlerProperties.TunnelDiscardsOriginMetadata | pkg/proxycore/handlers/handlers.go:148 | Changing the origin's status and headers changes neither the tunnel's trace nor the directory. |

## Left out

- `pkg/proxycore/generator/generator.go` is not part of this model. It covers certificate templates, key generation, serials, validity times and PEM parsing. Certificate generation is the oracle `HandlerIo.certIssued(host)`.
- `hashing/hashing.go` is not part of this model. SHA-1 is the parameter `sha1`, and only its output format (40 lower-case hex digits) is assumed.
- `cmd/pkgproxyd/main.go` (the listener, TLS server and directory setup) is not part of this model.
- Concurrency is not modelled. The race between the lock check and the lock creation, and other processes changing the directory while a call sleeps, are outside a sequential model. Nothing here claims mutual exclusion between callers.
- The goroutine and `WaitGroup` in `HandleAndForwardHTTPRequest` run to completion as one sequential call. Closing the client and destination connections is not modelled, and the dialed destination connection is never used by the source.
- The one-second `Sleep` polling loop is the outcome `Waiting(path)`. It is reported while the lock file exists, changes nothing, and makes the handler write nothing. Waking up after another process has removed the lock is a later, separate call.
- `os.Stat` errors other than "does not exist" are not modelled. They matter for the lock poll (which keeps waiting) and for the hit test (which falls through to creating the file). `os.Remove` failing on the lock is not modelled either: removal always succeeds.
- Directories are not modelled in the file map. A cache path that names `/src/packages` or `/src` itself (a pinned URL whose base name is `.` or `..`) is treated like a missing file, while the source's `os.Stat` would see a directory and report a hit.
- `os.Open` or `Seek` failing after a successful `GetCachedUrl` is not modelled. Sequentially the file is there, so the second 500 branch of `ProxyHandler` is unreachable in the model.
- `io.Copy` to the client always delivers the whole file, and a failed write on the hijacked or TLS connection delivers nothing. Partial writes to the client are not modelled.
- Log output (`log.Printf`) has no observable effect and is left out.
- Header keys are taken as already canonical, so `Header.Add` and `Header.Get` do no key canonicalization.
- `http.Error` is one trace entry, `ErrorReply(status, text)`. That entry stands for the 500 status and the text body the source commits. The model leaves the header map unchanged where Go's `http.Error` deletes `Content-Length` and sets `Content-Type` and `X-Content-Type-Options` (`Connection.Error`, `ServeReply`, `ConnectSpec`).
- Go strings are byte strings, and the model uses `seq<char>`. Nothing observable is lost: every needle and separator the core tests (`.rpm`, `.whl`, `pypi.org/simple`, `:`, `/`) is ASCII, and `sha1` is an uninterpreted parameter.
- Caching.JoinCacheDir: only the single slash-free names that the cache-path rule can produce are modelled, not general `filepath.Join` cleaning.
- Caching.CachePath: requires the URL to contain a non-slash character. `FullURL` always satisfies this because of its `://`.
- Handlers.Connection.WriteHeader: records the status as given. Go's checks on invalid or repeated status codes are not modelled.
