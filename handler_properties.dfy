/** What the handlers promise, stated first over the reply a handler builds
    from a given cache outcome, then end to end over the effect functions
    that the handler methods are proved to follow. */
module HandlerProperties {

  import opened Wrappers
  import opened GoStrings
  import opened HttpModel
  import opened Caching
  import opened Handlers

  // ---------------------------------------------------------------------
  // Replies for a given cache outcome
  // ---------------------------------------------------------------------

  /** On the plain path a failed cache call answers 500 and sends no body
      and no status of its own. */
  lemma ServeReplyFailureIs500(header: Header, r: Request, outcome: (Resolution, FileMap))
    requires outcome.0.Returned? && outcome.0.err.Some?
    ensures var e := ServeReply(header, r, outcome);
      && e.wire == [ErrorReply(500, "Internal Server Error")]
      && e.header == header
      && forall i | 0 <= i < |e.wire| :: !e.wire[i].Body? && !e.wire[i].Head?
  {
  }

  /** A hit sets no header and no status: the one write is the whole file. */
  lemma ServeReplyHit(header: Header, r: Request, outcome: (Resolution, FileMap))
    requires outcome.0.Returned? && outcome.0.err.None? && outcome.0.resp.None? && outcome.0.path in outcome.1
    ensures var e := ServeReply(header, r, outcome);
      && e.wire == [Body(outcome.1[outcome.0.path])]
      && e.header == header
      && forall i | 0 <= i < |e.wire| :: !e.wire[i].Head?
  {
  }

  /** After a miss every value of every origin header is added to the
      writer's map, the origin status is committed with that map, and only
      then is the whole file written. */
  lemma ServeReplyMiss(header: Header, r: Request, outcome: (Resolution, FileMap))
    requires outcome.0.Returned? && outcome.0.err.None? && outcome.0.resp.Some? && outcome.0.path in outcome.1
    ensures var e := ServeReply(header, r, outcome);
      var meta := outcome.0.resp.value;
      && e.wire == [Head(meta.status, e.header), Body(outcome.1[outcome.0.path])]
      && (forall k :: Values(e.header, k) == Values(header, k) + Values(meta.header, k))
      && (forall k :: k in e.header <==> k in header || Values(meta.header, k) != [])
  {
  }

  /** The tunnel's inner reply never looks at the origin response. */
  lemma TunnelReplyIgnoresResponse(header: Header, req: Request, res: Resolution, resp: Option<ResponseMeta>,
                                   after: FileMap, io: HandlerIo)
    requires res.Returned? && Served((res, after))
    ensures TunnelReply(header, req, (res, after), io) == TunnelReply(header, req, (res.(resp := resp), after), io)
  {
  }

  /** The TLS plaintext of a trace, one write at a time. */
  lemma TlsBytesOfCons(w: Wire, rest: seq<Wire>)
    ensures TlsBytes([w] + rest) == (if w.Tls? then w.data else []) + TlsBytes(rest)
  {
    assert ([w] + rest)[1..] == rest;
  }

  /** The raw-connection bytes of a trace, one write at a time. */
  lemma RawBytesOfCons(w: Wire, rest: seq<Wire>)
    ensures RawBytes([w] + rest) == (if w.Raw? then w.data else []) + RawBytes(rest)
  {
    assert ([w] + rest)[1..] == rest;
  }

  /** A trace with no raw write puts nothing on the hijacked connection. */
  lemma {:induction false} RawBytesOfNoRaw(wire: seq<Wire>)
    requires forall i | 0 <= i < |wire| :: !wire[i].Raw?
    ensures RawBytes(wire) == []
  {
    if wire != [] {
      RawBytesOfNoRaw(wire[1..]);
    }
  }

  /** A trace with no TLS write puts nothing into the TLS session. */
  lemma {:induction false} TlsBytesOfNoTls(wire: seq<Wire>)
    requires forall i | 0 <= i < |wire| :: !wire[i].Tls?
    ensures TlsBytes(wire) == []
  {
    if wire != [] {
      TlsBytesOfNoTls(wire[1..]);
    }
  }

  /** The fixed part of the synthesized tunnel reply, as bytes: the status
      line, the Content-Type header and the blank line. */
  lemma TunnelHeadBytes(ct: string)
    requires IsAscii(ct)
    ensures StatusLineOKBytes + ContentTypeBlockBytes(ct) ==
              Ascii("HTTP/1.1 200 OK\r\n" + "Content-Type: " + ct + "\r\n\r\n")
  {
    AsciiAppend(StatusLineOK, ContentTypeBlock(ct));
    assert "HTTP/1.1 200 OK\r\n" + "Content-Type: " + ct + "\r\n\r\n" == StatusLineOK + ContentTypeBlock(ct);
  }

  /** A served inner request is answered, byte for byte, with the fixed
      status line, a Content-Type chosen from the inner URL, a blank line and
      the cached file. */
  lemma TunnelReplyBytes(header: Header, req: Request, outcome: (Resolution, FileMap), io: HandlerIo)
    requires outcome.0.Returned? && outcome.0.err.None? && outcome.0.path in outcome.1
    requires io.statusSent && io.headerSent
    ensures var ct := URLToContentType(FullURL(req));
      TlsBytes(TunnelReply(header, req, outcome, io).wire) ==
        StatusLineOKBytes + ContentTypeBlockBytes(ct) + outcome.1[outcome.0.path]
  {
    var ct := URLToContentType(FullURL(req));
    var content := outcome.1[outcome.0.path];
    var w := [Tls(StatusLineOKBytes), Tls(ContentTypeBlockBytes(ct)), Tls(content)];
    assert TunnelReply(header, req, outcome, io).wire == w;
    assert w == [w[0]] + ([w[1]] + ([w[2]] + []));
    TlsBytesOfCons(w[0], [w[1]] + ([w[2]] + []));
    TlsBytesOfCons(w[1], [w[2]] + []);
    TlsBytesOfCons(w[2], []);
  }

  /** A failed cache call inside the tunnel writes nothing into it. */
  lemma TunnelReplyCacheFailure(header: Header, req: Request, outcome: (Resolution, FileMap), io: HandlerIo)
    requires outcome.0.Returned? && outcome.0.err.Some?
    ensures TunnelReply(header, req, outcome, io).wire == []
  {
  }

  // ---------------------------------------------------------------------
  // End to end
  // ---------------------------------------------------------------------

  /** A plain request's effect is the reply to its cache outcome. */
  lemma PlainEffect(header: Header, files: FileMap, r: Request, io: HandlerIo, sha1: string -> HexDigest)
    requires r.verb != "CONNECT"
    ensures ProxySpec(header, files, r, io, sha1) ==
              ServeReply(header, r, ResolveAt(files, CachePath(FullURL(r), sha1), io.cache))
  {
  }

  /** A CONNECT request is never looked up in the cache itself: at most one
      request reaches the cache, the one read from inside the tunnel, and it
      is seen as a plain (non-TLS) request. */
  lemma ConnectLooksUpOnlyTheInnerRequest(header: Header, files: FileMap, r: Request, io: HandlerIo,
                                          sha1: string -> HexDigest)
    requires r.verb == "CONNECT"
    ensures var e := ProxySpec(header, files, r, io, sha1);
      && e == ConnectSpec(header, files, r, io, sha1)
      && (e.lookups == [] || (io.inner.Some? && e.lookups == [TunnelRequest(io.inner.value)]))
      && forall i | 0 <= i < |e.lookups| :: !e.lookups[i].tls
  {
  }

  /** On the plain path a failed cache call answers 500 and sends no body. */
  lemma PlainCacheFailureIs500(header: Header, files: FileMap, r: Request, io: HandlerIo, sha1: string -> HexDigest)
    requires r.verb != "CONNECT"
    requires var res := Resolve(files, r, io.cache, sha1).0; res.Returned? && res.err.Some?
    ensures var e := ProxySpec(header, files, r, io, sha1);
      && e.wire == [ErrorReply(500, "Internal Server Error")]
      && forall i | 0 <= i < |e.wire| :: !e.wire[i].Body?
  {
    ServeReplyFailureIs500(header, r, Resolve(files, r, io.cache, sha1));
  }

  /** A cache hit on the plain path writes the stored file and nothing else,
      sets no header and leaves the directory alone. */
  lemma PlainHitWritesOnlyTheFile(header: Header, files: FileMap, r: Request, io: HandlerIo, sha1: string -> HexDigest)
    requires r.verb != "CONNECT"
    requires var path := CachePath(FullURL(r), sha1); LockPath(path) !in files && path in files
    ensures ProxySpec(header, files, r, io, sha1) ==
              Effect([Body(files[CachePath(FullURL(r), sha1)])], header, files, [r], false)
  {
    var path := CachePath(FullURL(r), sha1);
    HitChangesNothing(files, path, io.cache);
    PlainEffect(header, files, r, io, sha1);
  }

  /** A miss on the plain path relays the origin's status and every header
      value before the body, and the body is exactly what the origin sent. */
  lemma PlainMissRelaysOrigin(header: Header, files: FileMap, r: Request, status: int, originHeader: Header,
                              body: Bytes, io: HandlerIo, sha1: string -> HexDigest)
    requires r.verb != "CONNECT"
    requires var path := CachePath(FullURL(r), sha1); LockPath(path) !in files && path !in files
    requires io.cache == CacheIo(true, Fetched(status, originHeader, body), true, Copied)
    ensures var e := ProxySpec(header, files, r, io, sha1);
      && e.wire == [Head(status, e.header), Body(body)]
      && (forall k :: Values(e.header, k) == Values(header, k) + Values(originHeader, k))
      && e.files == files[CachePath(FullURL(r), sha1) := body]
  {
    MissStoresTheBody(files, CachePath(FullURL(r), sha1), status, originHeader, body);
    ServeReplyMiss(header, r, Resolve(files, r, io.cache, sha1));
  }

  /** A failed dial answers 500 before any hijack: nothing reaches the raw
      connection and the cache is not consulted. */
  lemma DialFailureIs500(header: Header, files: FileMap, r: Request, io: HandlerIo, sha1: string -> HexDigest)
    requires r.verb == "CONNECT" && !io.dials(r.targetHost)
    ensures var e := ProxySpec(header, files, r, io, sha1);
      && e.wire == [ErrorReply(500, "Failed to connect to destination")]
      && RawBytes(e.wire) == [] && e.files == files && e.lookups == []
  {
    RawBytesOfNoRaw([ErrorReply(500, "Failed to connect to destination")]);
  }

  /** A writer that cannot be hijacked, or a hijack that fails, answers 500
      through the response writer: nothing reaches a raw connection and the
      cache is not consulted. */
  lemma HijackFailureIs500(header: Header, files: FileMap, r: Request, io: HandlerIo, sha1: string -> HexDigest)
    requires r.verb == "CONNECT" && io.dials(r.targetHost) && (!io.hijackable || !io.hijacks)
    ensures var e := ProxySpec(header, files, r, io, sha1);
      && e.wire == [ErrorReply(500, if !io.hijackable then "HTTP Hijacking not supported"
                                    else "Failed to hijack connection")]
      && RawBytes(e.wire) == [] && e.files == files && e.lookups == []
  {
    RawBytesOfNoRaw(ProxySpec(header, files, r, io, sha1).wire);
  }

  /** When the acknowledgment cannot be written the handler returns at once:
      nothing is written anywhere and the cache is not consulted. */
  lemma AckFailureWritesNothing(header: Header, files: FileMap, r: Request, io: HandlerIo, sha1: string -> HexDigest)
    requires r.verb == "CONNECT" && io.dials(r.targetHost) && io.hijackable && io.hijacks && !io.ackSent
    ensures var e := ProxySpec(header, files, r, io, sha1);
      e.wire == [] && e.files == files && e.lookups == []
  {
  }

  /** Once the acknowledgment is sent it is the first write of the CONNECT reply. */
  lemma AcknowledgmentFirst(header: Header, files: FileMap, r: Request, io: HandlerIo, sha1: string -> HexDigest)
    requires io.dials(r.targetHost) && io.hijackable && io.hijacks && io.ackSent
    ensures var e := ConnectSpec(header, files, r, io, sha1);
      e.wire != [] && e.wire[0] == Raw(ConnectionEstablishedBytes)
  {
    if io.certIssued(BeforeFirst(r.targetHost, ':')) && io.handshakes {
      var f := ForwardSpec(header, files, io, sha1);
      assert ConnectSpec(header, files, r, io, sha1).wire == [Raw(ConnectionEstablishedBytes)] + f.wire;
    }
  }

  /** Once dial, hijack and the acknowledgment write succeed, the first write
      is the acknowledgment and it is all that goes out on the raw
      connection; everything after it is inside the TLS session. */
  lemma AcknowledgmentIsTheOnlyRawWrite(header: Header, files: FileMap, r: Request, io: HandlerIo,
                                        sha1: string -> HexDigest)
    requires r.verb == "CONNECT" && io.dials(r.targetHost) && io.hijackable && io.hijacks && io.ackSent
    ensures var e := ProxySpec(header, files, r, io, sha1);
      && e.wire != [] && e.wire[0] == Raw(ConnectionEstablishedBytes)
      && RawBytes(e.wire) == ConnectionEstablishedBytes
  {
    var e := ProxySpec(header, files, r, io, sha1);
    AcknowledgmentFirst(header, files, r, io, sha1);
    assert e == ConnectSpec(header, files, r, io, sha1);
    var rest := e.wire[1..];
    assert e.wire == [Raw(ConnectionEstablishedBytes)] + rest;
    assert forall i | 0 <= i < |rest| :: rest[i] == e.wire[i + 1];
    RawBytesOfCons(Raw(ConnectionEstablishedBytes), rest);
    RawBytesOfNoRaw(rest);
  }

  /** With no colon in the target, the certificate is for the whole target. */
  lemma CertificateHostWithoutPort(target: string)
    requires ':' !in target
    ensures BeforeFirst(target, ':') == target
  {
  }

  /** With a colon, the certificate is for the text before the first one. */
  lemma CertificateHostBeforeFirstColon(target: string, i: nat)
    requires i < |target| && target[i] == ':' && ':' !in target[..i]
    ensures BeforeFirst(target, ':') == target[..i]
  {
  }

  /** A failed certificate or handshake ends the connection right after the
      acknowledgment: no TLS byte and no cache call. */
  lemma CertOrHandshakeFailureStops(header: Header, files: FileMap, r: Request, io: HandlerIo,
                                    sha1: string -> HexDigest)
    requires r.verb == "CONNECT" && io.dials(r.targetHost) && io.hijackable && io.hijacks && io.ackSent
    requires !io.certIssued(BeforeFirst(r.targetHost, ':')) || !io.handshakes
    ensures var e := ProxySpec(header, files, r, io, sha1);
      && e.wire == [Raw(ConnectionEstablishedBytes)]
      && TlsBytes(e.wire) == [] && e.files == files && e.lookups == []
  {
    TlsBytesOfNoTls([Raw(ConnectionEstablishedBytes)]);
  }

  /** Every step of the tunnel up to reading the inner request works. */
  predicate TunnelOpens(r: Request, io: HandlerIo)
  {
    && r.verb == "CONNECT" && io.dials(r.targetHost) && io.hijackable && io.hijacks && io.ackSent
    && io.certIssued(BeforeFirst(r.targetHost, ':')) && io.handshakes && io.inner.Some?
  }

  /** A CONNECT reaches the cache only once every step before the tunnel has
      succeeded: dial, hijack, acknowledgment, certificate, handshake and
      reading the inner request. */
  lemma ConnectLooksUpOnlyThroughOpenTunnel(header: Header, files: FileMap, r: Request, io: HandlerIo,
                                            sha1: string -> HexDigest)
    requires r.verb == "CONNECT"
    ensures ProxySpec(header, files, r, io, sha1).lookups != [] ==> TunnelOpens(r, io)
  {
  }

  /** When the status line cannot be written into the tunnel nothing is
      written there at all. */
  lemma TunnelStatusWriteFails(header: Header, files: FileMap, io: HandlerIo, sha1: string -> HexDigest)
    requires !io.statusSent
    ensures ForwardSpec(header, files, io, sha1).wire == []
  {
  }

  /** When the status line goes through but the Content-Type block does not,
      the status line is the only write and no file byte follows. */
  lemma TunnelHeaderWriteFails(header: Header, files: FileMap, io: HandlerIo, sha1: string -> HexDigest)
    requires io.inner.Some? && io.statusSent && !io.headerSent
    requires var res := Resolve(files, TunnelRequest(io.inner.value), io.cache, sha1).0;
      res.Returned? && res.err.None?
    ensures ForwardSpec(header, files, io, sha1).wire == [Tls(StatusLineOKBytes)]
  {
  }

  /** An opened tunnel's effect is the acknowledgment followed by the inner
      reply to the inner request's cache outcome. */
  lemma TunnelEffect(header: Header, files: FileMap, r: Request, io: HandlerIo, sha1: string -> HexDigest)
    requires TunnelOpens(r, io)
    ensures var req := TunnelRequest(io.inner.value);
      var inner := TunnelReply(header, req, Resolve(files, req, io.cache, sha1), io);
      ProxySpec(header, files, r, io, sha1) == inner.(wire := [Raw(ConnectionEstablishedBytes)] + inner.wire)
  {
  }

  /** The TLS plaintext of a served tunnel request, end to end. */
  lemma TunnelServesCachedBytes(header: Header, files: FileMap, r: Request, io: HandlerIo, sha1: string -> HexDigest)
    requires TunnelOpens(r, io) && io.statusSent && io.headerSent
    requires var res := Resolve(files, TunnelRequest(io.inner.value), io.cache, sha1).0;
      res.Returned? && res.err.None?
    ensures var e := ProxySpec(header, files, r, io, sha1);
      var req := TunnelRequest(io.inner.value);
      var outcome := Resolve(files, req, io.cache, sha1);
      && outcome.0.path in outcome.1 && e.files == outcome.1
      && TlsBytes(e.wire) == StatusLineOKBytes + ContentTypeBlockBytes(URLToContentType(FullURL(req)))
                             + outcome.1[CachePath(FullURL(req), sha1)]
  {
    var req := TunnelRequest(io.inner.value);
    var outcome := Resolve(files, req, io.cache, sha1);
    var inner := TunnelReply(header, req, outcome, io);
    var e := ProxySpec(header, files, r, io, sha1);
    TunnelEffect(header, files, r, io, sha1);
    assert e.wire == [Raw(ConnectionEstablishedBytes)] + inner.wire && e.files == outcome.1;
    TunnelReplyBytes(header, req, outcome, io);
    TlsBytesOfCons(Raw(ConnectionEstablishedBytes), inner.wire);
    assert TlsBytes(e.wire) == TlsBytes(inner.wire);
    assert outcome.0.path == CachePath(FullURL(req), sha1);
  }

  /** A failed cache call inside an opened tunnel leaves the acknowledgment
      as the only write: nothing goes into the TLS session. */
  lemma TunnelCacheFailureWritesNothing(header: Header, files: FileMap, r: Request, io: HandlerIo,
                                        sha1: string -> HexDigest)
    requires TunnelOpens(r, io)
    requires var res := Resolve(files, TunnelRequest(io.inner.value), io.cache, sha1).0;
      res.Returned? && res.err.Some?
    ensures var e := ProxySpec(header, files, r, io, sha1);
      e.wire == [Raw(ConnectionEstablishedBytes)]
  {
    var req := TunnelRequest(io.inner.value);
    var outcome := Resolve(files, req, io.cache, sha1);
    TunnelEffect(header, files, r, io, sha1);
    TunnelReplyCacheFailure(header, req, outcome, io);
    assert ProxySpec(header, files, r, io, sha1).wire == [Raw(ConnectionEstablishedBytes)] + [];
  }

  /** The tunnel discards the origin's status and headers: two fetches that
      differ only in those leave the same writes and the same directory. */
  lemma TunnelDiscardsOriginMetadata(header: Header, files: FileMap, r: Request, io: HandlerIo,
                                     status: int, originHeader: Header, sha1: string -> HexDigest)
    requires TunnelOpens(r, io) && io.cache.fetch.Fetched?
    ensures var other := io.(cache := io.cache.(fetch := Fetched(status, originHeader, io.cache.fetch.body)));
      var e1 := ProxySpec(header, files, r, io, sha1);
      var e2 := ProxySpec(header, files, r, other, sha1);
      e1.wire == e2.wire && e1.files == e2.files
  {
    var other := io.(cache := io.cache.(fetch := Fetched(status, originHeader, io.cache.fetch.body)));
    var req := TunnelRequest(io.inner.value);
    var o1 := Resolve(files, req, io.cache, sha1);
    var o2 := Resolve(files, req, other.cache, sha1);
    OriginMetadataOnlyInResponse(files, CachePath(FullURL(req), sha1), io.cache, status, originHeader);
    TunnelEffect(header, files, r, io, sha1);
    TunnelEffect(header, files, r, other, sha1);
    if o1.0.Returned? {
      TunnelReplyIgnoresResponse(header, req, o1.0, o2.0.resp, o1.1, io);
      assert TunnelReply(header, req, o2, other) == TunnelReply(header, req, o2, io);
    } else {
      assert TunnelReply(header, req, o2, other) == TunnelReply(header, req, o1, io);
    }
  }

  /** The plain path, by contrast, does relay them: on a miss, a different
      origin status reaches the client. */
  lemma PlainPathRelaysOriginStatus(header: Header, files: FileMap, r: Request, originHeader: Header, body: Bytes,
                                    s1: int, s2: int, sha1: string -> HexDigest)
    requires r.verb != "CONNECT" && s1 != s2
    requires var path := CachePath(FullURL(r), sha1); LockPath(path) !in files && path !in files
    ensures forall io1: HandlerIo, io2: HandlerIo |
              io1.cache == CacheIo(true, Fetched(s1, originHeader, body), true, Copied) &&
              io2.cache == CacheIo(true, Fetched(s2, originHeader, body), true, Copied) ::
              ProxySpec(header, files, r, io1, sha1).wire != ProxySpec(header, files, r, io2, sha1).wire
  {
    forall io1: HandlerIo, io2: HandlerIo |
      io1.cache == CacheIo(true, Fetched(s1, originHeader, body), true, Copied) &&
      io2.cache == CacheIo(true, Fetched(s2, originHeader, body), true, Copied)
      ensures ProxySpec(header, files, r, io1, sha1).wire != ProxySpec(header, files, r, io2, sha1).wire
    {
      PlainMissRelaysOrigin(header, files, r, s1, originHeader, body, io1, sha1);
      PlainMissRelaysOrigin(header, files, r, s2, originHeader, body, io2, sha1);
    }
  }
}
