/** The request handlers: ProxyHandler serves plain requests from the cache
    and relays the origin's headers; a CONNECT is acknowledged on the raw
    connection, terminated with a minted certificate, and its one inner
    request is answered from the cache with a synthesized response.

    Every fallible step outside the model (dial, hijack, certificate
    generation, handshake, http.ReadRequest, the writes on the hijacked
    connection) is an oracle in HandlerIo; what reaches the client is the
    trace Connection.wire. */
module Handlers {

  import opened Wrappers
  import opened GoStrings
  import opened HttpModel
  import opened Caching

  const StatusInternalServerError := 500

  const ConnectionEstablished := "HTTP/1.1 200 Connection Established\r\n\r\n"
  const StatusLineOK := "HTTP/1.1 200 OK\r\n"

  /** The header block of the synthesized tunnel response. */
  function ContentTypeBlock(contentType: string): string
  {
    "Content-Type: " + contentType + "\r\n\r\n"
  }

  /** The fixed replies as the bytes that go on the wire. */
  const ConnectionEstablishedBytes: Bytes := Ascii(ConnectionEstablished)
  const StatusLineOKBytes: Bytes := Ascii(StatusLineOK)

  function ContentTypeBlockBytes(contentType: string): Bytes
    requires IsAscii(contentType)
  {
    Ascii(ContentTypeBlock(contentType))
  }

  /** One write toward the client, in the order it happens. */
  datatype Wire =
    | Head(status: int, header: Header)     // w.WriteHeader: the status and the header map it commits
    | Body(data: Bytes)                     // w.Write: body bytes (with Go's implicit 200 if no Head came first)
    | ErrorReply(status: int, text: string) // http.Error(w, text, status)
    | Raw(data: Bytes)                      // a write on the hijacked connection
    | Tls(data: Bytes)                      // a write into the TLS session over that connection

  /** The bytes written on the hijacked connection, in order. */
  function RawBytes(wire: seq<Wire>): Bytes
  {
    if wire == [] then [] else (if wire[0].Raw? then wire[0].data else []) + RawBytes(wire[1..])
  }

  /** The plaintext written into the TLS session, in order. */
  function TlsBytes(wire: seq<Wire>): Bytes
  {
    if wire == [] then [] else (if wire[0].Tls? then wire[0].data else []) + TlsBytes(wire[1..])
  }

  /** The client side of one inbound connection: the response writer's
      pending header map (w.Header()) and everything written toward the
      client, whichever layer wrote it. */
  class Connection {
    var header: Header
    var wire: seq<Wire>

    constructor ()
      ensures header == map[] && wire == []
    {
      header := map[];
      wire := [];
    }

    /** w.Header().Add(key, value). */
    method AddHeader(key: string, value: string)
      modifies this
      ensures header == AddValue(old(header), key, value) && wire == old(wire)
    {
      header := AddValue(header, key, value);
    }

    /** w.WriteHeader(status): the status line goes out with the headers set so far. */
    method WriteHeader(status: int)
      modifies this
      ensures header == old(header) && wire == old(wire) + [Head(status, header)]
    {
      wire := wire + [Head(status, header)];
    }

    /** w.Write(data). */
    method Write(data: Bytes)
      modifies this
      ensures header == old(header) && wire == old(wire) + [Body(data)]
    {
      wire := wire + [Body(data)];
    }

    /** http.Error(w, text, status). */
    method Error(text: string, status: int)
      modifies this
      ensures header == old(header) && wire == old(wire) + [ErrorReply(status, text)]
    {
      wire := wire + [ErrorReply(status, text)];
    }

    /** clientConn.Write(data) on the hijacked connection. */
    method WriteRaw(data: Bytes)
      modifies this
      ensures header == old(header) && wire == old(wire) + [Raw(data)]
    {
      wire := wire + [Raw(data)];
    }

    /** tlsConn.Write(data). */
    method WriteTls(data: Bytes)
      modifies this
      ensures header == old(header) && wire == old(wire) + [Tls(data)]
    {
      wire := wire + [Tls(data)];
    }
  }

  /** The outcomes of the steps the model does not look inside: whether
      net.Dial reaches an address, whether the writer can be hijacked and the
      hijack works, whether the acknowledgment write goes through, whether a
      certificate can be made for a host name, whether the handshake
      completes, what http.ReadRequest parses, whether the status-line and
      header writes into the TLS session go through, and how the one cache
      call of the request goes. */
  datatype HandlerIo = HandlerIo(
    dials: string -> bool,
    hijackable: bool,
    hijacks: bool,
    ackSent: bool,
    certIssued: string -> bool,
    handshakes: bool,
    inner: Option<Request>,
    statusSent: bool,
    headerSent: bool,
    cache: CacheIo)

  /** What one handler call does: the writes it appends, the header map and
      cache directory it leaves, the requests it hands to the cache, and
      whether it is still parked in the cache's lock wait. */
  datatype Effect = Effect(wire: seq<Wire>, header: Header, files: FileMap, lookups: seq<Request>, waiting: bool)

  /** http.ReadRequest never sets the TLS field of what it parses, so the
      inner request of a tunnel looks like a plain one to GetFullURL. */
  function TunnelRequest(parsed: Request): (req: Request)
    ensures !req.tls && req.(tls := parsed.tls) == parsed
  {
    parsed.(tls := false)
  }

  /** What GetCachedUrl promises on success: the returned path names a file. */
  predicate Served(outcome: (Resolution, FileMap))
  {
    outcome.0.Returned? && outcome.0.err.None? ==> outcome.0.path in outcome.1
  }

  /** The answer to the inner request of a tunnel once the cache has given
      its outcome: nothing on a cache error, otherwise the status line, the
      Content-Type block and the file, stopping at the first failed write. */
  function TunnelReply(header: Header, req: Request, outcome: (Resolution, FileMap), io: HandlerIo): (e: Effect)
    requires Served(outcome)
    ensures e.header == header && e.files == outcome.1 && e.lookups == [req]
    ensures e.waiting <==> outcome.0.Waiting?
    ensures forall i | 0 <= i < |e.wire| :: e.wire[i].Tls?
    ensures e.wire != [] ==> e.wire[0] == Tls(StatusLineOKBytes)
  {
    var res := outcome.0;
    var after := outcome.1;
    if res.Waiting? then Effect([], header, after, [req], true)
    else if res.err.Some? || !io.statusSent then Effect([], header, after, [req], false)
    else if !io.headerSent then Effect([Tls(StatusLineOKBytes)], header, after, [req], false)
    else
      var ct := URLToContentType(FullURL(req));
      Effect([Tls(StatusLineOKBytes), Tls(ContentTypeBlockBytes(ct)), Tls(after[res.path])],
             header, after, [req], false)
  }

  /** HandleAndForwardHTTPRequest, with its goroutine run to completion. */
  function ForwardSpec(header: Header, files: FileMap, io: HandlerIo, sha1: string -> HexDigest): (e: Effect)
    ensures e.header == header
    ensures io.inner.None? ==> e.wire == [] && e.files == files && e.lookups == []
    ensures io.inner.Some? ==> e.lookups == [TunnelRequest(io.inner.value)]
    ensures forall i | 0 <= i < |e.wire| :: e.wire[i].Tls?
  {
    match io.inner
    case None => Effect([], header, files, [], false)
    case Some(parsed) =>
      var req := TunnelRequest(parsed);
      TunnelReply(header, req, Resolve(files, req, io.cache, sha1), io)
  }

  /** HandleConnectRequest. */
  function ConnectSpec(header: Header, files: FileMap, r: Request, io: HandlerIo, sha1: string -> HexDigest): (e: Effect)
    ensures e.header == header
    ensures e.lookups == [] ==> e.files == files
    ensures forall i | 0 <= i < |e.wire| ::
      && !e.wire[i].Head? && !e.wire[i].Body?
      && (e.wire[i].Raw? ==> i == 0 && e.wire[i] == Raw(ConnectionEstablishedBytes))
  {
    if !io.dials(r.targetHost) then
      Effect([ErrorReply(StatusInternalServerError, "Failed to connect to destination")], header, files, [], false)
    else if !io.hijackable then
      Effect([ErrorReply(StatusInternalServerError, "HTTP Hijacking not supported")], header, files, [], false)
    else if !io.hijacks then
      Effect([ErrorReply(StatusInternalServerError, "Failed to hijack connection")], header, files, [], false)
    else if !io.ackSent then
      Effect([], header, files, [], false)
    else if !io.certIssued(BeforeFirst(r.targetHost, ':')) || !io.handshakes then
      Effect([Raw(ConnectionEstablishedBytes)], header, files, [], false)
    else
      AfterAcknowledgment(ForwardSpec(header, files, io, sha1))
  }

  /** An opened tunnel: the acknowledgment on the raw connection, then
      whatever the TLS session carries. */
  function AfterAcknowledgment(f: Effect): (e: Effect)
    requires forall i | 0 <= i < |f.wire| :: f.wire[i].Tls?
    ensures e.wire == [Raw(ConnectionEstablishedBytes)] + f.wire && e.(wire := f.wire) == f
    ensures forall i | 0 <= i < |e.wire| ::
      && !e.wire[i].Head? && !e.wire[i].Body?
      && (e.wire[i].Raw? ==> i == 0 && e.wire[i] == Raw(ConnectionEstablishedBytes))
  {
    var wire := [Raw(ConnectionEstablishedBytes)] + f.wire;
    assert forall i | 0 < i < |wire| :: wire[i] == f.wire[i - 1];
    f.(wire := wire)
  }

  /** The answer to a plain request once the cache has given its outcome:
      500 on error; after a miss, the origin's headers and status, then the
      file; after a hit, the file alone. */
  function ServeReply(header: Header, r: Request, outcome: (Resolution, FileMap)): (e: Effect)
    requires Served(outcome)
    ensures e.files == outcome.1 && e.lookups == [r]
    ensures e.waiting <==> outcome.0.Waiting?
    ensures e.header != header ==> outcome.0.Returned? && outcome.0.resp.Some?
    ensures forall i | 0 <= i < |e.wire| :: !e.wire[i].Raw? && !e.wire[i].Tls?
    ensures forall i | 0 <= i < |e.wire| :: e.wire[i].Head? ==> i == 0 && outcome.0.Returned? && outcome.0.resp.Some?
  {
    var res := outcome.0;
    var after := outcome.1;
    if res.Waiting? then Effect([], header, after, [r], true)
    else if res.err.Some? then
      Effect([ErrorReply(StatusInternalServerError, "Internal Server Error")], header, after, [r], false)
    else match res.resp
      case None => Effect([Body(after[res.path])], header, after, [r], false)
      case Some(meta) =>
        var relayed := MergeHeaders(header, meta.header);
        Effect([Head(meta.status, relayed), Body(after[res.path])], relayed, after, [r], false)
  }

  /** ProxyHandler. */
  function ProxySpec(header: Header, files: FileMap, r: Request, io: HandlerIo, sha1: string -> HexDigest): (e: Effect)
    ensures r.verb != "CONNECT" ==> e.lookups == [r]
    ensures r.verb != "CONNECT" ==> forall i | 0 <= i < |e.wire| :: !e.wire[i].Raw? && !e.wire[i].Tls?
    ensures r.verb == "CONNECT" ==> e.header == header
    ensures r.verb == "CONNECT" ==> forall i | 0 <= i < |e.wire| :: !e.wire[i].Head? && !e.wire[i].Body?
  {
    if r.verb == "CONNECT" then ConnectSpec(header, files, r, io, sha1)
    else ServeReply(header, r, Resolve(files, r, io.cache, sha1))
  }

  /** The nested loops of ProxyHandler that add every value of every origin
      header to the response writer, keys in whatever order the map yields. */
  method CopyHeaders(w: Connection, origin: Header)
    modifies w
    ensures w.header == MergeHeaders(old(w.header), origin)
    ensures w.wire == old(w.wire)
  {
    ghost var start := w.header;
    var pending := origin.Keys;
    while pending != {}
      invariant pending <= origin.Keys
      invariant w.wire == old(w.wire)
      invariant forall k :: k in w.header <==> k in start || (k !in pending && Values(origin, k) != [])
      invariant forall k :: Values(w.header, k) == Values(start, k) + (if k in pending then [] else Values(origin, k))
      decreases pending
    {
      var key :| key in pending;
      AddValues(w, key, origin[key]);
      pending := pending - {key};
    }
    HeaderExtensionality(w.header, MergeHeaders(start, origin));
  }

  /** The inner loop: w.Header().Add(key, value) for each value, in order. */
  method AddValues(w: Connection, key: string, values: seq<string>)
    modifies w
    ensures forall k :: k in w.header <==> k in old(w.header) || (k == key && values != [])
    ensures Values(w.header, key) == Values(old(w.header), key) + values
    ensures forall k | k != key :: Values(w.header, k) == Values(old(w.header), k)
    ensures w.wire == old(w.wire)
  {
    for j := 0 to |values|
      invariant w.wire == old(w.wire)
      invariant forall k :: k in w.header <==> k in old(w.header) || (k == key && j > 0)
      invariant Values(w.header, key) == Values(old(w.header), key) + values[..j]
      invariant forall k | k != key :: Values(w.header, k) == Values(old(w.header), k)
    {
      assert values[..j + 1] == values[..j] + [values[j]];
      w.AddHeader(key, values[j]);
    }
    assert values[..|values|] == values;
  }

  /** HandleAndForwardHTTPRequest: read one request from the TLS session,
      resolve it through the cache, and answer with a fixed status line, a
      Content-Type chosen from the URL, and the cached bytes. */
  method HandleAndForwardHTTPRequest(w: Connection, store: CacheStore, io: HandlerIo)
    modifies w, store
    ensures var e := ForwardSpec(old(w.header), old(store.files), io, store.sha1);
      && w.wire == old(w.wire) + e.wire && w.header == e.header
      && store.files == e.files && store.lookups == old(store.lookups) + e.lookups
  {
    if io.inner.None? {
      return;
    }
    var clientReq := TunnelRequest(io.inner.value);
    var fullUrl := FullURL(clientReq);
    var res := store.GetCachedUrl(clientReq, io.cache);
    if res.Waiting? || res.err.Some? {
      return;
    }
    var contentType := URLToContentType(fullUrl);
    if !io.statusSent {
      return;
    }
    var content := store.files[res.path];
    w.WriteTls(StatusLineOKBytes);
    if !io.headerSent {
      return;
    }
    var block := ContentTypeBlockBytes(contentType);
    w.WriteTls(block);
    w.WriteTls(content);
    AppendThree(old(w.wire), Tls(StatusLineOKBytes), Tls(block), Tls(content));
  }

  /** Regrouping the writes appended one at a time. */
  lemma AppendThree<T>(s: seq<T>, a: T, b: T, c: T)
    ensures s + [a] + [b] + [c] == s + [a, b, c]
  {
  }

  /** HandleConnectRequest: dial the target, hijack the connection, send the
      CONNECT acknowledgment, mint a certificate for the host part of the
      target, complete the TLS handshake, then serve the inner request. */
  method HandleConnectRequest(w: Connection, store: CacheStore, r: Request, io: HandlerIo)
    modifies w, store
    ensures var e := ConnectSpec(old(w.header), old(store.files), r, io, store.sha1);
      && w.wire == old(w.wire) + e.wire && w.header == e.header
      && store.files == e.files && store.lookups == old(store.lookups) + e.lookups
  {
    if !io.dials(r.targetHost) {
      w.Error("Failed to connect to destination", StatusInternalServerError);
      return;
    }
    if !io.hijackable {
      w.Error("HTTP Hijacking not supported", StatusInternalServerError);
      return;
    }
    if !io.hijacks {
      w.Error("Failed to hijack connection", StatusInternalServerError);
      return;
    }
    if !io.ackSent {
      return;
    }
    w.WriteRaw(ConnectionEstablishedBytes);
    var host := BeforeFirst(r.targetHost, ':');
    if !io.certIssued(host) {
      return;
    }
    if !io.handshakes {
      return;
    }
    ghost var f := ForwardSpec(w.header, store.files, io, store.sha1);
    HandleAndForwardHTTPRequest(w, store, io);
    AppendAfterOne(old(w.wire), Raw(ConnectionEstablishedBytes), f.wire);
  }

  /** Regrouping the writes appended one at a time. */
  lemma AppendAfterOne<T>(s: seq<T>, a: T, t: seq<T>)
    ensures s + [a] + t == s + ([a] + t)
  {
  }

  /** ProxyHandler: hand CONNECT to the tunnel; otherwise resolve through the
      cache, answer 500 on error, relay the origin's headers and status after
      a miss, and send the whole content file. */
  method ProxyHandler(w: Connection, store: CacheStore, r: Request, io: HandlerIo)
    modifies w, store
    ensures var e := ProxySpec(old(w.header), old(store.files), r, io, store.sha1);
      && w.wire == old(w.wire) + e.wire && w.header == e.header
      && store.files == e.files && store.lookups == old(store.lookups) + e.lookups
  {
    if r.verb == "CONNECT" {
      HandleConnectRequest(w, store, r, io);
      return;
    }
    ghost var e := ProxySpec(w.header, store.files, r, io, store.sha1);
    var res := store.GetCachedUrl(r, io.cache);
    if res.Waiting? {
      return;
    }
    if res.err.Some? {
      w.Error("Internal Server Error", StatusInternalServerError);
      return;
    }
    var content := store.files[res.path];
    if res.resp.Some? {
      CopyHeaders(w, res.resp.value.header);
      w.WriteHeader(res.resp.value.status);
      w.Write(content);
      assert e.wire == [Head(res.resp.value.status, w.header), Body(content)];
      AppendTwo(old(w.wire), Head(res.resp.value.status, w.header), Body(content));
    } else {
      w.Write(content);
    }
  }

  /** Regrouping the writes appended one at a time. */
  lemma AppendTwo<T>(s: seq<T>, a: T, b: T)
    ensures s + [a] + [b] == s + [a, b]
  {
  }
}
