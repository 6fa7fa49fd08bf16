/** The slice of Go's net/http data that the proxy reads and writes: header
    maps, the request fields the cache consults, and Header.Add. Header keys
    are taken to be in canonical form already, as Go's parsers deliver them. */
module HttpModel {

  /** http.Header: every key maps to its values in insertion order. */
  type Header = map<string, seq<string>>

  /** The request fields the core reads. `verb` is req.Method, `host` is req.Host, `targetHost` is
      req.URL.Host (the host:port of a CONNECT), `path` and `rawQuery` are
      req.URL.Path and req.URL.RawQuery, `tls` says whether req.TLS is set. */
  datatype Request = Request(
    verb: string,
    host: string,
    targetHost: string,
    path: string,
    rawQuery: string,
    tls: bool,
    header: Header)

  /** The values stored under `key` (none when the key is absent). */
  function Values(h: Header, key: string): seq<string>
  {
    if key in h then h[key] else []
  }

  /** Header.Get: the first value under `key`, or "" when there is none. */
  function HeaderGet(h: Header, key: string): (v: string)
    ensures key !in h || h[key] == [] ==> v == ""
    ensures key in h && h[key] != [] ==> v == h[key][0]
  {
    if Values(h, key) == [] then "" else Values(h, key)[0]
  }

  /** Header.Add: `value` goes after the values already under `key`; every
      other key keeps its values. */
  function AddValue(h: Header, key: string, value: string): (r: Header)
    ensures r.Keys == h.Keys + {key}
    ensures Values(r, key) == Values(h, key) + [value]
    ensures forall k | k != key :: Values(r, k) == Values(h, k)
  {
    h[key := Values(h, key) + [value]]
  }

  /** The header map after every value of every key of `b` has been added
      to `a` with Header.Add, in any order of keys: each key ends up with its
      values from `a` followed by its values from `b`, and a key of `b` with
      no values is never created. */
  function MergeHeaders(a: Header, b: Header): (r: Header)
    ensures forall k :: k in r <==> k in a || Values(b, k) != []
    ensures forall k :: Values(r, k) == Values(a, k) + Values(b, k)
  {
    map k | k in a.Keys + b.Keys && (k in a || b[k] != []) :: Values(a, k) + Values(b, k)
  }

  /** Two header maps with the same keys and the same values are equal. */
  lemma HeaderExtensionality(a: Header, b: Header)
    requires forall k :: k in a <==> k in b
    requires forall k :: Values(a, k) == Values(b, k)
    ensures a == b
  {
    forall k | k in a
      ensures a[k] == b[k]
    {
      assert Values(a, k) == Values(b, k);
    }
  }
}
