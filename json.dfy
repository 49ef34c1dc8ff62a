/**
 * Abstract JSON values, the shape of every request body, query and parsed
 * response. Objects are maps from key to value: a Ruby hash with symbol
 * keys, whose key order is not modelled.
 */
module JsonValues {

  import opened Wrappers

  datatype Json =
    | JNull
    | JBool(b: bool)
    | JNum(n: int)
    | JStr(s: string)
    | JArr(items: seq<Json>)
    | JObj(fields: map<string, Json>)

  /** A Ruby hash of named arguments, as sent in a query or a body. */
  type Hash = map<string, Json>

  /** Ruby's `Hash#[]`: a missing key reads as nil, never as a default. */
  function Lookup(h: Hash, key: string): Json {
    if key in h then h[key] else JNull
  }

  /** No entry of `h` is nil. */
  predicate NullFree(h: Hash) {
    forall k :: k in h ==> h[k] != JNull
  }

  /** Ruby's `Hash#compact`: the entries whose value is not nil, unchanged. */
  function Compact(h: Hash): (r: Hash)
    ensures NullFree(r)
    ensures r.Keys <= h.Keys
    ensures forall k :: k in h && h[k] != JNull ==> k in r && r[k] == h[k]
    ensures forall k :: k in r ==> r[k] == h[k]
  {
    map k | k in h && h[k] != JNull :: h[k]
  }

  /**
   * An argument `v` passed under `key` to a compacting request arrives as it
   * was sent: present exactly when it is not nil, and then with its value.
   */
  predicate SentIfSet(h: Hash, key: string, v: Json) {
    (key in h <==> v != JNull) && (key in h ==> h[key] == v)
  }

  /** Every argument of a compacted hash is sent if set. */
  lemma CompactSendsIfSet(h: Hash, key: string)
    requires key in h
    ensures SentIfSet(Compact(h), key, h[key])
  {
  }

  /** Compacting twice is compacting once, and a hash without nils is left alone. */
  lemma CompactIdempotent(h: Hash)
    ensures Compact(Compact(h)) == Compact(h)
    ensures NullFree(h) ==> Compact(h) == h
  {
  }

  /** A string value, or nil when absent. */
  function Nilable(o: Option<string>): Json {
    if o.Some? then JStr(o.value) else JNull
  }
}
