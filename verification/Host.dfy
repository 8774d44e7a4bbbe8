/** The parts of the Soroban host that the contracts rely on: fixed-width integers and
    persistent storage entries with a time-to-live. */
module Host {
  const U32_MAX: nat := 0xFFFF_FFFF
  const U64_MAX: nat := 0xFFFF_FFFF_FFFF_FFFF

  type U32 = n: nat | n <= 0xFFFF_FFFF

  /** An account or contract address in its text form. */
  type Address = string

  datatype Option<+T> = None | Some(value: T)

  function Max(a: nat, b: nat): nat { if a < b then b else a }

  function Min(a: nat, b: nat): nat { if a < b then a else b }

  function SaturatingAdd(a: nat, b: nat): U32 { Min(a + b, U32_MAX) }

  function SaturatingSub(a: nat, b: nat): nat { if a < b then 0 else a - b }

  /** A persistent entry is readable up to and including ledger `liveUntil`. */
  datatype Entry<+V> = Entry(value: V, liveUntil: nat)

  /** `set(k, v)` followed by `extend_ttl(k, ttl, ttl)` at ledger `now`: an existing key keeps a
      longer remaining lifetime, a fresh key starts with exactly `ttl` ledgers. */
  function Put<K, V>(m: map<K, Entry<V>>, k: K, v: V, now: nat, ttl: nat): (r: map<K, Entry<V>>)
    ensures r.Keys == m.Keys + {k} && r[k].liveUntil >= now + ttl
    ensures k in m ==> r[k].liveUntil >= m[k].liveUntil
  {
    m[k := Entry(v, Max(if k in m then m[k].liveUntil else 0, now + ttl))]
  }

  /** `extend_ttl(k, ttl, ttl)` at ledger `now` on a present key. */
  function Extend<K, V>(m: map<K, Entry<V>>, k: K, now: nat, ttl: nat): (r: map<K, Entry<V>>)
    requires k in m
    ensures r.Keys == m.Keys && r[k].value == m[k].value && r[k].liveUntil >= m[k].liveUntil
    ensures r[k].liveUntil >= now + ttl
  {
    m[k := m[k].(liveUntil := Max(m[k].liveUntil, now + ttl))]
  }

  /** The entries still readable at ledger `now`. An expired entry reads as absent, so dropping it
      when the ledger advances is the same as hiding it from every later read. */
  function Surviving<K, V>(m: map<K, Entry<V>>, now: nat): (r: map<K, Entry<V>>)
    ensures r.Keys <= m.Keys && forall k :: k in r ==> r[k] == m[k]
  {
    map k | k in m && m[k].liveUntil >= now :: m[k]
  }
}
