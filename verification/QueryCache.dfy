/** The gateway's content-addressed cache: time quantization, freshness, sweeping. */
module QueryCache {
  import opened Common

  type Payload = string

  datatype ParamValue = Num(n: real) | Other(text: string)

  type Params = map<string, ParamValue>

  const BUCKET: int := 15
  const RANGE_TTL: real := 20.0
  const METADATA_TTL: real := 300.0
  const STALE_MAX: real := 120.0

  const TIME_KEYS: set<string> := {"start", "end", "time", "since", "until"}

  /** The start of the bucket an instant falls in. */
  function Snap(x: real): (b: int)
    ensures b as real <= x < (b + BUCKET) as real && b % BUCKET == 0
  {
    var q := (x / BUCKET as real).Floor;
    assert q as real <= x / BUCKET as real < (q + 1) as real;
    q * BUCKET
  }

  function Quantize(p: Params): Params {
    map k | k in p :: if k in TIME_KEYS && p[k].Num? then Num(Snap(p[k].n) as real) else p[k]
  }

  /** The cache key; the hash over these four parts is taken to be injective. */
  datatype Address = Address(tool: string, tenant: string, bucket: int, params: Params)

  function AddressOf(tool: string, tenant: string, params: Params, now: real): Address {
    Address(tool, tenant, Snap(now), Quantize(params))
  }

  predicate StartsWith(s: string, prefix: string) { |s| >= |prefix| && s[..|prefix|] == prefix }

  function Ttl(tool: string): real {
    if StartsWith(tool, "list_") || StartsWith(tool, "get_") then METADATA_TTL else RANGE_TTL
  }

  datatype Entry = Entry(created: real, ttl: real, payload: Payload)

  type Entries = map<Address, Entry>

  datatype Found = Miss | Fresh(payload: Payload) | Stale(payload: Payload)

  function Lookup(m: Entries, a: Address, now: real): Found {
    if a !in m then Miss
    else
      var age := now - m[a].created;
      if age <= m[a].ttl then Fresh(m[a].payload)
      else if age <= STALE_MAX then Stale(m[a].payload)
      else Miss
  }

  /** Looking up an entry past the stale tolerance drops it. */
  function Consulted(m: Entries, a: Address, now: real): Entries {
    if a in m && now - m[a].created > m[a].ttl && now - m[a].created > STALE_MAX then m - {a} else m
  }

  function Swept(m: Entries, now: real): Entries {
    map a | a in m && now - m[a].created <= STALE_MAX :: m[a]
  }

  function Stored(m: Entries, a: Address, payload: Payload, ttl: real, now: real): Entries {
    Swept(m, now)[a := Entry(now, ttl, payload)]
  }

  /** Quantizing again changes nothing, so a snapped query keeps its address. */
  lemma QuantizeTwice(p: Params)
    ensures Quantize(Quantize(p)) == Quantize(p)
  {
    forall k | k in p && k in TIME_KEYS && p[k].Num?
      ensures Snap(Snap(p[k].n) as real) == Snap(p[k].n)
    {
      SnapTwice(p[k].n);
    }
  }

  lemma SnapTwice(x: real)
    ensures Snap(Snap(x) as real) == Snap(x)
  {
    var b, c := Snap(x), Snap(Snap(x) as real);
    assert c <= b < c + BUCKET && b % BUCKET == 0 && c % BUCKET == 0;
    assert (b - c) % BUCKET == 0;
  }

  /** An entry of the current bucket is always fresh. */
  lemma CurrentBucketIsFresh(m: Entries, a: Address, now: real)
    requires a in m && a.bucket as real <= m[a].created && m[a].ttl == Ttl(a.tool) && now < (a.bucket + BUCKET) as real
    ensures Lookup(m, a, now) == Fresh(m[a].payload) && now - m[a].created < BUCKET as real
  {}

  /** The cache object, in-memory store only. */
  class QuantizedCache {
    var entries: Entries

    constructor ()
      ensures entries == map[]
    {
      entries := map[];
    }

    method Get(a: Address, now: real) returns (found: Found)
      modifies this
      ensures found == Lookup(old(entries), a, now) && entries == Consulted(old(entries), a, now)
    {
      found := Miss;
      if a in entries {
        var e := entries[a];
        var age := now - e.created;
        if age <= e.ttl {
          found := Fresh(e.payload);
        } else if age <= STALE_MAX {
          found := Stale(e.payload);
        } else {
          entries := entries - {a};
        }
      }
    }

    /** Collects the keys past the stale tolerance, then deletes them one by one. */
    method Sweep(now: real)
      modifies this
      ensures entries == Swept(old(entries), now)
    {
      var dead := set a | a in entries && now - entries[a].created > STALE_MAX;
      while dead != {}
        invariant dead == set a | a in entries && now - entries[a].created > STALE_MAX
        invariant Swept(entries, now) == Swept(old(entries), now)
        decreases |dead|
      {
        var a :| a in dead;
        assert Swept(entries - {a}, now) == Swept(entries, now);
        entries := entries - {a};
        dead := dead - {a};
      }
      assert forall a | a in entries :: a !in dead;
    }

    method Set(a: Address, payload: Payload, ttl: real, now: real)
      modifies this
      ensures entries == Stored(old(entries), a, payload, ttl, now)
    {
      Sweep(now);
      entries := entries[a := Entry(now, ttl, payload)];
    }
  }
}
