/**
 * Request ids and the idempotency cache (`_shared/idempotency.ts`). The request id names a ledger
 * entry; the cache maps the raw triple (endpoint, scope key, idempotency key) to the response
 * payload saved after a successful commit. The `idempotency_requests` table is the map field of
 * `IdempotencyTable`; a store error is an input (`Some(message)`).
 */
module Idempotency {
  import opened Outcome
  import opened Text
  import opened Json

  const ENDPOINT_MAX: nat := 32
  const PART_MAX: nat := 120

  /** The class `[a-zA-Z0-9:_-]` kept in the scope part: unlike fingerprints, no `.`. */
  predicate IsScopeChar(c: char) {
    ('a' <= c <= 'z') || ('A' <= c <= 'Z') || ('0' <= c <= '9') || c == ':' || c == '_' || c == '-'
  }

  /** The class `[a-zA-Z0-9._:-]` kept in the key part. */
  predicate IsKeyChar(c: char) {
    IsScopeChar(c) || c == '.'
  }

  function ScopePart(scopeKey: string): (r: string)
    ensures |r| <= PART_MAX && forall i :: 0 <= i < |r| ==> IsScopeChar(r[i])
  {
    Take(Filter(IsScopeChar, scopeKey), PART_MAX)
  }

  function KeyPart(idempotencyKey: string): (r: string)
    ensures |r| <= PART_MAX && forall i :: 0 <= i < |r| ==> IsKeyChar(r[i])
  {
    Take(Filter(IsKeyChar, idempotencyKey), PART_MAX)
  }

  /** `buildRequestId`: `<endpoint cut to 32>:<cleaned scope>:<cleaned key>`. */
  function BuildRequestId(endpoint: string, scopeKey: string, idempotencyKey: string): (r: string)
    ensures |r| <= ENDPOINT_MAX + 1 + PART_MAX + 1 + PART_MAX
  {
    Take(endpoint, ENDPOINT_MAX) + ":" + ScopePart(scopeKey) + ":" + KeyPart(idempotencyKey)
  }

  /**
   * The id splits into the three parts: the endpoint's first 32 characters, then a `:`-free-of-dots
   * scope part, then the key part, each part made only of its class and at most 120 long.
   */
  lemma RequestIdParts(endpoint: string, scopeKey: string, idempotencyKey: string)
    ensures var r := BuildRequestId(endpoint, scopeKey, idempotencyKey);
            var e := Take(endpoint, ENDPOINT_MAX);
            var s := ScopePart(scopeKey);
            && e <= endpoint && |e| <= ENDPOINT_MAX
            && r[..|e|] == e && r[|e|] == ':'
            && r[|e| + 1..|e| + 1 + |s|] == s && r[|e| + 1 + |s|] == ':'
            && r[|e| + 2 + |s|..] == KeyPart(idempotencyKey)
            && '.' !in s
  {
  }

  /** A scope key that already consists of scope characters and fits is copied into the id unchanged. */
  lemma CleanScopeIsKept(endpoint: string, scopeKey: string, idempotencyKey: string)
    requires |scopeKey| <= PART_MAX && forall i :: 0 <= i < |scopeKey| ==> IsScopeChar(scopeKey[i])
    ensures BuildRequestId(endpoint, scopeKey, idempotencyKey)
            == Take(endpoint, ENDPOINT_MAX) + ":" + scopeKey + ":" + KeyPart(idempotencyKey)
  {
    FilterKeepsClean(IsScopeChar, scopeKey);
  }

  /**
   * The scope part drops `.`, which fingerprints may contain: the demo scopes of the devices
   * `a.b` and `ab` (any two runs `a`, `b` of scope characters) are different cache keys but name
   * the same ledger entry.
   */
  lemma ScopeDropsDot(endpoint: string, idempotencyKey: string, a: string, b: string)
    requires forall i :: 0 <= i < |a| ==> IsScopeChar(a[i])
    requires forall i :: 0 <= i < |b| ==> IsScopeChar(b[i])
    ensures "demo:" + a + "." + b != "demo:" + a + b
    ensures BuildRequestId(endpoint, "demo:" + a + "." + b, idempotencyKey)
            == BuildRequestId(endpoint, "demo:" + a + b, idempotencyKey)
  {
    assert |"demo:" + a + "." + b| == |"demo:" + a + b| + 1;
    DemoPrefixClean(a);
    DotFilteredOut("demo:" + a, b);
    assert ScopePart("demo:" + a + "." + b) == ScopePart("demo:" + a + b);
  }

  /** `demo:` followed by scope characters consists of scope characters. */
  lemma DemoPrefixClean(a: string)
    requires forall i :: 0 <= i < |a| ==> IsScopeChar(a[i])
    ensures forall i :: 0 <= i < |"demo:" + a| ==> IsScopeChar(("demo:" + a)[i])
  {
    var p := "demo:" + a;
    forall i | 0 <= i < |p| ensures IsScopeChar(p[i]) {
      if i >= 5 {
        assert p[i] == a[i - 5];
      }
    }
  }

  /** Filtering two runs of scope characters with a dot between them drops just the dot. */
  lemma DotFilteredOut(p: string, b: string)
    requires forall i :: 0 <= i < |p| ==> IsScopeChar(p[i])
    requires forall i :: 0 <= i < |b| ==> IsScopeChar(b[i])
    ensures Filter(IsScopeChar, p + "." + b) == Filter(IsScopeChar, p + b)
  {
    FilterKeepsClean(IsScopeChar, p);
    FilterKeepsClean(IsScopeChar, b);
    var dot: string := ".";
    assert Filter(IsScopeChar, dot) == [] by {
      assert !IsScopeChar(dot[0]) && dot[1..] == [];
    }
    FilterConcat(IsScopeChar, p, dot);
    assert Filter(IsScopeChar, p + dot) == p;
    FilterConcat(IsScopeChar, p + dot, b);
    FilterConcat(IsScopeChar, p, b);
  }

  /** The key part keeps `.`: the keys `a.b` and `ab` give different request ids. */
  lemma KeyKeepsDot(endpoint: string, scopeKey: string)
    ensures BuildRequestId(endpoint, scopeKey, "a.b") != BuildRequestId(endpoint, scopeKey, "ab")
  {
    assert Filter(IsKeyChar, "a.b") == "a.b";
    assert Filter(IsKeyChar, "ab") == "ab";
    assert |BuildRequestId(endpoint, scopeKey, "a.b")| == |BuildRequestId(endpoint, scopeKey, "ab")| + 1;
  }

  /** A row of `idempotency_requests` is identified by the raw, uncleaned triple. */
  datatype CacheKey = CacheKey(endpoint: string, scopeKey: string, idempotencyKey: string)

  /** The cache lookup on the table contents: the saved payload, or none on a miss. */
  function Lookup(rows: map<CacheKey, Payload>, k: CacheKey): (r: Option<Payload>)
    ensures r.Some? <==> k in rows
    ensures r.Some? ==> r.value == rows[k]
  {
    if k in rows then Some(rows[k]) else None
  }

  /** The upsert on conflict `(endpoint, scope_key, idempotency_key)`. */
  function Upsert(rows: map<CacheKey, Payload>, k: CacheKey, response: Payload): (r: map<CacheKey, Payload>)
    ensures r.Keys == rows.Keys + {k}
  {
    rows[k := response]
  }

  /** A lookup after a save returns the saved payload. */
  lemma GetAfterSave(rows: map<CacheKey, Payload>, k: CacheKey, response: Payload)
    ensures Lookup(Upsert(rows, k, response), k) == Some(response)
  {
  }

  /** A later save overwrites an earlier one. */
  lemma SaveOverwrites(rows: map<CacheKey, Payload>, k: CacheKey, first: Payload, second: Payload)
    ensures Upsert(Upsert(rows, k, first), k, second) == Upsert(rows, k, second)
  {
  }

  /** A save leaves every other triple as it was, even one that differs in a single component. */
  lemma SaveLeavesOthers(rows: map<CacheKey, Payload>, k: CacheKey, other: CacheKey, response: Payload)
    requires other != k
    ensures Lookup(Upsert(rows, k, response), other) == Lookup(rows, other)
  {
  }

  /** The `idempotency_requests` table. */
  class IdempotencyTable {
    var rows: map<CacheKey, Payload>

    constructor ()
      ensures rows == map[]
    {
      rows := map[];
    }

    /**
     * `getIdempotentResponse`: an error from the store is raised; otherwise the payload saved for
     * exactly this triple, or none.
     */
    method Get(endpoint: string, scopeKey: string, idempotencyKey: string, fault: Option<string>)
      returns (r: Result<Option<Payload>>)
      ensures fault.Some? ==> r == Err("Failed to query idempotency cache: " + fault.value)
      ensures fault.None? ==> r.Ok? && (r.value.Some? <==> CacheKey(endpoint, scopeKey, idempotencyKey) in rows)
      ensures fault.None? && r.value.Some? ==> r.value.value == rows[CacheKey(endpoint, scopeKey, idempotencyKey)]
    {
      if fault.Some? {
        return Err("Failed to query idempotency cache: " + fault.value);
      }
      r := Ok(Lookup(rows, CacheKey(endpoint, scopeKey, idempotencyKey)));
    }

    /** `saveIdempotentResponse`: an upsert; on a store error it raises and nothing is written. */
    method Save(endpoint: string, scopeKey: string, idempotencyKey: string, response: Payload, fault: Option<string>)
      returns (r: Result<()>)
      modifies this
      ensures fault.Some? ==> r == Err("Failed to save idempotency cache: " + fault.value) && rows == old(rows)
      ensures fault.None? ==> r == Ok(()) && rows == Upsert(old(rows), CacheKey(endpoint, scopeKey, idempotencyKey), response)
    {
      if fault.Some? {
        return Err("Failed to save idempotency cache: " + fault.value);
      }
      rows := Upsert(rows, CacheKey(endpoint, scopeKey, idempotencyKey), response);
      r := Ok(());
    }
  }
}
