/** The signing-key cache: served stale on failure, refetched on demand under a rate limit. */
module Jwks {
  import opened Types

  datatype Algorithm = ES256 | ES384 | RS256 | RS384 | RS512 | PS256 | PS384 | PS512 | EdDSA | HS256 | HS384 | HS512

  predicate Asymmetric(a: Algorithm) { !a.HS256? && !a.HS384? && !a.HS512? }

  datatype KeyParams = EllipticP256 | EllipticP384 | EllipticOther | Rsa | OctetKeyPair | OctetKey

  /** What an entry's `alg` says: nothing, something this crate's parser knows, or something else. */
  datatype Declared = Absent | Known(alg: Algorithm) | Unparsed

  /** A published entry; `decodes` is whether its parameters yield a verification key. */
  datatype Jwk = Jwk(kid: Option<string>, declared: Declared, params: KeyParams, decodes: bool, material: int)

  datatype CachedKey = CachedKey(material: int, alg: Algorithm)

  /** The algorithm to pin for a key: the declared one if asymmetric, else the only one its type can use. */
  function KeyAlgorithm(k: Jwk): Option<Algorithm> {
    match k.declared
    case Known(alg) => if Asymmetric(alg) then Some(alg) else None
    case Unparsed => None
    case Absent =>
      match k.params
      case EllipticP256 => Some(ES256)
      case EllipticP384 => Some(ES384)
      case Rsa => Some(RS256)
      case OctetKeyPair => Some(EdDSA)
      case EllipticOther => None
      case OctetKey => None
  }

  predicate Usable(k: Jwk) { k.kid.Some? && KeyAlgorithm(k).Some? && k.decodes }

  function Cached(k: Jwk): CachedKey
    requires Usable(k)
  {
    CachedKey(k.material, KeyAlgorithm(k).value)
  }

  /** The last usable entry published under `kid`. */
  function Selected(jwks: seq<Jwk>, kid: string): Option<CachedKey>
    decreases |jwks|
  {
    if jwks == [] then None
    else
      var k := jwks[|jwks| - 1];
      if Usable(k) && k.kid.value == kid then Some(Cached(k)) else Selected(jwks[..|jwks| - 1], kid)
  }

  /** What a fetch came back with. */
  datatype Reply = Failed | KeySet(jwks: seq<Jwk>)

  /** A reply that replaces the cache: a key set, not one whose every entry was unusable. */
  predicate Replaces(reply: Reply) {
    reply.KeySet? && (reply.jwks == [] || exists i :: 0 <= i < |reply.jwks| && Usable(reply.jwks[i]))
  }

  datatype OnDemandOutcome = Fetched | Suppressed

  datatype Timings = Timings(base: nat, max: nat, minInterval: nat)

  class JwksCache {
    const timings: Timings
    var keys: map<string, CachedKey>
    var fetchedAt: Option<int>
    var lastAttempt: Option<int>
    var backoff: nat

    /** Every key that can ever be served is asymmetric: the token's own header never chooses. */
    ghost predicate Valid()
      reads this
    {
      forall kid :: kid in keys ==> Asymmetric(keys[kid].alg)
    }

    constructor (timings: Timings)
      ensures Valid() && this.timings == timings && keys == map[] && fetchedAt == None && lastAttempt == None
      ensures backoff == timings.base
    {
      this.timings, keys, fetchedAt, lastAttempt, backoff := timings, map[], None, None, timings.base;
    }

    /** Replace the cache from one reply; any failure leaves keys and fetch time exactly as they were. */
    method Fetch(reply: Reply, now: int) returns (ok: bool)
      requires Valid()
      modifies this`keys, this`fetchedAt
      ensures Valid() && ok == Replaces(reply)
      ensures ok ==> fetchedAt == Some(now) && forall kid :: Get(keys, kid) == Selected(reply.jwks, kid)
      ensures !ok ==> keys == old(keys) && fetchedAt == old(fetchedAt)
    {
      if reply.Failed? { return false; }
      var usable := CollectKeys(reply.jwks);
      if usable == map[] && reply.jwks != [] { return false; }
      keys := usable;
      fetchedAt := Some(now);
      ok := true;
    }

    /**
     * An unknown key id: refetch unless the last attempt was under the minimum interval ago. The elapsed
     * time is read first and the attempt stamped by a second reading of the clock.
     */
    method RefreshForUnknownKid(checkedAt: int, stampedAt: int, reply: Reply, fetchedNow: int)
      returns (outcome: OnDemandOutcome)
      requires Valid() && checkedAt <= stampedAt <= fetchedNow
      modifies this`keys, this`fetchedAt, this`lastAttempt
      ensures Valid()
      ensures outcome.Fetched? <==> Permitted(timings.minInterval, old(lastAttempt), checkedAt)
      ensures lastAttempt == if outcome.Fetched? then Some(stampedAt) else old(lastAttempt)
      ensures outcome.Suppressed? || !Replaces(reply) ==> keys == old(keys) && fetchedAt == old(fetchedAt)
      ensures outcome.Fetched? && Replaces(reply) ==>
                fetchedAt == Some(fetchedNow) && forall kid :: Get(keys, kid) == Selected(reply.jwks, kid)
    {
      if lastAttempt.Some? {
        if checkedAt - lastAttempt.value < timings.minInterval { return Suppressed; }
      }
      lastAttempt := Some(stampedAt);
      var ok := Fetch(reply, fetchedNow);
      outcome := Fetched;
    }

    /** One turn of the background loop: how long to sleep after a fetch, `interval` being the refresh delay. */
    method NextDelay(ok: bool, interval: nat) returns (delay: nat)
      modifies this`backoff
      ensures delay == if ok then interval else old(backoff)
      ensures backoff == if ok then timings.base else Doubled(timings, old(backoff))
    {
      if ok {
        backoff := timings.base;
        return interval;
      }
      delay := backoff;
      backoff := if backoff * 2 <= timings.max then backoff * 2 else timings.max;
    }
  }

  /** Walk the published entries, keeping the usable ones; a later entry under a kid replaces an earlier. */
  method CollectKeys(jwks: seq<Jwk>) returns (keys: map<string, CachedKey>)
    ensures forall kid :: Get(keys, kid) == Selected(jwks, kid)
    ensures forall kid :: kid in keys ==> Asymmetric(keys[kid].alg)
    ensures keys == map[] <==> forall i :: 0 <= i < |jwks| ==> !Usable(jwks[i])
  {
    keys := map[];
    for i := 0 to |jwks|
      invariant forall kid :: Get(keys, kid) == Selected(jwks[..i], kid)
      invariant forall kid :: kid in keys ==> Asymmetric(keys[kid].alg)
      invariant keys == map[] <==> forall j :: 0 <= j < i ==> !Usable(jwks[j])
    {
      assert jwks[..i + 1][..i] == jwks[..i];
      var k := jwks[i];
      var alg := KeyAlgorithm(k);
      if k.kid.Some? && alg.Some? && k.decodes {
        keys := keys[k.kid.value := CachedKey(k.material, alg.value)];
        assert k.kid.value in keys;
      }
    }
    assert jwks[..|jwks|] == jwks;
  }

  // ---- the rate limit over whole runs ----

  predicate Permitted(minInterval: nat, last: Option<int>, checkedAt: int) {
    last.None? || checkedAt - last.value >= minInterval
  }

  /** One unknown-kid request, served under the lock: two readings of one monotonic clock, then the fetch. */
  datatype Call = Call(checkedAt: int, stampedAt: int, reply: Reply, fetchedAt: int)

  predicate Serial(calls: seq<Call>) {
    && (forall i :: 0 <= i < |calls| ==> calls[i].checkedAt <= calls[i].stampedAt <= calls[i].fetchedAt)
    && (forall i, j :: 0 <= i < j < |calls| ==> calls[i].fetchedAt <= calls[j].checkedAt)
  }

  /** When the fetches that were let through were stamped. */
  function Attempts(minInterval: nat, last: Option<int>, calls: seq<Call>): seq<int>
    decreases |calls|
  {
    if calls == [] then []
    else if Permitted(minInterval, last, calls[0].checkedAt)
    then [calls[0].stampedAt] + Attempts(minInterval, Some(calls[0].stampedAt), calls[1..])
    else Attempts(minInterval, last, calls[1..])
  }

  /** Serve a run of requests, one at a time. */
  method ServeAll(cache: JwksCache, calls: seq<Call>) returns (stamps: seq<int>)
    requires cache.Valid() && Serial(calls)
    modifies cache
    ensures cache.Valid()
    ensures stamps == Attempts(cache.timings.minInterval, old(cache.lastAttempt), calls)
  {
    stamps := [];
    assert calls[0..] == calls;
    for i := 0 to |calls|
      invariant cache.Valid()
      invariant stamps + Attempts(cache.timings.minInterval, cache.lastAttempt, calls[i..])
                  == Attempts(cache.timings.minInterval, old(cache.lastAttempt), calls)
    {
      assert calls[i..][1..] == calls[i + 1..];
      var call := calls[i];
      var outcome := cache.RefreshForUnknownKid(call.checkedAt, call.stampedAt, call.reply, call.fetchedAt);
      if outcome.Fetched? { stamps := stamps + [call.stampedAt]; }
    }
  }

  lemma {:induction false} AttemptsSpaced(m: nat, last: Option<int>, calls: seq<Call>)
    requires Serial(calls)
    ensures var stamps := Attempts(m, last, calls);
            && (last.Some? && stamps != [] ==> stamps[0] >= last.value + m)
            && (forall i :: 0 < i < |stamps| ==> stamps[i] >= stamps[i - 1] + m)
    decreases |calls|
  {
    if calls != [] {
      var next := if Permitted(m, last, calls[0].checkedAt) then Some(calls[0].stampedAt) else last;
      AttemptsSpaced(m, next, calls[1..]);
    }
  }

  lemma {:induction false} SpacedSpans(m: nat, stamps: seq<int>, i: nat, j: nat)
    requires i <= j < |stamps| && forall k :: 0 < k < |stamps| ==> stamps[k] >= stamps[k - 1] + m
    ensures stamps[j] - stamps[i] >= (j - i) * m
    decreases j - i
  {
    if i < j {
      SpacedSpans(m, stamps, i, j - 1);
      assert (j - i) * m == (j - 1 - i) * m + m;
    }
  }

  /** However many requests arrive, N fetches inside a window of length L satisfy (N - 1) * minInterval <= L. */
  lemma RateLimitHolds(m: nat, last: Option<int>, calls: seq<Call>, i: nat, j: nat, from: int, length: int)
    requires Serial(calls) && i <= j < |Attempts(m, last, calls)|
    requires from <= Attempts(m, last, calls)[i] && Attempts(m, last, calls)[j] <= from + length
    ensures (j - i) * m <= length
  {
    AttemptsSpaced(m, last, calls);
    SpacedSpans(m, Attempts(m, last, calls), i, j);
  }

  // ---- backoff ----

  function Doubled(t: Timings, backoff: nat): nat { if backoff * 2 <= t.max then backoff * 2 else t.max }

  /** The retry delay held after `n` failures in a row, so the delay slept after the next one. */
  function BackoffAfter(t: Timings, n: nat): nat { if n == 0 then t.base else Doubled(t, BackoffAfter(t, n - 1)) }

  function Pow2(n: nat): nat { if n == 0 then 1 else 2 * Pow2(n - 1) }

  function Capped(t: Timings, n: nat): nat { if t.base * Pow2(n) <= t.max then t.base * Pow2(n) else t.max }

  /**
   * The delay after the (n + 1)-th failure in a row is the base doubled n times, capped, exactly when it
   * is not the first one or the base is within the cap: the first delay is the base itself, uncapped.
   */
  lemma {:induction false} BackoffIsCappedDoublingIff(t: Timings, n: nat)
    ensures BackoffAfter(t, n) == Capped(t, n) <==> n > 0 || t.base <= t.max
    ensures n == 0 ==> BackoffAfter(t, n) == t.base
  {
    if n == 1 {
      assert Pow2(1) == 2 * Pow2(0);
    } else if n > 1 {
      BackoffIsCappedDoublingIff(t, n - 1);
      assert t.base * Pow2(n) == 2 * (t.base * Pow2(n - 1));
    }
  }

  /** A base above the cap is slept once before the cap applies. */
  lemma FirstDelayMayExceedCap()
    ensures var t := Timings(100, 60, 10); BackoffAfter(t, 0) == 100 && Capped(t, 0) == 60 && BackoffAfter(t, 1) == 60
  {
    assert BackoffAfter(Timings(100, 60, 10), 0) == 100;
  }

  lemma FailureRuns(results: seq<bool>, i: nat)
    requires i <= |results|
    ensures FailuresBefore(results, 0) == 0
    ensures i < |results| ==> FailuresBefore(results, i + 1) == if results[i] then 0 else 1 + FailuresBefore(results, i)
  {
  }

  lemma BackoffSteps(t: Timings, n: nat)
    ensures BackoffAfter(t, 0) == t.base
    ensures BackoffAfter(t, n + 1) == Doubled(t, BackoffAfter(t, n)) == BackoffAfter(t, 1 + n)
  {
  }

  /** Run the loop over a sequence of fetch results; each failure's delay counts the failures just before it. */
  method DelaysOf(cache: JwksCache, results: seq<bool>, interval: nat) returns (delays: seq<nat>)
    requires cache.backoff == cache.timings.base
    modifies cache
    ensures |delays| == |results|
    ensures forall i :: 0 <= i < |results| ==>
              delays[i] == if results[i] then interval else BackoffAfter(cache.timings, FailuresBefore(results, i))
  {
    hide Doubled, BackoffAfter, FailuresBefore;
    FailureRuns(results, 0);
    BackoffSteps(cache.timings, 0);
    delays := [];
    for i := 0 to |results|
      invariant |delays| == i && cache.backoff == BackoffAfter(cache.timings, FailuresBefore(results, i))
      invariant forall k :: 0 <= k < i ==>
                  delays[k] == if results[k] then interval else BackoffAfter(cache.timings, FailuresBefore(results, k))
    {
      FailureRuns(results, i);
      BackoffSteps(cache.timings, FailuresBefore(results, i));
      var delay := cache.NextDelay(results[i], interval);
      delays := delays + [delay];
    }
  }

  /** How many results right before `i` were failures. */
  function FailuresBefore(results: seq<bool>, i: nat): nat
    requires i <= |results|
  {
    if i == 0 || results[i - 1] then 0 else 1 + FailuresBefore(results, i - 1)
  }
}
