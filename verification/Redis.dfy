/** The Redis client: each method is one atomic call on keys that expire. */
module Redis {
  import opened Prelude

  const EPHEMERAL_TOKEN_MAX_TTL: int := 300

  /** A value with the instant at which Redis drops it. */
  datatype Stored<V> = Stored(value: V, dies: real)

  predicate Alive<K, V>(store: map<K, Stored<V>>, key: K, now: real) {
    key in store && now < store[key].dies
  }

  function Get<K, V>(store: map<K, Stored<V>>, key: K, now: real): Option<V> {
    if Alive(store, key, now) then Some(store[key].value) else None
  }

  /** What a token grants. */
  datatype Payload = Payload(
    project: string, tenant: string, apiKey: string, rateLimitRpm: int,
    issuedAt: int, expiresAt: int, metadata: map<string, string>)

  function ClampTtl(ttl: int): int {
    if ttl < 1 then 1 else if ttl > EPHEMERAL_TOKEN_MAX_TTL then EPHEMERAL_TOKEN_MAX_TTL else ttl
  }

  /** Who asks for a token: the project, its tenant, and the authorising secret key. */
  datatype Issuer = Issuer(project: string, tenant: string, apiKey: string, rateLimitRpm: int)

  function MakePayload(who: Issuer, ttl: int, metadata: map<string, string>, now: real): Payload {
    Payload(who.project, who.tenant, who.apiKey, who.rateLimitRpm, now.Floor, now.Floor + ClampTtl(ttl), metadata)
  }

  /** The payload grants what its issuer asked for, field by field. */
  ghost predicate Carries(p: Payload, who: Issuer, metadata: map<string, string>) {
    && p.project == who.project && p.tenant == who.tenant && p.apiKey == who.apiKey
    && p.rateLimitRpm == who.rateLimitRpm && p.metadata == metadata
  }

  /** The lifetime asked for, but at least one second and at most five minutes. */
  ghost function Lifetime(ttl: int): int {
    if ttl < 1 then 1 else if ttl > 300 then 300 else ttl
  }

  /** INCR: a key that is absent or has expired starts again at 1, without a time to live. */
  datatype Counter = Counter(count: nat, dies: Option<real>)

  predicate CounterAlive(counters: map<(string, int), Counter>, key: (string, int), now: real) {
    key in counters && (counters[key].dies.None? || now < counters[key].dies.value)
  }

  function Incremented(counters: map<(string, int), Counter>, key: (string, int), now: real): Counter {
    if CounterAlive(counters, key, now) then counters[key].(count := counters[key].count + 1)
    else Counter(1, None)
  }

  class RedisClient {
    var tokens: map<string, Stored<Payload>>
    var counters: map<(string, int), Counter>

    constructor ()
      ensures tokens == map[] && counters == map[]
    {
      tokens, counters := map[], map[];
    }

    /** Stores a payload under the random string `raw`. */
    method CreateEphemeralToken(raw: string, who: Issuer, ttl: int, metadata: map<string, string>, now: real)
      returns (expiresAt: int)
      modifies this`tokens
      ensures var p := MakePayload(who, ttl, metadata, now);
              && tokens == old(tokens)[raw := Stored(p, now + ClampTtl(ttl) as real)]
              && expiresAt == p.expiresAt
              && 1 <= p.expiresAt - p.issuedAt <= EPHEMERAL_TOKEN_MAX_TTL
      ensures Alive(tokens, raw, now)
      ensures var p := tokens[raw].value;
              Carries(p, who, metadata) && p.issuedAt == now.Floor && p.expiresAt - p.issuedAt == Lifetime(ttl)
      ensures forall at: real :: Get(tokens, raw, at).Some? <==> at < now + Lifetime(ttl) as real
    {
      var life := ClampTtl(ttl);
      expiresAt := now.Floor + life;
      tokens := tokens[raw := Stored(MakePayload(who, ttl, metadata, now), now + life as real)];
    }

    /** The Lua script: GET and DEL in one step. */
    method RedeemEphemeralToken(raw: string, now: real) returns (payload: Option<Payload>)
      modifies this`tokens
      ensures payload == Get(old(tokens), raw, now)
      ensures tokens == if payload.Some? then old(tokens) - {raw} else old(tokens)
      ensures Get(tokens, raw, now) == None
    {
      payload := Get(tokens, raw, now);
      if payload.Some? {
        tokens := tokens - {raw};
      }
    }

    method PeekEphemeralToken(raw: string, now: real) returns (payload: Option<Payload>)
      ensures payload == Get(tokens, raw, now)
    {
      payload := Get(tokens, raw, now);
    }

    /** TTL, rounded to seconds; -2 when the key does not exist. */
    method GetEphemeralTokenTtl(raw: string, now: real) returns (ttl: int)
      ensures ttl < 0 <==> !Alive(tokens, raw, now)
      ensures ttl >= 0 ==> ttl as real <= tokens[raw].dies - now + 0.5
    {
      ttl := if Alive(tokens, raw, now) then (tokens[raw].dies - now + 0.5).Floor else -2;
    }

    method Incr(key: (string, int), now: real) returns (count: nat)
      modifies this`counters
      ensures counters == old(counters)[key := Incremented(old(counters), key, now)]
      ensures count == counters[key].count && count >= 1
    {
      var c := Incremented(counters, key, now);
      counters := counters[key := c];
      count := c.count;
    }

    /** EXPIRE has no effect on a key that is gone. */
    method Expire(key: (string, int), seconds: int, now: real)
      modifies this`counters
      ensures counters ==
              if CounterAlive(old(counters), key, now)
              then old(counters)[key := old(counters)[key].(dies := Some(now + seconds as real))]
              else old(counters)
    {
      if CounterAlive(counters, key, now) {
        counters := counters[key := counters[key].(dies := Some(now + seconds as real))];
      }
    }

    /**
     * One whole rate-limit check, when its clock reading, INCR and EXPIRE fall on one instant and
     * nothing else touches the counter; how overlapping calls interleave is the RateLimit module.
     */
    method CheckAndIncrementRateLimit(prefix: string, limit: int, window: int, now: real)
      returns (allowed: bool, count: nat)
      requires window > 0
      modifies this`counters
      ensures var key := (prefix, now.Floor / window);
              && count == Incremented(old(counters), key, now).count
              && (allowed <==> count <= limit)
              && (count == 1 ==>
                    counters == old(counters)[key := Counter(1, Some(now + (2 * window) as real))])
              && (count > 1 ==> counters == old(counters)[key := old(counters)[key].(count := count)])
    {
      var key := (prefix, now.Floor / window);
      count := Incr(key, now);
      if count == 1 {
        Expire(key, 2 * window, now);
      }
      allowed := count <= limit;
    }
  }
}
