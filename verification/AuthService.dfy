/** The authentication service as one caller at a time sees it.  Calls that overlap are the subject of module
    AuthCache. */
module AuthService {
  import opened AuthCache

  datatype Cached = Cached(row: Row, cachedAt: int)

  class Service {
    var cache: map<string, Cached>
    const cacheTTL: nat

    constructor (cacheTTL: nat)
      ensures cache == map[] && this.cacheTTL == cacheTTL
    {
      this.cache, this.cacheTTL := map[], cacheTTL;
    }

    method GetFromCache(keyHash: string, now: int) returns (ctx: Option<Cached>)
      ensures ctx.Some? <==> keyHash in cache && now - cache[keyHash].cachedAt <= cacheTTL
      ensures ctx.Some? ==> ctx.value == cache[keyHash]
    {
      if keyHash !in cache || now - cache[keyHash].cachedAt > cacheTTL {
        return None;
      }
      return Some(cache[keyHash]);
    }

    method PutToCache(keyHash: string, ctx: Cached)
      modifies this
      ensures cache == old(cache)[keyHash := ctx]
    {
      cache := cache[keyHash := ctx];
    }

    method RemoveFromCache(keyHash: string)
      modifies this
      ensures cache == old(cache) - {keyHash}
    {
      cache := cache - {keyHash};
    }

    /** Drops exactly the entries that are too old. */
    method CleanupCache(now: int)
      modifies this
      ensures cache == map k | k in old(cache) && now - old(cache)[k].cachedAt <= cacheTTL :: old(cache)[k]
    {
      var todo := cache.Keys;
      ghost var was := cache;
      while todo != {}
        invariant todo <= cache.Keys <= was.Keys
        invariant forall k :: k in cache ==> cache[k] == was[k] && (k in todo || now - was[k].cachedAt <= cacheTTL)
        invariant forall k :: k in was && k !in cache ==> now - was[k].cachedAt > cacheTTL
        decreases |todo|
      {
        var k :| k in todo;
        todo := todo - {k};
        if now - cache[k].cachedAt > cacheTTL {
          cache := cache - {k};
        }
      }
    }

    /** The cache has an entry for the key that is young, of an active tenant, usable and not expired. */
    predicate Good(keyHash: string, now: int)
      reads this
    {
      && keyHash in cache && now - cache[keyHash].cachedAt <= cacheTTL
      && cache[keyHash].row.tenantStatus == Active && cache[keyHash].row.keyStatus == Usable
      && (cache[keyHash].row.expiresAt.Some? ==> now <= cache[keyHash].row.expiresAt.value)
    }

    /** What is returned is the row of an active tenant with a usable key that has not expired, from the cache if it is
        young and in order there, else from the table now.  A refusal is that of the table; it removes a young entry
        that is not in order.  Other keys' entries stay. */
    method Authenticate(apiKey: string, keyHash: string, table: map<string, Row>, now: int)
      returns (verdict: Verdict, ctx: Option<Cached>)
      modifies this
      ensures apiKey == "" ==> verdict == Denied(MissingApiKey) && ctx.None? && cache == old(cache)
      ensures verdict.Granted? <==> ctx.Some?
      ensures ctx.Some? ==>
                && ctx.value.row.tenantStatus == Active && ctx.value.row.keyStatus == Usable
                && (ctx.value.row.expiresAt.Some? ==> now <= ctx.value.row.expiresAt.value)
                && now - ctx.value.cachedAt <= cacheTTL
      ensures apiKey != "" && old(Good(keyHash, now)) ==>
                ctx == Some(old(cache)[keyHash]) && cache == old(cache)
      ensures apiKey != "" && !old(Good(keyHash, now)) ==>
                var row := if keyHash in table then Some(table[keyHash]) else None;
                && verdict == Judge(row, now) && (ctx.Some? ==> row.Some? && ctx.value == Cached(row.value, now))
                && cache == if ctx.Some? then old(cache)[keyHash := ctx.value]
                            else if keyHash in old(cache) && now - old(cache)[keyHash].cachedAt <= cacheTTL
                            then old(cache) - {keyHash} else old(cache)
    {
      if apiKey == "" {
        return Denied(MissingApiKey), None;
      }
      ctx := GetFromCache(keyHash, now);
      if ctx.Some? {
        if IsValid(ctx.value.row, now) {
          return Granted, ctx;
        }
        RemoveFromCache(keyHash);
      }
      var row := if keyHash in table then Some(table[keyHash]) else None;
      verdict := Judge(row, now);
      if verdict.Denied? {
        return verdict, None;
      }
      ctx := Some(Cached(row.value, now));
      PutToCache(keyHash, ctx.value);
    }

    method InvalidateCache(keyHash: string)
      modifies this
      ensures keyHash !in cache && cache == old(cache) - {keyHash}
    {
      RemoveFromCache(keyHash);
    }
  }

  /** One caller at a time: the call after an invalidation is judged by the table as it is then. */
  method InvalidateThenAuthenticate(s: Service, apiKey: string, keyHash: string, table: map<string, Row>, now: int)
    returns (verdict: Verdict)
    requires apiKey != ""
    modifies s
    ensures verdict == Judge(if keyHash in table then Some(table[keyHash]) else None, now)
  {
    s.InvalidateCache(keyHash);
    var ctx;
    verdict, ctx := s.Authenticate(apiKey, keyHash, table, now);
  }
}
