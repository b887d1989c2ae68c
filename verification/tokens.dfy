/**
 * The per-user access-token cache and its refresh state machine
 * (`get_cache_token_info`, `delete_cache_token_info`, `get_access_token`).
 *
 * The process-wide dictionary `CACHE_TOKEN_INFO` and the persisted document
 * collection `users` are the two maps of a `TokenManager`. Every interaction
 * with the outside world (store read, update, delete, the call to the token
 * endpoint) and every write to the cache is appended to an effect trace, so
 * that "no I/O" and "store before cache" can be stated.
 */
module TokenCache {
  import opened Wrappers

  /** A token document: each field may be missing, as in the dictionary it models. */
  datatype TokenRecord = TokenRecord(
    accessToken: Option<string>,
    refreshToken: Option<string>,
    expiredTs: Option<int>)

  /** What the streaming service's token endpoint answers to a refresh request. */
  datatype RefreshOutcome =
    | Revoked                                       // `{"error": "invalid_grant"}`
    | Granted(accessToken: string, expiresIn: int)  // `{"access_token": …, "expires_in": …}`

  /** Observable effects, in the order they happen. */
  datatype Effect =
    | StoreGet(uid: string)
    | StoreUpdate(uid: string, fields: TokenRecord)
    | StoreDelete(uid: string)
    | RefreshCall(refreshToken: string)
    | CacheWrite(uid: string, rec: TokenRecord)
    | CacheDelete(uid: string)

  /** Exceptions `get_access_token` lets escape. */
  datatype Crash =
    | MissingRefreshToken  // `token_info["refresh_token"]` raises KeyError
    | UnboundDocRef        // `doc_ref.update(…)` on a path that never bound `doc_ref`

  /** The result of `get_access_token`: a returned value (possibly `None`) or an escaping exception. */
  datatype TokenResult = Token(access: Option<string>) | Crashed(crash: Crash)

  /** A record is stale when it has no expiry or the expiry has been reached. */
  predicate Expired(expiredTs: Option<int>, now: int)
  {
    expiredTs.None? || now >= expiredTs.value
  }

  /** `get_cache_token_info`: the cached record for `uid`, unless it is absent or stale at `now`. */
  function CachedToken(cache: map<string, TokenRecord>, uid: string, now: int): (r: Option<TokenRecord>)
    ensures r.None? <==> uid !in cache || cache[uid].expiredTs.None? || now >= cache[uid].expiredTs.value
    ensures r.Some? ==> uid in cache && r.value == cache[uid] && r.value.expiredTs.Some? && now < r.value.expiredTs.value
  {
    if uid in cache && !Expired(cache[uid].expiredTs, now) then Some(cache[uid]) else None
  }

  /** The fields a successful refresh writes: the new token and its absolute expiry. */
  function RefreshedFields(accessToken: string, now: int, expiresIn: int): (r: TokenRecord)
    ensures r.accessToken == Some(accessToken) && r.refreshToken.None?
    ensures forall t :: !Expired(r.expiredTs, t) <==> t < now + expiresIn
  {
    TokenRecord(Some(accessToken), None, Some(now + expiresIn))
  }

  /** A document-store partial update: the given fields replace the old ones, the refresh token stays. */
  function ApplyUpdate(doc: TokenRecord, fields: TokenRecord): (r: TokenRecord)
    ensures r.refreshToken == doc.refreshToken
    ensures r.accessToken == fields.accessToken && r.expiredTs == fields.expiredTs
  {
    TokenRecord(fields.accessToken, doc.refreshToken, fields.expiredTs)
  }

  /**
   * Cache and store agree: every cached entry has a stored document with the same
   * access token and expiry, and a cached refresh token (if any) is the stored one.
   */
  predicate Coherent(cache: map<string, TokenRecord>, store: map<string, TokenRecord>)
  {
    forall u :: u in cache ==>
      u in store &&
      cache[u].accessToken == store[u].accessToken &&
      cache[u].expiredTs == store[u].expiredTs &&
      (cache[u].refreshToken.Some? ==> cache[u].refreshToken == store[u].refreshToken)
  }

  /**
   * One run of `get_access_token` for `uid`, from cache `c0`, store `s0` and trace `tr0`
   * to result `r`, cache `c1`, store `s1` and trace `tr1`; the clock read `t1`, `t2`, `t3`
   * and the token endpoint answered `refresh`. Each conjunct is one path through the code.
   */
  predicate TokenStep(c0: map<string, TokenRecord>, s0: map<string, TokenRecord>, tr0: seq<Effect>,
                      uid: string, t1: int, t2: int, t3: int, refresh: RefreshOutcome,
                      r: TokenResult, c1: map<string, TokenRecord>, s1: map<string, TokenRecord>, tr1: seq<Effect>)
  {
    // A cache hit that is still fresh at the second clock reading: no I/O, no cache write.
    && (CachedToken(c0, uid, t1).Some? && !Expired(c0[uid].expiredTs, t2) ==>
          r == Token(c0[uid].accessToken) && c1 == c0 && s1 == s0 && tr1 == tr0)
    // Cache miss and no stored document: `None`, one store read, nothing written.
    && (CachedToken(c0, uid, t1).None? && uid !in s0 ==>
          r == Token(None) && c1 == c0 && s1 == s0 && tr1 == tr0 + [StoreGet(uid)])
    // Cache miss, stored document still fresh: it is cached as loaded and its token returned.
    && (CachedToken(c0, uid, t1).None? && uid in s0 && !Expired(s0[uid].expiredTs, t2) ==>
          r == Token(s0[uid].accessToken) && c1 == c0[uid := s0[uid]] && s1 == s0 &&
          tr1 == tr0 + [StoreGet(uid), CacheWrite(uid, s0[uid])])
    // Cache miss, stored document stale: it is cached as loaded, then refreshed with its refresh token.
    && (CachedToken(c0, uid, t1).None? && uid in s0 && Expired(s0[uid].expiredTs, t2) ==>
          var doc := s0[uid];
          var loaded := tr0 + [StoreGet(uid), CacheWrite(uid, doc)];
          if doc.refreshToken.None? then
            r == Crashed(MissingRefreshToken) && c1 == c0[uid := doc] && s1 == s0 && tr1 == loaded
          else match refresh
            case Revoked =>
              r == Token(None) && c1 == c0 - {uid} && s1 == s0 - {uid} &&
              tr1 == loaded + [RefreshCall(doc.refreshToken.value), StoreDelete(uid), CacheDelete(uid)]
            case Granted(access, ttl) =>
              var fields := RefreshedFields(access, t3, ttl);
              r == Token(Some(access)) && c1 == c0[uid := fields] && s1 == s0[uid := ApplyUpdate(doc, fields)] &&
              tr1 == loaded + [RefreshCall(doc.refreshToken.value), StoreUpdate(uid, fields), CacheWrite(uid, fields)])
    // A cache hit that went stale between the first and second clock readings: the record is
    // refreshed as if loaded, but `doc_ref` was never bound on this path.
    && (CachedToken(c0, uid, t1).Some? && Expired(c0[uid].expiredTs, t2) ==>
          var rec := c0[uid];
          if rec.refreshToken.None? then
            r == Crashed(MissingRefreshToken) && c1 == c0 && s1 == s0 && tr1 == tr0
          else match refresh
            case Revoked =>
              r == Token(None) && c1 == c0 - {uid} && s1 == s0 - {uid} &&
              tr1 == tr0 + [RefreshCall(rec.refreshToken.value), StoreDelete(uid), CacheDelete(uid)]
            case Granted(_, _) =>
              r == Crashed(UnboundDocRef) && c1 == c0 && s1 == s0 &&
              tr1 == tr0 + [RefreshCall(rec.refreshToken.value)])
  }

  /** Whatever path `get_access_token` takes, a coherent cache and store stay coherent. */
  lemma TokenStepKeepsCoherent(c0: map<string, TokenRecord>, s0: map<string, TokenRecord>, tr0: seq<Effect>,
                               uid: string, t1: int, t2: int, t3: int, refresh: RefreshOutcome,
                               r: TokenResult, c1: map<string, TokenRecord>, s1: map<string, TokenRecord>, tr1: seq<Effect>)
    requires TokenStep(c0, s0, tr0, uid, t1, t2, t3, refresh, r, c1, s1, tr1)
    requires Coherent(c0, s0)
    ensures Coherent(c1, s1)
  {
    if CachedToken(c0, uid, t1).None? && uid in s0 && Expired(s0[uid].expiredTs, t2)
       && s0[uid].refreshToken.Some? && refresh.Granted? {
      var fields := RefreshedFields(refresh.accessToken, t3, refresh.expiresIn);
      assert c1 == c0[uid := fields] && s1 == s0[uid := ApplyUpdate(s0[uid], fields)];
      forall u | u in c1
        ensures u in s1 && c1[u].accessToken == s1[u].accessToken && c1[u].expiredTs == s1[u].expiredTs
        ensures c1[u].refreshToken.Some? ==> c1[u].refreshToken == s1[u].refreshToken
      {
        if u != uid {
          assert u in c0;
        }
      }
    }
  }

  class TokenManager {
    /** `CACHE_TOKEN_INFO`. */
    var cache: map<string, TokenRecord>
    /** The `users` collection of the document store. */
    var store: map<string, TokenRecord>
    /** Every effect performed so far, oldest first. */
    var trace: seq<Effect>

    /** Process start: an empty cache in front of the persisted documents. */
    constructor (persisted: map<string, TokenRecord>)
      ensures cache == map[] && store == persisted && trace == []
      ensures Coherent(cache, store)
    {
      cache, store, trace := map[], persisted, [];
    }

    /** `delete_cache_token_info`: drop the cache entry for `uid`, if any. */
    method DeleteCacheTokenInfo(uid: string)
      modifies this`cache, this`trace
      ensures uid !in cache
      ensures cache == old(cache) - {uid}
      ensures trace == old(trace) + (if uid in old(cache) then [CacheDelete(uid)] else [])
    {
      if uid in cache {
        cache := cache - {uid};
        trace := trace + [CacheDelete(uid)];
      }
    }

    /**
     * `get_access_token`. The clock is read up to three times: `t1` inside the cache
     * lookup, `t2` for the expiry check and `t3` when the new expiry is computed.
     */
    method GetAccessToken(uid: string, t1: int, t2: int, t3: int, refresh: RefreshOutcome)
      returns (r: TokenResult)
      requires t1 <= t2 <= t3
      modifies this`cache, this`store, this`trace
      ensures TokenStep(old(cache), old(store), old(trace), uid, t1, t2, t3, refresh, r, cache, store, trace)
      // The cache never disagrees with the store it mirrors.
      ensures old(Coherent(cache, store)) ==> Coherent(cache, store)
    {
      var tokenInfo := CachedToken(cache, uid, t1);
      var loadedFromStore := false;
      if tokenInfo.None? {
        trace := trace + [StoreGet(uid)];
        if uid !in store {
          return Token(None);
        }
        tokenInfo := Some(store[uid]);
        cache := cache[uid := store[uid]];
        trace := trace + [CacheWrite(uid, store[uid])];
        loadedFromStore := true;
      }
      var info := tokenInfo.value;
      var accessToken := info.accessToken;

      if Expired(info.expiredTs, t2) {
        if info.refreshToken.None? {
          return Crashed(MissingRefreshToken);
        }
        trace := trace + [RefreshCall(info.refreshToken.value)];
        match refresh {
          case Revoked =>
            store := store - {uid};
            trace := trace + [StoreDelete(uid)];
            DeleteCacheTokenInfo(uid);
            return Token(None);
          case Granted(access, ttl) =>
            var fields := RefreshedFields(access, t3, ttl);
            if !loadedFromStore {
              return Crashed(UnboundDocRef);
            }
            store := store[uid := ApplyUpdate(store[uid], fields)];
            trace := trace + [StoreUpdate(uid, fields)];
            accessToken := Some(access);
            cache := cache[uid := fields];
            trace := trace + [CacheWrite(uid, fields)];
        }
      }
      return Token(accessToken);
    }
  }

  /**
   * Two requests in a row after the refresh token was revoked: the first deletes the
   * user's document and cache entry and yields `None`; the second finds nothing
   * anywhere and also yields `None`, after a single store read and nothing else.
   */
  method RevokedThenNoData(tm: TokenManager, uid: string, t1: int, t2: int, t3: int, later: int)
    returns (first: TokenResult, second: TokenResult)
    requires t1 <= t2 <= t3 <= later
    requires uid in tm.store && tm.store[uid].refreshToken.Some? && Expired(tm.store[uid].expiredTs, t2)
    requires uid !in tm.cache
    modifies tm
    ensures first == Token(None) && second == Token(None)
    ensures uid !in tm.store && uid !in tm.cache
    ensures tm.trace == old(tm.trace) +
      [StoreGet(uid), CacheWrite(uid, old(tm.store[uid])), RefreshCall(old(tm.store[uid].refreshToken.value)),
       StoreDelete(uid), CacheDelete(uid), StoreGet(uid)]
  {
    first := tm.GetAccessToken(uid, t1, t2, t3, Revoked);
    second := tm.GetAccessToken(uid, later, later, later, Revoked);
  }

  /**
   * A successful refresh makes the next request before the new expiry a quiet cache hit:
   * the fresh token comes back with no store read, no refresh call and no cache write.
   */
  method RefreshThenQuietHit(tm: TokenManager, uid: string, t1: int, t2: int, t3: int, later: int,
                             access: string, ttl: int, unused: RefreshOutcome)
    returns (first: TokenResult, second: TokenResult)
    requires t1 <= t2 <= t3 <= later < t3 + ttl
    requires uid in tm.store && tm.store[uid].refreshToken.Some? && Expired(tm.store[uid].expiredTs, t2)
    requires uid !in tm.cache
    modifies tm
    ensures first == Token(Some(access)) && second == Token(Some(access))
    ensures uid in tm.cache && tm.cache[uid] == RefreshedFields(access, t3, ttl)
    ensures uid in tm.store && tm.store[uid] == TokenRecord(Some(access), old(tm.store[uid].refreshToken), Some(t3 + ttl))
    // The whole trace: the first request's load, refresh, store update and cache write; nothing for the second.
    ensures tm.trace == old(tm.trace) +
      [StoreGet(uid), CacheWrite(uid, old(tm.store[uid])), RefreshCall(old(tm.store[uid].refreshToken.value)),
       StoreUpdate(uid, RefreshedFields(access, t3, ttl)), CacheWrite(uid, RefreshedFields(access, t3, ttl))]
  {
    first := tm.GetAccessToken(uid, t1, t2, t3, Granted(access, ttl));
    second := tm.GetAccessToken(uid, later, later, later, unused);
  }
}
