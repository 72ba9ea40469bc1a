/** The OAuth device-code token cache of the Dataverse integration
    (lib/services/dataverse/tokenService.ts).

    One credential record lives in a module-level variable and is mirrored
    in a JSON file so that several server workers see the same login. The
    file is reloaded before every check. Here the variable and the file are
    the two fields of `TokenStore`; the clock (`Date.now()`), the outcome of
    each file write or delete, and the replies of the token endpoint are
    parameters. The pure functions on `Store` say what each operation does
    to the pair, and the class methods are proved to do exactly that. */
module TokenService {
  import opened Wrappers
  import Json

  /** A token is renewed five minutes before it expires. */
  const RefreshBufferMs: int := 5 * 60 * 1000

  datatype TokenCache = TokenCache(accessToken: string, refreshToken: string, expiresAt: int)

  /** What `fs.existsSync` / `readFileSync` / `JSON.parse` find on disk:
      no file, a file whose JSON is a record or `null`, or a file that
      cannot be read or parsed. */
  datatype CacheFile = Missing | Holds(content: Option<TokenCache>) | Corrupt

  /** The in-memory cache together with the file. */
  datatype Store = Store(cache: Option<TokenCache>, file: CacheFile)

  /** The token endpoint's token fields (`access_token`, `refresh_token`,
      `expires_in`); an absent string field is "". */
  datatype TokenReply = TokenReply(accessToken: string, refreshToken: string, expiresIn: int)

  // ---------------------------------------------------------------- pure model

  /** `loadTokenCache`: a readable file replaces the cache, an unreadable
      one resets it, a missing one leaves it alone. */
  function Load(s: Store): (r: Store)
    ensures r.file == s.file
  {
    match s.file
    case Missing => s
    case Holds(c) => Store(c, s.file)
    case Corrupt => Store(None, s.file)
  }

  /** `saveTokenCache`: the file gets the current cache when the write
      succeeds; a failed write is swallowed and leaves the file as it was. */
  function Persist(s: Store, writeOk: bool): (r: Store)
    ensures r.cache == s.cache
  {
    if writeOk then Store(s.cache, Holds(s.cache)) else s
  }

  /** The record `saveTokens` builds from a reply at time `now`. */
  function Record(t: TokenReply, now: int): (c: TokenCache)
    ensures c.accessToken == t.accessToken && c.refreshToken == t.refreshToken
    ensures c.expiresAt - now == t.expiresIn * 1000
  {
    TokenCache(t.accessToken, t.refreshToken, now + t.expiresIn * 1000)
  }

  /** `saveTokens`. */
  function Save(s: Store, t: TokenReply, now: int, writeOk: bool): (r: Store)
    ensures r.cache == Some(Record(t, now))
    ensures writeOk ==> r.file == Holds(Some(Record(t, now)))
    ensures !writeOk ==> r.file == s.file
  {
    Persist(Store(Some(Record(t, now)), s.file), writeOk)
  }

  /** `clearTokens`: the cache becomes null; the file is gone afterwards
      unless it existed and the delete failed. */
  function Clear(s: Store, deleteOk: bool): (r: Store)
    ensures r.cache == None
    ensures deleteOk || s.file == Missing ==> r.file == Missing
    ensures !deleteOk ==> r.file == s.file
  {
    Store(None, if deleteOk then Missing else s.file)
  }

  /** `isTokenExpired`, on a cache value. */
  predicate TokenExpired(c: Option<TokenCache>, now: int)
    ensures TokenExpired(c, now) <==> c.None? || c.value.expiresAt - now <= 5 * 60 * 1000
  {
    c.None? || now >= c.value.expiresAt - RefreshBufferMs
  }

  /** `isAuthenticated`, evaluated on the store after the reload. */
  predicate Authenticated(s: Store, now: int)
    ensures Authenticated(s, now) <==> Load(s).cache.Some? && Load(s).cache.value.expiresAt - now > 5 * 60 * 1000
  {
    Load(s).cache.Some? && !TokenExpired(Load(s).cache, now)
  }

  /** `getTokenExpiresIn`: the whole seconds left, never negative. */
  function ExpiresIn(s: Store, now: int): (r: nat)
    ensures Load(s).cache.None? ==> r == 0
    ensures Load(s).cache.Some? && Load(s).cache.value.expiresAt <= now ==> r == 0
    ensures Load(s).cache.Some? && Load(s).cache.value.expiresAt > now ==>
      r * 1000 <= Load(s).cache.value.expiresAt - now < (r + 1) * 1000
  {
    match Load(s).cache
    case None => 0
    case Some(c) =>
      var remaining := c.expiresAt - now;
      if remaining / 1000 < 0 then 0 else remaining / 1000
  }

  /** A device-code reply as the two endpoints' outcomes can be: the
      request or `response.json()` threw, or a parsed body. */
  datatype PollReply =
    | PollThrew(reason: string)
    | PollBody(error: string, errorDescription: string, tokens: TokenReply)

  datatype PollStatus = Pending | Success | Expired | Failed(error: string)

  /** The status `pollForToken` reports for a reply, before any saving. */
  function Classify(reply: PollReply): (st: PollStatus)
    ensures st == Success <==> reply.PollBody? && reply.error == "" && reply.tokens.accessToken != ""
    ensures st == Pending <==> reply.PollBody? && reply.error == "authorization_pending"
    ensures st == Expired <==> reply.PollBody? && reply.error == "expired_token"
    ensures reply.PollThrew? ==> st == Failed(reply.reason)
    ensures reply.PollBody? && reply.error == "" && reply.tokens.accessToken == "" ==>
      st == Failed("Unbekannte Antwort vom Token-Endpoint")
  {
    match reply
    case PollThrew(reason) => Failed(reason)
    case PollBody(error, description, tokens) =>
      if error != "" then
        if error == "authorization_pending" then Pending
        else if error == "expired_token" then Expired
        else Failed(if description != "" then description else error)
      else if tokens.accessToken != "" then Success
      else Failed("Unbekannte Antwort vom Token-Endpoint")
  }

  /** `pollForToken`: the reported status and the resulting store. Without
      a base URL nothing is requested. Only a success saves. */
  function Poll(s: Store, baseUrl: string, reply: PollReply, now: int, writeOk: bool): (r: (PollStatus, Store))
    ensures baseUrl == "" ==> r == (Failed("DATAVERSE_BASE_URL nicht konfiguriert"), s)
    ensures baseUrl != "" ==> r.0 == Classify(reply)
    ensures r.0 != Success ==> r.1 == s
    ensures r.0 == Success ==> r.1 == Save(s, reply.tokens, now, writeOk)
  {
    if baseUrl == "" then (Failed("DATAVERSE_BASE_URL nicht konfiguriert"), s)
    else
      var st := Classify(reply);
      if st == Success then (st, Save(s, reply.tokens, now, writeOk)) else (st, s)
  }

  /** The refresh request's outcomes: it threw, it came back not ok, or it
      carried new tokens. */
  datatype RefreshReply = RefreshThrew | RefreshRejected(text: string) | Refreshed(tokens: TokenReply)

  /** `refreshAccessToken`: (succeeded, a request was sent, new store). */
  function Refresh(s: Store, reply: RefreshReply, now: int, writeOk: bool): (r: (bool, bool, Store))
    ensures r.1 <==> Load(s).cache.Some? && Load(s).cache.value.refreshToken != ""
    ensures r.0 <==> r.1 && reply.Refreshed?
    ensures !r.0 ==> r.2 == Load(s)
    ensures r.0 ==> r.2 == Save(Load(s), reply.tokens, now, writeOk)
  {
    var l := Load(s);
    if l.cache.None? || l.cache.value.refreshToken == "" then (false, false, l)
    else if reply.Refreshed? then (true, true, Save(l, reply.tokens, now, writeOk))
    else (false, true, l)
  }

  /** `getValidToken`: (token or null, a refresh request was sent, new store). */
  function ValidToken(s: Store, reply: RefreshReply, now: int, writeOk: bool): (r: (Option<string>, bool, Store))
    ensures Load(s).cache.None? ==> r.0.None?
    ensures r.1 ==> Load(s).cache.Some? && TokenExpired(Load(s).cache, now) && Load(s).cache.value.refreshToken != ""
    ensures !r.1 ==> r.2 == Load(s)
  {
    var l := Load(s);
    if l.cache.None? then (None, false, l)
    else if !TokenExpired(l.cache, now) then (Some(l.cache.value.accessToken), false, l)
    else
      var (ok, requested, l2) := Refresh(l, reply, now, writeOk);
      if ok && l2.cache.Some? then (Some(l2.cache.value.accessToken), requested, l2)
      else (None, requested, l2)
  }

  /** What `initiateDeviceCodeFlow` hands to the login page. */
  datatype DeviceCode = DeviceCode(userCode: string, deviceCode: string, verificationUrl: string,
                                   expiresIn: int, interval: Json.Value, message: string)

  /** The device-code endpoint's outcomes. */
  datatype DeviceReply =
    | DeviceThrew(reason: string)
    | DeviceRejected(text: string)
    | DeviceIssued(userCode: string, deviceCode: string, verificationUrl: string,
                   expiresIn: int, interval: Json.Value, message: string)

  /** `initiateDeviceCodeFlow`; a thrown error is `Err`. */
  function InitiateDeviceCodeFlow(baseUrl: string, reply: DeviceReply): (r: Result<DeviceCode>)
    ensures baseUrl == "" ==> r == Err("DATAVERSE_BASE_URL ist nicht konfiguriert")
    ensures r.Ok? <==> baseUrl != "" && reply.DeviceIssued?
    ensures baseUrl != "" && reply.DeviceRejected? ==> r == Err("Device Code Flow fehlgeschlagen: " + reply.text)
    ensures r.Ok? ==> Json.Truthy(r.value.interval)
    ensures r.Ok? && Json.Truthy(reply.interval) ==> r.value.interval == reply.interval
    ensures r.Ok? && !Json.Truthy(reply.interval) ==> r.value.interval == Json.Num(5)
    ensures r.Ok? ==> r.value.deviceCode == reply.deviceCode && r.value.userCode == reply.userCode
                      && r.value.expiresIn == reply.expiresIn
  {
    if baseUrl == "" then Err("DATAVERSE_BASE_URL ist nicht konfiguriert")
    else match reply
      case DeviceThrew(reason) => Err(reason)
      case DeviceRejected(text) => Err("Device Code Flow fehlgeschlagen: " + text)
      case DeviceIssued(u, d, v, e, i, m) =>
        Ok(DeviceCode(u, d, v, e, if Json.Truthy(i) then i else Json.Num(5), m))
  }

  // ---------------------------------------------------------------- properties

  /** Reloading is idempotent: a second `loadTokenCache` changes nothing. */
  lemma LoadIdempotent(s: Store)
    ensures Load(Load(s)) == Load(s)
  {
  }

  /** The load rule of the source: a missing file keeps the in-memory
      cache, an unreadable file resets it, a readable one replaces it. */
  lemma LoadCases(s: Store)
    ensures s.file == Missing ==> Load(s).cache == s.cache
    ensures s.file == Corrupt ==> Load(s).cache == None
    ensures s.file.Holds? ==> Load(s).cache == s.file.content
  {
  }

  /** Expiry is monotone in time: once expired, a token stays expired. */
  lemma ExpiredMonotone(c: Option<TokenCache>, t1: int, t2: int)
    requires TokenExpired(c, t1) && t1 <= t2
    ensures TokenExpired(c, t2)
  {
  }

  /** `isAuthenticated` and `getTokenExpiresIn` agree: an authenticated
      store has more than 300 seconds left, an unauthenticated one at most
      300. */
  lemma AuthenticatedAgreesWithExpiresIn(s: Store, now: int)
    ensures Authenticated(s, now) ==> ExpiresIn(s, now) >= 300
    ensures !Authenticated(s, now) ==> ExpiresIn(s, now) <= 300
  {
  }

  /** A successful save can be read back: reloading yields exactly the new
      record. */
  lemma SaveThenLoad(s: Store, t: TokenReply, now: int)
    ensures Load(Save(s, t, now, true)) == Save(s, t, now, true)
    ensures Load(Save(s, t, now, true)).cache == Some(TokenCache(t.accessToken, t.refreshToken, now + t.expiresIn * 1000))
  {
  }

  /** A token valid for more than five minutes authenticates right after a
      successful save. */
  lemma SaveThenAuthenticated(s: Store, t: TokenReply, now: int)
    requires t.expiresIn > 300
    ensures Authenticated(Save(s, t, now, true), now)
  {
  }

  /** When the write fails and an older file exists, the next reload
      brings the older file back: the new tokens are lost. */
  lemma FailedSaveIsLostOnReload(s: Store, t: TokenReply, now: int)
    requires s.file.Holds?
    ensures Load(Save(s, t, now, false)).cache == s.file.content
  {
  }

  /** After a successful delete (or when there was no file) nobody is
      authenticated and no time is left. */
  lemma ClearThenLoggedOut(s: Store, deleteOk: bool, now: int)
    requires deleteOk || s.file == Missing
    ensures !Authenticated(Clear(s, deleteOk), now)
    ensures ExpiresIn(Clear(s, deleteOk), now) == 0
  {
  }

  /** Without a base URL the poll does not depend on the reply at all: no
      request is made. */
  lemma PollWithoutUrlSendsNothing(s: Store, r1: PollReply, r2: PollReply, now: int, w: bool)
    ensures Poll(s, "", r1, now, w) == Poll(s, "", r2, now, w)
  {
  }

  /** `error_description` is preferred over `error` for other errors. */
  lemma PollErrorMessage(e: string, d: string, t: TokenReply)
    requires e != "" && e != "authorization_pending" && e != "expired_token"
    ensures Classify(PollBody(e, d, t)) == Failed(if d != "" then d else e)
  {
  }

  /** Repeated polling: the replies until the first non-pending one. */
  function PollRun(s: Store, baseUrl: string, replies: seq<PollReply>, now: int, writeOk: bool): (r: (PollStatus, Store))
    ensures replies == [] ==> r == (Pending, s)
    decreases |replies|
  {
    if replies == [] then (Pending, s)
    else
      var (st, s1) := Poll(s, baseUrl, replies[0], now, writeOk);
      if st == Pending then PollRun(s1, baseUrl, replies[1..], now, writeOk) else (st, s1)
  }

  /** Any number of pending replies followed by a success saves exactly
      once, and the store is the one saved from the success reply. */
  lemma {:induction false} PendingThenSuccess(s: Store, baseUrl: string, pending: seq<PollReply>, last: PollReply, now: int, w: bool)
    requires baseUrl != ""
    requires forall i :: 0 <= i < |pending| ==> Classify(pending[i]) == Pending
    requires Classify(last) == Success
    ensures PollRun(s, baseUrl, pending + [last], now, w) == (Success, Save(s, last.tokens, now, w))
    decreases |pending|
  {
    if pending == [] {
      assert pending + [last] == [last];
    } else {
      assert (pending + [last])[0] == pending[0];
      assert (pending + [last])[1..] == pending[1..] + [last];
      PendingThenSuccess(s, baseUrl, pending[1..], last, now, w);
    }
  }

  /** Pending replies never touch the store. */
  lemma {:induction false} PendingRunKeepsStore(s: Store, baseUrl: string, replies: seq<PollReply>, now: int, w: bool)
    requires forall i :: 0 <= i < |replies| ==> Classify(replies[i]) == Pending
    ensures PollRun(s, baseUrl, replies, now, w).1 == s
    decreases |replies|
  {
    if replies != [] {
      PendingRunKeepsStore(s, baseUrl, replies[1..], now, w);
    }
  }

  /** `refreshAccessToken` sends nothing when there is no refresh token. */
  lemma NoRefreshTokenNoRequest(s: Store, reply: RefreshReply, now: int, w: bool)
    requires Load(s).cache.None? || Load(s).cache.value.refreshToken == ""
    ensures Refresh(s, reply, now, w) == (false, false, Load(s))
  {
  }

  /** `getValidToken` without a cache: null, nothing sent. */
  lemma ValidTokenNoCache(s: Store, reply: RefreshReply, now: int, w: bool)
    requires Load(s).cache.None?
    ensures ValidToken(s, reply, now, w) == (None, false, Load(s))
  {
  }

  /** A fresh token is returned as stored, without a refresh. */
  lemma ValidTokenFresh(s: Store, reply: RefreshReply, now: int, w: bool)
    requires Authenticated(s, now)
    ensures ValidToken(s, reply, now, w) == (Some(Load(s).cache.value.accessToken), false, Load(s))
  {
  }

  /** A stale token leads to exactly one refresh attempt when a refresh
      token is stored; on failure the result is null and the record is
      the reloaded one, unchanged. */
  lemma ValidTokenStale(s: Store, reply: RefreshReply, now: int, w: bool)
    requires Load(s).cache.Some? && !Authenticated(s, now)
    ensures ValidToken(s, reply, now, w).1 <==> Load(s).cache.value.refreshToken != ""
    ensures !reply.Refreshed? ==> ValidToken(s, reply, now, w).0 == None && ValidToken(s, reply, now, w).2 == Load(s)
    ensures reply.Refreshed? && Load(s).cache.value.refreshToken != "" ==>
      ValidToken(s, reply, now, w).0 == Some(reply.tokens.accessToken)
  {
    LoadIdempotent(s);
  }

  /** Whatever happens, `getValidToken` returns either nothing or the
      access token of the record it leaves in memory. */
  lemma ValidTokenIsCached(s: Store, reply: RefreshReply, now: int, w: bool)
    ensures var (tok, _, s2) := ValidToken(s, reply, now, w);
      tok.Some? ==> s2.cache.Some? && tok.value == s2.cache.value.accessToken
  {
  }

  // ---------------------------------------------------------------- the stateful service

  /** The module state of tokenService.ts: `tokenCache` and its file. */
  class TokenStore {
    var cache: Option<TokenCache>
    var file: CacheFile

    /** Module start: ``let tokenCache = null``, whatever is on disk. */
    constructor (onDisk: CacheFile)
      ensures cache == None && file == onDisk
    {
      cache := None;
      file := onDisk;
    }

    function Snapshot(): Store
      reads this
    {
      Store(cache, file)
    }

    method LoadTokenCache()
      modifies this
      ensures Snapshot() == Load(old(Snapshot()))
    {
      match file
      case Missing =>
      case Holds(c) => cache := c;
      case Corrupt => cache := None;
    }

    method SaveTokenCache(writeOk: bool)
      modifies this
      ensures Snapshot() == Persist(old(Snapshot()), writeOk)
    {
      if writeOk {
        file := Holds(cache);
      }
    }

    method IsTokenExpired(now: int) returns (expired: bool)
      ensures expired == TokenExpired(cache, now)
    {
      if cache.None? {
        return true;
      }
      expired := now >= cache.value.expiresAt - RefreshBufferMs;
    }

    method IsAuthenticated(now: int) returns (b: bool)
      modifies this
      ensures b == Authenticated(old(Snapshot()), now)
      ensures Snapshot() == Load(old(Snapshot()))
    {
      LoadTokenCache();
      var expired := IsTokenExpired(now);
      b := cache.Some? && !expired;
    }

    method GetTokenExpiresIn(now: int) returns (seconds: int)
      modifies this
      ensures seconds == ExpiresIn(old(Snapshot()), now)
      ensures Snapshot() == Load(old(Snapshot()))
    {
      LoadTokenCache();
      if cache.None? {
        return 0;
      }
      var remaining := cache.value.expiresAt - now;
      seconds := if remaining / 1000 > 0 then remaining / 1000 else 0;
    }

    method SaveTokens(t: TokenReply, now: int, writeOk: bool)
      modifies this
      ensures Snapshot() == Save(old(Snapshot()), t, now, writeOk)
    {
      cache := Some(TokenCache(t.accessToken, t.refreshToken, now + t.expiresIn * 1000));
      SaveTokenCache(writeOk);
    }

    method ClearTokens(deleteOk: bool)
      modifies this
      ensures Snapshot() == Clear(old(Snapshot()), deleteOk)
    {
      cache := None;
      if file != Missing && deleteOk {
        file := Missing;
      }
    }

    method PollForToken(baseUrl: string, reply: PollReply, now: int, writeOk: bool) returns (status: PollStatus)
      modifies this
      ensures (status, Snapshot()) == Poll(old(Snapshot()), baseUrl, reply, now, writeOk)
    {
      if baseUrl == "" {
        return Failed("DATAVERSE_BASE_URL nicht konfiguriert");
      }
      match reply
      case PollThrew(reason) =>
        status := Failed(reason);
      case PollBody(error, description, tokens) =>
        if error != "" {
          if error == "authorization_pending" {
            return Pending;
          }
          if error == "expired_token" {
            return Expired;
          }
          return Failed(if description != "" then description else error);
        }
        if tokens.accessToken != "" {
          SaveTokens(tokens, now, writeOk);
          return Success;
        }
        status := Failed("Unbekannte Antwort vom Token-Endpoint");
    }

    method RefreshAccessToken(reply: RefreshReply, now: int, writeOk: bool) returns (ok: bool, requested: bool)
      modifies this
      ensures (ok, requested, Snapshot()) == Refresh(old(Snapshot()), reply, now, writeOk)
    {
      LoadTokenCache();
      if cache.None? || cache.value.refreshToken == "" {
        return false, false;
      }
      requested := true;
      match reply
      case Refreshed(tokens) =>
        SaveTokens(tokens, now, writeOk);
        ok := true;
      case _ =>
        ok := false;
    }

    method GetValidToken(reply: RefreshReply, now: int, writeOk: bool) returns (token: Option<string>, requested: bool)
      modifies this
      ensures (token, requested, Snapshot()) == ValidToken(old(Snapshot()), reply, now, writeOk)
    {
      LoadTokenCache();
      if cache.None? {
        return None, false;
      }
      var expired := IsTokenExpired(now);
      if !expired {
        return Some(cache.value.accessToken), false;
      }
      var refreshed;
      refreshed, requested := RefreshAccessToken(reply, now, writeOk);
      if refreshed && cache.Some? {
        token := Some(cache.value.accessToken);
      } else {
        token := None;
      }
    }
  }
}
