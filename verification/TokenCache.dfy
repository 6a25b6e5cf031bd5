/** The access token of the issuer's API: internal/integration/viettel_client.go (getToken, login,
    doAuthenticatedRequest) over internal/repository/postgres/access_token_repo.go, with the expiry
    test of internal/domain/access_token.go. */
module TokenCache {
  import opened Domain
  import opened Viettel

  const SECOND: Time := 1_000_000_000
  const TOKEN_BUFFER: Time := 300 * SECOND
  const DEFAULT_EXPIRES_IN := 3600
  /** The first of January of the year 1, which stands for a time that was never set. */
  const ZERO_TIME: Time := -62_135_596_800 * SECOND

  /** A stored token; the provider is its key. The empty id stands for one that was never set. */
  datatype AccessToken = AccessToken(
    id: string, accessToken: string, tokenType: string, expiresAt: Time,
    refreshToken: string, scope: string, rawResponse: string, createdAt: Time, updatedAt: Time)

  predicate IsExpiredWithBuffer(t: AccessToken, buffer: Time, now: Time) {
    now + buffer > t.expiresAt
  }

  datatype AuthPayload = AuthPayload(accessToken: string, tokenType: string, expiresIn: int)

  /** The answer to a login request. */
  datatype AuthReply = AuthUnreachable | AuthHttp(status: int, raw: string, decoded: Option<AuthPayload>)

  /** What one pass through the lock meets. */
  datatype Visit = Visit(
    found: bool,                 // the token row can be read
    checked: Time,               // the clock at the expiry test
    auth: AuthReply,
    issued: Time,                // the clock after the login answer
    saved: Time,                 // the clock when the token is written
    freshId: string,             // the id a new token row would get
    stored: bool)                // the write succeeds

  const AUTH_FAILED := AppError(ThirdParty, "", None)

  /** A login answer that yields a token. */
  function Granted(auth: AuthReply): Option<AuthPayload> {
    if auth.AuthHttp? && auth.status == 200 && auth.decoded.Some? && auth.decoded.value.accessToken != ""
    then auth.decoded
    else None
  }

  function Lifetime(expiresIn: int): Time {
    (if expiresIn <= 0 then DEFAULT_EXPIRES_IN else expiresIn) * SECOND
  }

  /** The row after an upsert: id and creation time of an existing row survive. */
  function Upserted(previous: Option<AccessToken>, token: AccessToken, freshId: string, now: Time): AccessToken {
    token.(id := if previous.Some? then previous.value.id else if token.id == "" then freshId else token.id,
           createdAt := if previous.Some? then previous.value.createdAt
                        else if token.createdAt == ZERO_TIME then now else token.createdAt,
           updatedAt := now)
  }

  /** What a login leaves in the table, given what was there. */
  function Replaced(previous: Option<AccessToken>, grant: AuthPayload, v: Visit): Option<AccessToken>
    requires v.auth.AuthHttp?
  {
    if v.stored then
      var token := AccessToken("", grant.accessToken, grant.tokenType, v.issued + Lifetime(grant.expiresIn),
                               "", "", v.auth.raw, ZERO_TIME, ZERO_TIME);
      Some(Upserted(previous, token, v.freshId, v.saved))
    else previous
  }

  /** The cached token may be handed out. */
  predicate Usable(cache: Option<AccessToken>, v: Visit) {
    v.found && cache.Some? && v.checked + TOKEN_BUFFER <= cache.value.expiresAt
  }

  /** One pass through the lock as a function of the cache: the token handed out, the cache afterwards, whether
      a login was asked for, and when one was granted. */
  datatype Got = Got(token: Result<string, AppError>, cache: Option<AccessToken>, asked: bool, login: Option<Time>)

  function GetOutcome(cache: Option<AccessToken>, v: Visit): Got {
    if Usable(cache, v) then Got(Ok(cache.value.accessToken), cache, false, None)
    else LoginOutcome(cache, v)
  }

  function LoginOutcome(cache: Option<AccessToken>, v: Visit): Got {
    match Granted(v.auth)
    case None => Got(Err(AUTH_FAILED), cache, true, None)
    case Some(grant) => Got(Ok(grant.accessToken), Replaced(cache, grant, v), true, Some(v.issued))
  }

  // ---------- What a login is for ----------

  /** The issuer grants a token: a 200 answer that decodes with a non-empty access token. */
  predicate Grants(auth: AuthReply, token: string) {
    && auth.AuthHttp? && auth.status == 200 && auth.decoded.Some?
    && auth.decoded.value.accessToken == token && token != ""
  }

  /** The row that keeps a granted token, for as long as the issuer says or an hour. */
  predicate Keeps(row: AccessToken, v: Visit)
    requires v.auth.AuthHttp? && v.auth.decoded.Some?
  {
    var payload := v.auth.decoded.value;
    && row.accessToken == payload.accessToken && row.tokenType == payload.tokenType && row.rawResponse == v.auth.raw
    && row.expiresAt == v.issued + (if payload.expiresIn > 0 then payload.expiresIn else 3600) * SECOND
    && row.updatedAt == v.saved
  }

  /** What a login does: the granted token or an error; a stored token is the one in the cache from now on,
      and nothing else changes the cache. */
  predicate LoggedIn(v: Visit, r: Result<string, AppError>, before: Option<AccessToken>, after: Option<AccessToken>) {
    && (r.Err? ==> r.error.code == ThirdParty && r.error.viettel.None?)
    && (r.Ok? ==> Grants(v.auth, r.value))
    && (r.Err? ==>
          || v.auth.AuthUnreachable? || v.auth.status != 200 || v.auth.decoded.None?
          || v.auth.decoded.value.accessToken == "")
    && (r.Ok? && v.stored ==> after.Some? && Keeps(after.value, v))
    && (r.Ok? && v.stored && before.Some? ==>
          after.value.id == before.value.id && after.value.createdAt == before.value.createdAt)
    && (r.Err? || !v.stored ==> after == before)
  }

  lemma LoginLogsIn(cache: Option<AccessToken>, v: Visit)
    ensures var got := LoginOutcome(cache, v); LoggedIn(v, got.token, cache, got.cache)
  {
  }

  /** One row per provider; setting a token keeps the row's id and creation time. */
  class AccessTokenRepo {
    var rows: map<string, AccessToken>

    constructor ()
      ensures rows == map[]
    {
      rows := map[];
    }

    function Lookup(provider: string): Option<AccessToken>
      reads this
    {
      if provider in rows then Some(rows[provider]) else None
    }

    method Get(provider: string, found: bool) returns (r: Result<AccessToken, AppError>)
      ensures r.Ok? <==> found && provider in rows
      ensures r.Ok? ==> r.value == rows[provider]
      ensures r.Err? ==> r.error.code == if found then NotFound else Internal
    {
      if !found {
        return Err(AppError(Internal, "", None));
      }
      if provider !in rows {
        return Err(AppError(NotFound, "", None));
      }
      return Ok(rows[provider]);
    }

    method Set(provider: string, token: AccessToken, freshId: string, now: Time,
               stored: bool) returns (err: Option<AppError>)
      modifies this
      ensures err.None? <==> stored
      ensures rows == if stored then old(rows)[provider := Upserted(old(Lookup(provider)), token, freshId, now)]
                      else old(rows)
      ensures stored ==>
                var row := rows[provider];
                && row.accessToken == token.accessToken && row.tokenType == token.tokenType
                && row.expiresAt == token.expiresAt && row.refreshToken == token.refreshToken
                && row.scope == token.scope && row.rawResponse == token.rawResponse && row.updatedAt == now
                && (provider in old(rows) ==>
                      row.id == old(rows)[provider].id && row.createdAt == old(rows)[provider].createdAt)
                && (provider !in old(rows) ==>
                      && row.id == (if token.id == "" then freshId else token.id)
                      && row.createdAt == (if token.createdAt == ZERO_TIME then now else token.createdAt))
    {
      var row := token;
      if row.id == "" {
        row := row.(id := freshId);
      }
      row := row.(updatedAt := now);
      if row.createdAt == ZERO_TIME {
        row := row.(createdAt := now);
      }
      if !stored {
        return Some(AppError(Internal, "", None));
      }
      if provider in rows {
        var kept := rows[provider];
        kept := kept.(accessToken := row.accessToken, tokenType := row.tokenType, expiresAt := row.expiresAt);
        kept := kept.(refreshToken := row.refreshToken, scope := row.scope, rawResponse := row.rawResponse);
        kept := kept.(updatedAt := row.updatedAt);
        rows := rows[provider := kept];
      } else {
        rows := rows[provider := row];
      }
      return None;
    }

    /** Whatever other holders of the lock do to the table meanwhile. */
    method Meanwhile(others: map<string, AccessToken>)
      modifies this
      ensures rows == others
    {
      rows := others;
    }
  }

  const PROVIDER := "viettel_sinvoice"

  class ViettelClient {
    const tokens: AccessTokenRepo

    constructor (tokens: AccessTokenRepo)
      ensures this.tokens == tokens
    {
      this.tokens := tokens;
    }

    ghost function Cache(): Option<AccessToken>
      reads tokens
    {
      tokens.Lookup(PROVIDER)
    }

    /** Under the lock: the cached token if it lasts, else a new login. */
    method GetToken(v: Visit) returns (r: Result<string, AppError>, asked: bool, login: Option<Time>)
      modifies tokens
      ensures Got(r, Cache(), asked, login) == GetOutcome(old(Cache()), v)
      ensures !asked <==> v.found && old(Cache()).Some? && old(Cache()).value.expiresAt - v.checked >= 300 * SECOND
      ensures !asked ==> r == Ok(old(Cache()).value.accessToken) && Cache() == old(Cache())
      ensures asked ==> LoggedIn(v, r, old(Cache()), Cache())
    {
      var cached := tokens.Get(PROVIDER, v.found);
      if cached.Ok? && !IsExpiredWithBuffer(cached.value, TOKEN_BUFFER, v.checked) {
        return Ok(cached.value.accessToken), false, None;
      }
      r, login := Login(v);
      asked := true;
    }

    /** A token that cannot be stored is used all the same. */
    method Login(v: Visit) returns (r: Result<string, AppError>, login: Option<Time>)
      modifies tokens
      ensures Got(r, Cache(), true, login) == LoginOutcome(old(Cache()), v)
      ensures LoggedIn(v, r, old(Cache()), Cache()) && (login == if r.Ok? then Some(v.issued) else None)
    {
      if v.auth.AuthUnreachable? || v.auth.status != 200 || v.auth.decoded.None? {
        return Err(AUTH_FAILED), None;
      }
      var payload := v.auth.decoded.value;
      if payload.accessToken == "" {
        return Err(AUTH_FAILED), None;
      }
      var expiresIn := payload.expiresIn;
      if expiresIn <= 0 {
        expiresIn := DEFAULT_EXPIRES_IN;
      }
      var token := AccessToken("", payload.accessToken, payload.tokenType, v.issued + expiresIn * SECOND,
                               "", "", v.auth.raw, ZERO_TIME, ZERO_TIME);
      var _ := tokens.Set(PROVIDER, token, v.freshId, v.saved, v.stored);
      return Ok(payload.accessToken), Some(v.issued);
    }

    /** One retry of the same request after a 401, with a token from a fresh login; between the two passes
        through the lock others may change the table to `others`. `sent` lists the requests sent with their
        tokens, `attempts` counts the login requests, `logins` lists the times of those that yielded a token. */
    method DoAuthenticatedRequest<R>(request: R, first: Visit, second: Visit, reply: Reply, retried: Reply,
                                     others: map<string, AccessToken>)
      returns (r: Result<Body, AppError>, sent: seq<(R, string)>, attempts: nat, logins: seq<Time>)
      modifies tokens
      ensures |sent| <= 2 && |logins| <= attempts <= 2
      ensures forall k | 0 <= k < |sent| :: sent[k].0 == request
      ensures |sent| == 1 && !(reply.Http? && reply.status == 401) ==> AnswerFor(reply, r)
      ensures |sent| == 1 && reply.Http? && reply.status == 401 ==> r.Err? && r.error.code == ThirdParty
      ensures |sent| == 2 ==>
                reply.Http? && reply.status == 401 && AnswerFor(retried, r) && Grants(second.auth, sent[1].1)
      ensures |sent| == 2 && second.stored ==> Cache().Some? && Cache().value.accessToken == sent[1].1
      ensures sent == [] ==> r.Err? && r.error.code == ThirdParty
      ensures var got := GetOutcome(old(Cache()), first);
              && (got.token.Err? ==>
                    && sent == [] && r == Err(got.token.error) && Cache() == got.cache
                    && logins == [] && attempts == 1)
              && (got.token.Ok? ==>
                    && |sent| >= 1 && sent[0].1 == got.token.value
                    && (reply.Http? && reply.status == 401 ==>
                          var again :=
                            LoginOutcome(if PROVIDER in others then Some(others[PROVIDER]) else None, second);
                          && Cache() == again.cache && logins == Times(got.login) + Times(again.login)
                          && attempts == (if got.asked then 2 else 1)
                          && (again.token.Ok? ==> |sent| == 2 && sent[1].1 == again.token.value)
                          && (again.token.Err? ==> |sent| == 1 && r == Err(again.token.error)))
                    && (!(reply.Http? && reply.status == 401) ==>
                          && |sent| == 1 && Cache() == got.cache
                          && logins == Times(got.login) && attempts == (if got.asked then 1 else 0)))
    {
      hide AnswerFor;
      sent, attempts, logins := [], 0, [];
      var token, asked, login := GetToken(first);
      if asked {
        attempts := attempts + 1;
      }
      logins := logins + Times(login);
      if token.Err? {
        return Err(token.error), sent, attempts, logins;
      }
      var last := reply;
      sent := sent + [(request, token.value)];
      if reply.Http? && reply.status == 401 {
        tokens.Meanwhile(others);
        token, login := Login(second);
        attempts := attempts + 1;
        logins := logins + Times(login);
        if token.Err? {
          return Err(token.error), sent, attempts, logins;
        }
        sent := sent + [(request, token.value)];
        last := retried;
      }
      r := Interpreted(last);
    }

    /** The rest of the request: what the last answer is taken for. */
    method Interpreted(last: Reply) returns (r: Result<Body, AppError>)
      ensures r == Interpret(last) && AnswerFor(last, r)
    {
      Answered(last);
      match last
      case NoReply(code, message) => return Err(AppError(code, message, None));
      case Http(status, body) =>
        if status == 400 {
          var v := ParseViettelError(body);
          return Err(AppError(ThirdParty, v.description, Some(v)));
        }
        if status < 200 || status >= 300 {
          return Err(AppError(ThirdParty, body.raw, None));
        }
        return Ok(body);
    }
  }

  function Times(login: Option<Time>): seq<Time> {
    if login.Some? then [login.value] else []
  }

  // ---------- The rate of logins ----------

  /** A token handed out without a login is the cached one and has at least 300 seconds left. */
  lemma CachedTokenLasts(cache: Option<AccessToken>, v: Visit)
    ensures var got := GetOutcome(cache, v);
            got.token.Ok? && got.login.None? ==>
              cache.Some? && got.token.value == cache.value.accessToken
              && cache.value.expiresAt - v.checked >= 300 * SECOND
  {
  }

  /** The times of the granted logins that a series of requests without 401s makes. */
  function LoginTimes(cache: Option<AccessToken>, visits: seq<Visit>): seq<Time>
    decreases |visits|
  {
    if visits == [] then []
    else
      var got := GetOutcome(cache, visits[0]);
      Times(got.login) + LoginTimes(got.cache, visits[1..])
  }

  /** The clock does not go back, the token row can be read and written, and every granted token lasts
      at least `least`. */
  predicate Orderly(clock: Time, visits: seq<Visit>, least: Time)
    decreases |visits|
  {
    visits == [] ||
    var v := visits[0];
    && clock <= v.checked <= v.issued <= v.saved && v.found && v.stored
    && (Granted(v.auth).Some? ==> Lifetime(Granted(v.auth).value.expiresIn) >= least)
    && Orderly(v.saved, visits[1..], least)
  }

  /** A cached token with time left keeps the next login away. */
  lemma {:induction false} NextLogin(cache: Option<AccessToken>, visits: seq<Visit>, least: Time, clock: Time,
                                     earliest: Time)
    requires Orderly(clock, visits, least)
    requires cache.Some? ==> earliest <= cache.value.expiresAt - TOKEN_BUFFER
    requires cache.None? ==> earliest <= clock - 1
    ensures var logins := LoginTimes(cache, visits); logins != [] ==> logins[0] > earliest
    decreases |visits|
  {
    if visits != [] {
      var got := GetOutcome(cache, visits[0]);
      if got.login.None? {
        NextLogin(got.cache, visits[1..], least, visits[0].saved, earliest);
      }
    }
  }

  /** Consecutive logins are more than `least - 300 s` apart. */
  predicate Apart(times: seq<Time>, gap: Time) {
    forall k | 0 < k < |times| :: times[k] - times[k - 1] > gap
  }

  lemma ApartPrepended(time: Time, times: seq<Time>, gap: Time)
    requires Apart(times, gap) && (times != [] ==> times[0] > time + gap)
    ensures Apart([time] + times, gap)
  {
    assert forall k | 0 < k < |times| :: times[k] - times[k - 1] > gap;
    forall k | 0 < k < |times| + 1 ensures ([time] + times)[k] - ([time] + times)[k - 1] > gap {
      if k > 1 {
        assert times[k - 1] - times[k - 1 - 1] > gap;
      }
    }
  }

  /** Consecutive logins are more than `least - 300 s` apart. */
  lemma {:induction false} LoginsApart(cache: Option<AccessToken>, visits: seq<Visit>, least: Time, clock: Time)
    requires Orderly(clock, visits, least)
    ensures Apart(LoginTimes(cache, visits), least - TOKEN_BUFFER)
    decreases |visits|
  {
    if visits != [] {
      var v, got := visits[0], GetOutcome(cache, visits[0]);
      var rest := LoginTimes(got.cache, visits[1..]);
      LoginsApart(got.cache, visits[1..], least, v.saved);
      if got.login.Some? {
        NextLogin(got.cache, visits[1..], least, v.saved, v.issued + least - TOKEN_BUFFER);
        ApartPrepended(v.issued, rest, least - TOKEN_BUFFER);
      } else {
        assert LoginTimes(cache, visits) == rest;
      }
    }
  }

  lemma {:induction false} GapsAddUp(times: seq<Time>, gap: Time, i: nat, j: nat)
    requires i < j < |times| && Apart(times, gap)
    ensures times[j] - times[i] > (j - i) * gap
  {
    if i + 1 < j {
      GapsAddUp(times, gap, i, j - 1);
      assert (j - i) * gap == (j - 1 - i) * gap + gap;
    } else {
      assert (j - i) * gap == gap;
    }
  }

  /** Without 401s and with every write stored, any k >= 2 granted logins in a row span more than
      (k - 1) * (least - 300 s), where `least` is the shortest lifetime the issuer grants. */
  lemma LoginRate(cache: Option<AccessToken>, visits: seq<Visit>, least: Time, clock: Time, i: nat, k: nat)
    requires Orderly(clock, visits, least) && k >= 2 && i + k <= |LoginTimes(cache, visits)|
    ensures var logins := LoginTimes(cache, visits);
            logins[i + k - 1] - logins[i] > (k - 1) * (least - 300 * SECOND)
  {
    LoginsApart(cache, visits, least, clock);
    GapsAddUp(LoginTimes(cache, visits), least - TOKEN_BUFFER, i, i + k - 1);
  }

  // ---------- The token handed out is the one last granted ----------

  /** What a series of passes through the lock hands out. */
  function Passes(cache: Option<AccessToken>, visits: seq<Visit>): (gots: seq<Got>)
    ensures |gots| == |visits|
    decreases |visits|
  {
    if visits == [] then []
    else
      var before := Passes(cache, visits[..|visits| - 1]);
      before + [GetOutcome(CacheAfter(cache, before), visits[|visits| - 1])]
  }

  function CacheAfter(cache: Option<AccessToken>, gots: seq<Got>): Option<AccessToken> {
    if gots == [] then cache else gots[|gots| - 1].cache
  }

  /** The cache holds what the latest granted login, if any, was granted, else what it held at first. */
  ghost predicate Latest(cache: Option<AccessToken>, visits: seq<Visit>, gots: seq<Got>, now: Option<AccessToken>)
    requires |gots| == |visits|
  {
    || (now == cache && forall k | 0 <= k < |gots| :: gots[k].login.None?)
    || exists j | 0 <= j < |gots| :: LatestIs(visits, gots, j, now)
  }

  ghost predicate LatestIs(visits: seq<Visit>, gots: seq<Got>, j: nat, now: Option<AccessToken>)
    requires j < |gots| == |visits|
  {
    && gots[j].login.Some? && now.Some? && Grants(visits[j].auth, now.value.accessToken)
    && forall k | j < k < |gots| :: gots[k].login.None?
  }

  lemma LatestGrows(cache: Option<AccessToken>, visits: seq<Visit>, gots: seq<Got>, now: Option<AccessToken>, v: Visit)
    requires |gots| == |visits| && Latest(cache, visits, gots, now) && v.stored
    ensures var got := GetOutcome(now, v); Latest(cache, visits + [v], gots + [got], got.cache)
    ensures var got := GetOutcome(now, v);
            got.token.Ok? ==> got.cache.Some? && got.token.value == got.cache.value.accessToken
  {
    var got := GetOutcome(now, v);
    var visits', gots' := visits + [v], gots + [got];
    if got.login.Some? {
      assert LatestIs(visits', gots', |gots|, got.cache);
    } else {
      assert got.cache == now;
      if j :| 0 <= j < |gots| && LatestIs(visits, gots, j, now) {
        assert LatestIs(visits', gots', j, now);
      } else {
        assert forall k | 0 <= k < |gots'| :: gots'[k].login.None?;
      }
    }
  }

  lemma {:induction false} LatestAfter(cache: Option<AccessToken>, visits: seq<Visit>)
    requires forall k | 0 <= k < |visits| :: visits[k].stored
    ensures Latest(cache, visits, Passes(cache, visits), CacheAfter(cache, Passes(cache, visits)))
    decreases |visits|
  {
    if visits != [] {
      var n := |visits| - 1;
      LatestAfter(cache, visits[..n]);
      var gots := Passes(cache, visits[..n]);
      LatestGrows(cache, visits[..n], gots, CacheAfter(cache, gots), visits[n]);
      assert visits == visits[..n] + [visits[n]];
      hide Latest, GetOutcome;
    }
  }

  /** With every write stored, every token handed out is the access token of the latest granted login up to
      and including this pass, or the one cached at first if there was none. */
  lemma HandsOutLatest(cache: Option<AccessToken>, visits: seq<Visit>)
    requires visits != [] && forall k | 0 <= k < |visits| :: visits[k].stored
    ensures var gots := Passes(cache, visits);
            var last := gots[|gots| - 1];
            last.token.Ok? ==>
              || (cache.Some? && last.token.value == cache.value.accessToken
                  && forall k | 0 <= k < |gots| :: gots[k].login.None?)
              || exists j | 0 <= j < |gots| ::
                   && gots[j].login.Some? && Grants(visits[j].auth, last.token.value)
                   && forall k | j < k < |gots| :: gots[k].login.None?
  {
    var n, gots := |visits| - 1, Passes(cache, visits);
    LatestAfter(cache, visits);
    LatestAfter(cache, visits[..n]);
    var before := Passes(cache, visits[..n]);
    LatestGrows(cache, visits[..n], before, CacheAfter(cache, before), visits[n]);
    hide GetOutcome, Passes;
    var now := CacheAfter(cache, gots);
    if j :| 0 <= j < |gots| && LatestIs(visits, gots, j, now) {
    }
  }
}
