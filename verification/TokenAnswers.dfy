/**
  What `get_token` and `normalize_auth` answer, spelled out. Instants are microseconds.
 */
module TokenAnswers {
  import opened Wrappers
  import opened Configuration
  import opened Models
  import opened Text
  import opened Provider
  import opened Tokens

  // ---------------------------------------------------------------------------------------------
  // normalize_auth
  // ---------------------------------------------------------------------------------------------

  /** The text of an object: an opening brace after nothing but white space. */
  predicate LooksLikeAnObject(text: string) {
    exists i | 0 <= i < |text| :: text[i] == '{' && forall j | 0 <= j < i :: IsSpace(text[j])
  }

  predicate HasAuthData(dec: Decoders, body: Dict, data: Json) {
    && "data" in body
    && if body["data"].JStr? && LooksLikeAnObject(body["data"].text) then dec.loads(body["data"].text) == Some(data)
       else data == body["data"]
  }

  /** The token is the member `accessToken` of an object, or the data itself. */
  predicate HasToken(data: Json, token: string) {
    match data
    case JObj(fields) => "accessToken" in fields && fields["accessToken"] == JStr(token)
    case JStr(text) => text == token
    case _ => false
  }

  /** The bound that the response reports: an absolute instant comes before a lifetime. */
  predicate Reports(dec: Decoders, data: Json, now: int, bound: Option<int>) {
    match data
    case JObj(fields) =>
      if "expiresAt" in fields && fields["expiresAt"] != JNull then bound == dec.isoInstant(fields["expiresAt"])
      else if "expiresIn" in fields && fields["expiresIn"] != JNull then
        match dec.microseconds(fields["expiresIn"])
        case Some(lifetime) => bound == Some(now + lifetime)
        case None => bound == None
      else bound == None
    case _ => bound == None
  }

  ghost predicate AuthAnswer(dec: Decoders, body: Dict, now: int, result: AuthResult) {
    && "success" in body && body["success"] == JBool(true)
    && exists data, reported ::
         && HasAuthData(dec, body, data) && HasToken(data, result.token) && 1 <= |result.token| <= 32768
         && Reports(dec, data, now, reported) && IsEarliest(result.expiry, {dec.jwtExp(result.token), reported})
  }

  lemma {:induction false} BraceAfterSpace(text: string)
    ensures StripLeft(text) != "" && StripLeft(text)[0] == '{' <==> LooksLikeAnObject(text)
  {
    if text != "" && IsSpace(text[0]) {
      BraceAfterSpace(text[1..]);
      if LooksLikeAnObject(text[1..]) {
        var i :| 0 <= i < |text[1..]| && text[1..][i] == '{' && forall j | 0 <= j < i :: IsSpace(text[1..][j]);
        assert text[i + 1] == '{' && forall j | 0 <= j < i + 1 :: j > 0 ==> text[j] == text[1..][j - 1];
      }
      if LooksLikeAnObject(text) {
        var i :| 0 <= i < |text| && text[i] == '{' && forall j | 0 <= j < i :: IsSpace(text[j]);
        assert i > 0 && text[1..][i - 1] == '{' && forall j | 0 <= j < i - 1 :: text[1..][j] == text[j + 1];
      }
    }
  }

  lemma AuthDataIsFound(dec: Decoders, body: Dict, data: Json)
    ensures AuthData(dec, body) == Some(data) <==> HasAuthData(dec, body, data)
  {
    if "data" in body && body["data"].JStr? { BraceAfterSpace(body["data"].text); }
  }

  lemma ReportIsRead(dec: Decoders, data: Json, now: int, bound: Option<int>)
    ensures ReportedExpiry(dec, data, now) == bound <==> Reports(dec, data, now, bound)
  {
  }

  lemma OneEarliest(a: Option<int>, b: Option<int>, bounds: set<Option<int>>)
    requires IsEarliest(a, bounds) && IsEarliest(b, bounds)
    ensures a == b
  {
  }

  /** An authentication succeeds exactly on such a body, with exactly that token and expiry. */
  lemma AuthenticationIffToken(dec: Decoders, body: Dict, now: int, result: AuthResult)
    ensures NormalizeAuth(dec, body, now) == Good(result) <==> AuthAnswer(dec, body, now, result)
    ensures !NormalizeAuth(dec, body, now).Good? ==> NormalizeAuth(dec, body, now) == Bad(Error(MalformedAuth))
  {
    if NormalizeAuth(dec, body, now) == Good(result) {
      var data := AuthData(dec, body).value;
      KnownExpiryIsTheEarliest(dec, body, now);
      AuthDataIsFound(dec, body, data);
      ReportIsRead(dec, data, now, ReportedExpiry(dec, data, now));
      assert HasAuthData(dec, body, data) && HasToken(data, result.token);
    }
    if AuthAnswer(dec, body, now, result) {
      var data, reported :|
        && HasAuthData(dec, body, data) && HasToken(data, result.token) && 1 <= |result.token| <= 32768
        && Reports(dec, data, now, reported) && IsEarliest(result.expiry, {dec.jwtExp(result.token), reported});
      AuthDataIsFound(dec, body, data);
      ReportIsRead(dec, data, now, reported);
      KnownExpiryIsTheEarliest(dec, body, now);
      OneEarliest(result.expiry, NormalizeAuth(dec, body, now).value.expiry, {dec.jwtExp(result.token), reported});
    }
  }

  /** The code of every failing authentication. */
  lemma AuthErrorCodes(dec: Decoders, exchange: Exchange, now: int)
    requires Authenticate(dec, exchange, now).Err?
    ensures var code := Authenticate(dec, exchange, now).error.code;
      match exchange
      case NotSent => code == Unavailable
      case Lost => code == Unavailable
      case Answered(status, body) =>
        if 200 <= status <= 299 then code == if body.Object? then MalformedAuth else MalformedResponse
        else if status in {400, 422} then code == ValidationError
        else if status == 401 then code == AuthenticationError
        else if status == 403 then code == AuthorizationError
        else if status == 404 then code == EndpointError
        else if status == 429 then code == RateLimited
        else if status >= 500 then code == Unavailable
        else code == HttpError
  {
  }

  // ---------------------------------------------------------------------------------------------
  // get_token
  // ---------------------------------------------------------------------------------------------

  /** The cached value a call finds at `readAt`. */
  predicate Cached(cache: Cache, account: Account, at: int, stored: Stored) {
    var key := CacheKey(account.room, account.version);
    key in cache && at < cache[key].deadline && cache[key].stored == stored
  }

  predicate NothingCached(cache: Cache, account: Account, at: int) {
    var key := CacheKey(account.room, account.version);
    key in cache ==> cache[key].deadline <= at
  }

  /** The call asks the provider: it is forced, or what is cached is missing, unreadable or inside the skew. */
  ghost predicate Asks(skew: nat, cache: Cache, account: Account, c: Circumstances) {
    || c.force || NothingCached(cache, account, c.readAt) || Cached(cache, account, c.readAt, Malformed)
    || exists token, expiry ::
         Cached(cache, account, c.readAt, Item(token, Some(expiry))) && expiry - c.checkedAt <= skew * 1_000_000
  }

  /** The answer lasts for at least one second beyond the skew. */
  predicate LastsLongEnough(skew: nat, expiry: Option<int>, at: int) {
    expiry.Some? ==> expiry.value - at >= (skew + 1) * 1_000_000
  }

  /** The entry keeps the answer for a minute, or for its whole seconds beyond the skew. */
  ghost predicate Keeps(skew: nat, result: AuthResult, c: Circumstances, entry: Entry) {
    && entry.stored == Item(result.token, result.expiry)
    && match result.expiry
       case None => entry.deadline == c.storedAt + 60 * 1_000_000
       case Some(expiry) =>
         exists seconds: nat ::
           && entry.deadline == c.storedAt + seconds * 1_000_000
           && seconds * 1_000_000 <= expiry - c.ttlAt - skew * 1_000_000 < (seconds + 1) * 1_000_000
  }

  /** The cache without an unreadable entry that the call has found. */
  ghost predicate Cleaned(cache: Cache, account: Account, c: Circumstances, after: Cache) {
    after == if !c.force && Cached(cache, account, c.readAt, Malformed)
             then cache - {CacheKey(account.room, account.version)} else cache
  }

  /** Everything a call can do, by what it meets. */
  ghost predicate Answers(
    skew: nat, cache: Cache, account: Account, c: Circumstances, after: Cache, outcome: Outcome)
  {
    var key := CacheKey(account.room, account.version);
    if !account.isActive then after == cache && outcome == Fails(ProviderError(RoomInactive, false, None, None))
    else if c.lock.Busy? then after == cache && outcome == Fails(ProviderError(AuthBusy, false, None, None))
    else
      && (c.lock.Expired? ==> outcome == Fails(ProviderError(AuthBusy, false, None, None)))
      && if !Asks(skew, cache, account, c) then
           && after == cache && key in cache
           && (c.lock.Held? ==> outcome == match cache[key].stored
                                           case Item(token, expiry) => Token(token, expiry)
                                           case _ => Escapes)
         else
           match c.auth
           case Err(error) => Cleaned(cache, account, c, after) && (c.lock.Held? ==> outcome == Fails(error))
           case Ok(result) =>
             if LastsLongEnough(skew, result.expiry, c.ttlAt) then
               && key in after && Keeps(skew, result, c, after[key])
               && (forall other | other != key :: other in after <==> other in cache)
               && (forall other | other != key && other in cache :: after[other] == cache[other])
               && (c.lock.Held? ==> outcome == Token(result.token, result.expiry))
             else
               && Cleaned(cache, account, c, after)
               && (c.lock.Held? ==> outcome == Fails(ProviderError(TokenExpired, false, None, None)))
  }

  lemma AuthenticatesIffAsks(skew: nat, cache: Cache, account: Account, c: Circumstances)
    requires account.isActive && !c.lock.Busy?
    ensures Authenticates(skew, cache, account, c) <==> Asks(skew, cache, account, c)
  {
    var live := LiveEntry(cache, KeyOf(account), c.readAt);
    if live.Some? && live.value.Item? && live.value.expiry.Some? {
      assert Cached(cache, account, c.readAt, Item(live.value.token, Some(live.value.expiry.value)));
    }
  }

  lemma StoredLifetime(skew: nat, result: AuthResult, c: Circumstances)
    ensures TimeToLive(skew, result.expiry, c.ttlAt) > 0 <==> LastsLongEnough(skew, result.expiry, c.ttlAt)
    ensures LastsLongEnough(skew, result.expiry, c.ttlAt) ==>
      Keeps(skew, result, c,
            Entry(Item(result.token, result.expiry), c.storedAt + TimeToLive(skew, result.expiry, c.ttlAt) * SECOND))
  {
    if result.expiry.Some? && LastsLongEnough(skew, result.expiry, c.ttlAt) {
      var seconds: nat := TimeToLive(skew, result.expiry, c.ttlAt);
      assert seconds * 1_000_000 <= result.expiry.value - c.ttlAt - skew * 1_000_000 < (seconds + 1) * 1_000_000;
    }
  }

  /**
    `get_token` in full: a usable cached token is returned as it is; otherwise the provider's answer is
    stored and returned, or its failure, a too short lifetime, a lock or an inactive room is reported.
   */
  lemma GetAnswers(skew: nat, cache: Cache, account: Account, c: Circumstances)
    ensures Answers(skew, cache, account, c, GetToken(skew, cache, account, c).0, GetToken(skew, cache, account, c).1)
  {
    if account.isActive && !c.lock.Busy? {
      AuthenticatesIffAsks(skew, cache, account, c);
      if c.auth.Ok? { StoredLifetime(skew, c.auth.value, c); }
    }
  }

  /** A live readable entry outside the skew is returned by an unforced call, without asking or storing. */
  lemma CachedTokenIsReturned(
    skew: nat, t: TokenState, account: Account, c: Circumstances, token: string, expiry: Option<int>)
    requires account.isActive && c.lock.Held? && !c.force && Possible(t, Get(account, c))
    requires Cached(t.cache, account, c.readAt, Item(token, expiry))
    requires expiry.Some? ==> expiry.value - c.checkedAt > skew * 1_000_000
    ensures GetToken(skew, t.cache, account, c).1 == Token(token, expiry)
    ensures TokenStep(skew, t, Get(account, c)) == t.(now := c.recordedAt)
  {
  }

  /** An asked provider's accepted answer is what the call returns and what the next call finds. */
  lemma NewTokenIsReturnedAndStored(
    skew: nat, t: TokenState, account: Account, c: Circumstances, result: AuthResult, at: int)
    requires account.isActive && c.lock.Held? && Possible(t, Get(account, c)) && Asks(skew, t.cache, account, c)
    requires c.auth == Ok(result) && LastsLongEnough(skew, result.expiry, c.ttlAt)
    requires c.storedAt <= at < c.storedAt + 1_000_000
    ensures GetToken(skew, t.cache, account, c).1 == Token(result.token, result.expiry)
    ensures Cached(TokenStep(skew, t, Get(account, c)).cache, account, at, Item(result.token, result.expiry))
  {
    AuthenticatesIffAsks(skew, t.cache, account, c);
    StoredLifetime(skew, result, c);
  }

  /** The provider could not be reached or asked to come back. */
  predicate AuthUnavailable(exchange: Exchange) {
    exchange.NotSent? || exchange.Lost? || exchange.status == 429 || exchange.status >= 500
  }

  /** Exactly when a call fails with which code, and when it escapes with an exception. */
  lemma FailuresAndEscapes(
    dec: Decoders, exchange: Exchange, at: int, skew: nat, cache: Cache, account: Account, c: Circumstances)
    requires c.auth == Authenticate(dec, exchange, at)
    ensures var outcome := GetToken(skew, cache, account, c).1;
      var asked := account.isActive && c.lock.Held? && Asks(skew, cache, account, c);
      && (outcome == Escapes <==>
            account.isActive && c.lock.Held? && !c.force && Cached(cache, account, c.readAt, Tampered))
      && (outcome.Fails? ==>
            && (outcome.error.code == RoomInactive <==> !account.isActive)
            && (outcome.error.code == AuthBusy <==> account.isActive && !c.lock.Held?)
            && (outcome.error.code == TokenExpired <==> asked && c.auth.Ok?)
            && (outcome.error.code in {Unavailable, RateLimited}
                <==> asked && c.auth.Err? && AuthUnavailable(exchange)))
      && (outcome.Token? <==>
            && account.isActive && c.lock.Held?
            && if asked then c.auth.Ok? && LastsLongEnough(skew, c.auth.value.expiry, c.ttlAt)
               else !Cached(cache, account, c.readAt, Tampered))
  {
    GetAnswers(skew, cache, account, c);
    if c.auth.Err? { AuthErrorCodes(dec, exchange, at); }
  }

  /** A failure to get a token leaves the creation retryable exactly for a lock or an unavailable provider. */
  lemma RetryableTokenFailures(
    dec: Decoders, exchange: Exchange, at: int, skew: nat, cache: Cache, account: Account, c: Circumstances)
    requires c.auth == Authenticate(dec, exchange, at) && GetToken(skew, cache, account, c).1.Fails?
    ensures GetToken(skew, cache, account, c).1.error.code in {Unavailable, RateLimited, AuthBusy}
       <==> account.isActive
            && (!c.lock.Held? || (Asks(skew, cache, account, c) && c.auth.Err? && AuthUnavailable(exchange)))
  {
    FailuresAndEscapes(dec, exchange, at, skew, cache, account, c);
  }
}
