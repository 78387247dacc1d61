/**
  Provider authentication results and the per-room token cache
  (apps/convay/client.py normalize_auth, apps/convay/tokens.py). Instants are microseconds.
 */
module Tokens {
  import opened Wrappers
  import opened Configuration
  import opened Models
  import opened Text
  import opened Provider

  // ---------------------------------------------------------------------------------------------
  // normalize_auth
  // ---------------------------------------------------------------------------------------------

  /** Library decoding: the `exp` claim of a JWT, an aware ISO instant, and a number of seconds. */
  datatype Decoders = Decoders(
    loads: string -> Option<Json>,
    jwtExp: string -> Option<int>,
    isoInstant: Json -> Option<int>,
    microseconds: Json -> Option<int>
  )

  datatype AuthResult = AuthResult(token: string, expiry: Option<int>)

  function MalformedAuthError(): ProviderError {
    ProviderError(MalformedAuth, false, None, None)
  }

  function StripLeft(text: string): string {
    if text != "" && IsSpace(text[0]) then StripLeft(text[1..]) else text
  }

  /** The `data` member, decoded when it is the text of an object. */
  function AuthData(dec: Decoders, body: Dict): Option<Json> {
    if "data" !in body then None
    else if body["data"].JStr? && StripLeft(body["data"].text) != "" && StripLeft(body["data"].text)[0] == '{'
    then dec.loads(body["data"].text)
    else Some(body["data"])
  }

  /** The expiry the response itself reports; a malformed `expiresAt` hides `expiresIn`. */
  function ReportedExpiry(dec: Decoders, data: Json, now: int): Option<int> {
    if !data.JObj? then None
    else if !Field(data.fields, "expiresAt").JNull? then dec.isoInstant(data.fields["expiresAt"])
    else if !Field(data.fields, "expiresIn").JNull? then
      var lifetime := dec.microseconds(data.fields["expiresIn"]);
      if lifetime.Some? then Some(now + lifetime.value) else None
    else None
  }

  function NormalizeAuth(dec: Decoders, body: Dict, now: int): Parsed<AuthResult> {
    if Field(body, "success") != JBool(true) then Bad(MalformedAuthError())
    else
      var data := AuthData(dec, body);
      if data.None? then Bad(MalformedAuthError())
      else
        var token := if data.value.JObj? then Field(data.value.fields, "accessToken") else data.value;
        if !token.JStr? || token.text == "" || |token.text| > 32768 then Bad(MalformedAuthError())
        else
          var hint, reported := dec.jwtExp(token.text), ReportedExpiry(dec, data.value, now);
          var expiry :=
            if reported.None? then hint
            else if hint.None? then reported
            else Some(if reported.value < hint.value then reported.value else hint.value);
          Good(AuthResult(token.text, expiry))
  }

  /** `expiry` is the earliest of the known bounds, and unknown only when none is known. */
  predicate IsEarliest(expiry: Option<int>, bounds: set<Option<int>>) {
    && expiry in bounds
    && (forall bound | bound in bounds && bound.Some? :: expiry.Some? && expiry.value <= bound.value)
  }

  /** The known expiry is the earlier of the JWT hint and the reported bound. */
  lemma KnownExpiryIsTheEarliest(dec: Decoders, body: Dict, now: int)
    requires NormalizeAuth(dec, body, now).Good?
    ensures var result := NormalizeAuth(dec, body, now).value;
      && 0 < |result.token| <= 32768
      && IsEarliest(result.expiry, {dec.jwtExp(result.token), ReportedExpiry(dec, AuthData(dec, body).value, now)})
  {
  }

  // ---------------------------------------------------------------------------------------------
  // The cache
  // ---------------------------------------------------------------------------------------------

  const SECOND := 1_000_000

  /** `int()` of a number of seconds truncates toward zero. */
  function WholeSeconds(microseconds: int): int {
    if microseconds >= 0 then microseconds / SECOND else -((-microseconds) / SECOND)
  }

  /** `token_key`: one entry per room account and credential version. */
  datatype CacheKey = CacheKey(room: PublicId, version: nat)

  /** A cached value: a readable item, one that fails to decode, or one that fails to decrypt. */
  datatype Stored = Item(token: string, expiry: Option<int>) | Malformed | Tampered

  /** An entry is gone from its deadline on. */
  datatype Entry = Entry(stored: Stored, deadline: int)

  type Cache = map<CacheKey, Entry>

  /** The caller's copy of the room row. */
  datatype Account = Account(room: PublicId, version: nat, isActive: bool)

  /** The lock around the cache entry: never acquired, held, or expired before its release. */
  datatype LockOutcome = Busy | Held | Expired

  datatype Outcome = Token(token: string, expiry: Option<int>) | Fails(error: ProviderError) | Escapes

  /**
    Everything a call meets: the provider's answer, the lock, and the instants of its steps, which
    are all different calls of a clock: the cache is read, the skew checked, the lifetime computed,
    the entry stored (its lifetime counts from here) and the outcome recorded.
   */
  datatype Circumstances = Circumstances(
    force: bool, readAt: int, checkedAt: int, ttlAt: int, storedAt: int, recordedAt: int,
    auth: Result<AuthResult, ProviderError>, lock: LockOutcome
  )

  predicate InOrder(c: Circumstances) {
    c.readAt <= c.checkedAt <= c.ttlAt <= c.storedAt <= c.recordedAt
  }

  function KeyOf(account: Account): CacheKey {
    CacheKey(account.room, account.version)
  }

  function LiveEntry(cache: Cache, key: CacheKey, now: int): Option<Stored> {
    if key in cache && now < cache[key].deadline then Some(cache[key].stored) else None
  }

  /** More than the skew is left. */
  predicate OutsideSkew(skew: nat, expiry: Option<int>, now: int) {
    expiry.Some? ==> expiry.value - now > skew * SECOND
  }

  /** What an unforced call finds. */
  function Found(cache: Cache, account: Account, c: Circumstances): Option<Stored> {
    if c.force then None else LiveEntry(cache, KeyOf(account), c.readAt)
  }

  /** Whether a call reaches the provider. */
  predicate Authenticates(skew: nat, cache: Cache, account: Account, c: Circumstances) {
    && account.isActive && !c.lock.Busy?
    && match Found(cache, account, c)
       case None => true
       case Some(Item(_, expiry)) => !OutsideSkew(skew, expiry, c.checkedAt)
       case Some(Malformed) => true
       case Some(Tampered) => false
  }

  function TimeToLive(skew: nat, expiry: Option<int>, at: int): int {
    if expiry.Some? then WholeSeconds(expiry.value - at) - skew else 60
  }

  function Error(code: ErrorCode): ProviderError {
    ProviderError(code, false, None, None)
  }

  /** An undecodable entry is deleted before the provider is asked. */
  function Dropped(cache: Cache, account: Account, c: Circumstances): Cache {
    if Found(cache, account, c) == Some(Malformed) then cache - {KeyOf(account)} else cache
  }

  function StoreAuth(skew: nat, cache: Cache, account: Account, c: Circumstances): (Cache, Outcome) {
    match c.auth
    case Err(error) => (cache, Fails(error))
    case Ok(result) =>
      var ttl := TimeToLive(skew, result.expiry, c.ttlAt);
      if ttl <= 0 then (cache, Fails(Error(TokenExpired)))
      else (cache[KeyOf(account) := Entry(Item(result.token, result.expiry), c.storedAt + ttl * SECOND)],
            Token(result.token, result.expiry))
  }

  /** The critical section of `get_token`. */
  function GetLocked(skew: nat, cache: Cache, account: Account, c: Circumstances): (Cache, Outcome) {
    if Authenticates(skew, cache, account, c) then StoreAuth(skew, Dropped(cache, account, c), account, c)
    else
      match Found(cache, account, c)
      case Some(Item(token, expiry)) => (cache, Token(token, expiry))
      case _ => (cache, Escapes)
  }

  /** `get_token`. Releasing an expired lock turns whatever happened into PROVIDER_AUTH_BUSY. */
  function GetToken(skew: nat, cache: Cache, account: Account, c: Circumstances): (Cache, Outcome) {
    if !account.isActive then (cache, Fails(Error(RoomInactive)))
    else if c.lock.Busy? then (cache, Fails(Error(AuthBusy)))
    else
      var (after, outcome) := GetLocked(skew, cache, account, c);
      (after, if c.lock.Expired? then Fails(Error(AuthBusy)) else outcome)
  }

  /** `authenticate`: one exchange, read by `normalize_auth`. */
  function Authenticate(dec: Decoders, exchange: Exchange, now: int): Result<AuthResult, ProviderError> {
    Post(false, exchange, body => NormalizeAuth(dec, body, now))
  }

  /**
    A failure to get a token never claims anything about a creation: this is what lets the protocol
    treat every token failure as definite.
   */
  lemma TokenFailuresAreDefinite(
    dec: Decoders, exchange: Exchange, at: int, skew: nat, cache: Cache, account: Account, c: Circumstances)
    requires c.auth == Authenticate(dec, exchange, at) && GetToken(skew, cache, account, c).1.Fails?
    ensures Definite(GetToken(skew, cache, account, c).1.error)
  {
    AuthErrorsAreDefinite(exchange, body => NormalizeAuth(dec, body, at));
  }

  // ---------------------------------------------------------------------------------------------
  // Runs
  // ---------------------------------------------------------------------------------------------

  /** One authentication whose token went into the cache. */
  datatype Issue = Issue(key: CacheKey, token: string, expiry: Option<int>, ttlAt: int, storedAt: int)

  /** `issued` is the history of stored authentications. */
  datatype TokenState = TokenState(cache: Cache, issued: seq<Issue>, now: int)

  datatype TokenEvent =
    | Get(account: Account, circumstances: Circumstances)
    | Invalidate(account: Account)
    | Lose(key: CacheKey)                       // eviction
    | Garble(key: CacheKey, stored: Stored)     // an entry becomes undecodable
    | Pass(now: int)

  predicate Possible(t: TokenState, event: TokenEvent) {
    match event
    case Get(_, c) => t.now <= c.readAt && InOrder(c)
    case Garble(key, stored) => key in t.cache && !stored.Item?
    case Pass(now) => t.now <= now
    case _ => true
  }

  /** The call asks the provider and stores what it answers. */
  predicate Stores(skew: nat, cache: Cache, account: Account, c: Circumstances) {
    Authenticates(skew, cache, account, c) && c.auth.Ok? && TimeToLive(skew, c.auth.value.expiry, c.ttlAt) > 0
  }

  function IssueOf(account: Account, c: Circumstances): Issue
    requires c.auth.Ok?
  {
    Issue(KeyOf(account), c.auth.value.token, c.auth.value.expiry, c.ttlAt, c.storedAt)
  }

  function TokenStep(skew: nat, t: TokenState, event: TokenEvent): TokenState {
    if !Possible(t, event) then t
    else
      match event
      case Get(account, c) =>
        TokenState(GetToken(skew, t.cache, account, c).0,
                   if Stores(skew, t.cache, account, c) then t.issued + [IssueOf(account, c)] else t.issued,
                   c.recordedAt)
      case Invalidate(account) => t.(cache := t.cache - {KeyOf(account)})
      case Lose(key) => t.(cache := t.cache - {key})
      case Garble(key, stored) => t.(cache := t.cache[key := t.cache[key].(stored := stored)])
      case Pass(now) => t.(now := now)
  }

  function TokenRun(skew: nat, start: TokenState, events: seq<TokenEvent>): TokenState {
    if events == [] then start
    else TokenStep(skew, TokenRun(skew, start, events[..|events| - 1]), events[|events| - 1])
  }

  /** The entry was stored by this authentication. */
  predicate StoredBy(skew: nat, issue: Issue, key: CacheKey, entry: Entry) {
    && issue.key == key && issue.ttlAt <= issue.storedAt
    && TimeToLive(skew, issue.expiry, issue.ttlAt) > 0
    && entry.deadline == issue.storedAt + TimeToLive(skew, issue.expiry, issue.ttlAt) * SECOND
    && (entry.stored.Item? ==> entry.stored.token == issue.token && entry.stored.expiry == issue.expiry)
  }

  /** Every entry was stored by an authentication for its own key. */
  predicate HasIssue(skew: nat, issued: seq<Issue>, key: CacheKey, entry: Entry) {
    exists i | 0 <= i < |issued| :: StoredBy(skew, issued[i], key, entry)
  }

  predicate CacheInv(skew: nat, t: TokenState) {
    forall key | key in t.cache :: HasIssue(skew, t.issued, key, t.cache[key])
  }

  lemma IssuesStay(skew: nat, issued: seq<Issue>, more: seq<Issue>, key: CacheKey, entry: Entry)
    requires HasIssue(skew, issued, key, entry)
    ensures HasIssue(skew, issued + more, key, entry)
  {
    var i :| 0 <= i < |issued| && StoredBy(skew, issued[i], key, entry);
    assert (issued + more)[i] == issued[i];
  }

  lemma GetKeepsInv(skew: nat, t: TokenState, account: Account, c: Circumstances)
    requires CacheInv(skew, t) && Possible(t, Get(account, c))
    ensures CacheInv(skew, TokenStep(skew, t, Get(account, c)))
  {
    var after := TokenStep(skew, t, Get(account, c));
    forall key | key in after.cache
      ensures HasIssue(skew, after.issued, key, after.cache[key])
    {
      if Stores(skew, t.cache, account, c) {
        if key == KeyOf(account) {
          assert StoredBy(skew, after.issued[|t.issued|], key, after.cache[key]);
        } else {
          IssuesStay(skew, t.issued, [IssueOf(account, c)], key, t.cache[key]);
        }
      } else {
        assert t.cache[key] == after.cache[key];
      }
    }
  }

  lemma TokenStepKeepsInv(skew: nat, t: TokenState, event: TokenEvent)
    requires CacheInv(skew, t)
    ensures CacheInv(skew, TokenStep(skew, t, event))
  {
    var after := TokenStep(skew, t, event);
    match event {
      case Get(account, c) => if Possible(t, event) { GetKeepsInv(skew, t, account, c); }
      case Garble(key, stored) =>
        if Possible(t, event) {
          var i :| 0 <= i < |t.issued| && StoredBy(skew, t.issued[i], key, t.cache[key]);
          assert StoredBy(skew, after.issued[i], key, after.cache[key]);
        }
      case _ =>
    }
  }

  lemma {:induction false} TokenRunKeepsInv(skew: nat, start: TokenState, events: seq<TokenEvent>)
    requires start.cache == map[]
    ensures CacheInv(skew, TokenRun(skew, start, events))
  {
    if events != [] {
      TokenRunKeepsInv(skew, start, events[..|events| - 1]);
      TokenStepKeepsInv(skew, TokenRun(skew, start, events[..|events| - 1]), events[|events| - 1]);
    }
  }

  // ---------------------------------------------------------------------------------------------
  // What a returned token is worth
  // ---------------------------------------------------------------------------------------------

  predicate IssuedFor(issued: seq<Issue>, key: CacheKey, token: string, expiry: Option<int>) {
    exists i | 0 <= i < |issued| :: issued[i].key == key && issued[i].token == token && issued[i].expiry == expiry
  }

  /**
    The cache refines direct authentication: over any run, a returned token was issued to an
    authentication with exactly the credential version the caller's room carries, and a known expiry
    has more than the skew left when it is checked.
   */
  lemma {:induction false} ReturnedTokensAreSound(
    skew: nat, start: TokenState, events: seq<TokenEvent>, account: Account, c: Circumstances)
    requires start.cache == map[]
    requires var t := TokenRun(skew, start, events);
      Possible(t, Get(account, c)) && GetToken(skew, t.cache, account, c).1.Token?
    ensures var t := TokenRun(skew, start, events);
      var token := GetToken(skew, t.cache, account, c).1;
      && IssuedFor(TokenStep(skew, t, Get(account, c)).issued, KeyOf(account), token.token, token.expiry)
      && OutsideSkew(skew, token.expiry, if Authenticates(skew, t.cache, account, c) then c.ttlAt else c.checkedAt)
      && account.isActive
  {
    TokenRunKeepsInv(skew, start, events);
    var t := TokenRun(skew, start, events);
    var after := TokenStep(skew, t, Get(account, c));
    if Authenticates(skew, t.cache, account, c) {
      assert after.issued[|t.issued|] == IssueOf(account, c);
    } else {
      assert HasIssue(skew, t.issued, KeyOf(account), t.cache[KeyOf(account)]);
    }
  }

  // ---------------------------------------------------------------------------------------------
  // When the provider is asked
  // ---------------------------------------------------------------------------------------------

  /** The part of a second that the truncated lifetime of an entry gives away. */
  function Slack(skew: nat, issue: Issue): int
    requires issue.expiry.Some?
  {
    issue.expiry.value - issue.ttlAt - (TimeToLive(skew, issue.expiry, issue.ttlAt) + skew) * SECOND
  }

  /** The pauses before the entry was stored and before the skew was checked exceed the slack. */
  predicate TooSlow(skew: nat, issue: Issue, pause: int) {
    issue.expiry.Some? && issue.storedAt - issue.ttlAt + pause > Slack(skew, issue)
  }

  /**
    The provider is asked exactly when the caller forces it, nothing is cached, the entry does not
    decode, or the entry is inside the skew. Over any run the last happens only to an entry that was
    stored by an authentication whose storing, together with this checking, paused for more than its
    slack.
   */
  lemma {:induction false} AuthenticatesOnlyWhenNeeded(
    skew: nat, start: TokenState, events: seq<TokenEvent>, account: Account, c: Circumstances)
    requires start.cache == map[]
    requires var t := TokenRun(skew, start, events);
      Possible(t, Get(account, c)) && account.isActive && !c.lock.Busy?
    ensures var t := TokenRun(skew, start, events);
      var live := LiveEntry(t.cache, KeyOf(account), c.readAt);
      var inside := live.Some? && live.value.Item? && !OutsideSkew(skew, live.value.expiry, c.checkedAt);
      && (Authenticates(skew, t.cache, account, c) <==> c.force || live.None? || live == Some(Malformed) || inside)
      && (inside ==> exists i | 0 <= i < |t.issued| ::
            && StoredBy(skew, t.issued[i], KeyOf(account), t.cache[KeyOf(account)])
            && TooSlow(skew, t.issued[i], c.checkedAt - c.readAt))
  {
    TokenRunKeepsInv(skew, start, events);
    var t := TokenRun(skew, start, events);
    var key := KeyOf(account);
    if key in t.cache {
      var i :| 0 <= i < |t.issued| && StoredBy(skew, t.issued[i], key, t.cache[key]);
    }
  }

  /** An entry of this issue is still live when it is read, and inside the skew a pause later. */
  predicate MetInsideSkew(skew: nat, issue: Issue, readAt: int, pause: nat) {
    && issue.storedAt <= readAt < issue.storedAt + TimeToLive(skew, issue.expiry, issue.ttlAt) * SECOND
    && !OutsideSkew(skew, issue.expiry, readAt + pause)
  }

  /**
    Exactly when the skew check of a cached token can fire: a call that pauses between read and check
    can meet a stored entry inside the skew if and only if that pause and the one before the entry
    was stored exceed the slack. With no pause at all it never fires.
   */
  lemma SkewCheckFiresIffTooSlow(skew: nat, issue: Issue, pause: nat)
    requires issue.ttlAt <= issue.storedAt && TimeToLive(skew, issue.expiry, issue.ttlAt) > 0
    ensures (exists readAt :: MetInsideSkew(skew, issue, readAt, pause)) <==> TooSlow(skew, issue, pause)
    ensures issue.expiry.Some? ==> 0 <= Slack(skew, issue) < SECOND
  {
    if TooSlow(skew, issue, pause) {
      var last := issue.storedAt + TimeToLive(skew, issue.expiry, issue.ttlAt) * SECOND - 1;
      assert MetInsideSkew(skew, issue, last, pause);
    }
  }

  /** A run in which it fires: the entry is stored one microsecond after its lifetime was computed. */
  lemma SkewCheckFires(skew: nat, key: CacheKey, start: TokenState) returns (events: seq<TokenEvent>, c: Circumstances)
    requires start.cache == map[] && start.now == 0
    ensures var t, account := TokenRun(skew, start, events), Account(key.room, key.version, true);
      && Possible(t, Get(account, c)) && !c.force
      && LiveEntry(t.cache, key, c.readAt) == Some(Item("token", Some((skew + 1) * SECOND)))
      && c.readAt == c.checkedAt && Authenticates(skew, t.cache, account, c)
  {
    var account := Account(key.room, key.version, true);
    var answer: Result<AuthResult, ProviderError> := Ok(AuthResult("token", Some((skew + 1) * SECOND)));
    var first := Circumstances(true, 0, 0, 0, 1, 1, answer, Held);
    events := [Get(account, first)];
    assert events[..0] == [];
    assert TokenRun(skew, start, events) == TokenStep(skew, start, Get(account, first));
    c := Circumstances(false, SECOND, SECOND, SECOND, SECOND, SECOND, answer, Held);
  }

  // ---------------------------------------------------------------------------------------------
  // Invalidation and rotation
  // ---------------------------------------------------------------------------------------------

  /** A key that was absent and has not been issued since is still absent. */
  lemma {:induction false} AbsentUntilIssued(skew: nat, t: TokenState, events: seq<TokenEvent>, key: CacheKey)
    requires key !in t.cache
    ensures var after := TokenRun(skew, t, events);
      && t.issued <= after.issued
      && (key in after.cache ==> exists i | |t.issued| <= i < |after.issued| :: after.issued[i].key == key)
  {
    if events != [] {
      AbsentUntilIssued(skew, t, events[..|events| - 1], key);
      var before, event := TokenRun(skew, t, events[..|events| - 1]), events[|events| - 1];
      var after := TokenRun(skew, t, events);
      if event.Get? && Possible(before, event) && Stores(skew, before.cache, event.account, event.circumstances) {
        assert after.issued[|before.issued|].key == KeyOf(event.account);
      }
      if i :| |t.issued| <= i < |before.issued| && before.issued[i].key == key {
        assert after.issued[i].key == key;
      }
    }
  }

  predicate NotIssuedSince(t: TokenState, after: TokenState, key: CacheKey) {
    forall i | |t.issued| <= i < |after.issued| :: after.issued[i].key != key
  }

  /**
    An invalidated token is gone for good: whatever happens afterwards, until the provider has issued
    another one for that room and version, every call asks the provider.
   */
  lemma {:induction false} InvalidationForcesAuthentication(
    skew: nat, t: TokenState, events: seq<TokenEvent>, account: Account, c: Circumstances)
    requires account.isActive && !c.lock.Busy?
    requires var invalidated := TokenStep(skew, t, Invalidate(account));
      NotIssuedSince(invalidated, TokenRun(skew, invalidated, events), KeyOf(account))
    ensures var invalidated := TokenStep(skew, t, Invalidate(account));
      Authenticates(skew, TokenRun(skew, invalidated, events).cache, account, c)
  {
    AbsentUntilIssued(skew, TokenStep(skew, t, Invalidate(account)), events, KeyOf(account));
  }

  /**
    Rotating a password forces authentication: tokens of the old version may be cached, but the first
    call with a version that no token was issued for asks the provider.
   */
  lemma {:induction false} RotationForcesAuthentication(
    skew: nat, start: TokenState, events: seq<TokenEvent>, account: Account, c: Circumstances)
    requires start.cache == map[] && account.isActive && !c.lock.Busy?
    requires NotIssuedSince(start, TokenRun(skew, start, events), KeyOf(account))
    ensures Authenticates(skew, TokenRun(skew, start, events).cache, account, c)
  {
    AbsentUntilIssued(skew, start, events, KeyOf(account));
  }
}
