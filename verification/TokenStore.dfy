/**
  The token cache as it runs (apps/convay/tokens.py), with the room's record of its last authentication.
 */
module TokenStores {
  import opened Wrappers
  import opened Models
  import opened Tokens
  import opened TokenAnswers

  /** `last_auth_at`, `last_auth_success` and `last_error` of a room. */
  datatype AuthRecord = AuthRecord(at: int, success: bool, error: Option<ErrorCode>)

  class TokenStore {
    var entries: map<CacheKey, Entry>
    var records: map<PublicId, AuthRecord>

    constructor ()
      ensures entries == map[] && records == map[]
    {
      entries := map[];
      records := map[];
    }

    /** `get_token`: the new cache and the outcome are those of the specification. */
    method Get(skew: nat, account: Account, c: Circumstances) returns (outcome: Outcome)
      modifies this
      ensures (entries, outcome) == GetToken(skew, old(entries), account, c)
      ensures Answers(skew, old(entries), account, c, entries, outcome)
      ensures records == if Authenticates(skew, old(entries), account, c) then
                           (match c.auth
                            case Err(error) =>
                              old(records)[account.room := AuthRecord(c.recordedAt, false, Some(error.code))]
                            case Ok(result) =>
                              if TimeToLive(skew, result.expiry, c.ttlAt) <= 0 then old(records)
                              else old(records)[account.room := AuthRecord(c.recordedAt, true, None)])
                         else old(records)
    {
      GetAnswers(skew, entries, account, c);
      if !account.isActive {
        return Fails(Error(RoomInactive));
      }
      if c.lock.Busy? {
        return Fails(Error(AuthBusy));
      }
      var key := KeyOf(account);
      var raw: Option<Stored> := if c.force then None else LiveEntry(entries, key, c.readAt);
      outcome := Escapes;
      var ask := true;
      if raw.Some? {
        match raw.value {
          case Item(token, expiry) =>
            if expiry.None? || expiry.value - c.checkedAt > skew * SECOND {
              outcome := Token(token, expiry);
              ask := false;
            }
          case Malformed => entries := entries - {key};
          case Tampered => ask := false;
        }
      }
      if ask {
        match c.auth {
          case Err(error) =>
            records := records[account.room := AuthRecord(c.recordedAt, false, Some(error.code))];
            outcome := Fails(error);
          case Ok(result) =>
            var ttl := if result.expiry.Some? then WholeSeconds(result.expiry.value - c.ttlAt) - skew else 60;
            if ttl <= 0 {
              outcome := Fails(Error(TokenExpired));
            } else {
              entries := entries[key := Entry(Item(result.token, result.expiry), c.storedAt + ttl * SECOND)];
              records := records[account.room := AuthRecord(c.recordedAt, true, None)];
              outcome := Token(result.token, result.expiry);
            }
        }
      }
      if c.lock.Expired? {
        outcome := Fails(Error(AuthBusy));
      }
    }

    /**
      After a confirmed 401: `invalidate`, then a forced `get_token`. The refused token is gone; the
      returned one, and whatever is cached for the account now, is the provider's new answer.
     */
    method Reauthenticate(skew: nat, account: Account, c: Circumstances) returns (outcome: Outcome)
      requires c.force
      modifies this
      ensures (entries, outcome) == GetToken(skew, old(entries) - {KeyOf(account)}, account, c)
      ensures outcome.Token? ==> c.auth.Ok? && outcome == Token(c.auth.value.token, c.auth.value.expiry)
      ensures KeyOf(account) in entries ==>
        c.auth.Ok? && entries[KeyOf(account)].stored == Item(c.auth.value.token, c.auth.value.expiry)
      ensures forall key | key != KeyOf(account) :: key in entries <==> key in old(entries)
      ensures forall key | key != KeyOf(account) && key in entries :: entries[key] == old(entries)[key]
    {
      entries := entries - {KeyOf(account)};
      outcome := Get(skew, account, c);
    }
  }
}
