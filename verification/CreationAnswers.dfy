/**
  What the answer to a creation call means, spelled out over the fields of its body.
 */
module CreationAnswers {
  import opened Wrappers
  import opened Configuration
  import opened Models
  import opened Text
  import opened Provider

  // ---------------------------------------------------------------------------------------------
  // The fields of a body
  // ---------------------------------------------------------------------------------------------

  /** `text` is the identifier that a value stands for: a string, an integer or, in Python, a Boolean. */
  predicate StandsFor(cfg: Settings, value: Json, text: string) {
    match value
    case JStr(raw) => text == Strip(raw)
    case JInt(number) => text == Strip(cfg.intText(number))
    case JBool(flag) => text == if flag then "True" else "False"
    case _ => false
  }

  /** `data` holds the meeting: the member `data`, as an object or as its JSON text, or else the body. */
  predicate HasData(cfg: Settings, body: Dict, data: Dict) {
    if "data" !in body then data == body
    else
      || body["data"] == JObj(data)
      || (body["data"].JStr? && cfg.loads(body["data"].text) == Some(JObj(data)))
  }

  predicate SaysNo(body: Dict) {
    "success" in body && body["success"] == JBool(false)
  }

  /** The answer is a success that names meeting `id`. */
  predicate Names(cfg: Settings, exchange: Exchange, data: Dict, id: string) {
    && exchange.Answered? && 200 <= exchange.status <= 299
    && exchange.body.Object? && !SaysNo(exchange.body.fields) && HasData(cfg, exchange.body.fields, data)
    && "calendarId" in data && StandsFor(cfg, data["calendarId"], id) && 1 <= |id| <= 200
  }

  predicate GoodPanel(data: Dict, panel: string) {
    && "meetingPanelAddress" in data && data["meetingPanelAddress"].JStr?
    && panel == Strip(data["meetingPanelAddress"].text) && 1 <= |panel| <= 2000
    && forall i | 0 <= i < |panel| :: panel[i] as int >= 32
  }

  predicate GoodUnique(cfg: Settings, data: Dict, unique: Option<string>) {
    if "uniqueId" !in data || data["uniqueId"] == JNull then unique.None?
    else unique.Some? && StandsFor(cfg, data["uniqueId"], unique.value) && 1 <= |unique.value| <= 200
  }

  /** The host is a trusted domain or lies below one. */
  ghost predicate OnTrustedHost(cfg: Settings, host: string) {
    host != "" && exists i, prefix :: 0 <= i < |cfg.trustedSuffixes| && IsBelow(host, prefix, cfg.trustedSuffixes[i])
  }

  predicate IsBelow(host: string, prefix: string, suffix: string) {
    host == suffix || host == prefix + ("." + suffix)
  }

  ghost predicate SafeUrl(cfg: Settings, url: string) {
    match cfg.urlsplit(url)
    case None => false
    case Some(parts) =>
      && parts.scheme == "https" && parts.netloc != "" && !parts.userinfo
      && parts.host.Some? && OnTrustedHost(cfg, parts.host.value)
  }

  ghost predicate GoodUrl(cfg: Settings, data: Dict, url: string) {
    && "startMeetingUrl" in data && data["startMeetingUrl"].JStr?
    && url == Strip(data["startMeetingUrl"].text) && 1 <= |url| <= 16384 && SafeUrl(cfg, url)
  }

  /** The start URL is reached, and `urlsplit` raises on it. */
  ghost predicate RaisesOnUrl(cfg: Settings, data: Dict) {
    && (exists panel :: GoodPanel(data, panel))
    && (exists unique :: GoodUnique(cfg, data, unique))
    && "startMeetingUrl" in data && data["startMeetingUrl"].JStr?
    && cfg.urlsplit(Strip(data["startMeetingUrl"].text)).None?
  }

  // ---------------------------------------------------------------------------------------------
  // The five kinds of answers
  // ---------------------------------------------------------------------------------------------

  ghost predicate CompleteData(cfg: Settings, data: Dict, result: MeetingResult) {
    && result.panelAddress.Some? && GoodPanel(data, result.panelAddress.value)
    && GoodUnique(cfg, data, result.uniqueId)
    && result.startUrl.Some? && GoodUrl(cfg, data, result.startUrl.value)
  }

  /** A usable creation, with exactly these fields. */
  ghost predicate Creates(cfg: Settings, exchange: Exchange, result: MeetingResult) {
    exists data :: Names(cfg, exchange, data, result.calendarId) && CompleteData(cfg, data, result)
  }

  /** What is kept of an incomplete answer: the panel and the unique id as far as they have the right type. */
  predicate PartialData(cfg: Settings, data: Dict, partial: MeetingResult) {
    && partial.panelAddress == (if "meetingPanelAddress" in data && data["meetingPanelAddress"].JStr?
                                then Some(Strip(data["meetingPanelAddress"].text)) else None)
    && (if "uniqueId" in data && (data["uniqueId"].JStr? || data["uniqueId"].JInt? || data["uniqueId"].JBool?)
        then partial.uniqueId.Some? && StandsFor(cfg, data["uniqueId"], partial.uniqueId.value)
        else partial.uniqueId.None?)
    && partial.startUrl.None?
  }

  /** A creation that is known, but not usable. */
  ghost predicate CreatesPartly(cfg: Settings, exchange: Exchange, partial: MeetingResult) {
    exists data ::
      && Names(cfg, exchange, data, partial.calendarId) && PartialData(cfg, data, partial)
      && !RaisesOnUrl(cfg, data) && forall result :: !CompleteData(cfg, data, result)
  }

  /** Nothing reached the provider, or it asked to come back later. */
  predicate AsksToRetry(exchange: Exchange) {
    exchange.NotSent? || (exchange.Answered? && exchange.status == 429)
  }

  /** The provider refused for good. */
  predicate Rejects(exchange: Exchange) {
    && exchange.Answered?
    && if 200 <= exchange.status <= 299 then exchange.body.Object? && SaysNo(exchange.body.fields)
       else exchange.status < 500 && exchange.status !in {408, 429} && !(300 <= exchange.status <= 399)
  }

  /** Nobody knows: lost, a server error or redirect or time-out, or a success that cannot be read. */
  ghost predicate LeavesOpen(cfg: Settings, exchange: Exchange) {
    match exchange
    case NotSent => false
    case Lost => true
    case Answered(status, body) =>
      if 200 <= status <= 299 then
        body.Object? ==>
          && !SaysNo(body.fields)
          && forall data, id :: Names(cfg, exchange, data, id) ==> RaisesOnUrl(cfg, data)
      else status >= 500 || status == 408 || 300 <= status <= 399
  }

  // ---------------------------------------------------------------------------------------------
  // The parser reads them so
  // ---------------------------------------------------------------------------------------------

  lemma DataIsFound(cfg: Settings, body: Dict, data: Dict)
    ensures MeetingData(cfg, body) == Some(data) <==> HasData(cfg, body, data)
  {
  }

  lemma IdIsRead(cfg: Settings, value: Json, text: string)
    ensures IdText(cfg, value) == Some(text) <==> StandsFor(cfg, value, text)
    ensures IdText(cfg, value).Some? <==> value.JStr? || value.JInt? || value.JBool?
  {
  }

  lemma HostIsTrusted(cfg: Settings, host: Option<string>)
    ensures TrustedHost(cfg, host) <==> host.Some? && OnTrustedHost(cfg, host.value)
  {
    if TrustedHost(cfg, host) {
      var i :| 0 <= i < |cfg.trustedSuffixes|
        && (host.value == cfg.trustedSuffixes[i] || EndsWith(host.value, "." + cfg.trustedSuffixes[i]));
      var suffix := "." + cfg.trustedSuffixes[i];
      var prefix := if EndsWith(host.value, suffix) then host.value[..|host.value| - |suffix|] else "";
      assert IsBelow(host.value, prefix, cfg.trustedSuffixes[i]);
    }
    if host.Some? && OnTrustedHost(cfg, host.value) {
      var i, prefix :| 0 <= i < |cfg.trustedSuffixes| && IsBelow(host.value, prefix, cfg.trustedSuffixes[i]);
      assert host.value == cfg.trustedSuffixes[i] || EndsWith(host.value, "." + cfg.trustedSuffixes[i]);
    }
  }

  lemma UrlIsTrusted(cfg: Settings, url: string)
    ensures TrustedUrl(cfg, url) <==> SafeUrl(cfg, url)
  {
    if cfg.urlsplit(url).Some? { HostIsTrusted(cfg, cfg.urlsplit(url).value.host); }
  }

  lemma NamesIsRead(cfg: Settings, exchange: Exchange, data: Dict, id: string)
    ensures Names(cfg, exchange, data, id)
       <==> NamesAMeeting(cfg, exchange) && MeetingData(cfg, exchange.body.fields) == Some(data)
            && CalendarId(cfg, data) == Some(id)
  {
    if exchange.Answered? && exchange.body.Object? { DataIsFound(cfg, exchange.body.fields, data); }
    IdIsRead(cfg, Field(data, "calendarId"), id);
  }

  /** The parser accepts exactly the complete data, and returns its fields. */
  lemma CompleteIsParsed(cfg: Settings, body: Dict, data: Dict, result: MeetingResult)
    requires !SaysNo(body) && MeetingData(cfg, body) == Some(data) && CalendarId(cfg, data) == Some(result.calendarId)
    ensures ParseMeeting(cfg, body) == Good(result) <==> CompleteData(cfg, data, result)
  {
    var unique := Field(data, "uniqueId");
    if result.uniqueId.Some? { IdIsRead(cfg, unique, result.uniqueId.value); }
    if IdText(cfg, unique).Some? { IdIsRead(cfg, unique, IdText(cfg, unique).value); }
    if result.startUrl.Some? { UrlIsTrusted(cfg, result.startUrl.value); }
    var url := Field(data, "startMeetingUrl");
    if url.JStr? { UrlIsTrusted(cfg, Strip(url.text)); }
  }

  /**
    A creation call succeeds exactly on a complete answer: a success status with an object that does
    not say `success: false` and has a usable identifier, panel address, unique id and start URL. The
    result is then exactly those four fields, stripped.
   */
  lemma SuccessIffComplete(cfg: Settings, exchange: Exchange, result: MeetingResult)
    ensures StartMeeting(cfg, exchange) == Ok(result) <==> Creates(cfg, exchange, result)
  {
    if StartMeeting(cfg, exchange) == Ok(result) {
      CreationIsKept(cfg, exchange);
      var data := MeetingData(cfg, exchange.body.fields).value;
      NamesIsRead(cfg, exchange, data, result.calendarId);
      CompleteIsParsed(cfg, exchange.body.fields, data, result);
    }
    if Creates(cfg, exchange, result) {
      var data :| Names(cfg, exchange, data, result.calendarId) && CompleteData(cfg, data, result);
      NamesIsRead(cfg, exchange, data, result.calendarId);
      CompleteIsParsed(cfg, exchange.body.fields, data, result);
    }
  }

  lemma RaisingIsParsed(cfg: Settings, body: Dict, data: Dict)
    requires !SaysNo(body) && MeetingData(cfg, body) == Some(data) && CalendarId(cfg, data).Some?
    ensures ParseMeeting(cfg, body) == Raises <==> RaisesOnUrl(cfg, data)
  {
    var panel, unique := Field(data, "meetingPanelAddress"), Field(data, "uniqueId");
    if IdText(cfg, unique).Some? { IdIsRead(cfg, unique, IdText(cfg, unique).value); }
    if ParseMeeting(cfg, body) == Raises {
      assert GoodPanel(data, Strip(panel.text));
      assert GoodUnique(cfg, data, IdText(cfg, unique));
    }
    if RaisesOnUrl(cfg, data) {
      var text :| GoodPanel(data, text);
      var id: Option<string> :| GoodUnique(cfg, data, id);
      if id.Some? { IdIsRead(cfg, unique, id.value); }
    }
  }

  /** The three ways the parser goes on once the meeting is named. */
  lemma NamedIsParsed(cfg: Settings, body: Dict, data: Dict)
    requires !SaysNo(body) && MeetingData(cfg, body) == Some(data) && CalendarId(cfg, data).Some?
    ensures var parsed := ParseMeeting(cfg, body);
      parsed.Bad? ==>
        && parsed.error.code == ResponseInvalid && !parsed.error.ambiguous && parsed.error.knownCreated.Some?
        && parsed.error.knownCreated.value.calendarId == CalendarId(cfg, data).value
        && PartialData(cfg, data, parsed.error.knownCreated.value)
  {
    var unique := Field(data, "uniqueId");
    IdIsRead(cfg, unique, if IdText(cfg, unique).Some? then IdText(cfg, unique).value else "");
  }

  lemma OnePartialResult(cfg: Settings, data: Dict, a: MeetingResult, b: MeetingResult)
    requires PartialData(cfg, data, a) && PartialData(cfg, data, b) && a.calendarId == b.calendarId
    ensures a == b
  {
  }

  lemma PartialIsParsed(cfg: Settings, body: Dict, data: Dict, partial: MeetingResult)
    requires !SaysNo(body) && MeetingData(cfg, body) == Some(data) && CalendarId(cfg, data) == Some(partial.calendarId)
    ensures ParseMeeting(cfg, body).Bad? && ParseMeeting(cfg, body).error.knownCreated == Some(partial)
       <==> PartialData(cfg, data, partial) && !RaisesOnUrl(cfg, data)
            && forall result :: !CompleteData(cfg, data, result)
  {
    var parsed := ParseMeeting(cfg, body);
    NamedIsParsed(cfg, body, data);
    RaisingIsParsed(cfg, body, data);
    if parsed.Good? {
      CreationIsKept(cfg, Exchange.Answered(200, Object(body)));
      CompleteIsParsed(cfg, body, data, parsed.value);
    }
    if parsed.Bad? {
      forall result
        ensures !CompleteData(cfg, data, result)
      {
        OnlyNamedResultsAreComplete(cfg, body, data, result);
      }
      if PartialData(cfg, data, partial) { OnePartialResult(cfg, data, partial, parsed.error.knownCreated.value); }
    }
  }

  /** Completeness does not depend on the identifier. */
  lemma OnlyNamedResultsAreComplete(cfg: Settings, body: Dict, data: Dict, result: MeetingResult)
    requires !SaysNo(body) && MeetingData(cfg, body) == Some(data) && CalendarId(cfg, data).Some?
    ensures CompleteData(cfg, data, result)
       <==> ParseMeeting(cfg, body) == Good(result.(calendarId := CalendarId(cfg, data).value))
  {
    CompleteIsParsed(cfg, body, data, result.(calendarId := CalendarId(cfg, data).value));
  }

  /** A creation is known but not usable exactly on such an answer, and exactly these fields are kept. */
  lemma KnownIffPartial(cfg: Settings, exchange: Exchange, partial: MeetingResult)
    ensures StartMeeting(cfg, exchange).Err? && StartMeeting(cfg, exchange).error.knownCreated == Some(partial)
       <==> CreatesPartly(cfg, exchange, partial)
  {
    var outcome := StartMeeting(cfg, exchange);
    CreationIsKept(cfg, exchange);
    if outcome.Err? && outcome.error.knownCreated == Some(partial) {
      var data := MeetingData(cfg, exchange.body.fields).value;
      NamesIsRead(cfg, exchange, data, partial.calendarId);
      PartialIsParsed(cfg, exchange.body.fields, data, partial);
      assert Names(cfg, exchange, data, partial.calendarId) && PartialData(cfg, data, partial);
    }
    if CreatesPartly(cfg, exchange, partial) {
      var data :|
        && Names(cfg, exchange, data, partial.calendarId) && PartialData(cfg, data, partial)
        && !RaisesOnUrl(cfg, data) && forall result :: !CompleteData(cfg, data, result);
      NamesIsRead(cfg, exchange, data, partial.calendarId);
      PartialIsParsed(cfg, exchange.body.fields, data, partial);
    }
  }

  /** A readable success that does not name a usable identifier, or on whose URL `urlsplit` raises, leaves it open. */
  lemma OpenSuccesses(cfg: Settings, status: int, body: Dict)
    requires 200 <= status <= 299 && !SaysNo(body)
    ensures var exchange := Exchange.Answered(status, Object(body));
      StartMeeting(cfg, exchange).Err? ==>
        (StartMeeting(cfg, exchange).error.ambiguous <==> LeavesOpen(cfg, exchange))
  {
    var exchange := Exchange.Answered(status, Object(body));
    forall data, id
      ensures Names(cfg, exchange, data, id) ==>
        MeetingData(cfg, body) == Some(data) && CalendarId(cfg, data) == Some(id)
    {
      NamesIsRead(cfg, exchange, data, id);
    }
    if NamesAMeeting(cfg, exchange) {
      var data := MeetingData(cfg, body).value;
      NamesIsRead(cfg, exchange, data, CalendarId(cfg, data).value);
      assert Names(cfg, exchange, data, CalendarId(cfg, data).value);
      RaisingIsParsed(cfg, body, data);
      NamedIsParsed(cfg, body, data);
    }
  }

  predicate RetryCode(code: ErrorCode) {
    code in {Unavailable, RateLimited, AuthBusy}
  }

  /** Every error of a creation call is of exactly the kind its exchange says. */
  lemma ErrorKinds(cfg: Settings, exchange: Exchange)
    requires StartMeeting(cfg, exchange).Err?
    ensures var error := StartMeeting(cfg, exchange).error;
      && (error.ambiguous <==> LeavesOpen(cfg, exchange))
      && (error.knownCreated.Some? <==> exists partial :: CreatesPartly(cfg, exchange, partial))
      && (RetryCode(error.code) <==> AsksToRetry(exchange))
      && (Definite(error) && !RetryCode(error.code) <==> Rejects(exchange))
  {
    var error := StartMeeting(cfg, exchange).error;
    DefiniteIffRefused(cfg, exchange);
    if exchange.Answered? && IsSuccess(exchange.status) && exchange.body.Object? && !SaysNo(exchange.body.fields) {
      OpenSuccesses(cfg, exchange.status, exchange.body.fields);
    }
    forall partial
      ensures error.knownCreated == Some(partial) <==> CreatesPartly(cfg, exchange, partial)
    {
      KnownIffPartial(cfg, exchange, partial);
    }
    if error.knownCreated.Some? { assert CreatesPartly(cfg, exchange, error.knownCreated.value); }
  }

  /** The code that is stored as the last error and reported to the caller. */
  lemma ErrorCodes(cfg: Settings, exchange: Exchange)
    requires StartMeeting(cfg, exchange).Err?
    ensures var code := StartMeeting(cfg, exchange).error.code;
      match exchange
      case NotSent => code == Unavailable
      case Lost => code == StateUnknown
      case Answered(status, body) =>
        if 200 <= status <= 299 then
          match body
          case NotAnObject => code == StateUnknown
          case Object(fields) =>
            if SaysNo(fields) then code == ValidationError
            else if exists partial :: CreatesPartly(cfg, exchange, partial) then code == ResponseInvalid
            else if exists data, id :: Names(cfg, exchange, data, id) then code == StateUnknown
            else code == MalformedCreation
        else if status in {400, 422} then code == ValidationError
        else if status == 401 then code == AuthenticationError
        else if status == 403 then code == AuthorizationError
        else if status == 404 then code == EndpointError
        else if status == 429 then code == RateLimited
        else if status >= 500 || status == 408 || 300 <= status <= 399 then code == StateUnknown
        else code == HttpError
  {
    ErrorKinds(cfg, exchange);
    if exchange.Answered? && IsSuccess(exchange.status) && exchange.body.Object? && !SaysNo(exchange.body.fields) {
      ReadableErrorCodes(cfg, exchange);
    }
  }

  lemma ReadableErrorCodes(cfg: Settings, exchange: Exchange)
    requires StartMeeting(cfg, exchange).Err? && exchange.Answered? && 200 <= exchange.status <= 299
    requires exchange.body.Object? && !SaysNo(exchange.body.fields)
    ensures var error := StartMeeting(cfg, exchange).error;
      && (error.knownCreated.Some? ==> error.code == ResponseInvalid)
      && (error.knownCreated.None? ==>
            error.code == if exists data, id :: Names(cfg, exchange, data, id) then StateUnknown else MalformedCreation)
  {
    var body := exchange.body.fields;
    forall data, id
      ensures Names(cfg, exchange, data, id) ==>
        MeetingData(cfg, body) == Some(data) && CalendarId(cfg, data) == Some(id)
    {
      NamesIsRead(cfg, exchange, data, id);
    }
    if NamesAMeeting(cfg, exchange) {
      var data := MeetingData(cfg, body).value;
      NamesIsRead(cfg, exchange, data, CalendarId(cfg, data).value);
      assert Names(cfg, exchange, data, CalendarId(cfg, data).value);
      NamedIsParsed(cfg, body, data);
    }
  }
}
