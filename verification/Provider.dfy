/**
  The Convay adapter: how one HTTP exchange becomes a result or a classified error
  (apps/convay/client.py).
 */
module Provider {
  import opened Wrappers
  import opened Configuration
  import opened Models
  import opened Text

  datatype MeetingResult = MeetingResult(
    calendarId: string, panelAddress: Option<string>, startUrl: Option<string>, uniqueId: Option<string>
  )

  /** `knownCreated` carries the partial result of a creation whose response failed validation. */
  datatype ProviderError = ProviderError(
    code: ErrorCode, ambiguous: bool, statusCode: Option<int>, knownCreated: Option<MeetingResult>
  )

  datatype Body = NotAnObject | Object(fields: Dict)

  /** One HTTP exchange: nothing was sent, the answer was lost, or an answer arrived. */
  datatype Exchange = NotSent | Lost | Answered(status: int, body: Body)

  predicate IsSuccess(status: int) {
    200 <= status < 300
  }

  /** The statuses after which a creation may have happened. */
  predicate UncertainStatus(status: int) {
    status >= 500 || status == 408 || 300 <= status < 400
  }

  function StatusCode(creation: bool, status: int): ErrorCode {
    if status == 400 || status == 422 then ValidationError
    else if status == 401 then AuthenticationError
    else if status == 403 then AuthorizationError
    else if status == 404 then EndpointError
    else if status == 429 then RateLimited
    else if creation && UncertainStatus(status) then StateUnknown
    else if status >= 500 then Unavailable
    else HttpError
  }

  /** What a parser does with a body: a value, a classified error, or an unhandled ValueError. */
  datatype Parsed<T> = Good(value: T) | Bad(error: ProviderError) | Raises

  /** The answer arrived but could not be read. */
  function UnreadableAnswer(creation: bool, status: int): ProviderError {
    ProviderError(if creation then StateUnknown else MalformedResponse, creation, Some(status), None)
  }

  /** `_post`: classification of one exchange, with the parser of the operation. */
  function Post<T>(creation: bool, exchange: Exchange, parse: Dict -> Parsed<T>): Result<T, ProviderError> {
    match exchange
    case NotSent => Err(ProviderError(Unavailable, false, None, None))
    case Lost => Err(ProviderError(if creation then StateUnknown else Unavailable, creation, None, None))
    case Answered(status, body) =>
      if !IsSuccess(status) then
        Err(ProviderError(StatusCode(creation, status), creation && UncertainStatus(status), Some(status), None))
      else if body.NotAnObject? then
        Err(UnreadableAnswer(creation, status))
      else
        match parse(body.fields)
        case Good(value) => Ok(value)
        case Bad(error) => Err(error.(statusCode := Some(status)))
        case Raises => Err(UnreadableAnswer(creation, status))
  }

  function Field(fields: Dict, key: string): Json {
    if key in fields then fields[key] else JNull
  }

  /** `str(value).strip()` for the values that pass `isinstance(value, (str, int))`; a bool is an int. */
  function IdText(cfg: Settings, value: Json): Option<string> {
    match value
    case JStr(text) => Some(Strip(text))
    case JInt(number) => Some(Strip(cfg.intText(number)))
    case JBool(flag) => Some(if flag then "True" else "False")
    case _ => None
  }

  predicate HasControl(text: string) {
    exists i | 0 <= i < |text| :: text[i] < ' '
  }

  predicate TrustedHost(cfg: Settings, host: Option<string>) {
    && host.Some? && host.value != ""
    && exists i | 0 <= i < |cfg.trustedSuffixes| ::
         host.value == cfg.trustedSuffixes[i] || EndsWith(host.value, "." + cfg.trustedSuffixes[i])
  }

  /** The URL rule shared by the adapter and the recovery form; a text `urlsplit` rejects is not trusted. */
  predicate TrustedUrl(cfg: Settings, url: string) {
    var split := cfg.urlsplit(url);
    && split.Some?
    && var parts := split.value;
    && parts.scheme == "https" && parts.netloc != "" && !parts.userinfo && TrustedHost(cfg, parts.host)
  }

  function Malformed(): ProviderError {
    ProviderError(MalformedCreation, true, None, None)
  }

  /** The object that holds the meeting: `data`, decoded when it is a string, or the body itself. */
  function MeetingData(cfg: Settings, body: Dict): Option<Dict> {
    var data := if "data" in body then body["data"] else JObj(body);
    match data
    case JObj(fields) => Some(fields)
    case JStr(text) =>
      var decoded := cfg.loads(text);
      if decoded.Some? && decoded.value.JObj? then Some(decoded.value.fields) else None
    case _ => None
  }

  function CalendarId(cfg: Settings, data: Dict): Option<string> {
    var calendar := IdText(cfg, Field(data, "calendarId"));
    if calendar.Some? && 0 < |calendar.value| <= 200 then calendar else None
  }

  function ParseMeeting(cfg: Settings, body: Dict): Parsed<MeetingResult> {
    if Field(body, "success") == JBool(false) then Bad(ProviderError(ValidationError, false, None, None))
    else
      var data := MeetingData(cfg, body);
      if data.None? then Bad(Malformed())
      else
        var calendar := CalendarId(cfg, data.value);
        if calendar.None? then Bad(Malformed())
        else
          var rawPanel := Field(data.value, "meetingPanelAddress");
          var panel := if rawPanel.JStr? then Some(Strip(rawPanel.text)) else None;
          var rawUnique := Field(data.value, "uniqueId");
          var unique := IdText(cfg, rawUnique);
          var partial := MeetingResult(calendar.value, panel, None, unique);
          var invalid := ProviderError(ResponseInvalid, false, None, Some(partial));
          if !Truthy(panel) || |panel.value| > 2000 || HasControl(panel.value) then Bad(invalid)
          else if !rawUnique.JNull? && (!Truthy(unique) || |unique.value| > 200) then Bad(invalid)
          else
            var rawUrl := Field(data.value, "startMeetingUrl");
            if !rawUrl.JStr? then Bad(invalid)
            else
              var url := Strip(rawUrl.text);
              // urlsplit runs before any check, and its ValueError is not handled here.
              if cfg.urlsplit(url).None? then Raises
              else if url == "" || |url| > 16384 || !TrustedUrl(cfg, url) then Bad(invalid)
              else Good(partial.(startUrl := Some(url)))
  }

  /** `start_meeting`. */
  function StartMeeting(cfg: Settings, exchange: Exchange): Result<MeetingResult, ProviderError> {
    Post(true, exchange, body => ParseMeeting(cfg, body))
  }

  // ---------------------------------------------------------------------------------------------
  // What the classification is for
  // ---------------------------------------------------------------------------------------------

  /**
    The exchanges the provider contract calls a definite refusal: nothing was sent, a status that
    rejects the request, or an explicit `success: false`. The only assumption made about the
    provider is that such an exchange created no meeting.
   */
  predicate DefiniteRefusal(exchange: Exchange) {
    match exchange
    case NotSent => true
    case Lost => false
    case Answered(status, body) =>
      if IsSuccess(status) then body.Object? && Field(body.fields, "success") == JBool(false)
      else !(status == 408 || status / 100 == 3 || status >= 500)
  }

  /** A provider error that leaves no room for a meeting having been created. */
  predicate Definite(error: ProviderError) {
    !error.ambiguous && error.knownCreated.None?
  }

  /** A creation error is definite exactly for a definite refusal; every other error keeps the reservation. */
  lemma DefiniteIffRefused(cfg: Settings, exchange: Exchange)
    ensures StartMeeting(cfg, exchange).Err? && Definite(StartMeeting(cfg, exchange).error)
        <==> DefiniteRefusal(exchange)
    ensures StartMeeting(cfg, exchange).Err? ==>
      var error := StartMeeting(cfg, exchange).error;
      && !(error.ambiguous && error.knownCreated.Some?)
      && (error.statusCode == Some(401) ==> Definite(error) && error.code == AuthenticationError)
      && (error.code in {Unavailable, RateLimited, AuthBusy} ==> Definite(error))
  {
    if exchange.Answered? && !IsSuccess(exchange.status) {
      var status := exchange.status;
      assert 300 <= status < 400 <==> status / 100 == 3;
    }
  }

  /** Errors of the authentication call never claim anything about a creation. */
  lemma AuthErrorsAreDefinite<T>(exchange: Exchange, parse: Dict -> Parsed<T>)
    requires forall body :: parse(body).Bad? ==> Definite(parse(body).error)
    ensures Post(false, exchange, parse).Err? ==> Definite(Post(false, exchange, parse).error)
  {
  }

  /** A usable identifier is enough to know that the meeting exists, and then it is never dropped. */
  predicate NamesAMeeting(cfg: Settings, exchange: Exchange) {
    && exchange.Answered? && IsSuccess(exchange.status) && exchange.body.Object?
    && Field(exchange.body.fields, "success") != JBool(false)
    && MeetingData(cfg, exchange.body.fields).Some?
    && CalendarId(cfg, MeetingData(cfg, exchange.body.fields).value).Some?
  }

  predicate UsableMeeting(cfg: Settings, result: MeetingResult) {
    && 0 < |result.calendarId| <= 200
    && Truthy(result.panelAddress) && |result.panelAddress.value| <= 2000 && !HasControl(result.panelAddress.value)
    && Truthy(result.startUrl) && |result.startUrl.value| <= 16384 && TrustedUrl(cfg, result.startUrl.value)
    && (result.uniqueId.Some? ==> 0 < |result.uniqueId.value| <= 200)
  }

  /** The parser comes as far as the start URL, and `urlsplit` raises on it. */
  predicate UrlRaises(cfg: Settings, exchange: Exchange)
    requires NamesAMeeting(cfg, exchange)
  {
    var data := MeetingData(cfg, exchange.body.fields).value;
    var panel, unique := Field(data, "meetingPanelAddress"), Field(data, "uniqueId");
    var url := Field(data, "startMeetingUrl");
    && panel.JStr? && 0 < |Strip(panel.text)| <= 2000 && !HasControl(Strip(panel.text))
    && (unique.JNull? || (IdText(cfg, unique).Some? && 0 < |IdText(cfg, unique).value| <= 200))
    && url.JStr? && cfg.urlsplit(Strip(url.text)).None?
  }

  /**
    The identifier of a created meeting reaches the gateway exactly when the answer names one and
    its start URL can be split: as a complete usable result or as a known creation.
   */
  lemma CreationIsKept(cfg: Settings, exchange: Exchange)
    ensures var outcome := StartMeeting(cfg, exchange);
      && (outcome.Ok? || outcome.error.knownCreated.Some?
          <==> NamesAMeeting(cfg, exchange) && !UrlRaises(cfg, exchange))
      && (outcome.Ok? ==> UsableMeeting(cfg, outcome.value))
      && (outcome.Ok? || outcome.error.knownCreated.Some? ==>
            CalendarId(cfg, MeetingData(cfg, exchange.body.fields).value)
            == Some(if outcome.Ok? then outcome.value.calendarId else outcome.error.knownCreated.value.calendarId))
  {
  }

  const UNSPLITTABLE_BODY: Dict :=
    map["calendarId" := JStr("7"), "meetingPanelAddress" := JStr("p"), "startMeetingUrl" := JStr("https://[")]

  /**
    The documentation promises that an answer with a valid calendar id is recorded as a known
    creation. It is not when `urlsplit` raises, as it does on an unclosed IPv6 bracket: the outcome
    is unknown and the identifier is lost.
   */
  lemma AnUnsplittableUrlLosesTheIdentifier(cfg: Settings)
    requires cfg.urlsplit("https://[").None?
    ensures var exchange := Answered(200, Object(UNSPLITTABLE_BODY));
      && NamesAMeeting(cfg, exchange)
      && StartMeeting(cfg, exchange) == Err(ProviderError(StateUnknown, true, Some(200), None))
  {
    assert |"calendarId"| == 10 && |"meetingPanelAddress"| == 19 && |"startMeetingUrl"| == 15;
    assert |"data"| == 4 && |"success"| == 7 && |"uniqueId"| == 8;
    assert UNSPLITTABLE_BODY.Keys == {"calendarId", "meetingPanelAddress", "startMeetingUrl"};
    assert "https://["[0] == 'h' && "https://["[8] == '[';
    assert Strip("7") == "7" && Strip("p") == "p" && Strip("https://[") == "https://[";
  }
}
