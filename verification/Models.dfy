/**
  The stored rows and the database constraints that guard every write
  (apps/meetings/models.py, apps/rooms/models.py, apps/meetings/migrations/0002_reservation_guards.py).
  Instants are minutes on one time line.
 */
module Models {
  import opened Wrappers
  import opened Configuration

  type MeetingId = nat
  type ClientId = nat
  /** Rooms are ordered by (priority, public id); a public id is stable and stands for the room. */
  type PublicId = nat

  datatype Status =
    | Draft | Reserved | Provisioning | Ready | Live | Ended | Cancelled | Failed
    | RetryableFailed | NonRetryableFailed | ProviderResponseInvalid | ProviderStateUnknown

  /** What `urlsplit` finds in a text it accepts; the scheme and the host name are lower-case. */
  datatype UrlParts = UrlParts(scheme: string, host: Option<string>, netloc: string, userinfo: bool)

  /**
    Deployment settings (a negative buffer is refused at start-up), and the library functions whose
    text handling is not modelled: `json.loads`, `urlsplit` (None is its ValueError) and `str` of an
    integer.
   */
  datatype Settings = Settings(
    bufferBefore: nat,
    bufferAfter: nat,
    earliest: int,
    latest: int,
    utcOffset: int,
    defaultMeetingType: Json,
    trustedSuffixes: seq<string>,
    loads: string -> Option<Json>,
    urlsplit: string -> Option<UrlParts>,
    intText: int -> string
  )

  /** The half-open interval [lower, upper). */
  datatype Range = Range(lower: int, upper: int)

  predicate Overlap(a: Range, b: Range) {
    a.lower < b.upper && b.lower < a.upper
  }

  predicate Covers(range: Range, instant: int) {
    range.lower <= instant < range.upper
  }

  /** The request data a retry may not change. */
  datatype Details = Details(
    title: string, teacherId: string, teacherName: string, batchId: string, batchName: string, classDate: int
  )

  datatype ProviderFields = ProviderFields(
    calendarId: Option<string>,
    uniqueId: Option<string>,
    panelAddress: Option<string>,
    startUrl: Option<string>
  )

  const NO_PROVIDER_FIELDS := ProviderFields(None, None, None, None)

  /** Python truth of an optional string. */
  predicate Truthy(text: Option<string>) {
    text.Some? && text.value != ""
  }

  /** Python truth of the stored columns; an encrypted start URL is never empty, whatever it encrypts. */
  predicate AnyTruthy(fields: ProviderFields) {
    Truthy(fields.calendarId) || Truthy(fields.uniqueId) || Truthy(fields.panelAddress) || fields.startUrl.Some?
  }

  /** The provider error codes; `Interrupted` is written by the stale sweep only. */
  datatype ErrorCode =
    | Unavailable | RateLimited | AuthBusy | StateUnknown | ValidationError | AuthenticationError
    | AuthorizationError | EndpointError | HttpError | ResponseInvalid | MalformedCreation
    | MalformedAuth | MalformedResponse | RoomInactive | TokenExpired | Interrupted

  datatype Meeting = Meeting(
    client: ClientId,
    classId: string,
    details: Details,
    startAt: Option<int>,
    endAt: Option<int>,
    room: Option<PublicId>,
    reservation: Option<Range>,
    active: bool,
    provider: ProviderFields,
    payload: Option<Dict>,
    status: Status,
    lastError: Option<ErrorCode>,
    updatedAt: int
  )

  /** A stored credential after decryption; `Unreadable` is a failing decryption. */
  datatype Secret = Absent | Unreadable | Readable(text: string)

  datatype Room = Room(
    isActive: bool,
    priority: int,
    maxConcurrentBookings: nat,
    activeLimit: Option<nat>,
    username: string,
    password: Secret,
    config: Json
  )

  /** The configuration presets: the system default and each client's own. */
  datatype Presets = Presets(system: Option<Json>, clients: map<ClientId, Json>)

  type Meetings = map<MeetingId, Meeting>

  datatype Db = Db(meetings: Meetings, rooms: map<PublicId, Room>, presets: Presets, now: int)

  // ---------------------------------------------------------------------------------------------
  // Constraints
  // ---------------------------------------------------------------------------------------------

  predicate SameKey(a: Meeting, b: Meeting) {
    a.client == b.client && a.classId == b.classId
  }

  /** The pairs that the exclusion constraint forbids. */
  predicate Clash(a: Meeting, b: Meeting) {
    && a.active && b.active
    && a.room.Some? && a.room == b.room
    && a.reservation.Some? && b.reservation.Some?
    && Overlap(a.reservation.value, b.reservation.value)
  }

  predicate ExclusionHolds(meetings: Meetings, id: MeetingId, row: Meeting) {
    forall other | other in meetings && other != id :: !Clash(meetings[other], row)
  }

  predicate KeyIsFree(meetings: Meetings, id: MeetingId, row: Meeting) {
    forall other | other in meetings && other != id :: !SameKey(meetings[other], row)
  }

  /** `active_reservation_complete`, `positive_meeting_interval` and `reservation_range_valid`. */
  predicate RowChecks(row: Meeting) {
    && (row.active ==>
      && row.room.Some? && row.reservation.Some? && row.startAt.Some? && row.endAt.Some?
      && row.reservation.value.lower < row.reservation.value.upper
      && row.reservation.value.lower <= row.startAt.value
      && row.endAt.value <= row.reservation.value.upper)
    && (row.startAt.Some? && row.endAt.Some? ==> row.startAt.value < row.endAt.value)
  }

  datatype SaveResult = Saved(db: Db) | ExclusionViolated | ConstraintViolated

  /** Writing one row. A violated constraint aborts the statement; `updated_at` is stamped. */
  function Save(db: Db, id: MeetingId, row: Meeting): SaveResult {
    if !RowChecks(row) || !KeyIsFree(db.meetings, id, row) then ConstraintViolated
    else if !ExclusionHolds(db.meetings, id, row) then ExclusionViolated
    else Saved(db.(meetings := db.meetings[id := row.(updatedAt := db.now)]))
  }
}
