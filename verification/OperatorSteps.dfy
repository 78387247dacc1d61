/**
  What the sweep, the operators and `cancel` do, spelled out over the state before and after.
 */
module OperatorSteps {
  import opened Wrappers
  import opened Models
  import opened Text
  import opened Transactions
  import opened Protocol
  import opened Invariants
  import opened StepProofs
  import opened Moves
  import opened CreationAnswers

  /** The state with one row replaced, stamped with the time of the write. */
  function WithRow(s: State, id: MeetingId, row: Meeting): State {
    s.(db := s.db.(meetings := s.db.meetings[id := row.(updatedAt := s.db.now)]))
  }

  /** `cancel` gives up exactly the rows for which nothing can exist at the provider. */
  lemma CancelAnswers(cfg: Settings, s: State, id: MeetingId)
    requires Inv(cfg, s) && id in s.db.meetings
    ensures var row := s.db.meetings[id];
      Next(cfg, s, CancelMeeting(id))
      == if row.status in {Draft, Reserved, Failed, RetryableFailed, NonRetryableFailed}
         then WithRow(s, id, row.(status := Cancelled, active := false)) else s
  {
    assert RowOk(cfg, s.db.meetings[id]);
    if Cancellable(s.db.meetings[id].status) { OutsiderWrites(cfg, s, id, CancelledRow(s.db.meetings[id])); }
  }

  /** The sweep marks exactly the rows that have been PROVISIONING for more than ten minutes. */
  lemma SweepAnswers(cfg: Settings, s: State, id: MeetingId)
    requires Inv(cfg, s) && id in s.db.meetings
    ensures var row := s.db.meetings[id];
      Next(cfg, s, Sweep(id))
      == if row.status == Provisioning && s.db.now - row.updatedAt > 10
         then WithRow(s, id, row.(status := ProviderStateUnknown, lastError := Some(Interrupted))) else s
  {
    assert RowOk(cfg, s.db.meetings[id]);
    if Stale(s.db.meetings[id], s.db.now) { OutsiderWrites(cfg, s, id, UnknownRow(s.db.meetings[id])); }
  }

  /** The release ends exactly the rows that exist or may exist at the provider. */
  lemma ReleaseAnswers(cfg: Settings, s: State, id: MeetingId)
    requires Inv(cfg, s) && id in s.db.meetings
    ensures var row := s.db.meetings[id];
      Next(cfg, s, Release(id))
      == if row.status in {Ready, Live, ProviderResponseInvalid, ProviderStateUnknown}
         then WithRow(s, id, row.(status := Ended, active := false)) else s
  {
    assert RowOk(cfg, s.db.meetings[id]);
    if Releasable(s.db.meetings[id].status) { OutsiderWrites(cfg, s, id, EndedRow(s.db.meetings[id])); }
  }

  // ---------------------------------------------------------------------------------------------
  // The recovery form
  // ---------------------------------------------------------------------------------------------

  lemma OpenAnswers(cfg: Settings, s: State, page: FormId, id: MeetingId, form: RecoveryForm)
    requires page !in s.forms && id in s.db.meetings
    ensures Next(cfg, s, OpenForm(page, id, form))
         == s.(forms := s.forms[page := Page(id, form, s.db.meetings[id], None)])
  {
  }

  /** The form shows calendar id and panel address only for a row that was UNKNOWN when it was loaded. */
  predicate Editable(page: Page) {
    page.loaded.status == ProviderStateUnknown
  }

  predicate MissesAField(page: Page) {
    Editable(page) && (Blank(page.form.calendarId) || Blank(page.form.panelAddress))
  }

  /** The values are complete, agree with a stored calendar id, and the URL is on a trusted host. */
  ghost predicate Validates(cfg: Settings, page: Page, row: Meeting) {
    && Editable(page) && !Blank(page.form.calendarId) && !Blank(page.form.panelAddress) && !Blank(page.form.startUrl)
    && (row.provider.calendarId.Some? && row.provider.calendarId.value != "" ==>
          row.provider.calendarId.value == Strip(page.form.calendarId))
    && SafeUrl(cfg, Strip(page.form.startUrl))
  }

  /** `clean`: a row that is UNKNOWN by now is validated, any other row is let through unread. */
  lemma CheckAnswers(cfg: Settings, s: State, page: FormId)
    requires Enabled(s, CheckForm(page))
    ensures var p := s.forms[page];
      var row := s.db.meetings[p.id];
      Next(cfg, s, CheckForm(page))
      == if row.status == ProviderStateUnknown && Validates(cfg, p, row)
         then s.(forms := s.forms[page := p.(checked := Some(true))])
         else if row.status != ProviderStateUnknown && !MissesAField(p)
         then s.(forms := s.forms[page := p.(checked := Some(false))])
         else s.(forms := s.forms - {page})
  {
    var form := s.forms[page].form;
    StripOfBlank(form.calendarId);
    StripOfBlank(form.panelAddress);
    StripOfBlank(form.startUrl);
    UrlIsTrusted(cfg, Strip(form.startUrl));
  }

  /** The calendar id and the panel address that the save would write. */
  function SubmittedId(page: Page): Option<string> {
    if Editable(page) then Some(Strip(page.form.calendarId)) else page.loaded.provider.calendarId
  }

  function SubmittedPanel(page: Page): Option<string> {
    if Editable(page) then Some(Strip(page.form.panelAddress)) else page.loaded.provider.panelAddress
  }

  /**
    The locked save of an UNKNOWN row: it is refused when another calendar id is stored, aborted when the
    form was loaded before the row had a room, and otherwise makes the row READY with the form's values.
   */
  lemma SaveAnswers(cfg: Settings, s: State, page: FormId)
    requires Inv(cfg, s) && Enabled(s, SaveForm(page))
    ensures var p, left := s.forms[page], s.(forms := s.forms - {page});
      var stored := s.db.meetings[p.id].provider.calendarId;
      Next(cfg, s, SaveForm(page))
      == if (stored.Some? && stored.value != "" ==> stored == SubmittedId(p)) && p.loaded.room.Some?
         then WithRow(left, p.id, p.loaded.(
                status := Ready, active := true, lastError := None,
                provider := ProviderFields(SubmittedId(p), p.loaded.provider.uniqueId, SubmittedPanel(p),
                                           Some(Strip(p.form.startUrl)))))
         else left
  {
    var p := s.forms[page];
    assert FormFits(s.db, p);
    SaveIsASaveStep(cfg, s, page);
    if RecoveryAccepted(s.db.meetings[p.id], p.loaded, p.form) && p.loaded.room.Some? {
      RecoveryIsWritten(cfg, s, p);
    }
  }

  lemma SaveIsASaveStep(cfg: Settings, s: State, page: FormId)
    requires Enabled(s, SaveForm(page))
    ensures Next(cfg, s, SaveForm(page)) == SaveStep(s, page)
    ensures s.forms[page].loaded.room.None? ==> SaveStep(s, page) == s.(forms := s.forms - {page})
  {
  }

  lemma RecoveryIsWritten(cfg: Settings, s: State, p: Page)
    requires DbInv(cfg, s.db) && p.id in s.db.meetings && SameCore(s.db.meetings[p.id], p.loaded)
    requires RecoveryAccepted(s.db.meetings[p.id], p.loaded, p.form)
    ensures Save(s.db, p.id, RecoveredRow(p.loaded, p.form))
         == Saved(s.db.(meetings := s.db.meetings[p.id := RecoveredRow(p.loaded, p.form).(updatedAt := s.db.now)]))
  {
    RecoveredRowOk(cfg, s.db.meetings[p.id], p.loaded, p.form);
    OutsiderWrites(cfg, s, p.id, RecoveredRow(p.loaded, p.form));
  }
}
