/** Delivery evidence of operational guest messages, reconciled with the issue the host sees. */
module OperationalAttention {
  import opened Common
  import opened OperationalIssues
  import opened OperationalLog
  import opened OperationalMeaning
  import opened OperationalService

  datatype MessageType = PRECHECKIN | GUEST_ACCESS_PASSCODE | GUEST_APP_ACTIVATION | CHECKOUT

  datatype Evidence = Evidence(reservationId: string, kind: MessageType, ok: bool, error: Option<string>, now: Time)

  datatype Outcome = Created | Updated | ReopenedGap | ResolvedGap | Unchanged

  const KEY_PREFIX := "OTA_CHANNEX_GUEST_MESSAGE:"
  const PREFLIGHT_PREFIX := "OTA_OPERATIONAL_PREFLIGHT_"
  const GAP := "OTA_CHANNEX_GUEST_MESSAGE_DELIVERY_GAP"
  const NEW_GAP := "OTA_CHANNEX_GUEST_MESSAGE_NEW_DELIVERY_GAP"
  const ACCEPTED := "OTA_CHANNEX_PROVIDER_ACCEPTED"
  const ENGINE := "COMMUNICATIONS"

  /** The two recommendations shown to the host, by their opening words. */
  const CHECK_RECEIPT := "Review the Channex conversation"
  const CHECK_MAPPING := "Review the OTA conversation"

  const UNKNOWN_OUTCOMES := {"OTA_OPERATIONAL_SEND_OUTCOME_UNKNOWN", "AIRBNB_SEND_OUTCOME_UNKNOWN"}

  const ACTIONABLE_ERRORS := UNKNOWN_OUTCOMES + {
    "OTA_OPERATIONAL_GUEST_APP_LINK_UNAVAILABLE", "OTA_OPERATIONAL_THREAD_MISSING_OR_AMBIGUOUS",
    "OTA_OPERATIONAL_THREAD_NOT_ELIGIBLE", "OTA_OPERATIONAL_THREAD_SEARCH_LIMIT", "OTA_OPERATIONAL_MAPPING_MISSING",
    "OTA_OPERATIONAL_TRANSPORT_DISABLED", "OTA_OPERATIONAL_PREFLIGHT_FAILED", "OTA_OPERATIONAL_BOOKING_ID_INVALID",
    "OTA_OPERATIONAL_MESSAGE_INVALID", "OTA_OPERATIONAL_RESERVATION_CHANGED", "OTA_OPERATIONAL_UNEXPECTED",
    "AIRBNB_BOOKING_THREAD_MISSING_OR_AMBIGUOUS", "AIRBNB_THREAD_NOT_ELIGIBLE", "AIRBNB_THREAD_SEARCH_LIMIT",
    "AIRBNB_PROPERTY_MAPPING_MISSING", "AIRBNB_BOOKING_MAPPING_MISSING", "AIRBNB_TRANSPORT_DISABLED",
    "AIRBNB_PREFLIGHT_FAILED", "AIRBNB_PROPERTY_TIMEZONE_MISSING", "AIRBNB_RESERVATION_CHANGED",
      "AIRBNB_MESSAGE_TOO_LONG"}

  function TypeName(kind: MessageType): string {
    match kind
    case PRECHECKIN => "PRECHECKIN"
    case GUEST_ACCESS_PASSCODE => "GUEST_ACCESS_PASSCODE"
    case GUEST_APP_ACTIVATION => "GUEST_APP_ACTIVATION"
    case CHECKOUT => "CHECKOUT"
  }

  function IssueKey(reservationId: string, kind: MessageType): string {
    KEY_PREFIX + reservationId + ":" + TypeName(kind)
  }

  function Upper(s: string): string {
    seq(|s|, i requires 0 <= i < |s| => if 'a' <= s[i] <= 'z' then (s[i] as int - 32) as char else s[i])
  }

  function FailureReason(e: Evidence): string {
    Upper(Trim(if e.error.Some? then e.error.value else ""))
  }

  predicate Actionable(e: Evidence) {
    FailureReason(e) in ACTIONABLE_ERRORS || PREFLIGHT_PREFIX <= FailureReason(e)
  }

  function GapSeverity(e: Evidence): Severity {
    if e.kind.GUEST_ACCESS_PASSCODE? then CRITICAL else WARNING
  }

  function GapWanted(e: Evidence): Wanted {
    Wanted(ACTION_REQUIRED, GapSeverity(e), HOST, true,
           Some(if FailureReason(e) in UNKNOWN_OUTCOMES then CHECK_RECEIPT else CHECK_MAPPING), None, false,
             NOT_SUPPORTED,
           Some(Some(FailureReason(e))))
  }

  /** The upsert for a delivery gap, and the one for an accepted message. */
  function GapUpsert(e: Evidence, firstDetectedAt: Time): Upsert {
    Upsert(IssueKey(e.reservationId, e.kind), GAP, [ENGINE, GAP], GapWanted(e), Some(e.reservationId), e.now,
           Some(firstDetectedAt), Some(e.now), None, None, None, None, None)
  }

  function AcceptedUpsert(e: Evidence, firstDetectedAt: Time): Upsert {
    Upsert(IssueKey(e.reservationId, e.kind), GAP, [ENGINE, ACCEPTED],
           Wanted(RESOLVED, INFO, PIN_GO, false, None, None, true, SUCCEEDED, Some(None)), Some(e.reservationId), e.now,
           Some(firstDetectedAt), Some(e.now), Some(e.now), Some(ACCEPTED), Some(ACCEPTED), Some(AUTOMATIC),
             Some(PIN_GO))
  }

  function GapReopen(e: Evidence): Reopen {
    Reopen(IssueKey(e.reservationId, e.kind), [NEW_GAP, NEW_GAP], GapWanted(e), e.now)
  }

  /** What the reconciliation answers; it looks at the stored issue only. */
  function Decision(existing: Option<Issue>, e: Evidence): Outcome {
    if e.ok then
      if existing.None? || existing.value.workflow.RESOLVED? then Unchanged else ResolvedGap
    else if !Actionable(e) then Unchanged
    else if existing.None? then Created
    else if existing.value.workflow.RESOLVED? then ReopenedGap
    else if existing.value.workflow.ACTION_REQUIRED? && existing.value.errorCode == Some(FailureReason(e)) then
      Unchanged
    else Updated
  }

  /** The store after a reconciliation, or the error of the first call that throws. */
  function ReconcileStore(store: Store, e: Evidence): Result<Store, Error> {
    var existing := Before(store, IssueKey(e.reservationId, e.kind));
    var firstDetectedAt := if existing.Some? then existing.value.firstDetectedAt else e.now;
    match Decision(existing, e)
    case Unchanged => Ok(store)
    case ResolvedGap => UpsertStore(store, AcceptedUpsert(e, firstDetectedAt))
    case ReopenedGap =>
      var reopened := ReopenStore(store, GapReopen(e));
      if reopened.Err? then reopened else UpsertStore(reopened.value, GapUpsert(e, firstDetectedAt))
    case _ => UpsertStore(store, GapUpsert(e, firstDetectedAt))
  }

  /** The same letters, some of them in the other case. */
  ghost predicate SameLetters(s: string, t: string) {
    |s| == |t| && forall i :: 0 <= i < |s| ==>
      || s[i] == t[i]
      || ('a' <= s[i] <= 'z' && s[i] as int - 32 == t[i] as int)
      || ('a' <= t[i] <= 'z' && t[i] as int - 32 == s[i] as int)
  }

  lemma UpperIgnoresCase(s: string, t: string)
    requires SameLetters(s, t)
    ensures Upper(s) == Upper(t)
  {
  }

  /** Neither the case of an error nor the space around it matters, to its reason or to whether it is actionable. */
  lemma ReasonIgnoresCaseAndSpace(e: Evidence, before: string, text: string, after: string, other: string)
    requires e.error == Some(before + text + after) && AllSpaces(before) && AllSpaces(after) && SameLetters(text, other)
    requires text != "" && !IsSpace(text[0]) && !IsSpace(text[|text| - 1])
    ensures var plain := e.(error := Some(other));
            FailureReason(e) == FailureReason(plain) && (Actionable(e) <==> Actionable(plain))
  {
    TrimUnpads(before, text, after);
    assert other == [] + other + [];
    TrimUnpads([], other, []);
    UpperIgnoresCase(text, other);
  }

  lemma NothingToTrim(s: string)
    requires s != "" && !IsSpace(s[0]) && !IsSpace(s[|s| - 1])
    ensures Trim(s) == s && !Blank(s)
  {
  }

  lemma KeyIsTrimmed(reservationId: string, kind: MessageType)
    ensures Trim(IssueKey(reservationId, kind)) == IssueKey(reservationId, kind) &&
            !Blank(IssueKey(reservationId, kind))
  {
    var key := IssueKey(reservationId, kind);
    assert key[0] == 'O';
    assert key[|key| - 1] == TypeName(kind)[|TypeName(kind)| - 1];
    NothingToTrim(key);
  }

  lemma ConstantsAreTrimmed()
    ensures forall s :: s in {GAP, NEW_GAP, ACCEPTED, ENGINE, CHECK_RECEIPT, CHECK_MAPPING} ==>
            Trim(s) == s && !Blank(s)
  {
    NothingToTrim(GAP);
    NothingToTrim(NEW_GAP);
    NothingToTrim(ACCEPTED);
    NothingToTrim(ENGINE);
    NothingToTrim(CHECK_RECEIPT);
    NothingToTrim(CHECK_MAPPING);
  }

  /** Different reservations or message types never share an issue. */
  lemma KeysAreDistinct(r: string, kind: MessageType, other: string, otherKind: MessageType)
    requires IssueKey(r, kind) == IssueKey(other, otherKind)
    ensures r == other && kind == otherKind
  {
    var key := IssueKey(r, kind);
    assert key[|key| - 1] == TypeName(kind)[|TypeName(kind)| - 1] == TypeName(otherKind)[|TypeName(otherKind)| - 1];
    assert key[|key| - 2] == TypeName(kind)[|TypeName(kind)| - 2] == TypeName(otherKind)[|TypeName(otherKind)| - 2];
    assert kind == otherKind;
    var n := |KEY_PREFIX|;
    assert r == key[n..|key| - 1 - |TypeName(kind)|] == other;
  }

  /** A log that grew by what the path from `before` to the gap or the acceptance needs. */
  function Grown(log: seq<Transition>, key: string, before: Option<Issue>, target: Workflow): seq<Transition> {
    if before.None? then log + [Transition(key, GAP, None, target)]
    else if before.value.workflow.RESOLVED? then
      var reopened := log + [Transition(key, before.value.issueCode, Some(RESOLVED), target)];
      if before.value.issueCode == GAP then reopened else reopened + [Transition(key, GAP, Some(target), target)]
    else if before.value.workflow == target && before.value.issueCode == GAP then log
    else log + [Transition(key, GAP, Some(before.value.workflow), target)]
  }

  /** An upsert that passes every check, told by the row it writes. */
  lemma UpsertWrites(store: Store, u: Upsert)
    requires UpsertValid(u) && Trim(u.key) == u.key && !Blank(u.key) && Trim(u.issueCode) == u.issueCode &&
             !Blank(u.issueCode)
    requires !AnyBlank(u.texts) && TransitionAllowed(Current(store, u.key), u.wanted.workflow)
    ensures var before := Before(store, u.key);
            var after := Written(u, before);
            UpsertStore(store, u) ==
            Ok(Store(store.issues[u.key := after],
                     if before.None? || before.value.workflow != after.workflow ||
                         before.value.issueCode != u.issueCode then
                       store.log + [Transition(u.key, u.issueCode, Current(store, u.key), u.wanted.workflow)]
                     else store.log))
  {
  }

  lemma GapPasses(e: Evidence, firstDetectedAt: Time)
    ensures var u := GapUpsert(e, firstDetectedAt);
            UpsertValid(u) && Trim(u.key) == u.key && !Blank(u.key) && Trim(u.issueCode) == u.issueCode &&
              !Blank(u.issueCode) &&
            !AnyBlank(u.texts)
  {
    KeyIsTrimmed(e.reservationId, e.kind);
    ConstantsAreTrimmed();
  }

  lemma AcceptedPasses(e: Evidence, firstDetectedAt: Time)
    ensures var u := AcceptedUpsert(e, firstDetectedAt);
            UpsertValid(u) && Trim(u.key) == u.key && !Blank(u.key) && Trim(u.issueCode) == u.issueCode &&
              !Blank(u.issueCode) &&
            !AnyBlank(u.texts)
  {
    KeyIsTrimmed(e.reservationId, e.kind);
    ConstantsAreTrimmed();
  }

  /** The three calls against any store they are made on. */
  lemma GapUpserts(store: Store, e: Evidence, firstDetectedAt: Time)
    requires Current(store, IssueKey(e.reservationId, e.kind)) != Some(RESOLVED)
    ensures UpsertStore(store, GapUpsert(e, firstDetectedAt)).Ok?
    ensures var after := UpsertStore(store, GapUpsert(e, firstDetectedAt)).value;
            var key := IssueKey(e.reservationId, e.kind);
            && after.issues == store.issues[key := Written(GapUpsert(e, firstDetectedAt), Before(store, key))]
            && after.issues[key].issueCode == GAP
            && after.log == Grown(store.log, key, Before(store, key), ACTION_REQUIRED)
  {
    GapPasses(e, firstDetectedAt);
    UpsertWrites(store, GapUpsert(e, firstDetectedAt));
  }

  lemma AcceptedUpserts(store: Store, e: Evidence, firstDetectedAt: Time)
    requires Current(store, IssueKey(e.reservationId, e.kind)) != Some(RESOLVED)
    ensures UpsertStore(store, AcceptedUpsert(e, firstDetectedAt)).Ok?
    ensures var after := UpsertStore(store, AcceptedUpsert(e, firstDetectedAt)).value;
            var key := IssueKey(e.reservationId, e.kind);
            && after.issues == store.issues[key := Written(AcceptedUpsert(e, firstDetectedAt), Before(store, key))]
            && after.issues[key].issueCode == GAP
            && after.log == Grown(store.log, key, Before(store, key), RESOLVED)
  {
    AcceptedPasses(e, firstDetectedAt);
    UpsertWrites(store, AcceptedUpsert(e, firstDetectedAt));
  }

  /** A reopen that passes every check, told by the row it writes. */
  lemma ReopenWrites(store: Store, r: Reopen)
    requires !r.wanted.workflow.RESOLVED? && WantedValid(r.wanted) && Trim(r.key) == r.key && !Blank(r.key)
    requires !AnyBlank(r.texts) && Current(store, r.key) == Some(RESOLVED)
    ensures ReopenStore(store, r) ==
            Ok(Store(store.issues[r.key := Reopened(r, store.issues[r.key])],
                     store.log + [Transition(r.key, store.issues[r.key].issueCode, Some(RESOLVED), r.wanted.workflow)]))
  {
  }

  lemma ReopenPasses(e: Evidence)
    ensures WantedValid(GapWanted(e)) && Trim(GapReopen(e).key) == GapReopen(e).key && !Blank(GapReopen(e).key)
    ensures !AnyBlank(GapReopen(e).texts)
  {
    KeyIsTrimmed(e.reservationId, e.kind);
    ConstantsAreTrimmed();
  }

  lemma GapReopens(store: Store, e: Evidence)
    requires Current(store, IssueKey(e.reservationId, e.kind)) == Some(RESOLVED)
    ensures ReopenStore(store, GapReopen(e)).Ok?
    ensures var after, key := ReopenStore(store, GapReopen(e)).value, IssueKey(e.reservationId, e.kind);
            && after.issues == store.issues[key := Reopened(GapReopen(e), store.issues[key])]
            && after.log == store.log + [Transition(key, store.issues[key].issueCode, Some(RESOLVED), ACTION_REQUIRED)]
  {
    ReopenPasses(e);
    ReopenWrites(store, GapReopen(e));
  }

  /** What a reconciliation must achieve, told by the rows and log entries before and after it. */
  ghost predicate Settles(store: Store, after: Store, e: Evidence, outcome: Outcome) {
    var key := IssueKey(e.reservationId, e.kind);
    && (outcome.Unchanged? <==> after == store)
    && (forall other :: other != key ==> Before(after, other) == Before(store, other))
    && (e.ok ==> Current(after, key).None? || Current(after, key) == Some(RESOLVED))
    && (!e.ok && Actionable(e) ==> Current(after, key) == Some(ACTION_REQUIRED) &&
                                   after.issues[key].errorCode == Some(FailureReason(e)))
    && (!outcome.Unchanged? ==> key in after.issues && after.issues[key].issueCode == GAP &&
                                after.log == Grown(store.log, key, Before(store, key), after.issues[key].workflow))
    && (outcome.ReopenedGap? <==>
        key in store.issues && after.issues[key].reopenedCount == store.issues[key].reopenedCount + 1)
    && (outcome.Created? <==> key !in store.issues && key in after.issues)
    && (outcome.ResolvedGap? <==>
        Current(store, key).Some? && Current(store, key) != Some(RESOLVED) && Current(after, key) == Some(RESOLVED))
    && (outcome.Updated? ==> Current(store, key).Some? && Current(after, key) == Some(ACTION_REQUIRED))
    && (!e.ok && !Actionable(e) ==> after == store)
  }

  lemma GapSettles(store: Store, e: Evidence, firstDetectedAt: Time)
    requires var outcome := Decision(Before(store, IssueKey(e.reservationId, e.kind)), e);
             outcome.Created? || outcome.Updated?
    ensures UpsertStore(store, GapUpsert(e, firstDetectedAt)).Ok?
    ensures Settles(store, UpsertStore(store, GapUpsert(e, firstDetectedAt)).value, e,
                    Decision(Before(store, IssueKey(e.reservationId, e.kind)), e))
  {
    GapUpserts(store, e, firstDetectedAt);
  }

  /** The two rows a reopening and the upsert after it write, and the log they leave. */
  lemma BothWritesSettle(store: Store, mid: Store, after: Store, e: Evidence, key: string, row: Issue, last: Issue)
    requires key == IssueKey(e.reservationId, e.kind) && Decision(Before(store, key), e).ReopenedGap?
    requires mid.issues == store.issues[key := row] && after.issues == mid.issues[key := last]
    requires row.workflow.ACTION_REQUIRED? && row.issueCode == store.issues[key].issueCode
    requires last.workflow.ACTION_REQUIRED? && last.issueCode == GAP && last.errorCode == Some(FailureReason(e))
    requires last.reopenedCount == store.issues[key].reopenedCount + 1
    requires mid.log == store.log + [Transition(key, row.issueCode, Some(RESOLVED), ACTION_REQUIRED)]
    requires after.log == Grown(mid.log, key, Some(row), ACTION_REQUIRED)
    ensures Settles(store, after, e, ReopenedGap)
  {
  }

  /** A reopening and an upsert of the gap that pass every check. */
  lemma BothCallsSettle(store: Store, e: Evidence, r: Reopen, u: Upsert)
    requires r.key == u.key == IssueKey(e.reservationId, e.kind) && Trim(r.key) == r.key && !Blank(r.key)
    requires WantedValid(r.wanted) && !AnyBlank(r.texts) && r.wanted.workflow.ACTION_REQUIRED?
    requires UpsertValid(u) && Trim(u.issueCode) == u.issueCode == GAP && !Blank(u.issueCode) && !AnyBlank(u.texts)
    requires u.wanted.workflow.ACTION_REQUIRED? && u.wanted.metadata == Some(Some(FailureReason(e)))
    requires Decision(Before(store, r.key), e).ReopenedGap?
    ensures ReopenStore(store, r).Ok? && UpsertStore(ReopenStore(store, r).value, u).Ok?
    ensures Settles(store, UpsertStore(ReopenStore(store, r).value, u).value, e, ReopenedGap)
  {
    ReopenWrites(store, r);
    var mid, row := ReopenStore(store, r).value, Reopened(r, store.issues[r.key]);
    UpsertWrites(mid, u);
    BothWritesSettle(store, mid, UpsertStore(mid, u).value, e, r.key, row, Written(u, Some(row)));
  }

  lemma ReopenSettles(store: Store, e: Evidence, firstDetectedAt: Time)
    requires Decision(Before(store, IssueKey(e.reservationId, e.kind)), e).ReopenedGap?
    ensures ReopenStore(store, GapReopen(e)).Ok? &&
            UpsertStore(ReopenStore(store, GapReopen(e)).value, GapUpsert(e, firstDetectedAt)).Ok?
    ensures Settles(store, UpsertStore(ReopenStore(store, GapReopen(e)).value, GapUpsert(e, firstDetectedAt)).value, e,
                    ReopenedGap)
  {
    ReopenPasses(e);
    GapPasses(e, firstDetectedAt);
    BothCallsSettle(store, e, GapReopen(e), GapUpsert(e, firstDetectedAt));
  }

  lemma AcceptanceSettles(store: Store, e: Evidence, firstDetectedAt: Time)
    requires Decision(Before(store, IssueKey(e.reservationId, e.kind)), e).ResolvedGap?
    ensures UpsertStore(store, AcceptedUpsert(e, firstDetectedAt)).Ok?
    ensures Settles(store, UpsertStore(store, AcceptedUpsert(e, firstDetectedAt)).value, e, ResolvedGap)
  {
    AcceptedUpserts(store, e, firstDetectedAt);
  }

  /**
   * From any store the calls it makes pass every validator and transition check. Only the message's own issue is
   * touched, it reports a change exactly when there is one, and afterwards an accepted message has no active issue
   * while an actionable failure has one that names its reason.
   */
  lemma NeverThrows(store: Store, e: Evidence)
    ensures ReconcileStore(store, e).Ok?
    ensures Settles(store, ReconcileStore(store, e).value, e,
                    Decision(Before(store, IssueKey(e.reservationId, e.kind)), e))
  {
    var existing := Before(store, IssueKey(e.reservationId, e.kind));
    var firstDetectedAt := if existing.Some? then existing.value.firstDetectedAt else e.now;
    match Decision(existing, e) {
      case Unchanged =>
      case ResolvedGap => AcceptanceSettles(store, e, firstDetectedAt);
      case ReopenedGap => ReopenSettles(store, e, firstDetectedAt);
      case _ => GapSettles(store, e, firstDetectedAt);
    }
  }

  /** The gap as the host sees it. */
  ghost predicate ShowsGap(row: Issue, before: Option<Issue>, e: Evidence) {
    && row.workflow == ACTION_REQUIRED && row.actionRequired && row.responsible == HOST
    && row.severity == (if e.kind == GUEST_ACCESS_PASSCODE then CRITICAL else WARNING)
    && row.recommendedAction == Some(if FailureReason(e) in UNKNOWN_OUTCOMES then CHECK_RECEIPT else CHECK_MAPPING)
    && row.nextAutomaticStep.None? && row.autoResolve == NOT_SUPPORTED && row.errorCode == Some(FailureReason(e))
    && Keeps(row.reservationId, Some(e.reservationId)) && HasNoResolution(row) && row.lastSignalAt == e.now
    && row.firstDetectedAt == (if before.Some? then before.value.firstDetectedAt else e.now)
  }

  /** The gap as it is closed by an accepted message. */
  ghost predicate ShowsAcceptance(row: Issue, before: Issue, e: Evidence) {
    && row.workflow == RESOLVED && !row.actionRequired && row.responsible == PIN_GO && row.severity == INFO
    && row.recommendedAction.None? && row.nextAutomaticStep.None? && row.autoResolve == SUCCEEDED
    && row.errorCode.None? && Keeps(row.reservationId, Some(e.reservationId))
    && HasResolution(row, e.now, ACCEPTED, ACCEPTED, AUTOMATIC, PIN_GO) && row.lastSignalAt == e.now
    && row.firstDetectedAt == before.firstDetectedAt && row.reopenedCount == before.reopenedCount
  }

  lemma GapRowShows(u: Upsert, before: Option<Issue>, e: Evidence)
    requires u.wanted == GapWanted(e) && u.reservationId == Some(e.reservationId) && u.lastSignalAt == Some(e.now)
    requires u.firstDetectedAt == Some(if before.Some? then before.value.firstDetectedAt else e.now)
    ensures ShowsGap(Written(u, before), before, e)
  {
    ConstantsAreTrimmed();
    OptionalTextKeeps(u.reservationId);
  }

  lemma AcceptedRowShows(u: Upsert, before: Issue, e: Evidence)
    requires u.wanted == AcceptedUpsert(e, before.firstDetectedAt).wanted && u.reservationId == Some(e.reservationId)
    requires u.lastSignalAt == u.resolvedAt == Some(e.now) && u.resolutionCode == u.resolutionSummary == Some(ACCEPTED)
    requires u.resolutionType == Some(AUTOMATIC) && u.resolvedBy == Some(PIN_GO)
    ensures ShowsAcceptance(Written(u, Some(before)), before, e)
  {
    OptionalTextKeeps(u.reservationId);
    ConstantsAreTrimmed();
  }

  /** The issue of the message as the host finds it after a change. */
  ghost predicate Shows(store: Store, after: Store, e: Evidence) {
    var key := IssueKey(e.reservationId, e.kind);
    && key in after.issues
    && (!e.ok ==> ShowsGap(after.issues[key], Before(store, key), e))
    && (e.ok ==> key in store.issues && ShowsAcceptance(after.issues[key], store.issues[key], e))
  }

  lemma AcceptanceShows(store: Store, e: Evidence, existing: Issue)
    requires Before(store, IssueKey(e.reservationId, e.kind)) == Some(existing)
    requires Decision(Some(existing), e).ResolvedGap?
    ensures var after := UpsertStore(store, AcceptedUpsert(e, existing.firstDetectedAt));
            after.Ok? && Shows(store, after.value, e)
  {
    AcceptedUpserts(store, e, existing.firstDetectedAt);
    AcceptedRowShows(AcceptedUpsert(e, existing.firstDetectedAt), existing, e);
  }

  lemma ReopeningShows(store: Store, e: Evidence, existing: Issue)
    requires Before(store, IssueKey(e.reservationId, e.kind)) == Some(existing)
    requires Decision(Some(existing), e).ReopenedGap?
    ensures ReopenStore(store, GapReopen(e)).Ok?
    ensures var after := UpsertStore(ReopenStore(store, GapReopen(e)).value, GapUpsert(e, existing.firstDetectedAt));
            after.Ok? && Shows(store, after.value, e)
  {
    GapReopens(store, e);
    GapUpserts(ReopenStore(store, GapReopen(e)).value, e, existing.firstDetectedAt);
    GapRowShows(GapUpsert(e, existing.firstDetectedAt), Some(Reopened(GapReopen(e), existing)), e);
  }

  lemma GapShows(store: Store, e: Evidence, firstDetectedAt: Time)
    requires var existing := Before(store, IssueKey(e.reservationId, e.kind));
             && (Decision(existing, e).Created? || Decision(existing, e).Updated?)
             && firstDetectedAt == if existing.Some? then existing.value.firstDetectedAt else e.now
    ensures var after := UpsertStore(store, GapUpsert(e, firstDetectedAt));
            after.Ok? && Shows(store, after.value, e)
  {
    GapUpserts(store, e, firstDetectedAt);
    GapRowShows(GapUpsert(e, firstDetectedAt), Before(store, IssueKey(e.reservationId, e.kind)), e);
  }

  /** The calls behind each answer. */
  lemma ReconcileCalls(store: Store, e: Evidence)
    ensures var existing := Before(store, IssueKey(e.reservationId, e.kind));
            && (Decision(existing, e).ResolvedGap? ==>
                  existing.Some? &&
                  ReconcileStore(store, e) == UpsertStore(store, AcceptedUpsert(e, existing.value.firstDetectedAt)))
            && (Decision(existing, e).ReopenedGap? && ReopenStore(store, GapReopen(e)).Ok? ==>
                  existing.Some? && ReconcileStore(store, e) ==
                  UpsertStore(ReopenStore(store, GapReopen(e)).value, GapUpsert(e, existing.value.firstDetectedAt)))
            && (Decision(existing, e).Created? || Decision(existing, e).Updated? ==>
                  ReconcileStore(store, e) ==
                  UpsertStore(store, GapUpsert(e, if existing.Some? then existing.value.firstDetectedAt else e.now)))
  {
  }

  ghost predicate ShowsResult(store: Store, result: Result<Store, Error>, e: Evidence) {
    result.Ok? && Shows(store, result.value, e)
  }

  lemma AcceptanceIsShown(store: Store, e: Evidence)
    requires Decision(Before(store, IssueKey(e.reservationId, e.kind)), e).ResolvedGap?
    ensures ShowsResult(store, ReconcileStore(store, e), e)
  {
    ReconcileCalls(store, e);
    AcceptanceShows(store, e, Before(store, IssueKey(e.reservationId, e.kind)).value);
  }

  lemma ReopeningIsShown(store: Store, e: Evidence)
    requires Decision(Before(store, IssueKey(e.reservationId, e.kind)), e).ReopenedGap?
    ensures ShowsResult(store, ReconcileStore(store, e), e)
  {
    ReconcileCalls(store, e);
    ReopeningShows(store, e, Before(store, IssueKey(e.reservationId, e.kind)).value);
  }

  lemma GapIsShown(store: Store, e: Evidence)
    requires var outcome := Decision(Before(store, IssueKey(e.reservationId, e.kind)), e);
             outcome.Created? || outcome.Updated?
    ensures ShowsResult(store, ReconcileStore(store, e), e)
  {
    var existing := Before(store, IssueKey(e.reservationId, e.kind));
    ReconcileCalls(store, e);
    GapShows(store, e, if existing.Some? then existing.value.firstDetectedAt else e.now);
  }

  /**
   * What the host sees after a reconciliation that changed something: an open gap of the right severity with what to
   * do about it, or the acceptance that closed it; either way with the time the gap was first detected.
   */
  lemma HostSeesTheGap(store: Store, e: Evidence)
    requires !Decision(Before(store, IssueKey(e.reservationId, e.kind)), e).Unchanged?
    ensures ShowsResult(store, ReconcileStore(store, e), e)
  {
    match Decision(Before(store, IssueKey(e.reservationId, e.kind)), e) {
      case ResolvedGap => AcceptanceIsShown(store, e);
      case ReopenedGap => ReopeningIsShown(store, e);
      case _ => GapIsShown(store, e);
    }
  }

  lemma ReconcileKeepsValid(store: Store, e: Evidence)
    requires Valid(store)
    ensures ReconcileStore(store, e).Ok? && Valid(ReconcileStore(store, e).value)
  {
    NeverThrows(store, e);
    var existing := Before(store, IssueKey(e.reservationId, e.kind));
    var firstDetectedAt := if existing.Some? then existing.value.firstDetectedAt else e.now;
    match Decision(existing, e) {
      case Unchanged =>
      case ResolvedGap => UpsertKeepsValid(store, AcceptedUpsert(e, firstDetectedAt));
      case ReopenedGap =>
        ReopenKeepsValid(store, GapReopen(e));
        UpsertKeepsValid(ReopenStore(store, GapReopen(e)).value, GapUpsert(e, firstDetectedAt));
      case _ => UpsertKeepsValid(store, GapUpsert(e, firstDetectedAt));
    }
  }

  /** What is settled needs no second settling. */
  lemma SettledStays(store: Store, after: Store, e: Evidence, again: Evidence, outcome: Outcome)
    requires Settles(store, after, e, outcome)
    requires again == e.(now := again.now)
    ensures Decision(Before(after, IssueKey(e.reservationId, e.kind)), again).Unchanged? &&
            ReconcileStore(after, again) == Ok(after)
  {
  }

  /** The same evidence again, at any time, changes nothing and logs nothing. */
  lemma Idempotent(store: Store, e: Evidence, now: Time)
    ensures ReconcileStore(store, e).Ok?
    ensures var after := ReconcileStore(store, e).value;
            Decision(Before(after, IssueKey(e.reservationId, e.kind)), e.(now := now)).Unchanged? &&
            ReconcileStore(after, e.(now := now)) == Ok(after)
  {
    NeverThrows(store, e);
    SettledStays(store, ReconcileStore(store, e).value, e, e.(now := now),
                 Decision(Before(store, IssueKey(e.reservationId, e.kind)), e));
  }

  /**
   * The reopening and the upsert after it are two transactions. A crash between them leaves a store as valid as
   * before, with the gap open under its reason; the row keeps what only the upsert would have refreshed.
   */
  lemma CrashLeavesOpenGap(store: Store, e: Evidence)
    requires Current(store, IssueKey(e.reservationId, e.kind)) == Some(RESOLVED)
    ensures ReopenStore(store, GapReopen(e)).Ok?
    ensures var mid, key := ReopenStore(store, GapReopen(e)).value, IssueKey(e.reservationId, e.kind);
            && (Valid(store) ==> Valid(mid))
            && Current(mid, key) == Some(ACTION_REQUIRED) && mid.issues[key].errorCode == Some(FailureReason(e))
            && mid.issues[key].issueCode == store.issues[key].issueCode
  {
    GapReopens(store, e);
    if Valid(store) {
      ReopenKeepsValid(store, GapReopen(e));
    }
  }

  /** Whatever evidence comes after such a crash is settled like any other; the same evidence finds nothing to do. */
  lemma CrashBetweenStillSettles(store: Store, e: Evidence, next: Evidence)
    requires Decision(Before(store, IssueKey(e.reservationId, e.kind)), e).ReopenedGap?
    ensures ReopenStore(store, GapReopen(e)).Ok?
    ensures var mid := ReopenStore(store, GapReopen(e)).value;
            && ReconcileStore(mid, next).Ok?
            && Settles(mid, ReconcileStore(mid, next).value, next,
                       Decision(Before(mid, IssueKey(next.reservationId, next.kind)), next))
            && Decision(Before(mid, IssueKey(e.reservationId, e.kind)), e).Unchanged?
  {
    CrashLeavesOpenGap(store, e);
    NeverThrows(ReopenStore(store, GapReopen(e)).value, next);
  }

  /** The reconciliation over the issue service. */
  method Reconcile(service: IssueService, e: Evidence) returns (outcome: Outcome)
    modifies service
    ensures ReconcileStore(old(service.Value()), e) == Ok(service.Value())
    ensures outcome == Decision(Before(old(service.Value()), IssueKey(e.reservationId, e.kind)), e)
    ensures old(Valid(service.Value())) ==> Valid(service.Value())
  {
    ghost var before := service.Value();
    NeverThrows(before, e);
    if Valid(before) {
      ReconcileKeepsValid(before, e);
    }
    var reason := FailureReason(e);
    if !e.ok && !Actionable(e) {
      return Unchanged;
    }
    var key := IssueKey(e.reservationId, e.kind);
    var existing := if key in service.issues then Some(service.issues[key]) else None;
    if e.ok {
      if existing.None? || existing.value.workflow.RESOLVED? {
        return Unchanged;
      }
      var _ := service.Upsert(AcceptedUpsert(e, existing.value.firstDetectedAt));
      return ResolvedGap;
    }
    if existing.Some? && existing.value.workflow.ACTION_REQUIRED? && existing.value.errorCode == Some(reason) {
      return Unchanged;
    }
    if existing.Some? && existing.value.workflow.RESOLVED? {
      var _ := service.Reopen(GapReopen(e));
    }
    var _ := service.Upsert(GapUpsert(e, if existing.Some? then existing.value.firstDetectedAt else e.now));
    outcome := if existing.None? then Created else if existing.value.workflow.RESOLVED? then ReopenedGap else Updated;
  }

  /** Evidence of one message, oldest last. */
  function Reconciled(history: seq<Evidence>): (store: Store)
  {
    if history == [] then Store(map[], [])
    else
      var next := ReconcileStore(Reconciled(history[1..]), history[0]);
      if next.Ok? then next.value else Reconciled(history[1..])
  }

  /** Whether a delivery gap is open: the last evidence that is not ignored was a failure. */
  predicate GapOpen(history: seq<Evidence>) {
    if history == [] then false
    else if history[0].ok then false
    else if Actionable(history[0]) then true
    else GapOpen(history[1..])
  }

  /** How often the gap opened or closed. */
  function Flips(history: seq<Evidence>): nat {
    if history == [] then 0
    else Flips(history[1..]) + if GapOpen(history) != GapOpen(history[1..]) then 1 else 0
  }

  /** However often each outcome is reported, the log holds one entry per opening or closing of the gap. */
  lemma {:induction false} OneEntryPerFlip(history: seq<Evidence>, reservationId: string, kind: MessageType)
    requires forall e :: e in history ==> e.reservationId == reservationId && e.kind == kind
    ensures var store, key := Reconciled(history), IssueKey(reservationId, kind);
            && |store.log| == Flips(history)
            && (Current(store, key) == Some(ACTION_REQUIRED) <==> GapOpen(history))
            && (key in store.issues ==> store.issues[key].issueCode == GAP &&
                                        (store.issues[key].workflow.ACTION_REQUIRED? ||
                                         store.issues[key].workflow.RESOLVED?))
  {
    if history == [] {
    } else {
      assert forall e :: e in history[1..] ==> e in history;
      OneEntryPerFlip(history[1..], reservationId, kind);
      NeverThrows(Reconciled(history[1..]), history[0]);
    }
  }
}
