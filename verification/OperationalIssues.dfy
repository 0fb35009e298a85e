/**
 * Operational issues: persisted rows, an append-only transition log, explicit reopening and bulk resolution.
 * Each service call is atomic.
 */
module OperationalIssues {
  import opened Common

  const STAY_TIME_RECOVERY_REVIEW := "STAY_TIME_RECOVERY_REVIEW"

  datatype Workflow = WAITING | AUTO_RESOLVING | ACTION_REQUIRED | RESOLVED
  datatype AutoResolve = AVAILABLE | RUNNING | SUCCEEDED | FAILED | NOT_SUPPORTED
  datatype Severity = INFO | WARNING | CRITICAL
  datatype Actor = HOST | PIN_GO | PIN_AI | GUEST | CLEANER | STAFF | SYSTEM | NONE
  datatype ResolutionType = AUTOMATIC | MANUAL | EXPIRED | SUPERSEDED

  /** A row; `errorCode` stands for the error code in its metadata. */
  datatype Issue = Issue(issueCode: string, workflow: Workflow, severity: Severity, responsible: Actor,
                         actionRequired: bool, recommendedAction: Option<string>, nextAutomaticStep: Option<string>,
                         canAutoResolve: bool, autoResolve: AutoResolve, reservationId: Option<string>,
                         firstDetectedAt: Time, lastSignalAt: Time, resolvedAt: Option<Time>,
                         resolutionCode: Option<string>, resolutionSummary: Option<string>,
                         resolutionType: Option<ResolutionType>, resolvedBy: Option<Actor>,
                         reopenedCount: nat, errorCode: Option<string>)

  /** A log entry of the issue `key`; `origin` is missing for the entry that creates the issue. */
  datatype Transition = Transition(key: string, issueCode: string, origin: Option<Workflow>, target: Workflow)

  datatype Store = Store(issues: map<string, Issue>, log: seq<Transition>)

  datatype Error = STATE_INVALID | TEXT_BLANK | REOPEN_REQUIRED | TRANSITION_INVALID | ISSUE_NOT_FOUND
    | REOPEN_SOURCE_NOT_RESOLVED | REOPEN_TARGET_INVALID

  /** The state an upsert or a reopen asks for. */
  datatype Wanted = Wanted(workflow: Workflow, severity: Severity, responsible: Actor, actionRequired: bool,
                           recommendedAction: Option<string>, nextAutomaticStep: Option<string>, canAutoResolve: bool,
                           autoResolve: AutoResolve, metadata: Option<Option<string>>)

  /** `texts` holds the other required texts: title, issue, engine, transition code and summary. */
  datatype Upsert = Upsert(key: string, issueCode: string, texts: seq<string>, wanted: Wanted,
                           reservationId: Option<string>, occurredAt: Time, firstDetectedAt: Option<Time>,
                           lastSignalAt: Option<Time>, resolvedAt: Option<Time>, resolutionCode: Option<string>,
                           resolutionSummary: Option<string>, resolutionType: Option<ResolutionType>,
                           resolvedBy: Option<Actor>)

  /** `texts` holds the reopen code and summary. */
  datatype Reopen = Reopen(key: string, texts: seq<string>, wanted: Wanted, occurredAt: Time)

  datatype BulkResolve = BulkResolve(reservationId: string, code: string, summary: string, kind: ResolutionType,
                                     actor: Actor,
                                     occurredAt: Time)

  /** What JavaScript trims: white space and line terminators. */
  predicate IsSpace(c: char) {
    || '\t' <= c <= '\r' || c == ' ' || c == '\U{00A0}' || c == '\U{1680}' || '\U{2000}' <= c <= '\U{200A}'
    || c == '\U{2028}' || c == '\U{2029}' || c == '\U{202F}' || c == '\U{205F}' || c == '\U{3000}' || c == '\U{FEFF}'
  }

  function TrimLeft(s: string): string {
    if s != "" && IsSpace(s[0]) then TrimLeft(s[1..]) else s
  }

  function TrimRight(s: string): string {
    if s != "" && IsSpace(s[|s| - 1]) then TrimRight(s[..|s| - 1]) else s
  }

  function Trim(s: string): string {
    TrimRight(TrimLeft(s))
  }

  predicate Blank(s: string) {
    Trim(s) == ""
  }

  function OptionalText(s: Option<string>): Option<string> {
    if s.None? || Blank(s.value) then None else Some(Trim(s.value))
  }

  predicate AnyBlank(texts: seq<string>) {
    exists i :: 0 <= i < |texts| && Blank(texts[i])
  }

  /** The consistency rules shared by both validators. */
  predicate WantedValid(w: Wanted) {
    && (w.workflow.ACTION_REQUIRED? <==> w.actionRequired)
    && (w.workflow.ACTION_REQUIRED? ==> OptionalText(w.recommendedAction).Some?)
    && (w.workflow.WAITING? || w.workflow.AUTO_RESOLVING? ==> OptionalText(w.nextAutomaticStep).Some?)
    && (w.workflow.AUTO_RESOLVING? ==> w.canAutoResolve)
    && (w.canAutoResolve <==> !w.autoResolve.NOT_SUPPORTED?)
  }

  predicate ResolutionGiven(u: Upsert) {
    OptionalText(u.resolutionCode).Some? && OptionalText(u.resolutionSummary).Some? && u.resolutionType.Some? &&
      u.resolvedBy.Some?
  }

  predicate UpsertValid(u: Upsert) {
    WantedValid(u.wanted) && (u.wanted.workflow.RESOLVED? ==> ResolutionGiven(u))
  }

  /** The transition table, where only a reopen leaves RESOLVED. */
  predicate TransitionAllowed(origin: Option<Workflow>, target: Workflow) {
    origin == Some(RESOLVED) ==> target.RESOLVED?
  }

  function Current(store: Store, key: string): Option<Workflow> {
    if key in store.issues then Some(store.issues[key].workflow) else None
  }

  function NewestMetadata(w: Wanted, before: Option<string>): Option<string> {
    if w.metadata.Some? then w.metadata.value else before
  }

  /** The row an upsert writes, over the existing one or as a new one. */
  function Written(u: Upsert, before: Option<Issue>): Issue {
    var w, resolved := u.wanted, u.wanted.workflow.RESOLVED?;
    Issue(Trim(u.issueCode), w.workflow, w.severity, w.responsible, w.actionRequired, OptionalText(w.recommendedAction),
          OptionalText(w.nextAutomaticStep), w.canAutoResolve, w.autoResolve, OptionalText(u.reservationId),
          if before.Some? then before.value.firstDetectedAt
          else if u.firstDetectedAt.Some? then u.firstDetectedAt.value
          else u.occurredAt,
          if u.lastSignalAt.Some? then u.lastSignalAt.value else u.occurredAt,
          if !resolved then None else if u.resolvedAt.Some? then u.resolvedAt else Some(u.occurredAt),
          if resolved then OptionalText(u.resolutionCode) else None,
          if resolved then OptionalText(u.resolutionSummary) else None,
          if resolved then u.resolutionType else None,
          if resolved then u.resolvedBy else None,
          if before.Some? then before.value.reopenedCount else 0,
          NewestMetadata(w, if before.Some? then before.value.errorCode else None))
  }

  function Before(store: Store, key: string): Option<Issue> {
    if key in store.issues then Some(store.issues[key]) else None
  }

  predicate LogsTransition(before: Option<Issue>, after: Issue) {
    before.None? || before.value.workflow != after.workflow || before.value.issueCode != after.issueCode
  }

  function UpsertStore(store: Store, u: Upsert): Result<Store, Error> {
    if !UpsertValid(u) then Err(STATE_INVALID)
    else if Blank(u.key) || Blank(u.issueCode) || AnyBlank(u.texts) then Err(TEXT_BLANK)
    else
      var key := Trim(u.key);
      var before := Before(store, key);
      var after := Written(u, before);
      if !TransitionAllowed(Current(store, key), u.wanted.workflow) then Err(REOPEN_REQUIRED)
      else
        Ok(Store(store.issues[key := after],
                 if LogsTransition(before, after) then
                   store.log + [Transition(key, after.issueCode, Current(store, key), after.workflow)]
                 else store.log))
  }

  /** The row a reopen leaves: the wanted state, no resolution, one more reopening. */
  function Reopened(r: Reopen, issue: Issue): Issue {
    var w := r.wanted;
    issue.(workflow := w.workflow, severity := w.severity, responsible := w.responsible,
           actionRequired := w.actionRequired, recommendedAction := OptionalText(w.recommendedAction),
           nextAutomaticStep := OptionalText(w.nextAutomaticStep),
           canAutoResolve := w.canAutoResolve, autoResolve := w.autoResolve, lastSignalAt := r.occurredAt,
           resolvedAt := None, resolutionCode := None, resolutionSummary := None, resolutionType := None,
           resolvedBy := None,
           reopenedCount := issue.reopenedCount + 1, errorCode := NewestMetadata(w, issue.errorCode))
  }

  function ReopenStore(store: Store, r: Reopen): Result<Store, Error> {
    if r.wanted.workflow.RESOLVED? then Err(REOPEN_TARGET_INVALID)
    else if !WantedValid(r.wanted) then Err(STATE_INVALID)
    else if Blank(r.key) || AnyBlank(r.texts) then Err(TEXT_BLANK)
    else
      var key := Trim(r.key);
      if key !in store.issues then Err(ISSUE_NOT_FOUND)
      else if !store.issues[key].workflow.RESOLVED? then Err(REOPEN_SOURCE_NOT_RESOLVED)
      else
        Ok(Store(store.issues[key := Reopened(r, store.issues[key])],
                 store.log + [Transition(key, store.issues[key].issueCode, Some(RESOLVED), r.wanted.workflow)]))
  }

  /** Bulk resolution concerns the reservation's active issues, except the recovery review. */
  predicate Selected(issue: Issue, b: BulkResolve) {
    issue.reservationId == Some(Trim(b.reservationId)) && !issue.workflow.RESOLVED? &&
      issue.issueCode != STAY_TIME_RECOVERY_REVIEW
  }

  function BulkResolved(issue: Issue, b: BulkResolve): Issue {
    issue.(workflow := RESOLVED, severity := INFO, responsible := NONE, actionRequired := false,
           recommendedAction := None,
           nextAutomaticStep := None, lastSignalAt := b.occurredAt, resolvedAt := Some(b.occurredAt),
           resolutionCode := Some(Trim(b.code)), resolutionSummary := Some(Trim(b.summary)),
           resolutionType := Some(b.kind), resolvedBy := Some(b.actor))
  }

  function ResolveOne(store: Store, key: string, b: BulkResolve): Store
    requires key in store.issues
  {
    var issue := store.issues[key];
    Store(store.issues[key := BulkResolved(issue, b)],
          store.log + [Transition(key, issue.issueCode, Some(issue.workflow), RESOLVED)])
  }

  /** Resolving the listed issues one after the other. */
  function ResolveAll(store: Store, keys: seq<string>, b: BulkResolve): (after: Store)
    requires forall i :: 0 <= i < |keys| ==> keys[i] in store.issues
    ensures after.issues.Keys == store.issues.Keys
    decreases |keys|
  {
    if keys == [] then store
    else
      var rest := ResolveAll(store, keys[..|keys| - 1], b);
      ResolveOne(rest, keys[|keys| - 1], b)
  }

  /** The keys a bulk resolution lists, oldest detection first. */
  ghost predicate Lists(store: Store, keys: seq<string>, b: BulkResolve) {
    && (forall i, j :: 0 <= i < j < |keys| ==> keys[i] != keys[j])
    && (forall key :: key in keys <==> key in store.issues && Selected(store.issues[key], b))
    && (forall i, j :: 0 <= i < j < |keys| ==>
        store.issues[keys[i]].firstDetectedAt <= store.issues[keys[j]].firstDetectedAt)
  }
}
