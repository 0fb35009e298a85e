/**
 * Which completed full synchronisations count as evidence. Lifecycle events are ordered by microseconds and
 * precedence, the gates compare milliseconds, and two services must agree on the frontier between them.
 */
module FullSyncEvidence {
  import opened Common
  import opened ChannelLifecycle
  import opened FullSyncHorizon

  const MAX_SAFE_INTEGER := 9007199254740991

  /** The last millisecond a date can hold. */
  const MAX_DATE := 8640000000000000

  datatype Evidence = Evidence(event: EventType, micros: int, precedence: int)

  /** The nullable watermark columns of a connection, and the two instants derived from earlier events. */
  datatype Columns = Columns(occurredAt: Option<Time>, micros: Option<int>, event: Option<EventType>,
                             precedence: Option<int>,
                             verifiedAt: Option<Time>, activatedAt: Option<Time>)

  datatype Watermark = NoWatermark | InvalidWatermark | Watermark(evidence: Evidence)

  /** The first whole millisecond not before the event; nothing when it is not a safe integer. */
  function FrontierAt(micros: int): Option<Time> {
    if (micros + 999) / 1000 > MAX_SAFE_INTEGER then None else Some((micros + 999) / 1000)
  }

  /** An event row as the webhook persists it. */
  predicate Recorded(e: Evidence) {
    e.micros >= 0 && e.precedence == Precedence(e.event)
  }

  /** The activation service's reading of the columns. */
  function LifecycleWatermark(row: Columns): (w: Watermark)
    ensures w.Watermark? ==> Recorded(w.evidence) && row.occurredAt == Some(w.evidence.micros / 1000) &&
                             FrontierAt(w.evidence.micros).Some?
  {
    if row.occurredAt.None? && row.micros.None? && row.event.None? && row.precedence.None? then NoWatermark
    else if row.occurredAt.None? || row.micros.None? || row.event.None? || row.precedence.None? then InvalidWatermark
    else if !(0 <= row.occurredAt.value <= MAX_DATE) || row.micros.value < 0 ||
      row.micros.value / 1000 != row.occurredAt.value ||
            Precedence(row.event.value) != row.precedence.value then InvalidWatermark
    else Watermark(Evidence(row.event.value, row.micros.value, row.precedence.value))
  }

  /** What the readiness service asks of the two derived instants, and the activation service does not. */
  predicate InstantsAgree(row: Columns) {
    && (row.activatedAt.Some? ==> row.verifiedAt.Some?)
    && (row.verifiedAt.Some? ==> row.occurredAt.Some? && row.verifiedAt.value <= row.occurredAt.value)
    && (row.activatedAt.Some? ==> row.occurredAt.Some? && row.activatedAt.value <= row.occurredAt.value)
  }

  /** The readiness service's reading of the same columns, which throws on what it does not accept. */
  function ReadinessWatermark(row: Columns): Result<Option<Evidence>, ()> {
    if row.occurredAt.None? && row.micros.None? && row.event.None? && row.precedence.None? then
      if row.verifiedAt.Some? || row.activatedAt.Some? then Err(()) else Ok(None)
    else if row.occurredAt.None? || row.micros.None? || row.event.None? || row.precedence.None? then Err(())
    else if !(0 <= row.occurredAt.value <= MAX_DATE) || row.micros.value < 0 ||
      row.micros.value / 1000 != row.occurredAt.value ||
            row.precedence.value != Precedence(row.event.value) then Err(())
    else if row.activatedAt.Some? && row.verifiedAt.None? then Err(())
    else if row.verifiedAt.Some? && row.verifiedAt.value > row.occurredAt.value then Err(())
    else if row.activatedAt.Some? && row.activatedAt.value > row.occurredAt.value then Err(())
    else Ok(Some(Evidence(row.event.value, row.micros.value, row.precedence.value)))
  }

  function Compare(left: Evidence, right: Evidence): int {
    if left.micros != right.micros then if left.micros > right.micros then 1 else -1
    else left.precedence - right.precedence
  }

  /** Strictly after the rounded frontier is strictly after the event itself; the rounding costs under a millisecond. */
  lemma FrontierRoundsUp(micros: int, at: Time)
    requires micros >= 0 && FrontierAt(micros).Some?
    ensures at > FrontierAt(micros).value ==> at * 1000 > micros
    ensures at >= FrontierAt(micros).value <==> at * 1000 >= micros
    ensures micros / 1000 <= FrontierAt(micros).value <= micros / 1000 + 1
  {
  }

  lemma CompareIsTotalOrder(a: Evidence, b: Evidence, c: Evidence)
    requires Recorded(a) && Recorded(b) && Recorded(c)
    ensures Compare(a, b) == 0 <==> a == b
    ensures Compare(a, b) < 0 <==> Compare(b, a) > 0
    ensures Compare(a, b) <= 0 && Compare(b, c) <= 0 ==> Compare(a, c) <= 0
  {
  }

  /** The latest invalidation among the audits of the current channel, in one pass. */
  method LatestInvalidation(audits: seq<Evidence>) returns (latest: Option<Evidence>)
    requires forall e :: e in audits ==> Recorded(e)
    ensures latest.None? <==> audits == []
    ensures latest.Some? ==> latest.value in audits && forall e :: e in audits ==> Compare(e, latest.value) <= 0
  {
    latest := None;
    for i := 0 to |audits|
      invariant latest.None? <==> i == 0
      invariant latest.Some? ==> latest.value in audits[..i] && forall j :: 0 <= j < i ==>
                Compare(audits[j], latest.value) <= 0
    {
      var e := audits[i];
      if latest.None? || e.micros > latest.value.micros ||
          (e.micros == latest.value.micros && e.precedence > latest.value.precedence) {
        forall j | 0 <= j < i ensures Compare(audits[j], e) <= 0 {
          CompareIsTotalOrder(audits[j], if latest.Some? then latest.value else e, e);
        }
        latest := Some(e);
      }
    }
  }

  /** The activation service's view: the durable invalidation must explain the connection's watermark. */
  predicate ActivationTrusts(watermark: Watermark, invalidation: Option<Evidence>) {
    && watermark.Watermark? && invalidation.Some?
    && if Invalidates(watermark.evidence.event) then Compare(invalidation.value, watermark.evidence) == 0
       else Compare(invalidation.value, watermark.evidence) < 0
  }

  /** The frontier the activation service compares requests with, if it trusts the evidence. */
  function ActivationFrontier(row: Columns, invalidation: Option<Evidence>): Option<Time> {
    if ActivationTrusts(LifecycleWatermark(row), invalidation) then FrontierAt(invalidation.value.micros) else None
  }

  /** The readiness service's durable invalidation: its frontier, nothing, or an integrity error. */
  function DurableFrontier(watermark: Option<Evidence>, invalidation: Option<Evidence>): Result<Option<Time>, ()> {
    if invalidation.None? then Ok(None)
    else if watermark.None? then Err(())
    else
      var i, w := invalidation.value, watermark.value;
      if || i.micros > w.micros
         || (i.micros == w.micros && i.precedence > w.precedence)
         || (Invalidates(w.event) && (i.event != w.event || i.micros != w.micros || i.precedence != w.precedence))
      then Err(())
      else if FrontierAt(i.micros).None? then Err(())
      else Ok(FrontierAt(i.micros))
  }

  /**
   * The frontier the readiness service compares requests with. It asks for the audits only after an Airbnb activation,
   * and goes by the last event otherwise.
   */
  function ReadinessFrontier(row: Columns, invalidation: Option<Evidence>): Result<Option<Time>, ()> {
    var watermark := ReadinessWatermark(row);
    if watermark.Err? then Err(())
    else if watermark.value.Some? && FrontierAt(watermark.value.value.micros).None? then Err(())
    else if watermark.value.Some? && watermark.value.value.event.ActivateChannel? then
      DurableFrontier(watermark.value, invalidation)
    else if watermark.value.Some? then Ok(FrontierAt(watermark.value.value.micros))
    else Ok(None)
  }

  /** Both services read the same watermark from the same columns, but for the two derived instants. */
  lemma ReadingsAgree(row: Columns)
    ensures ReadinessWatermark(row) ==
            if !InstantsAgree(row) || LifecycleWatermark(row).InvalidWatermark? then Err(())
            else if LifecycleWatermark(row).NoWatermark? then Ok(None)
            else Ok(Some(LifecycleWatermark(row).evidence))
  {
  }

  /**
   * The two services accept the same evidence, from the columns on. The activation service has a frontier and the
   * derived instants are in order if and only if the readiness service has one and, unless the last event is an
   * activation, the audits end with that event. Both then use the same frontier.
   */
  lemma ServicesAgree(row: Columns, invalidation: Option<Evidence>)
    requires invalidation.Some? ==> Recorded(invalidation.value) && Invalidates(invalidation.value.event)
    ensures var w := LifecycleWatermark(row);
            var a, r := ActivationFrontier(row, invalidation), ReadinessFrontier(row, invalidation);
            && (a.Some? && InstantsAgree(row) <==>
                r.Ok? && r.value.Some? && (Invalidates(w.evidence.event) ==> invalidation == Some(w.evidence)))
            && (a.Some? && InstantsAgree(row) ==> r == Ok(a))
  {
    var w := LifecycleWatermark(row);
    ReadingsAgree(row);
    if w.Watermark? && invalidation.Some? {
      CompareIsTotalOrder(invalidation.value, w.evidence, w.evidence);
      FrontierRoundsUp(w.evidence.micros, 0);
    }
  }

  /** The columns as the webhook writes them for an event, with no derived instants. */
  function ColumnsFor(event: EventType, micros: int, precedence: int): Columns {
    Columns(Some(micros / 1000), Some(micros), Some(event), Some(precedence), None, None)
  }

  /**
   * The ordinary evidence is found by both services: after an invalidating event whose audit is the last one, and
   * after an activation whose audits end with an earlier invalidation.
   */
  lemma OrdinaryFrontiers(event: EventType, micros: int, precedence: int, earlier: Evidence)
    requires 0 <= micros <= 8640000000000000000 && 0 <= earlier.micros < micros
    requires earlier.event in {NewChannel, UpdatedChannel, DeactivateChannel, DisconnectListing, DisconnectChannel}
    requires (event, precedence) in {(NewChannel, 10), (UpdatedChannel, 20), (ActivateChannel, 30),
                                     (DeactivateChannel, 40), (DisconnectListing, 50), (DisconnectChannel, 60)}
    ensures var row := ColumnsFor(event, micros, precedence);
            && (event != ActivateChannel ==>
                  && ActivationFrontier(row, Some(Evidence(event, micros, precedence))) == Some((micros + 999) / 1000)
                  && ReadinessFrontier(row, Some(Evidence(event, micros, precedence))) ==
                       Ok(Some((micros + 999) / 1000)))
            && (event == ActivateChannel ==>
                  && ActivationFrontier(row, Some(earlier)) == Some((earlier.micros + 999) / 1000)
                  && ReadinessFrontier(row, Some(earlier)) == Ok(Some((earlier.micros + 999) / 1000)))
  {
  }

  datatype Reason =
    | QUALIFIED
    | PROPERTY_STATE_MISSING
    | CHANNEL_ACTIVATION_EVIDENCE_MISSING
    | LIFECYCLE_EVIDENCE_MISSING
    | LIFECYCLE_EVIDENCE_INVALID
    | MAPPING_CHANGE_EVIDENCE_MISSING
    | REQUEST_EVIDENCE_MISSING
    | COMPLETION_EVIDENCE_MISSING
    | COMPLETION_PREDATES_REQUEST
    | COMPLETION_PREDATES_FRONTIER
    | REQUEST_PREDATES_FRONTIER
    | MAPPING_EVIDENCE_INVALID
    | CORRELATION_EVIDENCE_MISSING
    | CORRELATION_EVIDENCE_AMBIGUOUS
    | CORRELATION_PAIR_INVALID
    | CORRELATION_STATE_MISMATCH
    | CORRELATION_MAPPING_MISMATCH
    | HORIZON_EVIDENCE_INVALID
    | HORIZON_EVIDENCE_MISMATCH
    | PAYLOAD(error: PayloadError)

  /** The stored times the readiness service qualifies a synchronisation with. */
  datatype Times = Times(airbnb: bool, requestedAt: Option<Time>, completedAt: Option<Time>, activatedAt: Option<Time>,
                         event: Option<EventType>, occurredAt: Option<Time>, readinessFrontier: Option<Time>,
                         durableFrontier: Option<Time>, mappingChangedAt: Option<Time>)

  /** An Airbnb activation does not invalidate the synchronisation that allowed it. */
  predicate Preserves(t: Times) {
    t.airbnb && t.event == Some(ActivateChannel)
  }

  /** The reason the times disqualify the synchronisation, or nothing. */
  function TimeProblem(t: Times): Option<Reason> {
    if t.activatedAt.None? then Some(CHANNEL_ACTIVATION_EVIDENCE_MISSING)
    else if t.event.None? || t.occurredAt.None? || t.readinessFrontier.None? then Some(LIFECYCLE_EVIDENCE_MISSING)
    else if !(t.occurredAt.value <= t.readinessFrontier.value <= t.occurredAt.value + 1) then
      Some(LIFECYCLE_EVIDENCE_INVALID)
    else if Preserves(t) && t.activatedAt != t.occurredAt then Some(LIFECYCLE_EVIDENCE_INVALID)
    else if Preserves(t) && t.durableFrontier.None? then Some(LIFECYCLE_EVIDENCE_MISSING)
    else if Preserves(t) && t.durableFrontier.value > t.occurredAt.value then Some(LIFECYCLE_EVIDENCE_INVALID)
    else if t.mappingChangedAt.None? then Some(MAPPING_CHANGE_EVIDENCE_MISSING)
    else
      var mapped := t.mappingChangedAt.value;
      var strict := Max(mapped, if Preserves(t) then t.durableFrontier.value else t.readinessFrontier.value);
      var frontier := if Preserves(t) then strict else Max(t.activatedAt.value, strict);
      if t.requestedAt.None? then Some(REQUEST_EVIDENCE_MISSING)
      else if t.completedAt.None? then Some(COMPLETION_EVIDENCE_MISSING)
      else if t.completedAt.value < t.requestedAt.value then Some(COMPLETION_PREDATES_REQUEST)
      else if t.completedAt.value < frontier then Some(COMPLETION_PREDATES_FRONTIER)
      else if t.requestedAt.value <= strict || t.requestedAt.value < frontier then Some(REQUEST_PREDATES_FRONTIER)
      else None
  }

  /**
   * What passing the time gates means in microseconds. The request came strictly after the governing lifecycle
   * event (the last invalidation when an Airbnb activation preserves it, the last event otherwise) and strictly
   * after the last mapping change, and not before the channel's activation unless that activation preserves it.
   */
  lemma TimesMeanAfterTheEvent(t: Times, governing: int)
    requires TimeProblem(t).None? && governing >= 0
    requires FrontierAt(governing) == if Preserves(t) then t.durableFrontier else t.readinessFrontier
    ensures t.requestedAt.value * 1000 > governing
    ensures t.requestedAt.value > t.mappingChangedAt.value
    ensures t.requestedAt.value <= t.completedAt.value
    ensures !Preserves(t) ==> t.requestedAt.value >= t.activatedAt.value
  {
    FrontierRoundsUp(governing, t.requestedAt.value);
  }

  /** What every synchronisation must have on record, and the order its own times must be in. */
  predicate OnRecord(t: Times) {
    && t.activatedAt.Some? && t.event.Some? && t.occurredAt.Some? && t.readinessFrontier.Some?
    && t.mappingChangedAt.Some? && t.requestedAt.Some? && t.completedAt.Some?
    && t.occurredAt.value <= t.readinessFrontier.value <= t.occurredAt.value + 1
    && t.mappingChangedAt.value < t.requestedAt.value <= t.completedAt.value
  }

  /**
   * Which times pass the gates, exactly. After an Airbnb activation it is the invalidation before it that the request
   * must follow, and the activation must be the last event; in every other case it is the last event, and the
   * request must not precede the channel's activation.
   */
  lemma TimesPassExactlyWhen(t: Times)
    ensures TimeProblem(t).None? <==>
            OnRecord(t) &&
            if t.airbnb && t.event == Some(ActivateChannel) then
              && t.activatedAt == t.occurredAt && t.durableFrontier.Some?
              && t.durableFrontier.value <= t.occurredAt.value && t.durableFrontier.value < t.requestedAt.value
            else t.readinessFrontier.value < t.requestedAt.value && t.activatedAt.value <= t.requestedAt.value
  {
  }

  /** Strictly after the frontier of an event is at least a full millisecond after the event, in microseconds. */
  lemma AfterTheFrontierExactlyWhen(governing: int, at: Time)
    requires governing >= 0 && FrontierAt(governing).Some?
    ensures FrontierAt(governing).value < at <==> governing <= (at - 1) * 1000
  {
  }

  /** The times show what a reason says of them. */
  ghost predicate TimesShow(t: Times, reason: Reason) {
    match reason
    case CHANNEL_ACTIVATION_EVIDENCE_MISSING => t.activatedAt.None?
    case LIFECYCLE_EVIDENCE_MISSING =>
      t.event.None? || t.occurredAt.None? || t.readinessFrontier.None? ||
        (Preserves(t) && t.durableFrontier.None?)
    case LIFECYCLE_EVIDENCE_INVALID =>
      && t.occurredAt.Some? && t.readinessFrontier.Some?
      && (t.readinessFrontier.value < t.occurredAt.value ||
          t.readinessFrontier.value > t.occurredAt.value + 1 ||
          (Preserves(t) && (t.activatedAt != t.occurredAt ||
                            (t.durableFrontier.Some? && t.durableFrontier.value > t.occurredAt.value))))
    case MAPPING_CHANGE_EVIDENCE_MISSING => t.mappingChangedAt.None?
    case REQUEST_EVIDENCE_MISSING => t.requestedAt.None?
    case COMPLETION_EVIDENCE_MISSING => t.completedAt.None?
    case COMPLETION_PREDATES_REQUEST =>
      t.requestedAt.Some? && t.completedAt.Some? && t.completedAt.value < t.requestedAt.value
    case COMPLETION_PREDATES_FRONTIER =>
      && t.completedAt.Some? && t.mappingChangedAt.Some? && t.activatedAt.Some? && t.readinessFrontier.Some?
      && (t.completedAt.value < t.mappingChangedAt.value ||
          (Preserves(t) && t.durableFrontier.Some? && t.completedAt.value < t.durableFrontier.value) ||
          (!Preserves(t) && (t.completedAt.value < t.readinessFrontier.value ||
                             t.completedAt.value < t.activatedAt.value)))
    case REQUEST_PREDATES_FRONTIER =>
      && t.requestedAt.Some? && t.mappingChangedAt.Some? && t.activatedAt.Some? && t.readinessFrontier.Some?
      && (t.requestedAt.value <= t.mappingChangedAt.value ||
          (Preserves(t) && t.durableFrontier.Some? && t.requestedAt.value <= t.durableFrontier.value) ||
          (!Preserves(t) && (t.requestedAt.value <= t.readinessFrontier.value ||
                             t.requestedAt.value < t.activatedAt.value)))
    case _ => false
  }

  /** Whatever the gates refuse, the reason they give is so. */
  lemma TimeProblemsAreReal(t: Times)
    requires TimeProblem(t).Some?
    ensures TimesShow(t, TimeProblem(t).value)
  {
  }

  /**
   * A synchronisation that let an Airbnb activation through still passes the readiness service's time gates after
   * the resulting activate_channel event, whenever that event happened at or after the request.
   */
  lemma ActivationKeepsEvidence(requestedAt: Time, completedAt: Time, now: Time, mappingChangedAt: Time,
                                invalidation: Evidence, activation: Evidence)
    requires Recorded(invalidation) && Invalidates(invalidation.event) && FrontierAt(invalidation.micros).Some?
    requires Recorded(activation) && activation.event.ActivateChannel? && FrontierAt(activation.micros).Some?
    requires mappingChangedAt < requestedAt && FrontierAt(invalidation.micros).value < requestedAt
    requires requestedAt <= completedAt <= now
    requires activation.micros >= requestedAt * 1000
    ensures DurableFrontier(Some(activation), Some(invalidation)) == Ok(FrontierAt(invalidation.micros))
    ensures TimeProblem(Times(true, Some(requestedAt), Some(completedAt), Some(activation.micros / 1000),
                              Some(ActivateChannel), Some(activation.micros / 1000), FrontierAt(activation.micros),
                              FrontierAt(invalidation.micros), Some(mappingChangedAt))).None?
  {
    FrontierRoundsUp(invalidation.micros, requestedAt);
    FrontierRoundsUp(activation.micros, requestedAt);
  }

  datatype Kind = AVAILABILITY | RATES_RESTRICTIONS | OtherKind

  /**
   * One outbox row and its delivery. `stateOk` says that its scope, status and kind columns are the expected ones;
   * an empty string stands for a missing identifier.
   */
  datatype Row = Row(id: string, deliveryId: string, correlationId: string, kind: Kind, stateOk: bool,
                     createdAt: Option<Time>, sentAt: Option<Time>, dateFrom: Option<int>, dateToExclusive: Option<int>,
                     deliveryFrom: Option<int>, deliveryToExclusive: Option<int>, dateKeysEmpty: bool, mappingOk: bool,
                     items: seq<Item>, metadataOk: bool, hashOk: bool)

  predicate RowTimely(row: Row, requestedAt: Time, completedAt: Time) {
    && row.stateOk && row.createdAt.Some? && requestedAt <= row.createdAt.value <= completedAt
    && row.sentAt.Some? && requestedAt <= row.sentAt.value <= completedAt
  }

  predicate RowDated(row: Row, n: nat) {
    && row.dateFrom.Some? && row.dateToExclusive.Some? && row.deliveryFrom.Some? && row.deliveryToExclusive.Some?
    && row.dateKeysEmpty && row.dateFrom.value + n == row.dateToExclusive.value
  }

  predicate PairOk(rows: seq<Row>)
    requires |rows| == 2
  {
    && rows[0].correlationId == rows[1].correlationId != ""
    && rows[0].id != rows[1].id && rows[0].id != "" && rows[1].id != ""
    && rows[0].deliveryId != rows[1].deliveryId && rows[0].deliveryId != "" && rows[1].deliveryId != ""
    && {rows[0].kind, rows[1].kind} == {AVAILABILITY, RATES_RESTRICTIONS}
  }

  ghost predicate RowCounts(row: Row, start: int, requestedAt: Time, completedAt: Time, n: nat) {
    && RowTimely(row, requestedAt, completedAt) && RowDated(row, n)
    && row.dateFrom.value == start && row.deliveryFrom == row.dateFrom && row.deliveryToExclusive == row.dateToExclusive
    && row.mappingOk && OrderedAccepts(row.items, start, n, row.metadataOk, row.hashOk)
  }

  /** Everything a qualified synchronisation has. */
  ghost predicate Qualifies(t: Times, mappingOk: bool, rows: seq<Row>, n: nat) {
    && TimeProblem(t).None? && mappingOk && |rows| == 2 && PairOk(rows)
    && rows[0].dateFrom.Some?
    && (forall i :: 0 <= i < 2 ==>
        RowCounts(rows[i], rows[0].dateFrom.value, t.requestedAt.value, t.completedAt.value, n))
    && Max(rows[0].sentAt.value, rows[1].sentAt.value) == t.completedAt.value
  }

  /** A row and its delivery show what a reason says of them. */
  ghost predicate RowShows(row: Row, start: Option<int>, requestedAt: Time, completedAt: Time, n: nat, reason: Reason) {
    match reason
    case CORRELATION_STATE_MISMATCH => !RowTimely(row, requestedAt, completedAt)
    case HORIZON_EVIDENCE_INVALID => !RowDated(row, n)
    case HORIZON_EVIDENCE_MISMATCH =>
      || row.dateFrom != row.deliveryFrom || row.dateToExclusive != row.deliveryToExclusive
      || (start.Some? && start != row.dateFrom)
    case CORRELATION_MAPPING_MISMATCH => !row.mappingOk
    case PAYLOAD(_) =>
      row.dateFrom.Some? && !OrderedAccepts(row.items, row.dateFrom.value, n, row.metadataOk, row.hashOk)
    case _ => false
  }

  method CheckRow(row: Row, start: Option<int>, requestedAt: Time, completedAt: Time, n: nat)
    returns (problem: Option<Reason>)
    ensures problem.None? <==>
            row.dateFrom.Some? &&
            RowCounts(row, if start.Some? then start.value else row.dateFrom.value, requestedAt, completedAt, n)
    ensures problem.Some? ==> RowShows(row, start, requestedAt, completedAt, n, problem.value)
  {
    if !RowTimely(row, requestedAt, completedAt) {
      return Some(CORRELATION_STATE_MISMATCH);
    }
    if !RowDated(row, n) {
      return Some(HORIZON_EVIDENCE_INVALID);
    }
    if row.dateFrom != row.deliveryFrom || row.dateToExclusive != row.deliveryToExclusive ||
       (start.Some? && start != row.dateFrom) || (start.Some? && start.value + n != row.dateToExclusive.value) {
      return Some(HORIZON_EVIDENCE_MISMATCH);
    }
    if !row.mappingOk {
      return Some(CORRELATION_MAPPING_MISMATCH);
    }
    var payload := ValidateFullSyncPayload(row.items, row.dateFrom.value, n, row.metadataOk, row.hashOk);
    return if payload.Ok? then None else Some(PAYLOAD(payload.error));
  }

  /**
   * The qualification of a correlated pair. It succeeds exactly for pairs that have everything listed above; in
   * particular both deliveries fall inside the synchronisation and the later one is its completion.
   */
  method Qualify(stateOk: bool, t: Times, mappingOk: bool, rows: seq<Row>, n: nat) returns (reason: Reason)
    ensures reason.QUALIFIED? <==> stateOk && Qualifies(t, mappingOk, rows, n)
    ensures !stateOk ==> reason == PROPERTY_STATE_MISSING
    ensures stateOk && TimeProblem(t).Some? ==> reason == TimeProblem(t).value
    ensures stateOk && TimeProblem(t).None? && !mappingOk ==> reason == MAPPING_EVIDENCE_INVALID
    ensures stateOk && TimeProblem(t).None? && mappingOk && rows == [] ==> reason == CORRELATION_EVIDENCE_MISSING
    ensures stateOk && TimeProblem(t).None? && mappingOk && rows != [] && |rows| != 2 ==>
              reason == CORRELATION_EVIDENCE_AMBIGUOUS
    ensures stateOk && TimeProblem(t).None? && mappingOk && |rows| == 2 && !PairOk(rows) ==>
            reason == CORRELATION_PAIR_INVALID
  {
    if !stateOk {
      return PROPERTY_STATE_MISSING;
    }
    var problem := TimeProblem(t);
    if problem.Some? {
      return problem.value;
    }
    if !mappingOk {
      return MAPPING_EVIDENCE_INVALID;
    }
    if rows == [] {
      return CORRELATION_EVIDENCE_MISSING;
    }
    if |rows| != 2 {
      return CORRELATION_EVIDENCE_AMBIGUOUS;
    }
    if !PairOk(rows) {
      return CORRELATION_PAIR_INVALID;
    }
    var sentAt: seq<Time> := [];
    var start: Option<int> := None;
    for i := 0 to 2
      invariant start == if i == 0 then None else rows[0].dateFrom
      invariant i > 0 ==> start.Some?
      invariant forall j :: 0 <= j < i ==>
                RowCounts(rows[j], rows[0].dateFrom.value, t.requestedAt.value, t.completedAt.value, n)
      invariant |sentAt| == i && forall j :: 0 <= j < i ==> rows[j].sentAt == Some(sentAt[j])
    {
      var error := CheckRow(rows[i], start, t.requestedAt.value, t.completedAt.value, n);
      if error.Some? {
        return error.value;
      }
      start := rows[i].dateFrom;
      sentAt := sentAt + [rows[i].sentAt.value];
    }
    if Max(sentAt[0], sentAt[1]) != t.completedAt.value {
      return CORRELATION_STATE_MISMATCH;
    }
    return QUALIFIED;
  }

  /** One of the two deliveries, told by its columns and by the days of its payload. */
  ghost predicate Delivered(row: Row, start: int, requestedAt: Time, completedAt: Time, n: nat) {
    && row.stateOk && row.mappingOk && row.metadataOk && row.hashOk && row.dateKeysEmpty
    && row.createdAt.Some? && requestedAt <= row.createdAt.value <= completedAt
    && row.sentAt.Some? && requestedAt <= row.sentAt.value <= completedAt
    && row.dateFrom == row.deliveryFrom == Some(start) && row.dateToExclusive == row.deliveryToExclusive ==
         Some(start + n)
    && row.items != [] && (forall item :: item in row.items ==> WellFormed(item))
    && SpansGiven(row.items) && Partitions(SetSpans(row.items), start, n) && Ascending(SetSpans(row.items))
  }

  lemma PairIsOneOfEach(a: Kind, b: Kind)
    ensures (a.AVAILABILITY? && b.RATES_RESTRICTIONS?) || (a.RATES_RESTRICTIONS? && b.AVAILABILITY?) <==>
            {a, b} == {AVAILABILITY, RATES_RESTRICTIONS}
  {
    assert AVAILABILITY in {AVAILABILITY, RATES_RESTRICTIONS} &&
           RATES_RESTRICTIONS in {AVAILABILITY, RATES_RESTRICTIONS};
    if {a, b} == {AVAILABILITY, RATES_RESTRICTIONS} {
      assert a in {a, b} && b in {a, b};
      assert AVAILABILITY in {a, b} && RATES_RESTRICTIONS in {a, b};
    }
  }

  /**
   * Which synchronisations qualify, exactly: timely ones with a correlated pair of an availability and a rates row,
   * each over the same horizon with a payload that partitions it in ascending order, the later one sent at completion.
   */
  lemma QualifiesExactlyWhen(t: Times, mappingOk: bool, rows: seq<Row>, n: nat)
    ensures Qualifies(t, mappingOk, rows, n) <==>
            && TimeProblem(t).None? && mappingOk && |rows| == 2
            && rows[0].correlationId == rows[1].correlationId != ""
            && rows[0].id != "" && rows[1].id != "" && rows[0].id != rows[1].id
            && rows[0].deliveryId != "" && rows[1].deliveryId != "" && rows[0].deliveryId != rows[1].deliveryId
            && ((rows[0].kind.AVAILABILITY? && rows[1].kind.RATES_RESTRICTIONS?) ||
                (rows[0].kind.RATES_RESTRICTIONS? && rows[1].kind.AVAILABILITY?))
            && rows[0].dateFrom.Some?
            && Delivered(rows[0], rows[0].dateFrom.value, t.requestedAt.value, t.completedAt.value, n)
            && Delivered(rows[1], rows[0].dateFrom.value, t.requestedAt.value, t.completedAt.value, n)
            && (rows[0].sentAt == t.completedAt || rows[1].sentAt == t.completedAt)
  {
    if |rows| == 2 && rows[0].dateFrom.Some? {
      var start := rows[0].dateFrom.value;
      OrderedIsSetInOrder(rows[0].items, start, n, rows[0].metadataOk, rows[0].hashOk);
      OrderedIsSetInOrder(rows[1].items, start, n, rows[1].metadataOk, rows[1].hashOk);
      PairIsOneOfEach(rows[0].kind, rows[1].kind);
      if t.requestedAt.Some? && t.completedAt.Some? {
        assert RowCounts(rows[0], start, t.requestedAt.value, t.completedAt.value, n) <==>
               Delivered(rows[0], start, t.requestedAt.value, t.completedAt.value, n);
        assert RowCounts(rows[1], start, t.requestedAt.value, t.completedAt.value, n) <==>
               Delivered(rows[1], start, t.requestedAt.value, t.completedAt.value, n);
      }
    }
  }

  /**
   * Qualified evidence, in terms of what happened: requested strictly after the governing event and the last mapping
   * change, both deliveries sent within [requestedAt, completedAt] and the later one at completedAt, and each payload
   * covering every day of the horizon exactly once.
   */
  lemma QualifiedMeans(t: Times, rows: seq<Row>, n: nat, governing: int)
    requires Qualifies(t, true, rows, n) && governing >= 0
    requires FrontierAt(governing) == if Preserves(t) then t.durableFrontier else t.readinessFrontier
    ensures t.requestedAt.value * 1000 > governing && t.requestedAt.value > t.mappingChangedAt.value
    ensures forall i :: 0 <= i < 2 ==>
              rows[i].sentAt.Some? && t.requestedAt.value <= rows[i].sentAt.value <= t.completedAt.value
    ensures exists i :: 0 <= i < 2 && rows[i].sentAt == t.completedAt
    ensures forall i :: 0 <= i < 2 ==>
              SpansGiven(rows[i].items) && Partitions(SetSpans(rows[i].items), rows[0].dateFrom.value, n)
  {
    TimesMeanAfterTheEvent(t, governing);
    forall i | 0 <= i < 2
      ensures rows[i].sentAt.Some? && t.requestedAt.value <= rows[i].sentAt.value <= t.completedAt.value
      ensures SpansGiven(rows[i].items) && Partitions(SetSpans(rows[i].items), rows[0].dateFrom.value, n)
    {
      assert RowCounts(rows[i], rows[0].dateFrom.value, t.requestedAt.value, t.completedAt.value, n);
      OrderedImpliesSet(rows[i].items, rows[0].dateFrom.value, n, rows[i].metadataOk, rows[i].hashOk);
    }
    assert rows[0].sentAt == t.completedAt || rows[1].sentAt == t.completedAt;
  }
}
