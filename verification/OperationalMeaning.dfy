/** What the issue operations accept, answer and store, told without their own functions. */
module OperationalMeaning {
  import opened Common
  import opened OperationalIssues
  import opened OperationalLog

  ghost predicate AllSpaces(s: string) {
    forall i :: 0 <= i < |s| ==> IsSpace(s[i])
  }

  lemma {:induction false} TrimLeftIsExact(s: string) returns (n: nat)
    ensures n <= |s| && TrimLeft(s) == s[n..] && AllSpaces(s[..n])
    ensures TrimLeft(s) != "" ==> !IsSpace(TrimLeft(s)[0])
  {
    if s == "" || !IsSpace(s[0]) {
      n := 0;
    } else {
      n := TrimLeftIsExact(s[1..]);
      n := n + 1;
    }
  }

  lemma {:induction false} TrimRightIsExact(s: string) returns (n: nat)
    ensures n <= |s| && TrimRight(s) == s[..n] && AllSpaces(s[n..])
    ensures TrimRight(s) != "" ==> !IsSpace(TrimRight(s)[|TrimRight(s)| - 1])
  {
    if s == "" || !IsSpace(s[|s| - 1]) {
      n := |s|;
    } else {
      n := TrimRightIsExact(s[..|s| - 1]);
      assert s[..|s| - 1][..n] == s[..n];
      assert s[n..] == s[..|s| - 1][n..] + [s[|s| - 1]];
    }
  }

  /** Trimming takes spaces off both ends, and all of them. */
  lemma TrimIsExact(s: string) returns (before: string, after: string)
    ensures s == before + Trim(s) + after && AllSpaces(before) && AllSpaces(after)
    ensures Trim(s) != "" ==> !IsSpace(Trim(s)[0]) && !IsSpace(Trim(s)[|Trim(s)| - 1])
    ensures Blank(s) <==> AllSpaces(s)
    ensures OptionalText(Some(s)) == if AllSpaces(s) then None else Some(Trim(s))
  {
    var n := TrimLeftIsExact(s);
    var m := TrimRightIsExact(s[n..]);
    before, after := s[..n], s[n + m..];
    assert s[n..][..m] == s[n..n + m] && s[n..][m..] == after;
    assert TrimLeft(s) != "" ==> TrimLeft(s)[0] == s[n];
    if Blank(s) {
      assert s == before + after;
    }
  }

  lemma {:induction false} TrimLeftUnpads(before: string, text: string)
    requires AllSpaces(before) && text != "" && !IsSpace(text[0])
    ensures TrimLeft(before + text) == text
  {
    if before == [] {
      assert before + text == text;
    } else {
      assert (before + text)[1..] == before[1..] + text;
      TrimLeftUnpads(before[1..], text);
    }
  }

  lemma {:induction false} TrimRightUnpads(text: string, after: string)
    requires AllSpaces(after) && text != "" && !IsSpace(text[|text| - 1])
    ensures TrimRight(text + after) == text
  {
    var s := text + after;
    if after == [] {
      assert s == text;
    } else {
      assert s[..|s| - 1] == text + after[..|after| - 1];
      TrimRightUnpads(text, after[..|after| - 1]);
    }
  }

  /** Only what stands between the spaces counts. */
  lemma TrimUnpads(before: string, text: string, after: string)
    requires AllSpaces(before) && AllSpaces(after)
    requires text != "" && !IsSpace(text[0]) && !IsSpace(text[|text| - 1])
    ensures Trim(before + text + after) == text
  {
    assert before + text + after == before + (text + after);
    TrimLeftUnpads(before, text + after);
    TrimRightUnpads(text, after);
  }

  /** What becomes of a text: nothing if it is missing or blank. */
  ghost predicate Keeps(stored: Option<string>, given: Option<string>) {
    stored == if given.None? || AllSpaces(given.value) then None else Some(Trim(given.value))
  }

  lemma OptionalTextKeeps(given: Option<string>)
    ensures Keeps(OptionalText(given), given)
  {
    if given.Some? {
      var _, _ := TrimIsExact(given.value);
    }
  }

  /** The row has the state that is wanted; an error code that is not mentioned stays. */
  ghost predicate HasWanted(row: Issue, w: Wanted, errorCode: Option<string>) {
    && row.workflow == w.workflow && row.severity == w.severity && row.responsible == w.responsible
    && row.actionRequired == w.actionRequired && row.canAutoResolve == w.canAutoResolve
    && row.autoResolve == w.autoResolve
    && Keeps(row.recommendedAction, w.recommendedAction) && Keeps(row.nextAutomaticStep, w.nextAutomaticStep)
    && row.errorCode == if w.metadata.None? then errorCode else w.metadata.value
  }

  ghost predicate HasResolution(row: Issue, at: Time, code: string, summary: string, kind: ResolutionType,
                                actor: Actor) {
    && row.resolvedAt == Some(at) && row.resolutionCode == Some(Trim(code))
    && row.resolutionSummary == Some(Trim(summary)) && row.resolutionType == Some(kind) && row.resolvedBy == Some(actor)
  }

  ghost predicate HasNoResolution(row: Issue) {
    && row.resolvedAt.None? && row.resolutionCode.None? && row.resolutionSummary.None? && row.resolutionType.None?
    && row.resolvedBy.None?
  }

  /** The stored row holds what the upsert gives, and of an earlier row its detection and its reopenings. */
  ghost predicate Stores(row: Issue, u: Upsert, before: Option<Issue>) {
    && row.issueCode == Trim(u.issueCode) && Keeps(row.reservationId, u.reservationId)
    && HasWanted(row, u.wanted, if before.Some? then before.value.errorCode else None)
    && (u.lastSignalAt.Some? ==> row.lastSignalAt == u.lastSignalAt.value)
    && (u.lastSignalAt.None? ==> row.lastSignalAt == u.occurredAt)
    && (before.Some? ==> row.firstDetectedAt == before.value.firstDetectedAt)
    && (before.None? && u.firstDetectedAt.Some? ==> row.firstDetectedAt == u.firstDetectedAt.value)
    && (before.None? && u.firstDetectedAt.None? ==> row.firstDetectedAt == u.occurredAt)
    && row.reopenedCount == (if before.Some? then before.value.reopenedCount else 0)
    && if u.wanted.workflow == RESOLVED then
         && row.resolvedAt == Some(if u.resolvedAt.Some? then u.resolvedAt.value else u.occurredAt)
         && Keeps(row.resolutionCode, u.resolutionCode) && Keeps(row.resolutionSummary, u.resolutionSummary)
         && row.resolutionType == u.resolutionType && row.resolvedBy == u.resolvedBy
       else HasNoResolution(row)
  }

  lemma WrittenStores(u: Upsert, before: Option<Issue>)
    ensures Stores(Written(u, before), u, before)
  {
    OptionalTextKeeps(u.wanted.recommendedAction);
    OptionalTextKeeps(u.wanted.nextAutomaticStep);
    OptionalTextKeeps(u.reservationId);
    OptionalTextKeeps(u.resolutionCode);
    OptionalTextKeeps(u.resolutionSummary);
  }

  /** The validator accepts exactly the upserts whose row is consistent. */
  lemma ValidExactlyWhenRowOk(u: Upsert, before: Option<Issue>)
    ensures UpsertValid(u) <==> RowOk(Written(u, before))
  {
  }

  ghost predicate SomeBlank(texts: seq<string>) {
    exists text :: text in texts && AllSpaces(text)
  }

  lemma BlankIsAllSpaces(s: string)
    ensures Blank(s) <==> AllSpaces(s)
  {
    var _, _ := TrimIsExact(s);
  }

  lemma AnyBlankIsSomeBlank(texts: seq<string>)
    ensures AnyBlank(texts) <==> SomeBlank(texts)
  {
    forall i | 0 <= i < |texts| ensures Blank(texts[i]) <==> AllSpaces(texts[i]) {
      BlankIsAllSpaces(texts[i]);
    }
    if SomeBlank(texts) {
      var text :| text in texts && AllSpaces(text);
      var i :| 0 <= i < |texts| && texts[i] == text;
    }
  }

  /**
   * What an upsert answers: it is refused exactly if its row would be inconsistent, else if a required text is blank,
   * else if it would leave RESOLVED. Accepted, it rewrites one row and logs one entry, the latter exactly for a new
   * issue, another state or another code.
   */
  lemma UpsertAnswers(store: Store, u: Upsert)
    ensures var (result, key) := (UpsertStore(store, u), Trim(u.key));
            var before := if key in store.issues then Some(store.issues[key]) else None;
            var blank := AllSpaces(u.key) || AllSpaces(u.issueCode) || SomeBlank(u.texts);
            var leaves := before.Some? && before.value.workflow == RESOLVED && u.wanted.workflow != RESOLVED;
            exists row :: Stores(row, u, before) &&
              (result == Err(STATE_INVALID) <==> !RowOk(row)) &&
              (result == Err(TEXT_BLANK) <==> RowOk(row) && blank) &&
              (result == Err(REOPEN_REQUIRED) <==> RowOk(row) && !blank && leaves) &&
              (RowOk(row) && !blank && !leaves ==>
                 result == Ok(Store(store.issues[key := row],
                                    if before.Some? && before.value.workflow == row.workflow &&
                                       before.value.issueCode == row.issueCode
                                    then store.log
                                    else store.log + [Transition(key, row.issueCode, Current(store, key),
                                                                 row.workflow)])))
  {
    var before := Before(store, Trim(u.key));
    WrittenStores(u, before);
    ValidExactlyWhenRowOk(u, before);
    BlankIsAllSpaces(u.key);
    BlankIsAllSpaces(u.issueCode);
    AnyBlankIsSomeBlank(u.texts);
    assert Stores(Written(u, before), u, before);
  }

  /** The texts of a row are trimmed and not empty. */
  ghost predicate Neat(text: Option<string>) {
    text.Some? ==> Trim(text.value) == text.value != ""
  }

  ghost predicate RowIsNeat(row: Issue) {
    && Neat(Some(row.issueCode)) && Neat(row.recommendedAction) && Neat(row.nextAutomaticStep)
    && Neat(row.reservationId) && Neat(row.resolutionCode) && Neat(row.resolutionSummary)
  }

  /** The upsert that gives exactly the columns of a row. */
  ghost function AsUpsert(key: string, texts: seq<string>, row: Issue): Upsert {
    Upsert(key, row.issueCode, texts,
           Wanted(row.workflow, row.severity, row.responsible, row.actionRequired, row.recommendedAction,
                  row.nextAutomaticStep, row.canAutoResolve, row.autoResolve, Some(row.errorCode)),
           row.reservationId, row.lastSignalAt, Some(row.firstDetectedAt), Some(row.lastSignalAt), row.resolvedAt,
           row.resolutionCode, row.resolutionSummary, row.resolutionType, row.resolvedBy)
  }

  /** Any consistent row can be stored as it is, and storing a row again leaves it as it is. */
  lemma UpsertStoresAnyRow(key: string, texts: seq<string>, row: Issue)
    requires RowOk(row) && RowIsNeat(row)
    ensures Written(AsUpsert(key, texts, row), Some(row)) == row
    ensures Written(AsUpsert(key, texts, row), None) == row.(reopenedCount := 0)
    ensures UpsertValid(AsUpsert(key, texts, row))
  {
    ValidExactlyWhenRowOk(AsUpsert(key, texts, row), Some(row));
  }

  /** A reopen stores what an upsert of the same state over the same row would, and one more reopening. */
  lemma ReopenIsAnUpsert(r: Reopen, issue: Issue)
    requires RowIsNeat(issue) && !r.wanted.workflow.RESOLVED?
    ensures var u := Upsert(r.key, issue.issueCode, r.texts, r.wanted, issue.reservationId, r.occurredAt, None, None,
                            None, None, None, None, None);
            Reopened(r, issue) == Written(u, Some(issue)).(reopenedCount := issue.reopenedCount + 1)
  {
  }

  /**
   * What a reopen answers: it asks for a state other than RESOLVED, its state must be consistent, its texts not blank,
   * and its issue must exist and be resolved. Accepted, it rewrites that row and logs one edge out of RESOLVED.
   */
  lemma ReopenAnswers(store: Store, r: Reopen)
    ensures var (result, key) := (ReopenStore(store, r), Trim(r.key));
            var blank := AllSpaces(r.key) || SomeBlank(r.texts);
            && (result == Err(REOPEN_TARGET_INVALID) <==> r.wanted.workflow == RESOLVED)
            && (result == Err(STATE_INVALID) <==> r.wanted.workflow != RESOLVED && !WantedValid(r.wanted))
            && (result == Err(TEXT_BLANK) <==> r.wanted.workflow != RESOLVED && WantedValid(r.wanted) && blank)
            && (result == Err(ISSUE_NOT_FOUND) <==>
                r.wanted.workflow != RESOLVED && WantedValid(r.wanted) && !blank && key !in store.issues)
            && (result == Err(REOPEN_SOURCE_NOT_RESOLVED) <==>
                r.wanted.workflow != RESOLVED && WantedValid(r.wanted) && !blank && key in store.issues &&
                store.issues[key].workflow != RESOLVED)
            && (result.Ok? <==> key in store.issues && store.issues[key].workflow == RESOLVED && !blank &&
                                RowOk(Reopened(r, store.issues[key])))
            && (result.Ok? ==> result.value ==
                               Store(store.issues[key := Reopened(r, store.issues[key])],
                                     store.log + [Transition(key, store.issues[key].issueCode, Some(RESOLVED),
                                                             r.wanted.workflow)]))
  {
    BlankIsAllSpaces(r.key);
    AnyBlankIsSomeBlank(r.texts);
  }

  /** What a reopen stores: the wanted state, no resolution, one more reopening, and the rest as it was. */
  lemma ReopenStores(r: Reopen, issue: Issue)
    ensures var row := Reopened(r, issue);
            && HasWanted(row, r.wanted, issue.errorCode) && HasNoResolution(row) && row.lastSignalAt == r.occurredAt
            && row.reopenedCount == issue.reopenedCount + 1
            && row.issueCode == issue.issueCode && row.reservationId == issue.reservationId
            && row.firstDetectedAt == issue.firstDetectedAt
  {
    OptionalTextKeeps(r.wanted.recommendedAction);
    OptionalTextKeeps(r.wanted.nextAutomaticStep);
  }

  /** What bulk resolution stores: nobody has anything to do, the given resolution, and the rest as it was. */
  lemma BulkStores(issue: Issue, b: BulkResolve)
    ensures var row := BulkResolved(issue, b);
            && row.workflow == RESOLVED && row.severity == INFO && row.responsible == NONE && !row.actionRequired
            && row.recommendedAction.None? && row.nextAutomaticStep.None?
            && HasResolution(row, b.occurredAt, b.code, b.summary, b.kind, b.actor) && row.lastSignalAt == b.occurredAt
            && row.issueCode == issue.issueCode && row.reservationId == issue.reservationId
            && row.firstDetectedAt == issue.firstDetectedAt && row.errorCode == issue.errorCode
            && row.reopenedCount == issue.reopenedCount
            && row.canAutoResolve == issue.canAutoResolve && row.autoResolve == issue.autoResolve
  {
  }

  /** Bulk resolution stores what an upsert that resolves the issue in the same words would. */
  lemma BulkIsAnUpsert(key: string, texts: seq<string>, issue: Issue, b: BulkResolve)
    requires RowIsNeat(issue) && !AllSpaces(b.code) && !AllSpaces(b.summary)
    ensures BulkResolved(issue, b) ==
            Written(Upsert(key, issue.issueCode, texts,
                           Wanted(RESOLVED, INFO, NONE, false, None, None, issue.canAutoResolve, issue.autoResolve,
                                  None),
                           issue.reservationId, b.occurredAt, None, None, None, Some(b.code), Some(b.summary),
                           Some(b.kind), Some(b.actor)), Some(issue))
  {
    BlankIsAllSpaces(b.code);
    BlankIsAllSpaces(b.summary);
  }

  /** The rows that outlive a run: none disappears, and none changes the time of its detection. */
  ghost predicate Outlives(before: Store, after: Store) {
    forall key :: key in before.issues ==>
      key in after.issues && after.issues[key].firstDetectedAt == before.issues[key].firstDetectedAt &&
      after.issues[key].reopenedCount >= before.issues[key].reopenedCount
  }

  lemma ApplyOutlives(store: Store, op: Operation)
    ensures Outlives(store, Apply(store, op))
  {
    match op
    case UpsertOp(u) =>
    case ReopenOp(r) =>
    case BulkOp(b, keys) =>
      if Lists(store, keys, b) {
        forall i | 0 <= i < |keys| ensures keys[i] in store.issues {
          assert keys[i] in keys;
        }
        ResolveAllExact(store, keys, b);
      }
  }

  /** Whatever calls follow, an issue stays, keeps the time it was first detected, and never loses a reopening. */
  lemma {:induction false} DetectionIsKept(store: Store, ops: seq<Operation>)
    ensures Outlives(store, Run(store, ops))
    decreases |ops|
  {
    if ops == [] {
    } else {
      ApplyOutlives(store, ops[0]);
      DetectionIsKept(Apply(store, ops[0]), ops[1..]);
    }
  }
}
