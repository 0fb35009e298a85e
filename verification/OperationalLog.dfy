/** What every sequence of issue operations keeps: consistent rows, and a log that is the path each row has taken. */
module OperationalLog {
  import opened Common
  import opened OperationalIssues

  /** A row carries a resolution exactly when it is resolved, and its flags follow its state. */
  ghost predicate RowOk(issue: Issue) {
    && (issue.workflow.RESOLVED? <==> issue.resolvedAt.Some?)
    && (issue.workflow.RESOLVED? <==> issue.resolutionCode.Some?)
    && (issue.workflow.RESOLVED? <==> issue.resolutionSummary.Some?)
    && (issue.workflow.RESOLVED? <==> issue.resolutionType.Some?)
    && (issue.workflow.RESOLVED? <==> issue.resolvedBy.Some?)
    && (issue.actionRequired <==> issue.workflow.ACTION_REQUIRED?)
    && (issue.canAutoResolve <==> !issue.autoResolve.NOT_SUPPORTED?)
    && (issue.workflow.ACTION_REQUIRED? ==> issue.recommendedAction.Some?)
    && (issue.workflow.WAITING? || issue.workflow.AUTO_RESOLVING? ==> issue.nextAutomaticStep.Some?)
    && (issue.workflow.AUTO_RESOLVING? ==> issue.canAutoResolve)
  }

  /** The entries of one issue, in log order. */
  function LogOf(log: seq<Transition>, key: string): seq<Transition>
    decreases |log|
  {
    if log == [] then []
    else
      var rest := LogOf(log[..|log| - 1], key);
      if log[|log| - 1].key == key then rest + [log[|log| - 1]] else rest
  }

  /** The first entry starts from nothing and each later one where the previous ended. */
  ghost predicate IsPath(entries: seq<Transition>) {
    && (entries != [] ==> entries[0].origin.None?)
    && (forall i :: 0 < i < |entries| ==> entries[i].origin == Some(entries[i - 1].target))
  }

  function Reopens(entries: seq<Transition>): nat
    decreases |entries|
  {
    if entries == [] then 0
    else
      var last := entries[|entries| - 1];
      Reopens(entries[..|entries| - 1]) + if last.origin == Some(RESOLVED) && !last.target.RESOLVED? then 1 else 0
  }

  /** The log of an issue is the path to its current state, and counts its reopenings. */
  ghost predicate LogAgrees(issue: Issue, entries: seq<Transition>) {
    && entries != [] && IsPath(entries)
    && entries[|entries| - 1].target == issue.workflow
    && entries[|entries| - 1].issueCode == issue.issueCode
    && issue.reopenedCount == Reopens(entries)
  }

  ghost predicate IssueAgrees(store: Store, key: string)
    requires key in store.issues
  {
    RowOk(store.issues[key]) && LogAgrees(store.issues[key], LogOf(store.log, key))
  }

  ghost predicate Valid(store: Store) {
    && (forall key :: key in store.issues ==> IssueAgrees(store, key))
    && (forall key :: key !in store.issues ==> LogOf(store.log, key) == [])
  }

  lemma LogOfAppend(log: seq<Transition>, entry: Transition, key: string)
    ensures LogOf(log + [entry], key) == if entry.key == key then LogOf(log, key) + [entry] else LogOf(log, key)
  {
    assert (log + [entry])[..|log|] == log;
  }

  /** One more entry that starts where the log ended. */
  lemma PathExtends(entries: seq<Transition>, entry: Transition)
    requires IsPath(entries)
    requires entry.origin == if entries == [] then None else Some(entries[|entries| - 1].target)
    ensures IsPath(entries + [entry])
    ensures Reopens(entries + [entry]) ==
            Reopens(entries) + if entry.origin == Some(RESOLVED) && !entry.target.RESOLVED? then 1 else 0
  {
    var longer := entries + [entry];
    assert longer[..|entries|] == entries;
  }

  /** A store with one row rewritten and one log entry for it. */
  lemma RewriteKeepsValid(store: Store, after: Store, key: string, issue: Issue, entry: Transition)
    requires Valid(store) && RowOk(issue)
    requires after == Store(store.issues[key := issue], store.log + [entry])
    requires entry.key == key && entry.target == issue.workflow && entry.issueCode == issue.issueCode
    requires entry.origin == Current(store, key)
    requires issue.reopenedCount == (if key in store.issues then store.issues[key].reopenedCount else 0) +
                                    if entry.origin == Some(RESOLVED) && !entry.target.RESOLVED? then 1 else 0
    ensures Valid(after)
  {
    var entries := LogOf(store.log, key);
    LogOfAppend(store.log, entry, key);
    assert key in store.issues ==> IssueAgrees(store, key);
    PathExtends(entries, entry);
    forall other | other != key ensures LogOf(after.log, other) == LogOf(store.log, other) {
      LogOfAppend(store.log, entry, other);
    }
    forall other | other in after.issues ensures IssueAgrees(after, other) {
      assert other != key ==> IssueAgrees(store, other);
    }
  }

  lemma UpsertKeepsValid(store: Store, u: Upsert)
    requires Valid(store) && UpsertStore(store, u).Ok?
    ensures Valid(UpsertStore(store, u).value)
  {
    var after := UpsertStore(store, u).value;
    var key := Trim(u.key);
    var before := Before(store, key);
    var issue := Written(u, before);
    assert key in store.issues ==> IssueAgrees(store, key);
    assert RowOk(issue);
    if LogsTransition(before, issue) {
      RewriteKeepsValid(store, after, key, issue,
                        Transition(key, issue.issueCode, Current(store, key), issue.workflow));
    } else {
      forall other | other in after.issues ensures IssueAgrees(after, other) {
        assert IssueAgrees(store, other);
      }
    }
  }

  lemma UpsertKeepsCount(store: Store, u: Upsert, key: string)
    requires UpsertStore(store, u).Ok?
    ensures var after := UpsertStore(store, u).value;
            && (key in after.issues ==>
                  after.issues[key].reopenedCount == if key in store.issues then store.issues[key].reopenedCount else 0)
            && (key in store.issues ==> key in after.issues)
            && (Current(store, key) == Some(RESOLVED) ==> Current(after, key) == Some(RESOLVED))
  {
  }

  /** An upsert never reopens: whatever it changes, the reopen edges of every issue stay as they were. */
  lemma UpsertNeverReopens(store: Store, u: Upsert, key: string)
    requires Valid(store) && UpsertStore(store, u).Ok?
    ensures Reopens(LogOf(UpsertStore(store, u).value.log, key)) == Reopens(LogOf(store.log, key))
    ensures Current(store, key) == Some(RESOLVED) ==> Current(UpsertStore(store, u).value, key) == Some(RESOLVED)
  {
    var after := UpsertStore(store, u).value;
    UpsertKeepsValid(store, u);
    UpsertKeepsCount(store, u, key);
    assert key in store.issues ==> IssueAgrees(store, key);
    assert key in after.issues ==> IssueAgrees(after, key);
  }

  lemma ReopenKeepsValid(store: Store, r: Reopen)
    requires Valid(store) && ReopenStore(store, r).Ok?
    ensures Valid(ReopenStore(store, r).value)
  {
    var key := Trim(r.key);
    assert IssueAgrees(store, key);
    RewriteKeepsValid(store, ReopenStore(store, r).value, key, Reopened(r, store.issues[key]),
                      Transition(key, store.issues[key].issueCode, Some(RESOLVED), r.wanted.workflow));
  }

  /** A reopen adds one edge out of RESOLVED to its own issue and none to any other. */
  lemma ReopenCountsOnce(store: Store, r: Reopen, key: string)
    requires Valid(store) && ReopenStore(store, r).Ok?
    ensures Reopens(LogOf(ReopenStore(store, r).value.log, key)) ==
            Reopens(LogOf(store.log, key)) + if key == Trim(r.key) then 1 else 0
  {
    var after := ReopenStore(store, r).value;
    ReopenKeepsValid(store, r);
    assert key in store.issues ==> IssueAgrees(store, key);
    assert key in after.issues ==> IssueAgrees(after, key);
  }

  lemma {:induction false} ResolveAllKeepsValid(store: Store, keys: seq<string>, b: BulkResolve)
    requires Valid(store) && forall i :: 0 <= i < |keys| ==> keys[i] in store.issues
    ensures Valid(ResolveAll(store, keys, b))
    decreases |keys|
  {
    if keys == [] {
    } else {
      var first, last := keys[..|keys| - 1], keys[|keys| - 1];
      ResolveAllKeepsValid(store, first, b);
      var mid := ResolveAll(store, first, b);
      assert IssueAgrees(mid, last);
      RewriteKeepsValid(mid, ResolveOne(mid, last, b), last, BulkResolved(mid.issues[last], b),
                        Transition(last, mid.issues[last].issueCode, Some(mid.issues[last].workflow), RESOLVED));
    }
  }

  /** The log entry bulk resolution writes for an issue as it was before. */
  function ResolveEntry(store: Store, key: string): Transition
    requires key in store.issues
  {
    Transition(key, store.issues[key].issueCode, Some(store.issues[key].workflow), RESOLVED)
  }

  lemma {:induction false} ResolveAllRows(store: Store, keys: seq<string>, b: BulkResolve, key: string)
    requires forall i :: 0 <= i < |keys| ==> keys[i] in store.issues
    requires forall i, j :: 0 <= i < j < |keys| ==> keys[i] != keys[j]
    requires key in store.issues
    ensures ResolveAll(store, keys, b).issues[key] ==
            if key in keys then BulkResolved(store.issues[key], b) else store.issues[key]
    decreases |keys|
  {
    if keys == [] {
    } else {
      var first, last := keys[..|keys| - 1], keys[|keys| - 1];
      assert keys == first + [last] && last !in first;
      ResolveAllRows(store, first, b, key);
    }
  }

  lemma {:induction false} ResolveAllLogs(store: Store, keys: seq<string>, b: BulkResolve)
    requires forall i :: 0 <= i < |keys| ==> keys[i] in store.issues
    requires forall i, j :: 0 <= i < j < |keys| ==> keys[i] != keys[j]
    ensures var log := ResolveAll(store, keys, b).log;
            && |log| == |store.log| + |keys| && store.log <= log
            && forall i :: 0 <= i < |keys| ==> log[|store.log| + i] == ResolveEntry(store, keys[i])
    decreases |keys|
  {
    if keys == [] {
    } else {
      var first, last := keys[..|keys| - 1], keys[|keys| - 1];
      assert keys == first + [last] && last !in first;
      ResolveAllRows(store, first, b, last);
      ResolveAllLogs(store, first, b);
    }
  }

  /**
   * Bulk resolution touches exactly the listed issues, leaves every other row untouched, and logs one edge for
   * each, in order, from the state it was in.
   */
  lemma ResolveAllExact(store: Store, keys: seq<string>, b: BulkResolve)
    requires forall i :: 0 <= i < |keys| ==> keys[i] in store.issues
    requires forall i, j :: 0 <= i < j < |keys| ==> keys[i] != keys[j]
    ensures var after := ResolveAll(store, keys, b);
            && (forall key :: key in store.issues ==>
                  after.issues[key] == if key in keys then BulkResolved(store.issues[key], b) else store.issues[key])
            && |after.log| == |store.log| + |keys| && store.log <= after.log
            && (forall i :: 0 <= i < |keys| ==> after.log[|store.log| + i] == ResolveEntry(store, keys[i]))
  {
    ResolveAllLogs(store, keys, b);
    forall key | key in store.issues
      ensures ResolveAll(store, keys, b).issues[key] ==
              if key in keys then BulkResolved(store.issues[key], b) else store.issues[key]
    {
      ResolveAllRows(store, keys, b, key);
    }
  }

  /** Bulk resolution adds no edge out of RESOLVED to any issue, so a reopen alone does. */
  lemma ResolveAllNeverReopens(store: Store, keys: seq<string>, b: BulkResolve, key: string)
    requires Valid(store)
    requires forall i :: 0 <= i < |keys| ==> keys[i] in store.issues
    requires forall i, j :: 0 <= i < j < |keys| ==> keys[i] != keys[j]
    ensures Reopens(LogOf(ResolveAll(store, keys, b).log, key)) == Reopens(LogOf(store.log, key))
  {
    var after := ResolveAll(store, keys, b);
    ResolveAllKeepsValid(store, keys, b);
    if key in store.issues {
      ResolveAllRows(store, keys, b, key);
      assert IssueAgrees(store, key) && IssueAgrees(after, key);
    }
  }

  datatype Operation =
    | UpsertOp(upsert: Upsert)
    | ReopenOp(reopen: Reopen)
    | BulkOp(bulk: BulkResolve, keys: seq<string>)

  /** One service call; a call that throws changes nothing. */
  ghost function Apply(store: Store, op: Operation): Store {
    match op
    case UpsertOp(u) => if UpsertStore(store, u).Ok? then UpsertStore(store, u).value else store
    case ReopenOp(r) => if ReopenStore(store, r).Ok? then ReopenStore(store, r).value else store
    case BulkOp(b, keys) =>
      if Lists(store, keys, b) && !AnyBlank([b.reservationId, b.code, b.summary]) then ResolveAll(store, keys, b)
      else store
  }

  ghost function Run(store: Store, ops: seq<Operation>): Store
    decreases |ops|
  {
    if ops == [] then store else Run(Apply(store, ops[0]), ops[1..])
  }

  lemma ApplyKeepsValid(store: Store, op: Operation)
    requires Valid(store)
    ensures Valid(Apply(store, op))
  {
    match op
    case UpsertOp(u) =>
      if UpsertStore(store, u).Ok? {
        UpsertKeepsValid(store, u);
      }
    case ReopenOp(r) =>
      if ReopenStore(store, r).Ok? {
        ReopenKeepsValid(store, r);
      }
    case BulkOp(b, keys) =>
      if Lists(store, keys, b) {
        forall i | 0 <= i < |keys| ensures keys[i] in store.issues {
          assert keys[i] in keys;
        }
        ResolveAllKeepsValid(store, keys, b);
      }
  }

  /**
   * For every issue and every run: the row is consistent, its first log entry starts from nothing, each later one
   * starts where the previous ended, the last one carries the row's state and code, and the row's reopenedCount is
   * the number of edges that leave RESOLVED.
   */
  lemma {:induction false} EveryRunKeepsTheLog(store: Store, ops: seq<Operation>)
    requires Valid(store)
    ensures Valid(Run(store, ops))
    decreases |ops|
  {
    if ops == [] {
    } else {
      ApplyKeepsValid(store, ops[0]);
      EveryRunKeepsTheLog(Apply(store, ops[0]), ops[1..]);
    }
  }

  lemma TransitionLogIsPath(ops: seq<Operation>, key: string)
    requires key in Run(Store(map[], []), ops).issues
    ensures var store := Run(Store(map[], []), ops);
            var entries := LogOf(store.log, key);
            RowOk(store.issues[key]) && LogAgrees(store.issues[key], entries)
  {
    EveryRunKeepsTheLog(Store(map[], []), ops);
    assert IssueAgrees(Run(Store(map[], []), ops), key);
  }

  /** The log only grows. */
  lemma {:induction false} LogOnlyGrows(store: Store, ops: seq<Operation>)
    ensures store.log <= Run(store, ops).log
    decreases |ops|
  {
    if ops == [] {
    } else {
      match ops[0] {
        case BulkOp(b, keys) =>
          if Lists(store, keys, b) {
            forall i | 0 <= i < |keys| ensures keys[i] in store.issues {
              assert keys[i] in keys;
            }
            ResolveAllExact(store, keys, b);
          }
        case _ =>
      }
      LogOnlyGrows(Apply(store, ops[0]), ops[1..]);
    }
  }
}
