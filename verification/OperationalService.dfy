/** The issue service as an object over its two tables, each method proved against the store it leaves. */
module OperationalService {
  import opened Common
  import opened OperationalIssues
  import opened OperationalLog

  lemma OldestExists(issues: map<string, Issue>, keys: set<string>)
    requires keys != {} && keys <= issues.Keys
    ensures exists key :: key in keys && forall other :: other in keys ==>
            issues[key].firstDetectedAt <= issues[other].firstDetectedAt
    decreases |keys|
  {
    var some :| some in keys;
    if keys != {some} {
      var rest := keys - {some};
      assert rest != {} by {
        assert keys == rest + {some};
      }
      OldestExists(issues, rest);
      var oldest :| oldest in rest && forall other :: other in rest ==>
          issues[oldest].firstDetectedAt <= issues[other].firstDetectedAt;
      var key := if issues[some].firstDetectedAt <= issues[oldest].firstDetectedAt then some else oldest;
      forall other | other in keys ensures issues[key].firstDetectedAt <= issues[other].firstDetectedAt {
        assert other == some || other in rest;
      }
    }
  }

  /** Oldest first, without repetition. */
  ghost predicate Sorted(store: Store, keys: seq<string>) {
    && (forall key :: key in keys ==> key in store.issues)
    && (forall i, j :: 0 <= i < j < |keys| ==> keys[i] != keys[j])
    && (forall i, j :: 0 <= i < j < |keys| ==>
        store.issues[keys[i]].firstDetectedAt <= store.issues[keys[j]].firstDetectedAt)
  }

  /** The resolutions made while going through `active`. */
  ghost predicate ListedFrom(store: Store, active: seq<string>, keys: seq<string>) {
    && Sorted(store, active) && Sorted(store, keys)
    && (forall key :: key in keys <==> key in active && store.issues[key].issueCode != STAY_TIME_RECOVERY_REVIEW)
  }

  lemma ListedMore(store: Store, active: seq<string>, i: nat, keys: seq<string>)
    requires i < |active| && Sorted(store, active) && ListedFrom(store, active[..i], keys)
    ensures active[i] !in keys
    ensures ListedFrom(store, active[..i + 1],
                       if store.issues[active[i]].issueCode == STAY_TIME_RECOVERY_REVIEW then keys
                       else keys + [active[i]])
  {
    assert active[..i + 1] == active[..i] + [active[i]];
    assert active[i] !in active[..i];
    forall j | 0 <= j < |keys|
      ensures store.issues[keys[j]].firstDetectedAt <= store.issues[active[i]].firstDetectedAt
    {
      assert keys[j] in keys;
    }
  }

  lemma ResolveAllAppends(store: Store, keys: seq<string>, key: string, b: BulkResolve)
    requires key in store.issues && forall i :: 0 <= i < |keys| ==> keys[i] in store.issues
    ensures ResolveAll(store, keys + [key], b) == ResolveOne(ResolveAll(store, keys, b), key, b)
  {
    assert (keys + [key])[..|keys|] == keys;
  }

  class IssueService {
    var issues: map<string, Issue>
    var log: seq<Transition>

    ghost function Value(): Store
      reads this
    {
      Store(issues, log)
    }

    constructor ()
      ensures Value() == Store(map[], [])
    {
      issues, log := map[], [];
    }

    method Upsert(u: Upsert) returns (error: Option<Error>)
      modifies this
      ensures UpsertStore(old(Value()), u) == if error.None? then Ok(Value()) else Err(error.value)
      ensures error.Some? ==> Value() == old(Value())
      ensures old(Valid(Value())) ==> Valid(Value())
    {
      ghost var before := Value();
      if !UpsertValid(u) {
        return Some(STATE_INVALID);
      }
      if Blank(u.key) || Blank(u.issueCode) || AnyBlank(u.texts) {
        return Some(TEXT_BLANK);
      }
      var key := Trim(u.key);
      var current := if key in issues then Some(issues[key]) else None;
      var origin := if current.Some? then Some(current.value.workflow) else None;
      if !TransitionAllowed(origin, u.wanted.workflow) {
        return Some(REOPEN_REQUIRED);
      }
      var row := Written(u, current);
      issues := issues[key := row];
      if LogsTransition(current, row) {
        log := log + [Transition(key, row.issueCode, origin, row.workflow)];
      }
      error := None;
      if Valid(before) {
        UpsertKeepsValid(before, u);
      }
    }

    method Reopen(r: Reopen) returns (error: Option<Error>)
      modifies this
      ensures ReopenStore(old(Value()), r) == if error.None? then Ok(Value()) else Err(error.value)
      ensures error.Some? ==> Value() == old(Value())
      ensures old(Valid(Value())) ==> Valid(Value())
    {
      ghost var before := Value();
      if r.wanted.workflow.RESOLVED? {
        return Some(REOPEN_TARGET_INVALID);
      }
      if !WantedValid(r.wanted) {
        return Some(STATE_INVALID);
      }
      if Blank(r.key) || AnyBlank(r.texts) {
        return Some(TEXT_BLANK);
      }
      var key := Trim(r.key);
      if key !in issues {
        return Some(ISSUE_NOT_FOUND);
      }
      var issue := issues[key];
      if !issue.workflow.RESOLVED? {
        return Some(REOPEN_SOURCE_NOT_RESOLVED);
      }
      issues := issues[key := Reopened(r, issue)];
      log := log + [Transition(key, issue.issueCode, Some(RESOLVED), r.wanted.workflow)];
      error := None;
      if Valid(before) {
        ReopenKeepsValid(before, r);
      }
    }

    /** The reservation's active issues, oldest detection first; ties come in any order. */
    method ActiveIssues(reservationId: string) returns (active: seq<string>)
      ensures Sorted(Value(), active)
      ensures forall key :: key in active <==>
                key in issues && issues[key].reservationId == Some(reservationId) && !issues[key].workflow.RESOLVED?
    {
      var rest := set key | key in issues && issues[key].reservationId == Some(reservationId) &&
          !issues[key].workflow.RESOLVED?;
      ghost var all := rest;
      active := [];
      while rest != {}
        invariant rest <= all <= issues.Keys
        invariant forall key :: key in active <==> key in all && key !in rest
        invariant Sorted(Value(), active)
        invariant forall i, key :: 0 <= i < |active| && key in rest ==>
                  issues[active[i]].firstDetectedAt <= issues[key].firstDetectedAt
        decreases |rest|
      {
        OldestExists(issues, rest);
        var oldest :| oldest in rest && forall other :: other in rest ==>
            issues[oldest].firstDetectedAt <= issues[other].firstDetectedAt;
        active := active + [oldest];
        rest := rest - {oldest};
      }
    }

    /** One update of the bulk resolution: the row, if still active, and its log entry. */
    method ResolveActive(key: string, b: BulkResolve) returns (resolved: bool)
      requires key in issues
      modifies this
      ensures resolved == !old(issues)[key].workflow.RESOLVED?
      ensures Value() == if resolved then ResolveOne(old(Value()), key, b) else old(Value())
    {
      var issue := issues[key];
      resolved := !issue.workflow.RESOLVED?;
      if resolved {
        issues := issues[key := BulkResolved(issue, b)];
        log := log + [Transition(key, issue.issueCode, Some(issue.workflow), RESOLVED)];
      }
    }

    method ResolveListed(active: seq<string>, b: BulkResolve) returns (keys: seq<string>)
      requires Sorted(Value(), active) && forall key :: key in active ==> !issues[key].workflow.RESOLVED?
      modifies this
      ensures ListedFrom(old(Value()), active, keys)
      ensures forall i :: 0 <= i < |keys| ==> keys[i] in old(issues)
      ensures Value() == ResolveAll(old(Value()), keys, b)
    {
      ghost var before := Value();
      keys := [];
      for i := 0 to |active|
        invariant ListedFrom(before, active[..i], keys)
        invariant Value() == ResolveAll(before, keys, b)
      {
        var key := active[i];
        ListedMore(before, active, i, keys);
        ResolveAllRows(before, keys, b, key);
        if issues[key].issueCode != STAY_TIME_RECOVERY_REVIEW {
          var resolved := ResolveActive(key, b);
          if resolved {
            ResolveAllAppends(before, keys, key, b);
            keys := keys + [key];
          }
        }
      }
      assert active[..|active|] == active;
    }

    /**
     * Bulk resolution: resolves exactly the reservation's active issues other than recovery reviews, oldest first,
     * and returns them.
     */
    method ResolveForReservation(b: BulkResolve) returns (resolved: Result<seq<string>, Error>)
      modifies this
      ensures resolved.Err? <==> AnyBlank([b.reservationId, b.code, b.summary])
      ensures resolved.Err? ==> Value() == old(Value())
      ensures resolved.Ok? ==> Lists(old(Value()), resolved.value, b)
      ensures resolved.Ok? ==> (forall i :: 0 <= i < |resolved.value| ==> resolved.value[i] in old(issues)) &&
                               Value() == ResolveAll(old(Value()), resolved.value, b)
      ensures old(Valid(Value())) ==> Valid(Value())
    {
      ghost var before := Value();
      if AnyBlank([b.reservationId, b.code, b.summary]) {
        return Err(TEXT_BLANK);
      }
      var active := ActiveIssues(Trim(b.reservationId));
      var keys := ResolveListed(active, b);
      if Valid(before) {
        ResolveAllKeepsValid(before, keys, b);
      }
      return Ok(keys);
    }
  }

  lemma {:induction false} DistinctCount(keys: seq<string>, all: set<string>)
    requires forall i, j :: 0 <= i < j < |keys| ==> keys[i] != keys[j]
    requires forall key :: key in keys <==> key in all
    ensures |keys| == |all|
  {
    if keys == [] {
      assert all == {};
    } else {
      var first, last := keys[..|keys| - 1], keys[|keys| - 1];
      assert keys == first + [last] && last in keys;
      DistinctCount(first, all - {last});
    }
  }

  lemma BulkRows(store: Store, keys: seq<string>, b: BulkResolve, key: string)
    requires Lists(store, keys, b) && key in store.issues
    requires forall i :: 0 <= i < |keys| ==> keys[i] in store.issues
    ensures ResolveAll(store, keys, b).issues[key] ==
            if && store.issues[key].reservationId == Some(Trim(b.reservationId))
               && store.issues[key].workflow != RESOLVED
               && store.issues[key].issueCode != "STAY_TIME_RECOVERY_REVIEW"
            then BulkResolved(store.issues[key], b)
            else store.issues[key]
  {
    ResolveAllRows(store, keys, b, key);
  }

  /**
   * What the listing of a bulk resolution leaves: every active issue of the reservation is resolved except the
   * recovery reviews, and the number of new log entries is the number of issues resolved.
   */
  lemma BulkResolvesTheReservation(store: Store, keys: seq<string>, b: BulkResolve)
    requires Valid(store) && Lists(store, keys, b)
    requires forall i :: 0 <= i < |keys| ==> keys[i] in store.issues
    ensures var after := ResolveAll(store, keys, b);
            && after.issues.Keys == store.issues.Keys
            && (forall key :: key in store.issues ==>
                  after.issues[key] ==
                  if && store.issues[key].reservationId == Some(Trim(b.reservationId))
                     && store.issues[key].workflow != RESOLVED
                     && store.issues[key].issueCode != "STAY_TIME_RECOVERY_REVIEW"
                  then BulkResolved(store.issues[key], b)
                  else store.issues[key])
            && (forall key :: key in after.issues ==> !Selected(after.issues[key], b))
            && |after.log| == |store.log| + |keys|
            && |keys| == |set key | key in store.issues && Selected(store.issues[key], b)|
  {
    forall key | key in store.issues
      ensures ResolveAll(store, keys, b).issues[key] ==
              if && store.issues[key].reservationId == Some(Trim(b.reservationId))
                 && store.issues[key].workflow != RESOLVED
                 && store.issues[key].issueCode != "STAY_TIME_RECOVERY_REVIEW"
              then BulkResolved(store.issues[key], b)
              else store.issues[key]
    {
      BulkRows(store, keys, b, key);
    }
    ResolveAllLogs(store, keys, b);
    var selected := set key | key in store.issues && Selected(store.issues[key], b);
    DistinctCount(keys, selected);
  }
}
