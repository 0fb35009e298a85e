/** The link between the claim and the audits, and exactly which webhooks break it. */
module ActivationLink {
  import opened Common
  import opened ActivationStore
  import opened ActivationProtocol
  import opened ActivationKeys
  import opened ActivationSafety

  /** An open audit's claim is the one in force. */
  ghost predicate Linked(store: Store) {
    forall key :: IsOpen(store, key) ==> store.claim == Some(store.audits[key].startedAt)
  }

  /** A verification that read the claim in force has found the audit of that claim. */
  ghost predicate VerifyLinked(store: Store, pc: Pc) {
    (pc.VerifyListed? || pc.VerifyActive?) && pc.claim.Some? && store.claim == pc.claim ==>
      pc.audit in store.audits && store.audits[pc.audit].startedAt == pc.claim.value
  }

  ghost predicate LinkInv(s: State) {
    Safe(s) && Linked(s.store) && forall id :: id in s.requests ==> VerifyLinked(s.store, s.requests[id].pc)
  }

  /** Without an open audit the claim, if there is one, is spent. */
  lemma ClosedMeansSpent(s: State)
    requires Safe(s) && OpenKeys(s.store) == {}
    ensures ClaimSpent(s)
  {
    if s.store.claim.Some? {
      var key :| key in s.store.audits && s.store.audits[key].startedAt == s.store.claim.value;
      assert key !in OpenKeys(s.store);
      assert AuditSafe(s, s.store.audits[key]);
    }
  }

  /** An act that releases the claim closes the audit it belongs to. */
  lemma ReleaseCloses(s: State, r: Request, act: Act, key: RequestKey)
    requires AuditsKeyed(s.store) && RequestKeyed(s, r) && VerifyLinked(s.store, r.pc) && Enabled(s, r.pc, act)
    requires s.store.claim.Some? && StoreAfter(s, r, act).claim.None?
    requires key in s.store.audits && s.store.audits[key].startedAt == s.store.claim.value
    ensures !IsOpen(StoreAfter(s, r, act), key)
  {
  }

  lemma ActsKeepLinked(s: State, id: nat, act: Act)
    requires LinkInv(s) && id in s.requests && Enabled(s, s.requests[id].pc, act)
    ensures Linked(Acted(s, id, act).store)
  {
    var r, after := s.requests[id], Acted(s, id, act).store;
    StoreAdvances(s, r, act);
    assert RequestKeyed(s, r) && VerifyLinked(s.store, r.pc);
    forall key | IsOpen(after, key) ensures after.claim == Some(after.audits[key].startedAt) {
      if key in s.store.audits {
        assert IsOpen(s.store, key);
        if after.claim.None? {
          ReleaseCloses(s, r, act, key);
        }
      }
    }
  }

  lemma UnmovedStaysLinked(s: State, id: nat, act: Act, other: nat)
    requires LinkInv(s) && id in s.requests && Enabled(s, s.requests[id].pc, act) && other in s.requests
    ensures VerifyLinked(Acted(s, id, act).store, s.requests[other].pc)
  {
    StoreAdvances(s, s.requests[id], act);
    assert RequestKeyed(s, s.requests[other]) && VerifyLinked(s.store, s.requests[other].pc);
  }

  lemma MovedStaysLinked(s: State, id: nat, act: Act)
    requires LinkInv(s) && id in s.requests && Enabled(s, s.requests[id].pc, act)
    ensures VerifyLinked(Acted(s, id, act).store, PcAfter(s, s.requests[id], act))
  {
    var r := s.requests[id];
    assert VerifyLinked(s.store, r.pc);
    if act.ListsAudits? && OpenKeys(s.store) == {act.audit} {
      assert act.audit in OpenKeys(s.store);
      assert IsOpen(s.store, act.audit);
    }
  }

  lemma NextKeepsLink(s: State, step: Step)
    requires LinkInv(s) && (Clears(step) ==> OpenKeys(s.store) == {})
    ensures LinkInv(Next(s, step))
  {
    var s' := Next(s, step);
    if Clears(step) {
      ClosedMeansSpent(s);
      assert forall key :: IsOpen(s.store, key) ==> key in OpenKeys(s.store);
    }
    NextKeepsSafe(s, step);
    if step.Acts? && step.id in s.requests && Enabled(s, s.requests[step.id].pc, step.act) {
      ActsKeepLinked(s, step.id, step.act);
      forall id | id in s'.requests ensures VerifyLinked(s'.store, s'.requests[id].pc) {
        if id == step.id {
          MovedStaysLinked(s, id, step.act);
        } else {
          UnmovedStaysLinked(s, step.id, step.act, id);
        }
      }
    } else {
      forall id | id in s'.requests ensures VerifyLinked(s'.store, s'.requests[id].pc) {
        assert id in s.requests ==> VerifyLinked(s.store, s.requests[id].pc);
      }
      forall key | IsOpen(s'.store, key) ensures s'.store.claim == Some(s'.store.audits[key].startedAt) {
        assert IsOpen(s.store, key);
      }
    }
  }

  /** A webhook keeps the link exactly when it finds no open audit; it can tell before it writes. */
  lemma ClearingIsLinkedExactlyWhen(s: State, step: Step)
    requires LinkInv(s) && Clears(step)
    ensures Linked(Next(s, step).store) <==> OpenKeys(s.store) == {}
    ensures LinkInv(Next(s, step)) <==> OpenKeys(s.store) == {}
  {
    if OpenKeys(s.store) == {} {
      NextKeepsLink(s, step);
    } else {
      var key :| key in OpenKeys(s.store);
      assert IsOpen(Next(s, step).store, key);
    }
  }

  ghost predicate AlwaysLinked(s: State, steps: seq<Step>)
    decreases |steps|
  {
    Linked(s.store) && (steps != [] ==> AlwaysLinked(Next(s, steps[0]), steps[1..]))
  }

  /** Every webhook that clears the claim finds no open audit. */
  ghost predicate ClearedWhenClosed(s: State, steps: seq<Step>)
    decreases |steps|
  {
    steps != [] ==> (Clears(steps[0]) ==> OpenKeys(s.store) == {}) && ClearedWhenClosed(Next(s, steps[0]), steps[1..])
  }

  /** Over a whole run, every open audit's claim is in force if and only if no webhook clears over an open audit. */
  lemma {:induction false} LinkedExactlyWhen(s: State, steps: seq<Step>)
    requires LinkInv(s)
    ensures AlwaysLinked(s, steps) <==> ClearedWhenClosed(s, steps)
    decreases |steps|
  {
    if steps == [] {
    } else if Clears(steps[0]) && OpenKeys(s.store) != {} {
      ClearingIsLinkedExactlyWhen(s, steps[0]);
    } else {
      NextKeepsLink(s, steps[0]);
      LinkedExactlyWhen(Next(s, steps[0]), steps[1..]);
    }
  }

  /** A webhook that looks for open audits first is also safe for the POSTs. */
  lemma {:induction false} ClosedRunsAreSafe(s: State, steps: seq<Step>)
    requires LinkInv(s) && ClearedWhenClosed(s, steps)
    ensures ClearedWhenSpent(s, steps) && LinkInv(RunSteps(s, steps))
    decreases |steps|
  {
    if steps == [] {
    } else {
      if Clears(steps[0]) {
        ClosedMeansSpent(s);
      }
      NextKeepsLink(s, steps[0]);
      ClosedRunsAreSafe(Next(s, steps[0]), steps[1..]);
    }
  }

  /** At most one audit is open, and an open audit's start is the claim in force. */
  lemma OpenAuditIsTheClaim(steps: seq<Step>, k: RequestKey, l: RequestKey)
    requires ClearedWhenClosed(INITIAL, steps) && IsOpen(RunSteps(INITIAL, steps).store, k)
    ensures var s := RunSteps(INITIAL, steps);
            && s.store.claim == Some(s.store.audits[k].startedAt)
            && (IsOpen(s.store, l) ==> k == l)
  {
    ClosedRunsAreSafe(INITIAL, steps);
    var s := RunSteps(INITIAL, steps);
    assert IsOpen(s.store, l) ==> s.store.claim == Some(s.store.audits[l].startedAt);
  }
}
