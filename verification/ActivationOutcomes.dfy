/** How activations and verifications end when nobody interferes: by each answer of the provider and each refusal. */
module ActivationOutcomes {
  import opened Common
  import opened ActivationStore
  import opened ActivationProtocol
  import opened ActivationKeys
  import opened ActivationSafety
  import opened ActivationScenarios

  /** A request under its own claim, with its audit open. */
  predicate Underway(s: State, id: nat, at: Time, pc: Pc) {
    && id in s.requests && s.requests[id].pc == pc && s.store.claim == Some(at)
    && s.requests[id].key in s.store.audits && s.store.audits[s.requests[id].key].startedAt == at
    && (s.store.audits[s.requests[id].key].status.Pending? || s.store.audits[s.requests[id].key].status.Unknown?)
  }

  /** How a request ends: the claim, its own audit, and whether its verification is on record; nothing else. */
  ghost predicate Ends(s: State, after: State, id: nat, claim: Option<Time>, status: AuditStatus, verified: bool)
    requires id in s.requests && s.requests[id].key in s.store.audits
  {
    var key := s.requests[id].key;
    && after.store.claim == claim
    && after.store.audits == s.store.audits[key := Audit(status, s.store.audits[key].startedAt)]
    && after.store.verified == (if verified then s.store.verified + {key} else s.store.verified)
    && after.requests == s.requests[id := Request(key, Done)]
    && after.active == s.active
  }

  /** Two steps, told by the state between them. */
  lemma RunTwo(s: State, first: Step, mid: State, second: Step)
    requires Next(s, first) == mid
    ensures RunSteps(s, [first, second]) == Next(mid, second)
  {
    assert [first, second][1..] == [second] && [second][1..] == [];
    assert RunSteps(mid, [second]) == RunSteps(Next(mid, second), []);
  }

  lemma RunFirst(s: State, first: Step, rest: seq<Step>)
    ensures RunSteps(s, [first] + rest) == RunSteps(Next(s, first), rest)
  {
    assert ([first] + rest)[1..] == rest;
  }

  /** The state in which a request has moved and posts may have been seen. */
  function Moved(s: State, id: nat, pc: Pc, posts: seq<Post>): State
    requires id in s.requests
  {
    s.(requests := s.requests[id := Request(s.requests[id].key, pc)], posts := posts)
  }

  /** The GETs of a request that confirms, and of one that has failed. */
  lemma ConfirmingGet(s: State, id: nat, at: Time, identityOk: bool)
    requires id in s.requests && s.requests[id].pc == Confirming(Some(at))
    ensures Next(s, Acts(id, Observes(identityOk, true, 0))) ==
            if identityOk && s.active then Moved(s, id, Finalizing(Some(at)), MarkSeen(s.posts))
            else Moved(s, id, Unverified(at, false), s.posts)
  {
  }

  lemma FailingGet(s: State, id: nat, at: Time, definitive: bool, identityOk: bool)
    requires id in s.requests && s.requests[id].pc == Failing(at, definitive)
    ensures Next(s, Acts(id, Observes(identityOk, true, 0))) ==
            if identityOk && s.active then Moved(s, id, Confirming(Some(at)), MarkSeen(s.posts))
            else Moved(s, id, Unverified(at, definitive), s.posts)
  {
  }

  /** The transaction that marks a request unverified. */
  lemma UnverifiedMarks(s: State, id: nat, at: Time, definitive: bool)
    requires Underway(s, id, at, Unverified(at, definitive))
    ensures var after := Next(s, Acts(id, Marks));
            && Ends(s, after, id, if definitive then None else Some(at), if definitive then Failed else Unknown, false)
            && after.posts == s.posts && after.inFlight == s.inFlight
  {
  }

  /** The transaction that finalizes one, if the context still stands. */
  lemma FinalizingEnds(s: State, id: nat, at: Time, contextOk: bool)
    requires Underway(s, id, at, Finalizing(Some(at)))
    ensures var after := Next(s, Acts(id, Finalizes(contextOk)));
            && (contextOk ==> Ends(s, after, id, None, Success, true) && after.posts == s.posts)
            && (!contextOk ==> after == Moved(s, id, Unverified(at, false), s.posts))
  {
  }

  /**
   * An activation that is confirmed completes: over an active channel its next GET and its transaction release the
   * claim, close the audit as a success and record the verification.
   */
  lemma ConfirmedCompletes(s: State, id: nat, at: Time)
    requires Underway(s, id, at, Confirming(Some(at))) && s.active
    ensures var after := RunSteps(s, [Acts(id, Observes(true, true, 0)), Acts(id, Finalizes(true))]);
            Ends(s, after, id, None, Success, true) && after.posts == MarkSeen(s.posts)
  {
    var mid := Moved(s, id, Finalizing(Some(at)), MarkSeen(s.posts));
    ConfirmingGet(s, id, at, true);
    RunTwo(s, Acts(id, Observes(true, true, 0)), mid, Acts(id, Finalizes(true)));
    FinalizingEnds(mid, id, at, true);
  }

  /** One that turns out inactive, or of another channel, keeps the claim and leaves its audit open. */
  lemma UnconfirmedWaits(s: State, id: nat, at: Time, identityOk: bool)
    requires Underway(s, id, at, Confirming(Some(at))) && !(identityOk && s.active)
    ensures var after := RunSteps(s, [Acts(id, Observes(identityOk, true, 0)), Acts(id, Marks)]);
            Ends(s, after, id, Some(at), Unknown, false) && after.posts == s.posts
  {
    var mid := Moved(s, id, Unverified(at, false), s.posts);
    ConfirmingGet(s, id, at, identityOk);
    RunTwo(s, Acts(id, Observes(identityOk, true, 0)), mid, Acts(id, Marks));
    UnverifiedMarks(mid, id, at, false);
  }

  /** So does one whose channel is deactivated before its last GET. */
  lemma DeactivatedWaits(s: State, id: nat, at: Time)
    requires Underway(s, id, at, Confirming(Some(at)))
    ensures var after := RunSteps(s, [ProviderDeactivates] + [Acts(id, Observes(true, true, 0)), Acts(id, Marks)]);
            Ends(s.(active := false), after, id, Some(at), Unknown, false)
  {
    RunFirst(s, ProviderDeactivates, [Acts(id, Observes(true, true, 0)), Acts(id, Marks)]);
    UnconfirmedWaits(Next(s, ProviderDeactivates), id, at, true);
  }

  /** So does one whose last transaction finds the context changed. */
  lemma RefusedFinalizationWaits(s: State, id: nat, at: Time)
    requires Underway(s, id, at, Finalizing(Some(at)))
    ensures var after := RunSteps(s, [Acts(id, Finalizes(false)), Acts(id, Marks)]);
            Ends(s, after, id, Some(at), Unknown, false) && after.posts == s.posts
  {
    var mid := Moved(s, id, Unverified(at, false), s.posts);
    FinalizingEnds(s, id, at, false);
    RunTwo(s, Acts(id, Finalizes(false)), mid, Acts(id, Marks));
    UnverifiedMarks(mid, id, at, false);
  }

  /**
   * A failure over an inactive channel: a definitive one releases the claim and fails the audit, an uncertain one
   * keeps the claim and leaves the audit open.
   */
  lemma FailureEnds(s: State, id: nat, at: Time, definitive: bool, identityOk: bool)
    requires Underway(s, id, at, Failing(at, definitive)) && !(identityOk && s.active)
    ensures var after := RunSteps(s, [Acts(id, Observes(identityOk, true, 0)), Acts(id, Marks)]);
            && Ends(s, after, id, if definitive then None else Some(at), if definitive then Failed else Unknown, false)
            && after.posts == s.posts && after.inFlight == s.inFlight
  {
    var mid := Moved(s, id, Unverified(at, definitive), s.posts);
    FailingGet(s, id, at, definitive, identityOk);
    RunTwo(s, Acts(id, Observes(identityOk, true, 0)), mid, Acts(id, Marks));
    UnverifiedMarks(mid, id, at, definitive);
  }

  /** What the answer to the POST leads to. */
  lemma AnswerLeads(s: State, id: nat, at: Time, answer: Answer)
    requires id in s.requests && s.requests[id].pc == Posting(at) && (answer.Rejected? ==> at in s.inFlight)
    ensures var after := Next(s, Acts(id, Receives(answer)));
            && after.store == s.store && after.active == s.active
            && after.requests == s.requests[id := Request(s.requests[id].key,
                                                          if answer.Accepted? then Confirming(Some(at))
                                                          else Failing(at, answer.Rejected?))]
            && after.inFlight == (if answer.Rejected? then s.inFlight - {at} else s.inFlight)
            && after.posts == if answer.Rejected? then MarkRejected(s.posts, at) else s.posts
  {
  }

  lemma ErrorLeads(s: State, id: nat, at: Time, definitive: bool)
    requires id in s.requests && s.requests[id].pc in {Claimed(at), Rechecked(at)}
    ensures Next(s, Acts(id, Errs(definitive))) == Moved(s, id, Failing(at, definitive), s.posts)
  {
  }

  /** An error between the claim and the POST leads to the same end as a failed POST. */
  lemma ErrorEnds(s: State, id: nat, at: Time, definitive: bool)
    requires Underway(s, id, at, Claimed(at)) || Underway(s, id, at, Rechecked(at))
    requires !s.active
    ensures var after := RunSteps(s, [Acts(id, Errs(definitive))] +
                                     [Acts(id, Observes(true, true, 0)), Acts(id, Marks)]);
            Ends(s, after, id, if definitive then None else Some(at), if definitive then Failed else Unknown, false)
  {
    var failing := Moved(s, id, Failing(at, definitive), s.posts);
    ErrorLeads(s, id, at, definitive);
    RunFirst(s, Acts(id, Errs(definitive)), [Acts(id, Observes(true, true, 0)), Acts(id, Marks)]);
    FailureEnds(failing, id, at, definitive, true);
  }

  /** The claim as the recheck finds it. */
  lemma RecheckLeads(s: State, id: nat, at: Time, contextOk: bool)
    requires id in s.requests && s.requests[id].pc == Claimed(at)
    ensures Next(s, Acts(id, Rechecks(contextOk))) ==
            s.(requests := s.requests[id := Request(s.requests[id].key,
                                                    if contextOk && s.store.claim == Some(at) then Rechecked(at)
                                                    else Failing(at, true))])
  {
  }

  /** The GET before the POST: only an inactive channel of the right identity is posted to. */
  lemma LastGetLeads(s: State, id: nat, at: Time, identityOk: bool)
    requires id in s.requests && s.requests[id].pc == Rechecked(at)
    ensures Next(s, Acts(id, Observes(identityOk, true, 0))).requests[id].pc ==
            if !identityOk then Failing(at, true) else if s.active then Confirming(Some(at)) else ReadyToPost(at)
    ensures Next(s, Acts(id, Observes(identityOk, true, 0))).store == s.store
  {
  }

  /** An activation from its start to its POST. */
  lemma ActivationPosts(s: State, id: nat, key: RequestKey, now: Time) returns (steps: seq<Step>)
    requires id !in s.requests && s.store.claim.None? && key !in s.store.audits && Unused(s.store, now)
    requires !s.active && s.inFlight == {}
    ensures var after := RunSteps(s, steps);
            && Underway(after, id, now, Posting(now)) && after.requests == s.requests[id := Request(key, Posting(now))]
            && after.inFlight == {now} && !after.active
            && after.posts == s.posts + [Post(now, key, false, false)]
            && after.store.audits == s.store.audits[key := Audit(Pending, now)] &&
                 after.store.verified == s.store.verified
  {
    var first := ActivationClaims(s, id, key, now);
    var claimed := RunSteps(s, first);
    var second := ActivationRechecks(claimed, id);
    RunStepsAppend(s, first, second);
    steps := Then(s, first + second, Acts(id, SendsPost));
  }

  /** What a whole activation leaves. */
  ghost predicate Leaves(s: State, after: State, id: nat, key: RequestKey, now: Time, claim: Option<Time>,
                         status: AuditStatus, verified: bool)
  {
    && after.store.claim == claim && after.store.audits == s.store.audits[key := Audit(status, now)]
    && after.store.verified == (if verified then s.store.verified + {key} else s.store.verified)
    && after.requests == s.requests[id := Request(key, Done)]
  }

  lemma SeenTwice(posts: seq<Post>)
    ensures MarkSeen(MarkSeen(posts)) == MarkSeen(posts)
  {
  }

  /** The POST was applied; with or without its answer the request comes to confirm it. */
  lemma AppliedIsConfirmed(s: State, id: nat, at: Time, lost: bool) returns (steps: seq<Step>)
    requires Underway(s, id, at, Posting(at)) && s.active
    ensures RunSteps(s, steps) == Moved(s, id, Confirming(Some(at)), if lost then MarkSeen(s.posts) else s.posts)
  {
    var answered := Acts(id, Receives(if lost then Uncertain else Accepted));
    AnswerLeads(s, id, at, if lost then Uncertain else Accepted);
    var mid := Moved(s, id, if lost then Failing(at, false) else Confirming(Some(at)), s.posts);
    if lost {
      RunTwo(s, answered, mid, Acts(id, Observes(true, true, 0)));
      FailingGet(mid, id, at, false, true);
      steps := [answered, Acts(id, Observes(true, true, 0))];
    } else {
      steps := Then(s, [], answered);
    }
  }

  lemma ActivationIsConfirmed(s: State, id: nat, key: RequestKey, now: Time, lost: bool) returns (steps: seq<Step>)
    requires id !in s.requests && s.store.claim.None? && key !in s.store.audits && Unused(s.store, now)
    requires !s.active && s.inFlight == {}
    ensures var after := RunSteps(s, steps);
            && Underway(after, id, now, Confirming(Some(now))) && after.active
            && after.requests == s.requests[id := Request(key, Confirming(Some(now)))]
            && after.store.audits == s.store.audits[key := Audit(Pending, now)]
            && after.store.verified == s.store.verified
            && MarkSeen(after.posts) == MarkSeen(s.posts + [Post(now, key, false, false)])
  {
    var posts := ActivationPosts(s, id, key, now);
    var posted := RunSteps(s, posts);
    var applied := posted.(active := true, inFlight := {});
    steps := Then(s, posts, ProviderApplies(now));
    assert RunSteps(s, steps) == applied;
    var answered := AppliedIsConfirmed(applied, id, now, lost);
    RunStepsAppend(s, steps, answered);
    SeenTwice(posted.posts);
    steps := steps + answered;
  }

  /**
   * The ordinary activation, undisturbed: the provider applies the POST and its answer arrives, or gets lost. Either
   * way there is no claim afterwards, the audit is a success and the verification is on record.
   */
  lemma ActivationSucceeds(s: State, id: nat, key: RequestKey, now: Time, lost: bool) returns (steps: seq<Step>)
    requires id !in s.requests && s.store.claim.None? && key !in s.store.audits && Unused(s.store, now)
    requires !s.active && s.inFlight == {}
    ensures var after := RunSteps(s, steps);
            && Leaves(s, after, id, key, now, None, Success, true) && after.active
            && after.posts == MarkSeen(s.posts + [Post(now, key, false, false)])
  {
    steps := ActivationIsConfirmed(s, id, key, now, lost);
    ConfirmedCompletes(RunSteps(s, steps), id, now);
    RunStepsAppend(s, steps, [Acts(id, Observes(true, true, 0)), Acts(id, Finalizes(true))]);
    steps := steps + [Acts(id, Observes(true, true, 0)), Acts(id, Finalizes(true))];
  }

  /** The answer to a POST that fails, up to the mark. */
  lemma PostFails(s: State, id: nat, at: Time, rejected: bool) returns (steps: seq<Step>)
    requires Underway(s, id, at, Posting(at)) && at in s.inFlight && !s.active
    ensures var after := RunSteps(s, steps);
            && Ends(s, after, id, if rejected then None else Some(at), if rejected then Failed else Unknown, false)
            && after.inFlight == (if rejected then s.inFlight - {at} else s.inFlight)
  {
    var answer := if rejected then Rejected else Uncertain;
    AnswerLeads(s, id, at, answer);
    steps := Then(s, [], Acts(id, Receives(answer)));
    FailureEnds(RunSteps(s, steps), id, at, rejected, true);
    RunStepsAppend(s, steps, [Acts(id, Observes(true, true, 0)), Acts(id, Marks)]);
    steps := steps + [Acts(id, Observes(true, true, 0)), Acts(id, Marks)];
  }

  /** A POST that the provider rejects leaves no claim and a failed audit; a lost one leaves both for a verification. */
  lemma ActivationFails(s: State, id: nat, key: RequestKey, now: Time, rejected: bool) returns (steps: seq<Step>)
    requires id !in s.requests && s.store.claim.None? && key !in s.store.audits && Unused(s.store, now)
    requires !s.active && s.inFlight == {}
    ensures var after := RunSteps(s, steps);
            && Leaves(s, after, id, key, now, if rejected then None else Some(now),
                      if rejected then Failed else Unknown, false)
            && !after.active && after.inFlight == (if rejected then {} else {now})
  {
    var posts := ActivationPosts(s, id, key, now);
    var posted := RunSteps(s, posts);
    var failed := PostFails(posted, id, now, rejected);
    RunStepsAppend(s, posts, failed);
    steps := posts + failed;
  }

  /** An activation of a channel that is active already records the verification and takes no claim. */
  lemma AlreadyActiveIsRecorded(s: State, id: nat, key: RequestKey) returns (steps: seq<Step>)
    requires id !in s.requests && s.store.claim.None? && s.active
    ensures var after := RunSteps(s, steps);
            && after.store == s.store.(verified := s.store.verified + {key})
            && after.requests == s.requests[id := Request(key, Done)] && after.posts == MarkSeen(s.posts)
  {
    steps := Then(s, [], ActivationArrives(id, key));
    steps := Then(s, steps, Acts(id, ReadsContext));
    steps := Then(s, steps, Acts(id, Observes(true, true, 0)));
    var seen := s.(requests := s.requests[id := Request(key, Confirming(None))], posts := MarkSeen(s.posts));
    assert RunSteps(s, steps) == seen;
    SeenTwice(s.posts);
    steps := Then(s, steps, Acts(id, Observes(true, true, 0)));
    assert RunSteps(s, steps) == seen.(requests := s.requests[id := Request(key, Finalizing(None))]);
    steps := Then(s, steps, Acts(id, Finalizes(true)));
  }

  /** What an activation refuses before it claims: a claim in force, another channel, or an unready synchronisation. */
  lemma RefusedBeforeClaim(s: State, id: nat, identityOk: bool, ready: bool, now: Time)
    requires id in s.requests && !(identityOk && (s.active || ready))
    ensures s.requests[id].pc.Fresh? && s.store.claim.Some? ==>
              Next(s, Acts(id, ReadsContext)) == s.(requests := s.requests[id := s.requests[id].(pc := Done)])
    ensures s.requests[id].pc.ContextRead? ==>
              Next(s, Acts(id, Observes(identityOk, ready, now))) ==
                s.(requests := s.requests[id := s.requests[id].(pc := Done)])
  {
  }

  /** Who gets a claim: a new key, no claim in force, and a row unchanged since it was read. */
  lemma ClaimGoesToExactly(s: State, id: nat, contextOk: bool)
    requires id in s.requests && s.requests[id].pc.SeenInactive? && Unused(s.store, s.requests[id].pc.now)
    ensures var r, after := s.requests[id], Next(s, Acts(id, Claims(contextOk)));
            && (after.requests[id].pc == Claimed(r.pc.now) <==>
                contextOk && r.key !in s.store.audits && s.store.claim.None? && s.store.version == r.pc.version)
            && (!after.requests[id].pc.Claimed? ==> after.store == s.store && after.requests[id].pc == Done)
  {
  }

  /** A row that anybody has touched since it was read refuses the claim. */
  lemma TouchedRowRefuses(s: State, id: nat, contextOk: bool)
    requires id in s.requests && s.requests[id].pc.SeenInactive? && Unused(s.store, s.requests[id].pc.now)
    requires s.store.version == s.requests[id].pc.version
    ensures var after := RunSteps(s, [RowTouched, Acts(id, Claims(contextOk))]);
            && id in after.requests && after.requests[id].pc == Done
            && after.store == s.store.(version := after.store.version)
  {
    RunTwo(s, RowTouched, Next(s, RowTouched), Acts(id, Claims(contextOk)));
    ClaimGoesToExactly(Next(s, RowTouched), id, contextOk);
  }

  /** A verification that meets another channel stops, and so does one that does not find exactly one open audit. */
  lemma VerificationStops(s: State, id: nat, ready: bool, now: Time, audit: RequestKey)
    requires id in s.requests
    ensures s.requests[id].pc.VerifyListed? ==>
              Next(s, Acts(id, Observes(false, ready, now))) == Moved(s, id, Done, s.posts)
    ensures s.requests[id].pc.VerifyRead? && |OpenKeys(s.store)| != 1 ==>
              Next(s, Acts(id, ListsAudits(audit))) == Moved(s, id, Done, s.posts)
  {
  }

  lemma InactiveMarks(s: State, id: nat, audit: RequestKey)
    requires id in s.requests && s.requests[id].pc == VerifyInactive(audit) && IsOpen(s.store, audit)
    ensures Next(s, Acts(id, Marks)) ==
            s.(store := s.store.(audits := s.store.audits[audit := s.store.audits[audit].(status := Unknown)]),
               requests := s.requests[id := s.requests[id].(pc := Done)])
  {
  }

  /** A verification that finds the channel inactive leaves claim and audit for the next one. */
  lemma InactiveVerificationWaits(s: State, id: nat, claim: Option<Time>, audit: RequestKey)
    requires id in s.requests && s.requests[id].pc == VerifyListed(claim, audit) && !s.active && IsOpen(s.store, audit)
    ensures var after := RunSteps(s, [Acts(id, Observes(true, true, 0)), Acts(id, Marks)]);
            && after.store == s.store.(audits := s.store.audits[audit := s.store.audits[audit].(status := Unknown)])
            && after.requests == s.requests[id := s.requests[id].(pc := Done)] && after.posts == s.posts
  {
    var mid := Moved(s, id, VerifyInactive(audit), s.posts);
    assert Next(s, Acts(id, Observes(true, true, 0))) == mid;
    RunTwo(s, Acts(id, Observes(true, true, 0)), mid, Acts(id, Marks));
    InactiveMarks(mid, id, audit);
  }
}
