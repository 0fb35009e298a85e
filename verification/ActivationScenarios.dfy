/** When a claim can be released again, and the runs behind the limits of activation safety. */
module ActivationScenarios {
  import opened Common
  import opened ChannelLifecycle
  import opened ActivationStore
  import opened ActivationProtocol
  import opened ActivationKeys
  import opened ActivationSafety
  import opened ActivationLink

  /** One more step at the end of a run. */
  lemma {:induction false} Then(s: State, steps: seq<Step>, step: Step) returns (longer: seq<Step>)
    ensures longer == steps + [step]
    ensures RunSteps(s, longer) == Next(RunSteps(s, steps), step)
    decreases |steps|
  {
    longer := steps + [step];
    if steps == [] {
      assert longer[1..] == [];
    } else {
      var rest := Then(Next(s, steps[0]), steps[1..], step);
      assert longer[1..] == rest;
    }
  }

  predicate NeverCleared(steps: seq<Step>) {
    forall i :: 0 <= i < |steps| ==> !Clears(steps[i])
  }

  /** A request that is over, or has not got past reading. */
  predicate Rests(pc: Pc) {
    pc.Done? || pc.Fresh? || pc.VerifyFresh? || pc.VerifyRead?
  }

  predicate Resting(s: State) {
    forall id :: id in s.requests ==> Rests(s.requests[id].pc)
  }

  /** The channel is inactive and no POST can still turn it active. */
  predicate Dead(s: State) {
    !s.active && s.inFlight == {}
  }

  /** A claim that nobody is in a position to release. */
  ghost predicate Stuck(s: State) {
    && s.store.claim.Some?
    && (|OpenKeys(s.store)| != 1 || Dead(s))
    && forall id :: id in s.requests ==>
         Rests(s.requests[id].pc) || (Dead(s) && (s.requests[id].pc.VerifyListed? || s.requests[id].pc.VerifyInactive?))
  }

  lemma StuckStaysByAct(s: State, id: nat, act: Act)
    requires Stuck(s) && id in s.requests && Enabled(s, s.requests[id].pc, act)
    ensures Stuck(Acted(s, id, act)) && Acted(s, id, act).store.claim == s.store.claim &&
            Acted(s, id, act).posts == s.posts
  {
    var s' := Acted(s, id, act);
    assert OpenKeys(s'.store) == OpenKeys(s.store);
    if act.ListsAudits? && OpenKeys(s.store) == {act.audit} {
      assert |{act.audit}| == 1;
    }
  }

  lemma StuckStays(s: State, step: Step)
    requires Stuck(s) && !Clears(step)
    ensures Stuck(Next(s, step)) && Next(s, step).store.claim == s.store.claim && Next(s, step).posts == s.posts
  {
    if step.Acts? && step.id in s.requests && Enabled(s, s.requests[step.id].pc, step.act) {
      StuckStaysByAct(s, step.id, step.act);
    } else {
      assert OpenKeys(Next(s, step).store) == OpenKeys(s.store);
    }
  }

  /** However often hosts retry activation and verification with whatever keys, a stuck claim is never released. */
  lemma {:induction false} StuckForever(s: State, steps: seq<Step>)
    requires Stuck(s) && NeverCleared(steps)
    ensures RunSteps(s, steps).store.claim == s.store.claim && RunSteps(s, steps).posts == s.posts
    decreases |steps|
  {
    if steps == [] {
    } else {
      StuckStays(s, steps[0]);
      StuckForever(Next(s, steps[0]), steps[1..]);
    }
  }

  /** A verification that reads the claim and finds the one open audit. */
  lemma VerificationLists(s: State, id: nat, audit: RequestKey) returns (steps: seq<Step>)
    requires OpenKeys(s.store) == {audit} && id !in s.requests
    ensures NeverCleared(steps)
    ensures RunSteps(s, steps) == s.(requests := s.requests[id := Request("", VerifyListed(s.store.claim, audit))])
  {
    steps := Then(s, [], VerificationArrives(id));
    steps := Then(s, steps, Acts(id, ReadsContext));
    assert RunSteps(s, steps) == s.(requests := s.requests[id := Request("", VerifyRead(s.store.claim))]);
    steps := Then(s, steps, Acts(id, ListsAudits(audit)));
  }

  /** What a verification does over an active channel: it closes the audit, and releases the claim it read, if any. */
  lemma VerificationCloses(s: State, id: nat, claim: Option<Time>, audit: RequestKey) returns (steps: seq<Step>)
    requires s.active && id in s.requests && s.requests[id] == Request("", VerifyListed(claim, audit))
    requires IsOpen(s.store, audit) && (claim.None? || s.store.claim == claim)
    ensures NeverCleared(steps)
    ensures var after := RunSteps(s, steps);
            && after.store.claim == (if claim.Some? then None else s.store.claim)
            && audit in after.store.audits && after.store.audits[audit].status.Success?
            && OpenKeys(after.store) == OpenKeys(s.store) - {audit}
            && after.store.verified == s.store.verified + {audit}
            && after.posts == MarkSeen(s.posts) && after.requests == s.requests[id := Request("", Done)]
  {
    steps := Then(s, [], Acts(id, Observes(true, true, 0)));
    assert RunSteps(s, steps) ==
           s.(requests := s.requests[id := Request("", VerifyActive(claim, audit))], posts := MarkSeen(s.posts));
    steps := Then(s, steps, Acts(id, Finalizes(true)));
  }

  lemma {:induction false} RunStepsAppend(s: State, first: seq<Step>, second: seq<Step>)
    ensures RunSteps(s, first + second) == RunSteps(RunSteps(s, first), second)
    decreases |first|
  {
    if first == [] {
      assert first + second == second;
    } else {
      assert (first + second)[1..] == first[1..] + second;
      RunStepsAppend(Next(s, first[0]), first[1..], second);
    }
  }

  /** Over an active channel, one verification releases the claim and closes the only open audit, whoever left them. */
  lemma VerificationReleases(s: State, id: nat, audit: RequestKey) returns (steps: seq<Step>)
    requires s.active && s.store.claim.Some? && OpenKeys(s.store) == {audit} && id !in s.requests
    ensures NeverCleared(steps)
    ensures var after := RunSteps(s, steps);
            && after.store.claim.None? && audit in after.store.audits && after.store.audits[audit].status.Success?
            && after.store.verified == s.store.verified + {audit}
            && after.posts == MarkSeen(s.posts) && after.requests == s.requests[id := Request("", Done)]
  {
    assert audit in OpenKeys(s.store);
    var first := VerificationLists(s, id, audit);
    var second := VerificationCloses(RunSteps(s, first), id, s.store.claim, audit);
    steps := first + second;
    RunStepsAppend(s, first, second);
  }

  lemma UnusedId(ids: set<nat>) returns (id: nat)
    ensures forall other :: other in ids ==> other < id
    decreases |ids|
  {
    if ids == {} {
      id := 0;
    } else {
      var some :| some in ids;
      var rest := UnusedId(ids - {some});
      id := if rest <= some then some + 1 else rest;
      assert forall other :: other in ids ==> other == some || other in ids - {some};
    }
  }

  lemma SingleKey(keys: set<RequestKey>) returns (key: RequestKey)
    requires |keys| == 1
    ensures keys == {key}
  {
    key :| key in keys;
    assert |keys - {key}| == 0;
  }

  /** With one open audit and a channel that is or may turn active, there is a way out. */
  lemma WayOut(s: State) returns (steps: seq<Step>)
    requires s.store.claim.Some? && |OpenKeys(s.store)| == 1 && !Dead(s)
    ensures NeverCleared(steps) && RunSteps(s, steps).store.claim.None?
  {
    var audit := SingleKey(OpenKeys(s.store));
    var id := UnusedId(s.requests.Keys);
    if s.active {
      steps := VerificationReleases(s, id, audit);
    } else {
      assert exists claim :: claim in s.inFlight by {
        assert (forall claim :: claim !in s.inFlight) ==> s.inFlight == {};
      }
      var claim :| claim in s.inFlight;
      var first := Then(s, [], ProviderApplies(claim));
      var second := VerificationReleases(RunSteps(s, first), id, audit);
      steps := first + second;
      RunStepsAppend(s, first, second);
    }
  }

  /**
   * When a claim that its requests have abandoned can ever be released by activations and verifications: if and only
   * if exactly one audit is open and the channel is active or a POST in flight may still turn it active. (A webhook
   * that clears the claim is the one other way out.)
   */
  lemma ReleasableExactlyWhen(s: State)
    requires s.store.claim.Some? && Resting(s)
    ensures (exists steps :: NeverCleared(steps) && RunSteps(s, steps).store.claim.None?) <==>
            |OpenKeys(s.store)| == 1 && !Dead(s)
  {
    if |OpenKeys(s.store)| == 1 && !Dead(s) {
      var steps := WayOut(s);
    } else {
      forall steps | NeverCleared(steps) ensures RunSteps(s, steps).store.claim.Some? {
        StuckForever(s, steps);
      }
    }
  }

  /** One activation up to its claim: no audit before it, an inactive channel. */
  lemma ActivationClaims(s: State, id: nat, key: RequestKey, now: Time) returns (steps: seq<Step>)
    requires id !in s.requests && s.store.claim.None? && key !in s.store.audits && Unused(s.store, now) && !s.active
    ensures NeverCleared(steps)
    ensures RunSteps(s, steps) ==
            s.(store := s.store.(claim := Some(now), version := s.store.version + 1,
                                 audits := s.store.audits[key := Audit(Pending, now)]),
               requests := s.requests[id := Request(key, Claimed(now))])
  {
    steps := Then(s, [], ActivationArrives(id, key));
    steps := Then(s, steps, Acts(id, ReadsContext));
    assert RunSteps(s, steps) == s.(requests := s.requests[id := Request(key, ContextRead(s.store.version))]);
    steps := Then(s, steps, Acts(id, Observes(true, true, now)));
    assert RunSteps(s, steps) == s.(requests := s.requests[id := Request(key, SeenInactive(s.store.version, now))]);
    steps := Then(s, steps, Acts(id, Claims(true)));
  }

  /** And from its claim to the brink of its POST. */
  lemma ActivationRechecks(s: State, id: nat) returns (steps: seq<Step>)
    requires id in s.requests && s.requests[id].pc.Claimed? && s.store.claim == Some(s.requests[id].pc.at) && !s.active
    ensures NeverCleared(steps)
    ensures RunSteps(s, steps) ==
            s.(requests := s.requests[id := s.requests[id].(pc := ReadyToPost(s.requests[id].pc.at))])
  {
    steps := Then(s, [], Acts(id, Rechecks(true)));
    assert RunSteps(s, steps) ==
           s.(requests := s.requests[id := s.requests[id].(pc := Rechecked(s.requests[id].pc.at))]);
    steps := Then(s, steps, Acts(id, Observes(true, true, 0)));
  }

  /** A crash right after the claim is enough: no POST was made, and yet the claim stays for good. */
  lemma CrashBeforePostSticks(key: RequestKey) returns (steps: seq<Step>)
    ensures NeverCleared(steps)
    ensures var s := RunSteps(INITIAL, steps); Stuck(s) && Resting(s) && s.posts == [] && OpenKeys(s.store) == {key}
  {
    steps := ActivationClaims(INITIAL, 0, key, 10);
    var claimed := RunSteps(INITIAL, steps);
    steps := Then(INITIAL, steps, Acts(0, Crashes));
    assert RunSteps(INITIAL, steps) == claimed.(requests := map[0 := Request(key, Done)]);
  }

  /** An activation that has posted, and whose POST has turned the channel active. */
  lemma PostTakesEffect(s: State, id: nat) returns (steps: seq<Step>)
    requires id in s.requests && s.requests[id].pc.ReadyToPost? && s.inFlight == {}
    ensures NeverCleared(steps)
    ensures var r := s.requests[id];
            RunSteps(s, steps) == s.(requests := s.requests[id := r.(pc := Posting(r.pc.at))], active := true,
                                     posts := s.posts + [Post(r.pc.at, r.key, false, false)])
  {
    var r := s.requests[id];
    steps := Then(s, [], Acts(id, SendsPost));
    assert RunSteps(s, steps) == s.(requests := s.requests[id := r.(pc := Posting(r.pc.at))], inFlight := {r.pc.at},
                                    posts := s.posts + [Post(r.pc.at, r.key, false, false)]);
    steps := Then(s, steps, ProviderApplies(r.pc.at));
  }

  /** The verification finds the new audit, and knows of no claim to release. */
  lemma ListsBehindClaim(s: State) returns (steps: seq<Step>)
    requires s.active && s.store == Store(Some(10), 1, map["key" := Audit(Pending, 10)], {})
    requires s.requests == map[0 := Request("", VerifyRead(None)), 1 := Request("key", Posting(10))]
    ensures NeverCleared(steps)
    ensures var after := RunSteps(s, steps);
            after.store.claim == Some(10) && OpenKeys(after.store) == {} &&
            after.requests == map[0 := Request("", Done), 1 := Request("key", Posting(10))]
  {
    assert OpenKeys(s.store) == {"key"};
    var first := Then(s, [], Acts(0, ListsAudits("key")));
    var listed := RunSteps(s, first);
    assert listed == s.(requests := s.requests[0 := Request("", VerifyListed(None, "key"))]);
    var second := VerificationCloses(listed, 0, None, "key");
    steps := first + second;
    RunStepsAppend(s, first, second);
  }

  /**
   * A verification reads a null claim just before an activation takes one. It closes that activation's audit and
   * leaves the claim set.
   */
  lemma ClaimOutlivesAudit() returns (steps: seq<Step>)
    ensures NeverCleared(steps)
    ensures var s := RunSteps(INITIAL, steps);
            s.store.claim == Some(10) && OpenKeys(s.store) == {} &&
            s.requests == map[0 := Request("", Done), 1 := Request("key", Posting(10))]
  {
    var first := Then(INITIAL, [], VerificationArrives(0));
    first := Then(INITIAL, first, Acts(0, ReadsContext));
    var read := RunSteps(INITIAL, first);
    assert read == INITIAL.(requests := map[0 := Request("", VerifyRead(None))]);
    var second := ActivationClaims(read, 1, "key", 10);
    var claimed := RunSteps(read, second);
    var third := ActivationRechecks(claimed, 1);
    var ready := RunSteps(claimed, third);
    var fourth := PostTakesEffect(ready, 1);
    var posted := RunSteps(ready, fourth);
    RunStepsAppend(claimed, third, fourth);
    RunStepsAppend(read, second, third + fourth);
    RunStepsAppend(INITIAL, first, second + (third + fourth));
    steps := first + (second + (third + fourth));
    assert RunSteps(INITIAL, steps) == posted;
    var last := ListsBehindClaim(posted);
    RunStepsAppend(INITIAL, steps, last);
    steps := steps + last;
  }

  /** If the activation then dies, the claim is stuck although the channel is active. */
  lemma VerificationCanWedge() returns (steps: seq<Step>)
    ensures NeverCleared(steps)
    ensures Stuck(RunSteps(INITIAL, steps)) && Resting(RunSteps(INITIAL, steps))
    ensures OpenKeys(RunSteps(INITIAL, steps).store) == {}
  {
    steps := ClaimOutlivesAudit();
    var s := RunSteps(INITIAL, steps);
    steps := Then(INITIAL, steps, Acts(1, Crashes));
    assert RunSteps(INITIAL, steps) == s.(requests := map[0 := Request("", Done), 1 := Request("key", Done)]);
  }

  /** The first activation has posted, and a webhook clears its claim. */
  lemma ClearedUnderPost(event: EventType) returns (steps: seq<Step>)
    requires Invalidates(event)
    ensures RunSteps(INITIAL, steps) ==
            State(Store(None, 2, map["first" := Audit(Pending, 10)], {}), map[1 := Request("first", Posting(10))],
                  false, {10}, [Post(10, "first", false, false)])
  {
    var first := ActivationClaims(INITIAL, 1, "first", 10);
    var second := ActivationRechecks(RunSteps(INITIAL, first), 1);
    RunStepsAppend(INITIAL, first, second);
    steps := Then(INITIAL, first + second, Acts(1, SendsPost));
    steps := Then(INITIAL, steps, LifecycleEvent(event));
  }

  lemma BlindRunIsUnguarded(steps: seq<Step>)
    requires var s := RunSteps(INITIAL, steps);
             2 in s.requests && s.requests[2].pc.ReadyToPost? && s.posts == [Post(10, "first", false, false)]
    ensures !ClearedWhenSpent(INITIAL, steps) && !ClearedWhenClosed(INITIAL, steps)
  {
    if ClearedWhenClosed(INITIAL, steps) {
      ClosedRunsAreSafe(INITIAL, steps);
    }
    if ClearedWhenSpent(INITIAL, steps) {
      PostsAreSettled(steps, Post(10, "first", false, false), 2);
    }
  }

  /**
   * What a webhook that clears a claim under a POST leads to: a second activation reaches its own POST while the first
   * one is unsettled and may still take effect, and two audits are open.
   */
  lemma BlindSecondPost(event: EventType) returns (steps: seq<Step>)
    requires Invalidates(event)
    ensures var s := RunSteps(INITIAL, steps);
            && s.posts == [Post(10, "first", false, false)] && s.inFlight == {10}
            && 2 in s.requests && s.requests[2] == Request("second", ReadyToPost(20))
            && OpenKeys(s.store) == {"first", "second"}
    ensures !ClearedWhenSpent(INITIAL, steps) && !ClearedWhenClosed(INITIAL, steps)
  {
    var first := ClearedUnderPost(event);
    var cleared := RunSteps(INITIAL, first);
    var second := ActivationClaims(cleared, 2, "second", 20);
    var third := ActivationRechecks(RunSteps(cleared, second), 2);
    RunStepsAppend(cleared, second, third);
    RunStepsAppend(INITIAL, first, second + third);
    steps := first + (second + third);
    BlindRunIsUnguarded(steps);
  }
}
