/**
 * Activation safety: as long as lifecycle webhooks clear only claims that nothing depends on any more, an uncertain
 * POST is never followed blindly by another. That condition is exact.
 */
module ActivationSafety {
  import opened Common
  import opened ActivationStore
  import opened ActivationProtocol
  import opened ActivationKeys

  /** Nothing about the POST is in doubt: it was definitively rejected, or a later GET saw the channel active. */
  predicate Settled(p: Post) {
    p.rejected || p.seen
  }

  /** A claim that no POST is pending, doubtful or still to come under. */
  ghost predicate Spent(s: State, at: Time) {
    && at !in s.inFlight
    && (forall p :: p in s.posts && p.claim == at ==> Settled(p))
    && (forall id :: id in s.requests && PrePost(s.requests[id].pc) ==> s.requests[id].pc.at != at)
  }

  /** An audit's claim is in force while the audit is open, or is spent. */
  ghost predicate AuditSafe(s: State, audit: Audit) {
    (Open(audit.status) && s.store.claim == Some(audit.startedAt)) || Spent(s, audit.startedAt)
  }

  /** Only the claim in force can have a doubtful POST, or one in flight. */
  ghost predicate PostsSafe(s: State) {
    && (forall p :: p in s.posts && !Settled(p) ==> s.store.claim == Some(p.claim))
    && (forall at :: at in s.inFlight ==> s.store.claim == Some(at) && !s.active)
  }

  /** A request about to post holds the claim in force, over an inactive channel. */
  ghost predicate PrePostSafe(s: State, pc: Pc) {
    PrePost(pc) ==> s.store.claim == Some(pc.at) && !s.active && pc.at !in s.inFlight
  }

  /** An inactive channel seen while reading is inactive still, unless the row has changed or is claimed. */
  ghost predicate ReadingSafe(s: State, pc: Pc) {
    && (pc.ContextRead? || pc.SeenInactive? ==> pc.version <= s.store.version)
    && (pc.SeenInactive? && pc.version == s.store.version && s.store.claim.None? ==> !s.active)
  }

  /** The claims whose fate a request has learned: it may release them, or close their audit. */
  ghost predicate Knows(s: State, pc: Pc, at: Time) {
    || ((pc.Failing? || pc.Unverified?) && pc.definitive && pc.at == at)
    || (pc.Finalizing? && pc.claim == Some(at))
    || (pc.VerifyActive? && pc.claim == Some(at))
    || (pc.VerifyActive? && pc.audit in s.store.audits && s.store.audits[pc.audit].startedAt == at)
  }

  ghost predicate RequestSafe(s: State, pc: Pc) {
    PrePostSafe(s, pc) && ReadingSafe(s, pc) && forall at :: Knows(s, pc, at) ==> Spent(s, at)
  }

  ghost predicate Safe(s: State) {
    && Keyed(s) && PostsSafe(s)
    && (forall key :: key in s.store.audits ==> AuditSafe(s, s.store.audits[key]))
    && (forall id :: id in s.requests ==> RequestSafe(s, s.requests[id].pc))
  }

  /** The claim in force, if any, is spent: clearing it forgets nothing. */
  ghost predicate ClaimSpent(s: State) {
    s.store.claim.Some? ==> Spent(s, s.store.claim.value)
  }

  /** A claim a request knows about was started. */
  lemma KnownIsStarted(s: State, r: Request, at: Time)
    requires RequestKeyed(s, r) && Knows(s, r.pc, at)
    ensures Started(s.store, at)
  {
  }

  lemma SpentStaysByAct(s: State, id: nat, act: Act, at: Time)
    requires id in s.requests && Enabled(s, s.requests[id].pc, act) && Started(s.store, at) && Spent(s, at)
    ensures Spent(Acted(s, id, act), at)
  {
    var r, s' := s.requests[id], Acted(s, id, act);
    ActsAdvancePosts(s, r, act);
    forall p | p in s'.posts && p.claim == at ensures Settled(p) {
      var i :| 0 <= i < |s'.posts| && s'.posts[i] == p;
      assert i < |s.posts| ==> s.posts[i] in s.posts;
    }
    if PrePost(PcAfter(s, r, act)) {
      PrePostAfter(s, r, act);
    }
  }

  /** A spent claim stays spent. */
  lemma SpentStays(s: State, step: Step, at: Time)
    requires Started(s.store, at) && Spent(s, at)
    ensures Spent(Next(s, step), at)
  {
    if step.Acts? && step.id in s.requests && Enabled(s, s.requests[step.id].pc, step.act) {
      SpentStaysByAct(s, step.id, step.act, at);
    }
  }

  /** A GET that sees the channel active leaves no claim with a POST in doubt or to come. */
  lemma ActiveGetSettles(s: State, id: nat, act: Act, at: Time)
    requires Safe(s) && id in s.requests && Enabled(s, s.requests[id].pc, act)
    requires act.Observes? && SeesActive(s, act.identityOk)
    ensures Spent(Acted(s, id, act), at)
  {
    forall other | other in s.requests ensures !PrePost(s.requests[other].pc) {
      assert RequestSafe(s, s.requests[other].pc);
    }
    if PrePost(PcAfter(s, s.requests[id], act)) {
      PrePostAfter(s, s.requests[id], act);
    }
  }

  /** Giving up before the POST leaves nothing in doubt. */
  lemma OwnFailureIsSpent(s: State, id: nat, act: Act)
    requires Safe(s) && id in s.requests && Enabled(s, s.requests[id].pc, act) && PrePost(s.requests[id].pc)
    requires PcAfter(s, s.requests[id], act).Failing?
    ensures Spent(Acted(s, id, act), s.requests[id].pc.at)
  {
    var r, s' := s.requests[id], Acted(s, id, act);
    assert RequestSafe(s, r.pc) && RequestKeyed(s, r);
    forall i | i in s'.requests ensures PrePost(s'.requests[i].pc) ==> s'.requests[i].pc.at != r.pc.at {
      assert i != id ==> Held(s.requests[i].pc) != Held(r.pc);
    }
  }

  /** A definitive rejection settles the POST and takes it out of flight. */
  lemma RejectionIsSpent(s: State, id: nat, act: Act)
    requires Safe(s) && id in s.requests && Enabled(s, s.requests[id].pc, act) && act.Receives? && act.answer.Rejected?
    ensures Spent(Acted(s, id, act), s.requests[id].pc.at)
  {
    var r, s' := s.requests[id], Acted(s, id, act);
    forall i | i in s'.requests ensures PrePost(s'.requests[i].pc) ==> s'.requests[i].pc.at != r.pc.at {
      assert i != id ==> Held(s.requests[i].pc) != Held(r.pc);
    }
    forall p | p in s'.posts && p.claim == r.pc.at ensures Settled(p) {
      var i :| 0 <= i < |s'.posts| && s'.posts[i] == p;
    }
  }

  /** Whatever a request learns by an act is so. */
  lemma LearnsOnlySpent(s: State, id: nat, act: Act, at: Time)
    requires Safe(s) && id in s.requests && Enabled(s, s.requests[id].pc, act)
    requires Knows(Acted(s, id, act), PcAfter(s, s.requests[id], act), at)
    ensures Spent(Acted(s, id, act), at)
  {
    var r := s.requests[id];
    assert RequestSafe(s, r.pc) && RequestKeyed(s, r);
    StoreAdvances(s, r, act);
    match act
    case Observes(identityOk, _, _) =>
      if SeesActive(s, identityOk) {
        ActiveGetSettles(s, id, act, at);
      } else if r.pc.Rechecked? {
        OwnFailureIsSpent(s, id, act);
      } else {
        assert Knows(s, r.pc, at);
        KnownIsStarted(s, r, at);
        SpentStaysByAct(s, id, act, at);
      }
    case Rechecks(_) => OwnFailureIsSpent(s, id, act);
    case Errs(_) => OwnFailureIsSpent(s, id, act);
    case Receives(_) => RejectionIsSpent(s, id, act);
    case _ =>
  }

  /** How a step may change the claim: not at all, by taking it, by releasing a spent one, or by a webhook. */
  ghost predicate ClaimMoves(s: State, s': State) {
    || s'.store.claim == s.store.claim
    || (s.store.claim.Some? && s'.store.claim.None? && s'.store.version > s.store.version &&
        Spent(s, s.store.claim.value))
    || (s.store.claim.None? && s'.store.claim.Some? && !Started(s.store, s'.store.claim.value) &&
        s'.store.version > s.store.version)
  }

  lemma ReleasesOnlySpent(s: State, id: nat, act: Act)
    requires Safe(s) && id in s.requests && Enabled(s, s.requests[id].pc, act)
    ensures ClaimMoves(s, Acted(s, id, act))
  {
    var r := s.requests[id];
    StoreAdvances(s, r, act);
    assert RequestSafe(s, r.pc);
    if act.Marks? && r.pc.Unverified? && r.pc.definitive {
      assert Knows(s, r.pc, r.pc.at);
    } else if act.Finalizes? && r.pc.claim.Some? {
      assert Knows(s, r.pc, r.pc.claim.value);
    }
  }

  lemma ClaimMovesSafely(s: State, step: Step)
    requires Safe(s) && (Clears(step) ==> ClaimSpent(s))
    ensures ClaimMoves(s, Next(s, step))
  {
    if step.Acts? && step.id in s.requests && Enabled(s, s.requests[step.id].pc, step.act) {
      ReleasesOnlySpent(s, step.id, step.act);
    }
  }

  /** What is in flight afterwards was before, or has just been sent by a request that held the claim. */
  lemma InFlightFrom(s: State, step: Step, at: Time)
    requires Safe(s) && at in Next(s, step).inFlight
    ensures s.store.claim == Some(at) && !s.active
    ensures at !in s.inFlight ==>
              step.Acts? && step.act.SendsPost? && step.id in s.requests && s.requests[step.id].pc == ReadyToPost(at)
  {
    if step.Acts? && step.id in s.requests && Enabled(s, s.requests[step.id].pc, step.act) {
      ActsAdvancePosts(s, s.requests[step.id], step.act);
      assert RequestSafe(s, s.requests[step.id].pc);
    }
  }

  /** Only a POST in flight turns the channel active, and it is then the only one there was. */
  lemma ActiveFrom(s: State, step: Step)
    requires Safe(s) && Next(s, step).active && !s.active
    ensures step.ProviderApplies? && s.store.claim == Some(step.claim) && s.inFlight == {step.claim}
    ensures Next(s, step).inFlight == {} && Next(s, step).store == s.store && Next(s, step).requests == s.requests
  {
    assert step.ProviderApplies?;
    assert forall at :: at in s.inFlight ==> s.store.claim == Some(at);
  }

  lemma PostsStaySafe(s: State, step: Step)
    requires Safe(s) && ClaimMoves(s, Next(s, step))
    ensures PostsSafe(Next(s, step))
  {
    var s' := Next(s, step);
    NextAdvances(s, step);
    forall at | at in s'.inFlight ensures s'.store.claim == Some(at) && !s'.active {
      InFlightFrom(s, step, at);
      if s'.active && !s.active {
        ActiveFrom(s, step);
      }
    }
    forall p | p in s'.posts && !Settled(p) ensures s'.store.claim == Some(p.claim) {
      var i :| 0 <= i < |s'.posts| && s'.posts[i] == p;
      if i < |s.posts| {
        assert s.posts[i] in s.posts && !Settled(s.posts[i]);
      } else {
        ActsAdvancePosts(s, s.requests[step.id], step.act);
        assert RequestSafe(s, s.requests[step.id].pc);
      }
    }
  }

  /** An audit is closed only by a request that knows its claim spent. */
  lemma ClosingIsSpent(s: State, step: Step, key: RequestKey)
    requires Safe(s) && key in s.store.audits && key in Next(s, step).store.audits
    requires Open(s.store.audits[key].status) && !Open(Next(s, step).store.audits[key].status)
    ensures Spent(s, s.store.audits[key].startedAt)
  {
    var r := s.requests[step.id];
    assert RequestSafe(s, r.pc) && RequestKeyed(s, r);
    var at := s.store.audits[key].startedAt;
    assert step.act.Marks? || step.act.Finalizes?;
    assert Knows(s, r.pc, at);
  }

  lemma AuditsStaySafe(s: State, step: Step, key: RequestKey)
    requires Safe(s) && ClaimMoves(s, Next(s, step)) && key in Next(s, step).store.audits
    ensures AuditSafe(Next(s, step), Next(s, step).store.audits[key])
  {
    var s' := Next(s, step);
    NextAdvances(s, step);
    if key in s.store.audits {
      var at := s.store.audits[key].startedAt;
      assert Started(s.store, at);
      assert AuditSafe(s, s.store.audits[key]);
      if Spent(s, at) {
        SpentStays(s, step, at);
      } else if !Open(s'.store.audits[key].status) {
        ClosingIsSpent(s, step, key);
      }
    } else {
      StoreAdvances(s, s.requests[step.id], step.act);
    }
  }

  /** A request that does not move. */
  lemma UnmovedStaysSafe(s: State, step: Step, id: nat)
    requires Safe(s) && ClaimMoves(s, Next(s, step)) && id in s.requests
    requires id in Next(s, step).requests && Next(s, step).requests[id] == s.requests[id]
    ensures RequestSafe(Next(s, step), s.requests[id].pc)
  {
    var s', r := Next(s, step), s.requests[id];
    assert RequestSafe(s, r.pc) && RequestKeyed(s, r);
    NextAdvances(s, step);
    if s'.active && !s.active {
      ActiveFrom(s, step);
    }
    forall at | Knows(s', r.pc, at) ensures Spent(s', at) {
      assert Knows(s, r.pc, at);
      KnownIsStarted(s, r, at);
      SpentStays(s, step, at);
    }
    if PrePost(r.pc) && r.pc.at in s'.inFlight {
      InFlightFrom(s, step, r.pc.at);
    }
  }

  lemma MovedStaysSafe(s: State, id: nat, act: Act)
    requires Safe(s) && id in s.requests && Enabled(s, s.requests[id].pc, act)
    ensures RequestSafe(Acted(s, id, act), PcAfter(s, s.requests[id], act))
  {
    var r, s' := s.requests[id], Acted(s, id, act);
    var pc' := PcAfter(s, r, act);
    assert RequestSafe(s, r.pc);
    StoreAdvances(s, r, act);
    forall at | Knows(s', pc', at) ensures Spent(s', at) {
      LearnsOnlySpent(s, id, act, at);
    }
    if PrePost(pc') {
      PrePostAfter(s, r, act);
    }
  }

  lemma NextKeepsSafe(s: State, step: Step)
    requires Safe(s) && (Clears(step) ==> ClaimSpent(s))
    ensures Safe(Next(s, step))
  {
    var s' := Next(s, step);
    NextKeepsKeyed(s, step);
    ClaimMovesSafely(s, step);
    PostsStaySafe(s, step);
    forall key | key in s'.store.audits ensures AuditSafe(s', s'.store.audits[key]) {
      AuditsStaySafe(s, step, key);
    }
    forall id | id in s'.requests ensures RequestSafe(s', s'.requests[id].pc) {
      if id in s.requests && s'.requests[id] == s.requests[id] {
        UnmovedStaysSafe(s, step, id);
      } else if id in s.requests {
        MovedStaysSafe(s, id, step.act);
      }
    }
  }

  /** While no activation is requested, no POST is in doubt, in flight or still to come. */
  ghost predicate Quiet(s: State) {
    s.store.claim.None? ==>
      && s.inFlight == {}
      && (forall p :: p in s.posts ==> Settled(p))
      && (forall id :: id in s.requests ==> !PrePost(s.requests[id].pc))
  }

  lemma SafeIsQuiet(s: State)
    requires Safe(s)
    ensures Quiet(s)
  {
    forall id | id in s.requests ensures PrePostSafe(s, s.requests[id].pc) {
      assert RequestSafe(s, s.requests[id].pc);
    }
    if s.store.claim.None? {
      assert forall at :: at in s.inFlight ==> s.store.claim == Some(at);
    }
  }

  /** A webhook keeps the invariant exactly when the claim it clears is spent. */
  lemma ClearingIsSafeExactlyWhen(s: State, step: Step)
    requires Safe(s) && Clears(step)
    ensures Safe(Next(s, step)) <==> ClaimSpent(s)
    ensures Quiet(Next(s, step)) <==> ClaimSpent(s)
  {
    var s' := Next(s, step);
    if ClaimSpent(s) {
      NextKeepsSafe(s, step);
      SafeIsQuiet(s');
    } else {
      var at := s.store.claim.value;
      if at in s.inFlight {
        assert at in s'.inFlight;
      } else if id :| id in s.requests && PrePost(s.requests[id].pc) && s.requests[id].pc.at == at {
        assert !PrePostSafe(s', s'.requests[id].pc);
      }
    }
  }

  ghost predicate AlwaysQuiet(s: State, steps: seq<Step>)
    decreases |steps|
  {
    Quiet(s) && (steps != [] ==> AlwaysQuiet(Next(s, steps[0]), steps[1..]))
  }

  /** Every webhook that clears the claim finds it spent, or finds none. */
  ghost predicate ClearedWhenSpent(s: State, steps: seq<Step>)
    decreases |steps|
  {
    steps != [] ==> (Clears(steps[0]) ==> ClaimSpent(s)) && ClearedWhenSpent(Next(s, steps[0]), steps[1..])
  }

  /**
   * Activation safety, exactly. Over a whole run, nothing is ever in doubt while no activation is requested if and
   * only if no webhook clears a claim that is not spent.
   */
  lemma {:induction false} QuietExactlyWhen(s: State, steps: seq<Step>)
    requires Safe(s)
    ensures AlwaysQuiet(s, steps) <==> ClearedWhenSpent(s, steps)
    decreases |steps|
  {
    SafeIsQuiet(s);
    if steps == [] {
    } else if Clears(steps[0]) && !ClaimSpent(s) {
      ClearingIsSafeExactlyWhen(s, steps[0]);
    } else {
      NextKeepsSafe(s, steps[0]);
      QuietExactlyWhen(Next(s, steps[0]), steps[1..]);
    }
  }

  lemma {:induction false} RunKeepsSafe(s: State, steps: seq<Step>)
    requires Safe(s) && ClearedWhenSpent(s, steps)
    ensures Safe(RunSteps(s, steps))
    decreases |steps|
  {
    if steps == [] {
    } else {
      NextKeepsSafe(s, steps[0]);
      RunKeepsSafe(Next(s, steps[0]), steps[1..]);
    }
  }

  lemma RunsAreGood(steps: seq<Step>)
    requires ClearedWhenSpent(INITIAL, steps)
    ensures Safe(RunSteps(INITIAL, steps))
  {
    RunKeepsSafe(INITIAL, steps);
  }

  /**
   * What a request that is about to post, and anybody who finds no claim, can rely on: each earlier POST was either
   * definitively rejected or followed by a GET that saw the exact channel active, and none can still take effect. So
   * an uncertain POST is never followed blindly.
   */
  lemma PostsAreSettled(steps: seq<Step>, p: Post, id: nat)
    requires ClearedWhenSpent(INITIAL, steps) && p in RunSteps(INITIAL, steps).posts
    ensures var s := RunSteps(INITIAL, steps);
            && (s.store.claim.None? ==> Settled(p) && s.inFlight == {})
            && (id in s.requests && s.requests[id].pc.ReadyToPost? ==> Settled(p) && s.inFlight == {} && !s.active)
  {
    RunsAreGood(steps);
    var s := RunSteps(INITIAL, steps);
    SafeIsQuiet(s);
    if id in s.requests && s.requests[id].pc.ReadyToPost? {
      assert RequestSafe(s, s.requests[id].pc) && RequestKeyed(s, s.requests[id]);
      assert forall at :: at in s.inFlight ==> s.store.claim == Some(at);
    }
  }

  /** A closed audit is truthful: no POST of its request is in doubt, in flight or still to be made. */
  lemma ClosedAuditIsSpent(steps: seq<Step>, k: RequestKey)
    requires ClearedWhenSpent(INITIAL, steps)
    requires k in RunSteps(INITIAL, steps).store.audits && !IsOpen(RunSteps(INITIAL, steps).store, k)
    ensures Spent(RunSteps(INITIAL, steps), RunSteps(INITIAL, steps).store.audits[k].startedAt)
  {
    RunsAreGood(steps);
    assert AuditSafe(RunSteps(INITIAL, steps), RunSteps(INITIAL, steps).store.audits[k]);
  }
}
