/**
 * What holds in every run whatsoever, whoever clears the claim: a request key is claimed once and posted once. Built
 * from what a single act can do to audits, posts and program counters.
 */
module ActivationKeys {
  import opened Common
  import opened ActivationStore
  import opened ActivationProtocol

  /** The claim a request holds as its own. */
  function Held(pc: Pc): Option<Time> {
    match pc
    case Claimed(at) => Some(at)
    case Rechecked(at) => Some(at)
    case ReadyToPost(at) => Some(at)
    case Posting(at) => Some(at)
    case Failing(at, _) => Some(at)
    case Unverified(at, _) => Some(at)
    case Confirming(claim) => claim
    case Finalizing(claim) => claim
    case _ => None
  }

  /** The request holds a claim and has not posted yet. */
  predicate PrePost(pc: Pc) {
    pc.Claimed? || pc.Rechecked? || pc.ReadyToPost?
  }

  ghost predicate Started(store: Store, at: Time) {
    exists key :: key in store.audits && store.audits[key].startedAt == at
  }

  /** The claims and audits a request refers to exist, and a request that is to post has not posted. */
  ghost predicate RequestKeyed(s: State, r: Request) {
    && (Held(r.pc).Some? ==> r.key in s.store.audits && s.store.audits[r.key].startedAt == Held(r.pc).value)
    && (PrePost(r.pc) ==> forall p :: p in s.posts ==> p.claim != r.pc.at)
    && ((r.pc.VerifyRead? || r.pc.VerifyListed? || r.pc.VerifyActive?) && r.pc.claim.Some? ==>
        Started(s.store, r.pc.claim.value))
    && (r.pc.VerifyListed? || r.pc.VerifyInactive? || r.pc.VerifyActive? ==> r.pc.audit in s.store.audits)
  }

  ghost predicate AuditsKeyed(store: Store) {
    && (store.claim.Some? ==> Started(store, store.claim.value))
    && forall k, l ::
         k in store.audits && l in store.audits && store.audits[k].startedAt == store.audits[l].startedAt ==> k == l
  }

  ghost predicate PostKeyed(s: State, p: Post) {
    p.key in s.store.audits && s.store.audits[p.key].startedAt == p.claim
  }

  ghost predicate PostsKeyed(s: State) {
    && (forall i :: 0 <= i < |s.posts| ==> PostKeyed(s, s.posts[i]))
    && (forall i, j :: 0 <= i < j < |s.posts| ==> s.posts[i].claim != s.posts[j].claim)
  }

  ghost predicate HoldersDistinct(s: State) {
    forall i, j :: i in s.requests && j in s.requests && i != j && Held(s.requests[i].pc).Some? ==>
      Held(s.requests[i].pc) != Held(s.requests[j].pc)
  }

  ghost predicate Keyed(s: State) {
    && AuditsKeyed(s.store) && PostsKeyed(s) && HoldersDistinct(s)
    && forall id :: id in s.requests ==> RequestKeyed(s, s.requests[id])
  }

  /** An act that takes the claim: for a new key, at an unused time, over a row unchanged since it was read. */
  predicate Takes(s: State, r: Request, act: Act)
    requires Enabled(s, r.pc, act)
  {
    act.Claims? && ClaimSucceeds(s.store, r.key, r.pc.version, act.contextOk)
  }

  /** A request comes to hold a claim only by taking it. */
  lemma HeldAfter(s: State, r: Request, act: Act)
    requires Enabled(s, r.pc, act) && Held(PcAfter(s, r, act)).Some?
    ensures Held(PcAfter(s, r, act)) == Held(r.pc) || (Takes(s, r, act) && PcAfter(s, r, act) == Claimed(r.pc.now))
  {
  }

  lemma PrePostAfter(s: State, r: Request, act: Act)
    requires Enabled(s, r.pc, act) && PrePost(PcAfter(s, r, act))
    ensures (PrePost(r.pc) && r.pc.at == PcAfter(s, r, act).at) ||
            (Takes(s, r, act) && PcAfter(s, r, act) == Claimed(r.pc.now))
    ensures PostsAfter(s, r, act) == s.posts && InFlightAfter(s, r, act) == s.inFlight
  {
  }

  /** The audits are kept with their start, and only a claim adds one. */
  ghost predicate AuditsAdvance(before: Store, after: Store) {
    && before.version <= after.version
    && forall k :: k in before.audits ==>
         && k in after.audits && after.audits[k].startedAt == before.audits[k].startedAt
         && (Open(after.audits[k].status) ==> Open(before.audits[k].status))
  }

  lemma StoreAdvances(s: State, r: Request, act: Act)
    requires Enabled(s, r.pc, act)
    ensures AuditsAdvance(s.store, StoreAfter(s, r, act))
    ensures if Takes(s, r, act) then
              s.store.claim.None? && r.key !in s.store.audits && r.pc.version == s.store.version &&
              StoreAfter(s, r, act) == s.store.(claim := Some(r.pc.now), version := s.store.version + 1,
                                                audits := s.store.audits[r.key := Audit(Pending, r.pc.now)])
            else
              StoreAfter(s, r, act).audits.Keys == s.store.audits.Keys &&
              (StoreAfter(s, r, act).claim == s.store.claim ||
               (StoreAfter(s, r, act).claim.None? && StoreAfter(s, r, act).version > s.store.version))
  {
  }

  /** Posts are never forgotten; one can only become rejected, or seen. */
  ghost predicate PostsAdvance(before: seq<Post>, after: seq<Post>) {
    && |before| <= |after|
    && forall i :: 0 <= i < |before| ==>
         && after[i].claim == before[i].claim && after[i].key == before[i].key
         && (before[i].rejected ==> after[i].rejected) && (before[i].seen ==> after[i].seen)
  }

  lemma ActsAdvancePosts(s: State, r: Request, act: Act)
    requires Enabled(s, r.pc, act)
    ensures PostsAdvance(s.posts, PostsAfter(s, r, act))
    ensures if act.SendsPost? then PostsAfter(s, r, act) == s.posts + [Post(r.pc.at, r.key, false, false)] &&
            r.pc.ReadyToPost?
            else |PostsAfter(s, r, act)| == |s.posts|
    ensures forall at :: at in InFlightAfter(s, r, act) ==> at in s.inFlight || (act.SendsPost? && at == r.pc.at)
  {
  }

  /** What any step leaves of audits and posts. */
  lemma NextAdvances(s: State, step: Step)
    ensures AuditsAdvance(s.store, Next(s, step).store) && PostsAdvance(s.posts, Next(s, step).posts)
  {
    if step.Acts? && step.id in s.requests && Enabled(s, s.requests[step.id].pc, step.act) {
      StoreAdvances(s, s.requests[step.id], step.act);
      ActsAdvancePosts(s, s.requests[step.id], step.act);
    }
  }

  lemma StartedStays(before: Store, after: Store, at: Time)
    requires AuditsAdvance(before, after) && Started(before, at)
    ensures Started(after, at)
  {
    var key :| key in before.audits && before.audits[key].startedAt == at;
    assert key in after.audits;
  }

  /** A request that does not move. */
  lemma UnmovedStaysKeyed(s: State, s': State, r: Request)
    requires RequestKeyed(s, r) && AuditsAdvance(s.store, s'.store)
    requires PrePost(r.pc) ==> forall p :: p in s'.posts ==> p.claim != r.pc.at
    ensures RequestKeyed(s', r)
  {
    if (r.pc.VerifyRead? || r.pc.VerifyListed? || r.pc.VerifyActive?) && r.pc.claim.Some? {
      StartedStays(s.store, s'.store, r.pc.claim.value);
    }
  }

  lemma MovedHolds(s: State, r: Request, act: Act)
    requires Enabled(s, r.pc, act) && RequestKeyed(s, r)
    ensures var r', audits := r.(pc := PcAfter(s, r, act)), StoreAfter(s, r, act).audits;
            Held(r'.pc).Some? ==> r.key in audits && audits[r.key].startedAt == Held(r'.pc).value
  {
    if Held(PcAfter(s, r, act)).Some? {
      HeldAfter(s, r, act);
      StoreAdvances(s, r, act);
    }
  }

  lemma MovedReads(s: State, r: Request, act: Act)
    requires Enabled(s, r.pc, act) && RequestKeyed(s, r) && AuditsKeyed(s.store)
    ensures var pc' := PcAfter(s, r, act);
            && ((pc'.VerifyRead? || pc'.VerifyListed? || pc'.VerifyActive?) && pc'.claim.Some? ==>
                Started(s.store, pc'.claim.value))
            && (pc'.VerifyListed? || pc'.VerifyInactive? || pc'.VerifyActive? ==> pc'.audit in s.store.audits)
  {
    if act.ListsAudits? && OpenKeys(s.store) == {act.audit} {
      assert act.audit in OpenKeys(s.store);
    }
  }

  lemma MovedStaysKeyed(s: State, id: nat, act: Act)
    requires Keyed(s) && id in s.requests && Enabled(s, s.requests[id].pc, act)
    ensures RequestKeyed(Acted(s, id, act), Acted(s, id, act).requests[id])
  {
    var r, s' := s.requests[id], Acted(s, id, act);
    var pc' := PcAfter(s, r, act);
    MovedHolds(s, r, act);
    MovedReads(s, r, act);
    StoreAdvances(s, r, act);
    if (pc'.VerifyRead? || pc'.VerifyListed? || pc'.VerifyActive?) && pc'.claim.Some? {
      StartedStays(s.store, s'.store, pc'.claim.value);
    }
    if PrePost(pc') {
      PrePostAfter(s, r, act);
      forall p | p in s.posts ensures p.claim != pc'.at {
        var i :| 0 <= i < |s.posts| && s.posts[i] == p;
        assert PostKeyed(s, s.posts[i]);
      }
    }
  }

  /** Another request's POST is made under another claim. */
  lemma OthersStayKeyed(s: State, id: nat, act: Act, other: nat)
    requires Keyed(s) && id in s.requests && Enabled(s, s.requests[id].pc, act) && other in s.requests && other != id
    ensures RequestKeyed(Acted(s, id, act), s.requests[other])
  {
    var r, o := s.requests[id], s.requests[other];
    StoreAdvances(s, r, act);
    ActsAdvancePosts(s, r, act);
    if PrePost(o.pc) {
      assert act.SendsPost? ==> Held(r.pc) != Held(o.pc);
      forall p | p in PostsAfter(s, r, act) ensures p.claim != o.pc.at {
        var i :| 0 <= i < |PostsAfter(s, r, act)| && PostsAfter(s, r, act)[i] == p;
        assert i < |s.posts| ==> s.posts[i] in s.posts;
      }
    }
    UnmovedStaysKeyed(s, Acted(s, id, act), o);
  }

  lemma HoldersStayDistinct(s: State, id: nat, act: Act)
    requires Keyed(s) && id in s.requests && Enabled(s, s.requests[id].pc, act)
    ensures HoldersDistinct(Acted(s, id, act))
  {
    var r, s' := s.requests[id], Acted(s, id, act);
    if Held(PcAfter(s, r, act)).Some? {
      HeldAfter(s, r, act);
      forall other | other in s.requests && other != id ensures Held(s.requests[other].pc) != Held(PcAfter(s, r, act)) {
        assert RequestKeyed(s, s.requests[other]);
      }
    }
  }

  lemma PostsStayKeyed(s: State, id: nat, act: Act)
    requires Keyed(s) && id in s.requests && Enabled(s, s.requests[id].pc, act)
    ensures PostsKeyed(Acted(s, id, act))
  {
    var r, s' := s.requests[id], Acted(s, id, act);
    StoreAdvances(s, r, act);
    ActsAdvancePosts(s, r, act);
    assert RequestKeyed(s, r);
    forall i | 0 <= i < |s'.posts| ensures PostKeyed(s', s'.posts[i]) {
      assert i < |s.posts| ==> PostKeyed(s, s.posts[i]);
    }
    assert forall i :: 0 <= i < |s.posts| ==> s.posts[i] in s.posts;
  }

  lemma AuditsStayKeyed(s: State, r: Request, act: Act)
    requires AuditsKeyed(s.store) && Enabled(s, r.pc, act)
    ensures AuditsKeyed(StoreAfter(s, r, act))
  {
    var after := StoreAfter(s, r, act);
    StoreAdvances(s, r, act);
    if Takes(s, r, act) {
      assert after.audits[r.key].startedAt == r.pc.now;
    } else if after.claim.Some? {
      StartedStays(s.store, after, after.claim.value);
    }
  }

  lemma ActsKeepKeyed(s: State, id: nat, act: Act)
    requires Keyed(s) && id in s.requests && Enabled(s, s.requests[id].pc, act)
    ensures Keyed(Acted(s, id, act))
  {
    var s' := Acted(s, id, act);
    AuditsStayKeyed(s, s.requests[id], act);
    PostsStayKeyed(s, id, act);
    HoldersStayDistinct(s, id, act);
    forall other | other in s'.requests ensures RequestKeyed(s', s'.requests[other]) {
      if other == id {
        MovedStaysKeyed(s, id, act);
      } else {
        OthersStayKeyed(s, id, act, other);
      }
    }
  }

  /** Steps of the provider and of webhooks leave requests, audits and posts alone. */
  lemma ForeignStepsKeepKeyed(s: State, s': State)
    requires Keyed(s) && s'.requests == s.requests && s'.posts == s.posts && s'.store.audits == s.store.audits
    requires AuditsAdvance(s.store, s'.store) && (s'.store.claim == s.store.claim || s'.store.claim.None?)
    ensures Keyed(s')
  {
    if s'.store.claim.Some? {
      StartedStays(s.store, s'.store, s'.store.claim.value);
    }
    forall i | 0 <= i < |s'.posts| ensures PostKeyed(s', s'.posts[i]) {
      assert PostKeyed(s, s.posts[i]);
    }
    forall id | id in s'.requests ensures RequestKeyed(s', s'.requests[id]) {
      UnmovedStaysKeyed(s, s', s.requests[id]);
    }
  }

  lemma ArrivalsKeepKeyed(s: State, step: Step)
    requires Keyed(s) && (step.ActivationArrives? || step.VerificationArrives?)
    ensures Keyed(Next(s, step))
  {
    var s' := Next(s, step);
    forall i | 0 <= i < |s'.posts| ensures PostKeyed(s', s'.posts[i]) {
      assert PostKeyed(s, s.posts[i]);
    }
    forall id | id in s'.requests ensures RequestKeyed(s', s'.requests[id]) {
      assert id in s.requests ==> RequestKeyed(s, s.requests[id]);
    }
  }

  lemma NextKeepsKeyed(s: State, step: Step)
    requires Keyed(s)
    ensures Keyed(Next(s, step))
  {
    if step.Acts? {
      if step.id in s.requests && Enabled(s, s.requests[step.id].pc, step.act) {
        ActsKeepKeyed(s, step.id, step.act);
      }
    } else if step.ActivationArrives? || step.VerificationArrives? {
      ArrivalsKeepKeyed(s, step);
    } else {
      ForeignStepsKeepKeyed(s, Next(s, step));
    }
  }

  lemma {:induction false} RunKeepsKeyed(s: State, steps: seq<Step>)
    requires Keyed(s)
    ensures Keyed(RunSteps(s, steps))
    decreases |steps|
  {
    if steps == [] {
    } else {
      NextKeepsKeyed(s, steps[0]);
      RunKeepsKeyed(Next(s, steps[0]), steps[1..]);
    }
  }

  /** One request key never yields two POSTs, in any run. */
  lemma OnePostPerRequestKey(steps: seq<Step>, i: nat, j: nat)
    requires i < j < |RunSteps(INITIAL, steps).posts|
    ensures RunSteps(INITIAL, steps).posts[i].key != RunSteps(INITIAL, steps).posts[j].key
  {
    RunKeepsKeyed(INITIAL, steps);
    var s := RunSteps(INITIAL, steps);
    assert PostKeyed(s, s.posts[i]) && PostKeyed(s, s.posts[j]);
  }

  /** One request key never yields two claims: once claimed, every later claim under it is refused, in any run. */
  lemma {:induction false} OneClaimPerRequestKey(s: State, steps: seq<Step>, key: RequestKey, seen: nat,
                                                 contextOk: bool)
    requires key in s.store.audits
    ensures key in RunSteps(s, steps).store.audits && !ClaimSucceeds(RunSteps(s, steps).store, key, seen, contextOk)
    decreases |steps|
  {
    if steps == [] {
    } else {
      NextAdvances(s, steps[0]);
      OneClaimPerRequestKey(Next(s, steps[0]), steps[1..], key, seen, contextOk);
    }
  }

  /** Two requests never hold claims under one key, nor one claim. */
  lemma HoldersHaveOwnKeys(steps: seq<Step>, i: nat, j: nat)
    requires var s := RunSteps(INITIAL, steps);
             i in s.requests && j in s.requests && i != j && Held(s.requests[i].pc).Some? &&
               Held(s.requests[j].pc).Some?
    ensures var s := RunSteps(INITIAL, steps); s.requests[i].key != s.requests[j].key
  {
    RunKeepsKeyed(INITIAL, steps);
    var s := RunSteps(INITIAL, steps);
    assert RequestKeyed(s, s.requests[i]) && RequestKeyed(s, s.requests[j]);
  }
}
