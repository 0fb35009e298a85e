/**
 * Host activations and verifications racing on one connection, with crashes, lost responses, lifecycle webhooks on the
 * same row, and a provider that may apply an uncertain POST late and may deactivate the channel at any time. The
 * channel turns active only through these POSTs, a definitively rejected POST has no effect, and claim timestamps are
 * distinct.
 */
module ActivationProtocol {
  import opened Common
  import opened ChannelLifecycle
  import opened ActivationStore

  datatype Answer = Accepted | Rejected | Uncertain

  /** Where a request stands. A claim time in a state is the request's own durable claim. */
  datatype Pc =
    | Fresh
    | ContextRead(version: nat)
    | SeenInactive(version: nat, now: Time)
    | Claimed(at: Time)
    | Rechecked(at: Time)
    | ReadyToPost(at: Time)
    | Posting(at: Time)
    | Failing(at: Time, definitive: bool)
    | Unverified(at: Time, definitive: bool)
    | Confirming(claim: Option<Time>)
    | Finalizing(claim: Option<Time>)
    | VerifyFresh
    | VerifyRead(claim: Option<Time>)
    | VerifyListed(claim: Option<Time>, audit: RequestKey)
    | VerifyInactive(audit: RequestKey)
    | VerifyActive(claim: Option<Time>, audit: RequestKey)
    | Done

  datatype Request = Request(key: RequestKey, pc: Pc)

  /** One POST under a claim: whether it was definitively rejected, and whether a later GET saw the channel active. */
  datatype Post = Post(claim: Time, key: RequestKey, rejected: bool, seen: bool)

  /** `inFlight` holds the claims whose POST the provider may still apply. */
  datatype State = State(store: Store, requests: map<nat, Request>, active: bool, inFlight: set<Time>, posts: seq<Post>)

  /** What one request does next, with the answers it gets. */
  datatype Act =
    | ReadsContext
    | Observes(identityOk: bool, ready: bool, now: Time)
    | Claims(contextOk: bool)
    | Rechecks(contextOk: bool)
    | Errs(definitive: bool)
    | SendsPost
    | Receives(answer: Answer)
    | Marks
    | Finalizes(contextOk: bool)
    | ListsAudits(audit: RequestKey)
    | Crashes

  datatype Step =
    | ActivationArrives(id: nat, key: RequestKey)
    | VerificationArrives(id: nat)
    | Acts(id: nat, act: Act)
    | ProviderApplies(claim: Time)
    | ProviderDeactivates
    | LifecycleEvent(event: EventType)
    | RowTouched

  const INITIAL := State(Store(None, 0, map[], {}), map[], false, {}, [])

  function MarkSeen(posts: seq<Post>): (r: seq<Post>)
    ensures |r| == |posts|
    ensures forall i :: 0 <= i < |posts| ==> r[i] == posts[i].(seen := true)
  {
    seq(|posts|, i requires 0 <= i < |posts| => posts[i].(seen := true))
  }

  function MarkRejected(posts: seq<Post>, claim: Time): (r: seq<Post>)
    ensures |r| == |posts|
    ensures forall i :: 0 <= i < |posts| ==> r[i] == posts[i].(rejected := posts[i].rejected || posts[i].claim == claim)
  {
    seq(|posts|, i requires 0 <= i < |posts| => posts[i].(rejected := posts[i].rejected || posts[i].claim == claim))
  }

  predicate Unused(store: Store, at: Time) {
    forall key :: key in store.audits ==> store.audits[key].startedAt != at
  }

  /** A GET that sees the exact channel active; every POST so far has then been followed by such a GET. */
  predicate SeesActive(s: State, identityOk: bool) {
    identityOk && s.active
  }

  predicate Gets(pc: Pc) {
    pc.ContextRead? || pc.Rechecked? || pc.Failing? || pc.Confirming? || pc.VerifyListed?
  }

  /** Which acts a request is ready for. */
  predicate Enabled(s: State, pc: Pc, act: Act) {
    match act
    case ReadsContext => pc.Fresh? || pc.VerifyFresh?
    case Observes(_, _, _) => Gets(pc)
    case Claims(_) => pc.SeenInactive? && Unused(s.store, pc.now)
    case Rechecks(_) => pc.Claimed?
    case Errs(_) => pc.Claimed? || pc.Rechecked?
    case SendsPost => pc.ReadyToPost?
    case Receives(answer) => pc.Posting? && (answer.Rejected? ==> pc.at in s.inFlight)
    case Marks => pc.Unverified? || pc.VerifyInactive?
    case Finalizes(_) => pc.Finalizing? || pc.VerifyActive?
    case ListsAudits(audit) => pc.VerifyRead? && (OpenKeys(s.store) == {audit} || |OpenKeys(s.store)| != 1)
    case Crashes => true
  }

  /** Where a GET leads; every place it is made from treats "active", "inactive" and "conflict" in its own way. */
  function PcAfterGet(s: State, pc: Pc, identityOk: bool, ready: bool, now: Time): Pc {
    match pc
    case ContextRead(version) =>
      if !identityOk then Done
      else if s.active then Confirming(None)
      else if ready then SeenInactive(version, now)
      else Done
    case Rechecked(at) =>
      if !identityOk then Failing(at, true) else if s.active then Confirming(Some(at)) else ReadyToPost(at)
    case Failing(at, definitive) =>
      if SeesActive(s, identityOk) then Confirming(Some(at)) else Unverified(at, definitive)
    case Confirming(claim) =>
      if SeesActive(s, identityOk) then Finalizing(claim)
      else if claim.Some? then Unverified(claim.value, false)
      else Done
    case VerifyListed(claim, audit) =>
      if !identityOk then Done else if s.active then VerifyActive(claim, audit) else VerifyInactive(audit)
    case _ => pc
  }

  function PcAfter(s: State, r: Request, act: Act): Pc
    requires Enabled(s, r.pc, act)
  {
    match act
    case ReadsContext =>
      if r.pc.VerifyFresh? then VerifyRead(s.store.claim)
      else if s.store.claim.None? then ContextRead(s.store.version)
      else Done
    case Observes(identityOk, ready, now) => PcAfterGet(s, r.pc, identityOk, ready, now)
    case Claims(ok) => if ClaimSucceeds(s.store, r.key, r.pc.version, ok) then Claimed(r.pc.now) else Done
    case Rechecks(ok) => if ok && s.store.claim == Some(r.pc.at) then Rechecked(r.pc.at) else Failing(r.pc.at, true)
    case Errs(definitive) => Failing(r.pc.at, definitive)
    case SendsPost => Posting(r.pc.at)
    case Receives(answer) => if answer.Accepted? then Confirming(Some(r.pc.at)) else Failing(r.pc.at, answer.Rejected?)
    case Marks => Done
    case Finalizes(ok) =>
      if r.pc.Finalizing? && r.pc.claim.Some? && !FinalizeSucceeds(s.store, r.pc.claim, ok) then
        Unverified(r.pc.claim.value, false)
      else Done
    case ListsAudits(audit) => if OpenKeys(s.store) == {audit} then VerifyListed(r.pc.claim, audit) else Done
    case Crashes => Done
  }

  function StoreAfter(s: State, r: Request, act: Act): Store
    requires Enabled(s, r.pc, act)
  {
    match act
    case Claims(ok) => Claim(s.store, r.key, r.pc.version, r.pc.now, ok)
    case Marks =>
      if r.pc.Unverified? then MarkUnverified(s.store, r.key, r.pc.at, r.pc.definitive)
      else s.store.(audits := Close(s.store.audits, r.pc.audit, Unknown))
    case Finalizes(ok) =>
      if r.pc.VerifyActive? then Finalize(s.store, Some(r.pc.audit), r.pc.audit, r.pc.claim, ok)
      else Finalize(s.store, if r.pc.claim.Some? then Some(r.key) else None, r.key, r.pc.claim, ok)
    case _ => s.store
  }

  function PostsAfter(s: State, r: Request, act: Act): seq<Post>
    requires Enabled(s, r.pc, act)
  {
    match act
    case Observes(identityOk, _, _) => if SeesActive(s, identityOk) then MarkSeen(s.posts) else s.posts
    case SendsPost => s.posts + [Post(r.pc.at, r.key, false, false)]
    case Receives(answer) => if answer.Rejected? then MarkRejected(s.posts, r.pc.at) else s.posts
    case _ => s.posts
  }

  function InFlightAfter(s: State, r: Request, act: Act): set<Time>
    requires Enabled(s, r.pc, act)
  {
    match act
    case SendsPost => s.inFlight + {r.pc.at}
    case Receives(answer) => if answer.Rejected? then s.inFlight - {r.pc.at} else s.inFlight
    case _ => s.inFlight
  }

  function Acted(s: State, id: nat, act: Act): State
    requires id in s.requests && Enabled(s, s.requests[id].pc, act)
  {
    var r := s.requests[id];
    State(StoreAfter(s, r, act), s.requests[id := r.(pc := PcAfter(s, r, act))], s.active, InFlightAfter(s, r, act),
          PostsAfter(s, r, act))
  }

  function Next(s: State, step: Step): State {
    match step
    case ActivationArrives(id, key) =>
      if id in s.requests then s else s.(requests := s.requests[id := Request(key, Fresh)])
    case VerificationArrives(id) =>
      if id in s.requests then s else s.(requests := s.requests[id := Request("", VerifyFresh)])
    case Acts(id, act) => if id in s.requests && Enabled(s, s.requests[id].pc, act) then Acted(s, id, act) else s
    case ProviderApplies(claim) =>
      if claim in s.inFlight then s.(active := true, inFlight := s.inFlight - {claim}) else s
    case ProviderDeactivates => s.(active := false)
    case LifecycleEvent(event) => s.(store := AfterEvent(s.store, event))
    case RowTouched => s.(store := s.store.(version := s.store.version + 1))
  }

  function RunSteps(s: State, steps: seq<Step>): State
    decreases |steps|
  {
    if steps == [] then s else RunSteps(Next(s, steps[0]), steps[1..])
  }

  /** A webhook that clears the claim. */
  predicate Clears(step: Step) {
    step.LifecycleEvent? && Invalidates(step.event)
  }
}
