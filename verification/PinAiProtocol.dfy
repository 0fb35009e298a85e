/**
 * Any number of automatic workers, hosts and webhooks racing on the conversation tables.
 * `Next` performs one atomic step; a step that is not enabled leaves the state alone, so every list of steps is a
 * run, every interleaving is a list, and a worker that is never scheduled again has crashed.
 */
module PinAiProtocol {
  import opened Common
  import opened AutoRepository
  import opened HostInbox
  import opened AutoResponder

  const AUTOMATIC_SENDER := "pin-ai-channex"

  datatype Draft = Draft(before: History, text: string, basedOn: nat)

  /** Where a worker stands between two of its awaits. */
  datatype Pc =
    | Start
    | Checking(history: History, draft: Option<Draft>)
    | Seen(seen: History, pending: Option<Draft>, enabled: bool, row: Option<ThreadRow>)
    | Drafting(before: History)
    | Drafted(ready: Draft)
    | Ready(text: string)
    | Sending(call: Call)
    | Closing(outcome: Status)
    | Stopped

  /** A claimed job and its worker; `fenced`, `finished` and `answered` record what the run has done. */
  datatype Run = Run(job: Job, pc: Pc, fenced: bool, finished: bool, answered: Option<Time>)

  datatype Post = Post(key: ReceiptKey, caller: CallId, at: Time)

  datatype State = State(now: Time, db: Tables, receipts: Receipts, runs: map<Token, Run>, hosts: map<nat, Call>,
                         posts: seq<Post>)

  datatype Step =
    | Tick(elapsed: nat)
    | MessageArrives(key: InboundKey)
    | HostControls(thread: ThreadKey, mode: Mode, since: Time)
    | WorkerClaims(inbound: InboundKey, candidate: Status, since: Time, token: Token)
    | HistoryRead(token: Token, history: History)
    | StateRead(token: Token, enabled: bool)
    | CheckDecides(token: Token, own: set<nat>)
    | DraftReturned(token: Token, text: string, basedOn: nat)
    | WorkerFails(token: Token, reason: Reason)
    | WorkerFences(token: Token)
    | SendReturns(token: Token)
    | WorkerFinishes(token: Token)
    | WorkerCrashes(token: Token)
    | HostReplies(id: nat, takenOver: bool, to: ThreadKey, since: Time, requestKey: RequestKey, text: string,
                  user: string)
    | CallRejected(call: CallId)
    | CallReserves(call: CallId)
    | CallPosts(call: CallId)
    | CallSettles(call: CallId, reply: Option<nat>)

  const INITIAL := State(0, Tables(map[], map[]), map[], map[], map[], [])

  function AutoReceiptKey(key: InboundKey): ReceiptKey {
    ReceiptKey(key.thread.organizationId, Derived(key))
  }

  function AutoCall(job: Job, text: string): Call {
    Call(AutoReceiptKey(job.key),
         Fingerprint(job.key.thread.propertyId, job.key.thread.threadId, text, AUTOMATIC_SENDER), Preflight)
  }

  function SetPc(s: State, t: Token, pc: Pc): State
    requires t in s.runs
  {
    s.(runs := s.runs[t := s.runs[t].(pc := pc)])
  }

  predicate HasCall(s: State, id: CallId) {
    match id
    case Worker(t) => t in s.runs && s.runs[t].pc.Sending?
    case Host(h) => h in s.hosts
  }

  function CallOf(s: State, id: CallId): Call
    requires HasCall(s, id)
  {
    match id
    case Worker(t) => s.runs[t].pc.call
    case Host(h) => s.hosts[h]
  }

  /** Steps of one worker that touch no table. */
  predicate Reads(step: Step) {
    step.HistoryRead? || step.StateRead? || step.CheckDecides? || step.DraftReturned? || step.WorkerFails? ||
    step.WorkerCrashes? || step.SendReturns?
  }

  /** Steps inside `reply`. */
  predicate Calls(step: Step) {
    step.CallRejected? || step.CallReserves? || step.CallPosts? || step.CallSettles?
  }

  /** The worker whose own step it is; a claim makes a new one. */
  function WorkerOf(step: Step): Option<Token> {
    match step
    case HistoryRead(t, _) => Some(t)
    case StateRead(t, _) => Some(t)
    case CheckDecides(t, _) => Some(t)
    case DraftReturned(t, _, _) => Some(t)
    case WorkerFails(t, _) => Some(t)
    case WorkerFences(t) => Some(t)
    case SendReturns(t) => Some(t)
    case WorkerFinishes(t) => Some(t)
    case WorkerCrashes(t) => Some(t)
    case _ => if Calls(step) && step.call.Worker? then Some(step.call.token) else None
  }

  /** A step inside `reply`, of the call that makes it. */
  function CallAfter(s: State, call: Call, step: Step): Call
    requires Calls(step)
  {
    match step
    case CallRejected(_) => if call.pc.Preflight? then call.(pc := Threw(Rejected)) else call
    case CallReserves(_) => if call.pc.Preflight? then call.(pc := ReservePc(s.receipts, call)) else call
    case CallPosts(_) => if call.pc.Reserved? then call.(pc := Posted) else call
    case CallSettles(_, reply) =>
      if call.pc.Posted? && call.key in s.receipts then call.(pc := SettlePc(reply)) else call
  }

  /** The verdict on what a worker has read, the first or the second time. */
  function PcAfterCheck(s: State, run: Run, own: set<nat>): Pc
    requires run.pc.Seen?
  {
    var Seen(history, draft, enabled, row) := run.pc;
    var verdict := Check(run.job, history, enabled, row, own, s.now);
    if verdict.Some? then Closing(ClosingStatus(verdict.value))
    else if draft.None? then Drafting(history)
    else if draft.value.before.items != history.items || draft.value.before.isClosed != history.isClosed ||
            draft.value.basedOn != run.job.key.messageId then
      Closing(ClosingStatus(CONVERSATION_CHANGED))
    else Ready(draft.value.text)
  }

  /** When the newest message of a page was inserted. */
  function Newest(history: History): Option<Time> {
    var sorted := Sort(history.items);
    if sorted == [] then None else Some(sorted[|sorted| - 1].insertedAt)
  }

  function PcAfter(s: State, run: Run, step: Step): Pc
    requires WorkerOf(step).Some?
  {
    var pc, thread := run.pc, run.job.key.thread;
    match step
    case HistoryRead(_, history) =>
      if pc.Start? then Checking(history, None) else if pc.Drafted? then Checking(history, Some(pc.ready)) else pc
    case StateRead(_, enabled) =>
      if !pc.Checking? then pc
      else Seen(pc.history, pc.draft, enabled, if thread in s.db.threads then Some(s.db.threads[thread]) else None)
    case CheckDecides(_, own) => if pc.Seen? then PcAfterCheck(s, run, own) else pc
    case DraftReturned(_, text, basedOn) => if pc.Drafting? then Drafted(Draft(pc.before, text, basedOn)) else pc
    case WorkerFails(_, reason) =>
      if pc.Start? || pc.Checking? || pc.Seen? || pc.Drafting? || pc.Drafted? then Closing(ClosingStatus(reason))
      else pc
    case WorkerFences(_) =>
      if !pc.Ready? then pc
      else if FenceResult(s.db, run.job, s.now).Fenced? then Sending(AutoCall(run.job, pc.text))
      else Closing(NEEDS_HOST)
    case SendReturns(_) =>
      if pc.Sending? && pc.call.pc.Returned? then Closing(SENT)
      else if pc.Sending? && pc.call.pc.Threw? then Closing(UNKNOWN)
      else pc
    case WorkerFinishes(_) => if pc.Closing? then Stopped else pc
    case WorkerCrashes(_) => Stopped
    case _ => if pc.Sending? then Sending(CallAfter(s, pc.call, step)) else pc
  }

  function RunAfter(s: State, run: Run, step: Step): Run
    requires WorkerOf(step).Some?
  {
    Run(run.job, PcAfter(s, run, step),
        run.fenced || (step.WorkerFences? && run.pc.Ready? && FenceResult(s.db, run.job, s.now).Fenced?),
        run.finished || (step.WorkerFinishes? && run.pc.Closing?),
        if step.CheckDecides? && run.pc.Seen? && PcAfter(s, run, step).Ready? then Newest(run.pc.seen)
        else run.answered)
  }

  function NewRun(s: State, key: InboundKey, candidate: Status, since: Time, token: Token): Run {
    Run(ClaimedJob(s.db, key, candidate, since, s.now, token), if candidate.SENDING? then Closing(UNKNOWN) else Start,
        false, false, None)
  }

  function RunsAfter(s: State, step: Step): map<Token, Run> {
    if step.WorkerClaims? then
      if step.token !in s.runs && ClaimSucceeds(s.db, step.inbound, step.candidate, step.since, s.now) then
        s.runs[step.token := NewRun(s, step.inbound, step.candidate, step.since, step.token)]
      else s.runs
    else if WorkerOf(step).Some? && WorkerOf(step).value in s.runs then
      s.runs[WorkerOf(step).value := RunAfter(s, s.runs[WorkerOf(step).value], step)]
    else s.runs
  }

  /** A host's own reply; the automatic sender's name is not a host's. */
  predicate HostStarts(s: State, step: Step) {
    step.HostReplies? && step.id !in s.hosts && step.user != AUTOMATIC_SENDER
  }

  function DbAfter(s: State, step: Step): Tables {
    match step
    case MessageArrives(key) => Enqueue(s.db, key)
    case HostControls(thread, mode, since) => Control(s.db, thread, mode, since, s.now)
    case WorkerClaims(key, candidate, since, token) =>
      if token in s.runs then s.db else Claim(s.db, key, candidate, since, s.now, token)
    case WorkerFences(t) => if t in s.runs && s.runs[t].pc.Ready? then Fence(s.db, s.runs[t].job, s.now) else s.db
    case WorkerFinishes(t) =>
      if t in s.runs && s.runs[t].pc.Closing? then Finish(s.db, s.runs[t].job, s.runs[t].pc.outcome) else s.db
    case HostReplies(_, takenOver, thread, since, _, _, _) =>
      if HostStarts(s, step) && takenOver then Control(s.db, thread, HUMAN, since, s.now) else s.db
    case _ => s.db
  }

  /** A host reply takes the conversation over first, unless automation does not cover the property. */
  function HostsAfter(s: State, step: Step): map<nat, Call> {
    if HostStarts(s, step) then
      if step.takenOver && DbAfter(s, step).threads[step.to].sending then s.hosts
      else
        s.hosts[step.id := Call(ReceiptKey(step.to.organizationId, step.requestKey),
                                Fingerprint(step.to.propertyId, step.to.threadId, step.text, step.user), Preflight)]
    else if Calls(step) && step.call.Host? && step.call.id in s.hosts then
      s.hosts[step.call.id := CallAfter(s, s.hosts[step.call.id], step)]
    else s.hosts
  }

  function ReceiptsAfter(s: State, step: Step): Receipts {
    match step
    case CallReserves(id) =>
      if HasCall(s, id) && CallOf(s, id).pc.Preflight? then ReserveReceipts(s.receipts, CallOf(s, id), id)
      else s.receipts
    case CallSettles(id, reply) =>
      if HasCall(s, id) && CallOf(s, id).pc.Posted? && CallOf(s, id).key in s.receipts then
        SettleReceipts(s.receipts, CallOf(s, id).key, reply)
      else s.receipts
    case _ => s.receipts
  }

  function PostsAfter(s: State, step: Step): seq<Post> {
    if step.CallPosts? && HasCall(s, step.call) && CallOf(s, step.call).pc.Reserved? then
      s.posts + [Post(CallOf(s, step.call).key, step.call, s.now)]
    else s.posts
  }

  function Next(s: State, step: Step): State {
    State(s.now + if step.Tick? then step.elapsed else 0, DbAfter(s, step), ReceiptsAfter(s, step), RunsAfter(s, step),
          HostsAfter(s, step), PostsAfter(s, step))
  }

  /** The state after a list of steps. */
  function RunSteps(s: State, steps: seq<Step>): State
    decreases |steps|
  {
    if steps == [] then s else RunSteps(Next(s, steps[0]), steps[1..])
  }

  /** A status that says the message was handed to the provider, or may have been. */
  predicate Dispatched(status: Status) {
    status.SENDING? || status.SENT? || status.UNKNOWN?
  }

  predicate Terminal(status: Status) {
    status.SENT? || status.SKIPPED? || status.NEEDS_HOST? || status.UNKNOWN?
  }

  /** The fenced window: the worker may be talking to the provider and has not written an outcome. */
  predicate InWindow(run: Run) {
    run.fenced && !run.finished
  }

  predicate Live(s: State, run: Run) {
    s.now <= run.job.leaseUntil
  }

  predicate OnThread(s: State, t: Token, thread: ThreadKey) {
    t in s.runs && s.runs[t].job.key.thread == thread
  }

  /** Whether a post was made by an automatic worker for a conversation. */
  predicate AutoPost(s: State, p: Post, thread: ThreadKey) {
    p.caller.Worker? && OnThread(s, p.caller.token, thread)
  }

  /** A reading step moves its worker and nothing else. */
  lemma ReadMoves(s: State, step: Step)
    requires Reads(step) && step.token in s.runs
    ensures Next(s, step) == s.(runs := s.runs[step.token := RunAfter(s, s.runs[step.token], step)])
  {
  }

  /** A step inside a worker's own `reply` call. */
  lemma CallWrites(s: State, step: Step)
    requires Calls(step) && step.call.Worker? && step.call.token in s.runs
    ensures Next(s, step) ==
            s.(receipts := ReceiptsAfter(s, step), posts := PostsAfter(s, step),
               runs := s.runs[step.call.token := RunAfter(s, s.runs[step.call.token], step)])
  {
  }

  lemma HostCallWrites(s: State, step: Step)
    requires Calls(step) && step.call.Host? && step.call.id in s.hosts
    ensures Next(s, step) ==
            s.(receipts := ReceiptsAfter(s, step), posts := PostsAfter(s, step),
               hosts := s.hosts[step.call.id := CallAfter(s, s.hosts[step.call.id], step)])
  {
  }

  lemma ReplyWrites(s: State, step: Step)
    requires step.HostReplies?
    ensures Next(s, step) == s.(db := DbAfter(s, step), hosts := HostsAfter(s, step))
  {
  }

  /** The steps that write rows, in full. */
  lemma ClaimWrites(s: State, step: Step)
    requires step.WorkerClaims? && step.token !in s.runs
    ensures Next(s, step) ==
            s.(db := Claim(s.db, step.inbound, step.candidate, step.since, s.now, step.token),
               runs := RunsAfter(s, step))
  {
  }

  lemma FenceWrites(s: State, step: Step)
    requires step.WorkerFences? && step.token in s.runs && s.runs[step.token].pc.Ready?
    ensures Next(s, step) ==
            s.(db := Fence(s.db, s.runs[step.token].job, s.now),
               runs := s.runs[step.token := RunAfter(s, s.runs[step.token], step)])
  {
  }

  lemma FinishWrites(s: State, step: Step)
    requires step.WorkerFinishes? && step.token in s.runs && s.runs[step.token].pc.Closing?
    ensures Next(s, step) ==
            s.(db := Finish(s.db, s.runs[step.token].job, s.runs[step.token].pc.outcome),
               runs := s.runs[step.token := RunAfter(s, s.runs[step.token], step)])
  {
  }

  lemma ControlWrites(s: State, step: Step)
    requires step.HostControls?
    ensures Next(s, step) == s.(db := Control(s.db, step.thread, step.mode, step.since, s.now))
  {
  }

  lemma ArrivalWrites(s: State, step: Step)
    requires step.MessageArrives?
    ensures Next(s, step) == s.(db := Enqueue(s.db, step.key))
  {
  }

  lemma TickWrites(s: State, step: Step)
    requires step.Tick?
    ensures Next(s, step) == s.(now := s.now + step.elapsed)
  {
  }
}
