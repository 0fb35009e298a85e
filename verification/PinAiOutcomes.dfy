/** What comes of a message: the runs nobody disturbs, the checks that fail, and the workers that die. */
module PinAiOutcomes {
  import opened Common
  import opened AutoRepository
  import opened HostInbox
  import opened AutoResponder
  import opened PinAiProtocol
  import opened PinAiInvariant
  import opened PinAiReceipts
  import opened PinAiSafety
  import opened PinAiTakeover
  import opened PinAiScenarios

  /** A worker that leases its thread and its message, which is marked `status`. */
  predicate Owns(s: State, t: Token, status: Status) {
    && t in s.runs && s.runs[t].job.token == t
    && s.runs[t].job.key in s.db.inbound && s.runs[t].job.key.thread in s.db.threads
    && s.db.inbound[s.runs[t].job.key].status == status
    && s.db.inbound[s.runs[t].job.key].leaseToken == Some(t)
    && s.db.threads[s.runs[t].job.key.thread].leaseToken == Some(t)
  }

  /** The message and its thread once an outcome is written: given back, and the host's if the outcome needs one. */
  ghost predicate Settled(s: State, after: State, key: InboundKey, outcome: Status) {
    && key in after.db.inbound && after.db.inbound[key] == InboundRow(outcome, None, None)
    && key.thread in s.db.threads && key.thread in after.db.threads
    && after.db.threads[key.thread] ==
       ThreadRow(if outcome == NEEDS_HOST || outcome == UNKNOWN then HUMAN else s.db.threads[key.thread].mode,
                 s.db.threads[key.thread].since, None, None, false)
  }

  /** Writing the outcome of a message that its worker still owns. */
  lemma RunFinish(s: State, t: Token, status: Status)
    requires Owns(s, t, status) && (status.PROCESSING? || status.SENDING?) && s.runs[t].pc.Closing?
    ensures var after := RunSteps(s, [WorkerFinishes(t)]);
            && Settled(s, after, s.runs[t].job.key, s.runs[t].pc.outcome)
            && after.receipts == s.receipts && after.posts == s.posts && after.hosts == s.hosts && after.now == s.now
            && after.runs == s.runs[t := s.runs[t].(pc := Stopped, finished := true)]
  {
    RunOne(s, WorkerFinishes(t));
    FinishWrites(s, WorkerFinishes(t));
    FinishMeans(s.db, s.runs[t].job, s.runs[t].pc.outcome);
  }

  /** A run of one step inside a worker's call. */
  lemma RunCall(s: State, step: Step, run: Run)
    requires Calls(step) && step.call.Worker? && step.call.token in s.runs
    requires RunAfter(s, s.runs[step.call.token], step) == run
    ensures RunSteps(s, [step]) ==
            s.(receipts := ReceiptsAfter(s, step), posts := PostsAfter(s, step), runs := s.runs[step.call.token := run])
  {
    RunOne(s, step);
    CallWrites(s, step);
  }

  /** A receipt once the POST has been answered, or has not. */
  function Answered(receipt: Receipt, reply: Option<nat>): Receipt {
    receipt.(status := if reply.Some? then Delivered else Uncertain, response := reply)
  }

  /** The receipt of a POST, with the provider's message if it came back. */
  function Delivery(call: Call, t: Token, reply: Option<nat>): Receipt {
    Receipt(call.fingerprint, if reply.Some? then Delivered else Uncertain, reply, Worker(t))
  }

  function HostDelivery(call: Call, id: nat, reply: Option<nat>): Receipt {
    Receipt(call.fingerprint, if reply.Some? then Delivered else Uncertain, reply, Host(id))
  }

  /** The state in which a worker's call has just posted. */
  function AfterPost(s: State, t: Token, call: Call): State
    requires t in s.runs
  {
    s.(receipts := s.receipts[call.key := Receipt(call.fingerprint, Pending, None, Worker(t))],
       posts := s.posts + [Post(call.key, Worker(t), s.now)],
       runs := s.runs[t := s.runs[t].(pc := Sending(call.(pc := Posted)))])
  }

  /** A worker's call up to its POST. */
  lemma CallReachesPost(s: State, t: Token, call: Call)
    requires t in s.runs && s.runs[t].pc == Sending(call) && call.pc.Preflight? && call.key !in s.receipts
    ensures RunSteps(s, [CallReserves(Worker(t))] + [CallPosts(Worker(t))]) == AfterPost(s, t, call)
  {
    var reserved := s.runs[t].(pc := Sending(call.(pc := Reserved)));
    var posted := s.runs[t].(pc := Sending(call.(pc := Posted)));
    var a := s.(receipts := s.receipts[call.key := Receipt(call.fingerprint, Pending, None, Worker(t))],
                runs := s.runs[t := reserved]);
    RunCall(s, CallReserves(Worker(t)), reserved);
    RunCall(a, CallPosts(Worker(t)), posted);
    Overwrites(s.runs, t, reserved, posted);
    RunBoth(s, [CallReserves(Worker(t))], a, [CallPosts(Worker(t))], AfterPost(s, t, call));
  }

  /** And from its answer to the outcome the worker is to write: SENT exactly if the provider's message came back. */
  lemma CallReturns(s: State, t: Token, call: Call, reply: Option<nat>)
    requires t in s.runs && s.runs[t].pc == Sending(call) && call.pc.Posted?
    requires call.key in s.receipts && s.receipts[call.key].status.Pending? && s.receipts[call.key].response.None?
    ensures RunSteps(s, [CallSettles(Worker(t), reply)] + [SendReturns(t)]) ==
            s.(receipts := s.receipts[call.key := Answered(s.receipts[call.key], reply)],
               runs := s.runs[t := s.runs[t].(pc := Closing(if reply.Some? then SENT else UNKNOWN))])
  {
    var settles := CallSettles(Worker(t), reply);
    var ended := if reply.Some? then Returned(reply, false) else Threw(OutcomeUnknown);
    var settled := s.runs[t].(pc := Sending(call.(pc := ended)));
    var closing := s.runs[t].(pc := Closing(if reply.Some? then SENT else UNKNOWN));
    var receipts := s.receipts[call.key := Answered(s.receipts[call.key], reply)];
    RunCall(s, settles, settled);
    assert ReceiptsAfter(s, settles) == receipts;
    var a := s.(receipts := receipts, runs := s.runs[t := settled]);
    RunRead(a, SendReturns(t), closing);
    Overwrites(s.runs, t, settled, closing);
    RunBoth(s, [settles], a, [SendReturns(t)], a.(runs := s.runs[t := closing]));
  }

  /** From the fence to the outcome. */
  function DeliverSteps(t: Token, reply: Option<nat>): seq<Step> {
    [WorkerFences(t)] + (([CallReserves(Worker(t))] + [CallPosts(Worker(t))]) +
                         (([CallSettles(Worker(t), reply)] + [SendReturns(t)]) + [WorkerFinishes(t)]))
  }

  lemma RunFence(s: State, t: Token)
    requires FenceSucceeds(s, t) && s.runs[t].job.token == t
    ensures var job, text := s.runs[t].job, s.runs[t].pc.text;
            && RunSteps(s, [WorkerFences(t)]) ==
               s.(db := Fence(s.db, job, s.now),
                  runs := s.runs[t := s.runs[t].(pc := Sending(AutoCall(job, text)), fenced := true)])
            && Owns(RunSteps(s, [WorkerFences(t)]), t, SENDING)
  {
    RunOne(s, WorkerFences(t));
    FenceWrites(s, WorkerFences(t));
  }

  /** A fenced worker sends its own text, to its own conversation, under the one key of its message. */
  lemma FencedCallIsForTheMessage(s: State, t: Token)
    requires FenceSucceeds(s, t) && s.runs[t].job.token == t
    ensures var job, after := s.runs[t].job, RunSteps(s, [WorkerFences(t)]);
            && t in after.runs
            && after.runs[t].pc ==
               Sending(Call(ReceiptKey(job.key.thread.organizationId, Derived(job.key)),
                            Fingerprint(job.key.thread.propertyId, job.key.thread.threadId, s.runs[t].pc.text,
                                        "pin-ai-channex"),
                            Preflight))
  {
    RunFence(s, t);
  }

  /** A call that has ended without a POST leaves its worker to write what it returned. */
  lemma EndedCallCloses(s: State, t: Token, call: Call)
    requires Owns(s, t, SENDING) && s.runs[t].pc == Sending(call) && (call.pc.Returned? || call.pc.Threw?)
    ensures var after := RunSteps(s, [SendReturns(t)] + [WorkerFinishes(t)]);
            && Settled(s, after, s.runs[t].job.key, if call.pc.Returned? then SENT else UNKNOWN)
            && after.receipts == s.receipts && after.posts == s.posts
  {
    RunRead(s, SendReturns(t), s.runs[t].(pc := Closing(if call.pc.Returned? then SENT else UNKNOWN)));
    RunFinish(RunSteps(s, [SendReturns(t)]), t, SENDING);
    RunStepsAppend(s, [SendReturns(t)], [WorkerFinishes(t)]);
  }

  /** A call that is rejected before its reservation leaves no receipt and no POST, and the message to the host. */
  lemma RejectedCallGivesUp(s: State, t: Token, call: Call)
    requires Owns(s, t, SENDING) && s.runs[t].pc == Sending(call) && call.pc.Preflight?
    ensures var after := RunSteps(s, [CallRejected(Worker(t))] + ([SendReturns(t)] + [WorkerFinishes(t)]));
            && Settled(s, after, s.runs[t].job.key, UNKNOWN)
            && after.receipts == s.receipts && after.posts == s.posts
  {
    var rejected := call.(pc := Threw(Rejected));
    RunCall(s, CallRejected(Worker(t)), s.runs[t].(pc := Sending(rejected)));
    var mid := RunSteps(s, [CallRejected(Worker(t))]);
    EndedCallCloses(mid, t, rejected);
    RunStepsAppend(s, [CallRejected(Worker(t))], [SendReturns(t)] + [WorkerFinishes(t)]);
  }

  /** A call that finds its key taken posts nothing; the message is SENT exactly if the same reply was delivered. */
  lemma TakenKeyIsNotPosted(s: State, t: Token, call: Call)
    requires Owns(s, t, SENDING) && s.runs[t].pc == Sending(call) && call.pc.Preflight? && call.key in s.receipts
    ensures var after := RunSteps(s, [CallReserves(Worker(t))] + ([SendReturns(t)] + [WorkerFinishes(t)]));
            && Settled(s, after, s.runs[t].job.key,
                       if s.receipts[call.key].fingerprint == call.fingerprint && s.receipts[call.key].status.Delivered?
                       then SENT else UNKNOWN)
            && after.receipts == s.receipts && after.posts == s.posts
  {
    var reserved := call.(pc := ReservePc(s.receipts, call));
    RunCall(s, CallReserves(Worker(t)), s.runs[t].(pc := Sending(reserved)));
    var mid := RunSteps(s, [CallReserves(Worker(t))]);
    EndedCallCloses(mid, t, reserved);
    RunStepsAppend(s, [CallReserves(Worker(t))], [SendReturns(t)] + [WorkerFinishes(t)]);
  }

  /** The second half of a delivery, from a POST that has just been made. */
  lemma PostIsWrittenUp(s: State, t: Token, call: Call, reply: Option<nat>)
    requires Owns(s, t, SENDING) && s.runs[t].pc == Sending(call) && call.pc.Posted?
    requires call.key in s.receipts && s.receipts[call.key].status.Pending? && s.receipts[call.key].response.None?
    ensures var after := RunSteps(s, ([CallSettles(Worker(t), reply)] + [SendReturns(t)]) + [WorkerFinishes(t)]);
            && Settled(s, after, s.runs[t].job.key, if reply.Some? then SENT else UNKNOWN)
            && after.receipts == s.receipts[call.key := Answered(s.receipts[call.key], reply)]
            && after.posts == s.posts
  {
    CallReturns(s, t, call, reply);
    var mid := RunSteps(s, [CallSettles(Worker(t), reply)] + [SendReturns(t)]);
    RunFinish(mid, t, SENDING);
    RunStepsAppend(s, [CallSettles(Worker(t), reply)] + [SendReturns(t)], [WorkerFinishes(t)]);
  }

  lemma Replaces(receipts: Receipts, key: ReceiptKey, first: Receipt, second: Receipt)
    ensures receipts[key := first][key := second] == receipts[key := second]
  {
  }

  lemma PostGoesOn(s: State, mid: State, t: Token, call: Call, reply: Option<nat>)
    requires Owns(s, t, SENDING) && s.runs[t].pc == Sending(call) && mid == AfterPost(s, t, call)
    ensures var after := RunSteps(mid, ([CallSettles(Worker(t), reply)] + [SendReturns(t)]) + [WorkerFinishes(t)]);
            && Settled(s, after, s.runs[t].job.key, if reply.Some? then SENT else UNKNOWN)
            && after.receipts == s.receipts[call.key := Delivery(call, t, reply)] && after.posts == mid.posts
  {
    PostIsWrittenUp(mid, t, call.(pc := Posted), reply);
    Replaces(s.receipts, call.key, Receipt(call.fingerprint, Pending, None, Worker(t)), Delivery(call, t, reply));
  }

  lemma CallDelivers(s: State, t: Token, call: Call, reply: Option<nat>)
    requires Owns(s, t, SENDING) && s.runs[t].pc == Sending(call) && call.pc.Preflight? && call.key !in s.receipts
    ensures var after := RunSteps(s, ([CallReserves(Worker(t))] + [CallPosts(Worker(t))]) +
                                     (([CallSettles(Worker(t), reply)] + [SendReturns(t)]) + [WorkerFinishes(t)]));
            && Settled(s, after, s.runs[t].job.key, if reply.Some? then SENT else UNKNOWN)
            && after.receipts == s.receipts[call.key := Delivery(call, t, reply)]
            && after.posts == s.posts + [Post(call.key, Worker(t), s.now)]
  {
    var sending := [CallReserves(Worker(t))] + [CallPosts(Worker(t))];
    var closing := ([CallSettles(Worker(t), reply)] + [SendReturns(t)]) + [WorkerFinishes(t)];
    var mid := AfterPost(s, t, call);
    CallReachesPost(s, t, call);
    PostGoesOn(s, mid, t, call, reply);
    RunBoth(s, sending, mid, closing, RunSteps(mid, closing));
  }

  /** What a fence that succeeds comes to, if nobody interferes: one POST, its receipt, and the outcome it allows. */
  lemma FencedDelivers(s: State, t: Token, reply: Option<nat>)
    requires FenceSucceeds(s, t) && s.runs[t].job.token == t
    requires AutoReceiptKey(s.runs[t].job.key) !in s.receipts
    ensures var after, job := RunSteps(s, DeliverSteps(t, reply)), s.runs[t].job;
            var call := AutoCall(job, s.runs[t].pc.text);
            && Settled(s, after, job.key, if reply.Some? then SENT else UNKNOWN)
            && after.receipts == s.receipts[call.key := Delivery(call, t, reply)]
            && after.posts == s.posts + [Post(call.key, Worker(t), s.now)]
  {
    RunFence(s, t);
    var fenced := RunSteps(s, [WorkerFences(t)]);
    CallDelivers(fenced, t, AutoCall(s.runs[t].job, s.runs[t].pc.text), reply);
    RunStepsAppend(s, [WorkerFences(t)], DeliverSteps(t, reply)[1..]);
    assert DeliverSteps(t, reply) == [WorkerFences(t)] + DeliverSteps(t, reply)[1..];
  }

  /** A message waits for a worker, or was left behind by one before it fenced. */
  predicate Waits(s: State, key: InboundKey, candidate: Status) {
    && key in s.db.inbound && s.db.inbound[key].status == candidate
    && (candidate.QUEUED? || (candidate.PROCESSING? && s.db.inbound[key].leaseUntil.Some? &&
                              s.db.inbound[key].leaseUntil.value < s.now))
  }

  /** The later of the boundary the scheduler brings and the one on the thread. */
  function Boundary(s: State, thread: ThreadKey, since: Time): Time {
    if thread in s.db.threads && s.db.threads[thread].since > since then s.db.threads[thread].since else since
  }

  /** A claim of a waiting message on an idle automatic thread. */
  lemma WaitingIsClaimed(s: State, key: InboundKey, candidate: Status, token: Token, since: Time)
    requires Waits(s, key, candidate) && Idle(s.db, key.thread, s.now) && token !in s.runs
    requires key.thread in s.db.threads ==>
               s.db.threads[key.thread].mode.AUTO? && !s.db.threads[key.thread].sending
    ensures var l := RunSteps(s, [WorkerClaims(key, candidate, since, token)]);
            && OnItsThread(l, token) && Owns(l, token, PROCESSING) && l.runs[token].pc.Start?
            && l.runs[token].job.key == key && l.now == s.now && l.receipts == s.receipts && l.posts == s.posts
            && l.db.threads[key.thread] ==
               ThreadRow(AUTO, if key.thread in s.db.threads then s.db.threads[key.thread].since else since,
                         Some(token), Some(s.now + 180000), false)
            && l.runs[token].job.leaseUntil == s.now + 180000
            && l.runs[token].job.since == Boundary(s, key.thread, since)
  {
    var claim := WorkerClaims(key, candidate, since, token);
    ClaimMeans(s.db, key, candidate, since, s.now, token);
    ClaimWrites(s, claim);
    RunOne(s, claim);
  }

  /**
   * A page that calls for an answer to the message `id`: the thread is open, nothing after the boundary is cut off, no
   * host has written since, and the last message is that one, by a guest, after the boundary and not from the future.
   */
  ghost predicate CallsForAnswer(page: History, id: nat, since: Time, own: set<nat>, now: Time) {
    && !page.isClosed && !CutOff(page, since) && !HostWrote(page, since, own)
    && exists m :: m in page.items && m.id == id && m.sender.Guest? && since < m.insertedAt <= now + 60000 &&
         forall n :: n in page.items && n != m ==>
           n.insertedAt < m.insertedAt || (n.insertedAt == m.insertedAt && n.id < m.id)
  }

  lemma CallingIsClear(s: State, t: Token, page: History, own: set<nat>)
    requires OnItsThread(s, t)
    requires CallsForAnswer(page, s.runs[t].job.key.messageId, s.runs[t].job.since, own, s.now)
    ensures Clear(s, t, page, own)
  {
    var job, row := s.runs[t].job, s.db.threads[s.runs[t].job.key.thread];
    var latest := CheckAnswers(job, page, true, Some(row), own, s.now);
  }

  /** Claim, checks, draft, fence, POST and outcome. */
  function WholeAnswer(key: InboundKey, candidate: Status, token: Token, since: Time, page: History, own: set<nat>,
                       text: string, reply: Option<nat>)
    : seq<Step>
  {
    [WorkerClaims(key, candidate, since, token)] +
    (ConfirmSteps(token, key.messageId, page, own, text) + DeliverSteps(token, reply))
  }

  lemma ConfirmedDelivers(s: State, t: Token, page: History, own: set<nat>, text: string, reply: Option<nat>)
    requires OnItsThread(s, t) && Owns(s, t, PROCESSING) && s.runs[t].pc.Start? && Clear(s, t, page, own)
    requires var row := s.db.threads[s.runs[t].job.key.thread];
             !row.sending && row.leaseUntil.Some? && row.leaseUntil.value > s.now
    requires AutoReceiptKey(s.runs[t].job.key) !in s.receipts
    ensures var job := s.runs[t].job;
            var after := RunSteps(s, ConfirmSteps(t, job.key.messageId, page, own, text) + DeliverSteps(t, reply));
            && Settled(s, after, job.key, if reply.Some? then SENT else UNKNOWN)
            && after.receipts == s.receipts[AutoReceiptKey(job.key) := Delivery(AutoCall(job, text), t, reply)]
            && after.posts == s.posts + [Post(AutoReceiptKey(job.key), Worker(t), s.now)]
  {
    var confirm := ConfirmSteps(t, s.runs[t].job.key.messageId, page, own, text);
    WorkerConfirms(s, t, page, own, text);
    var ready := RunSteps(s, confirm);
    FenceMeans(ready.db, ready.runs[t].job, ready.now);
    FencedDelivers(ready, t, reply);
    RunStepsAppend(s, confirm, DeliverSteps(t, reply));
  }

  /**
   * The ordinary answer, undisturbed, to a new message or to one a dead worker had left before its fence, over any page
   * that calls for one and with any draft: one POST of that draft, SENT and a thread that stays automatic if the
   * provider's message came back, UNKNOWN and a thread for the host if it did not, and both rows given back.
   */
  lemma WaitingIsAnswered(s: State, key: InboundKey, candidate: Status, token: Token, since: Time, page: History,
                          own: set<nat>, text: string, reply: Option<nat>)
    requires Waits(s, key, candidate) && Idle(s.db, key.thread, s.now) && token !in s.runs
    requires key.thread in s.db.threads ==>
               s.db.threads[key.thread].mode.AUTO? && !s.db.threads[key.thread].sending
    requires CallsForAnswer(page, key.messageId, Boundary(s, key.thread, since), own, s.now)
    requires AutoReceiptKey(key) !in s.receipts
    ensures var after := RunSteps(s, WholeAnswer(key, candidate, token, since, page, own, text, reply));
            var fingerprint := Fingerprint(key.thread.propertyId, key.thread.threadId, text, "pin-ai-channex");
            var status := if reply.Some? then Delivered else Uncertain;
            && key in after.db.inbound
            && after.db.inbound[key] == InboundRow(if reply.Some? then SENT else UNKNOWN, None, None)
            && key.thread in after.db.threads
            && after.db.threads[key.thread] ==
               ThreadRow(if reply.Some? then AUTO else HUMAN,
                         if key.thread in s.db.threads then s.db.threads[key.thread].since else since,
                         None, None, false)
            && after.receipts ==
               s.receipts[AutoReceiptKey(key) := Receipt(fingerprint, status, reply, Worker(token))]
            && after.posts == s.posts + [Post(AutoReceiptKey(key), Worker(token), s.now)]
  {
    var claim := [WorkerClaims(key, candidate, since, token)];
    WaitingIsClaimed(s, key, candidate, token, since);
    var claimed := RunSteps(s, claim);
    CallingIsClear(claimed, token, page, own);
    ConfirmedDelivers(claimed, token, page, own, text, reply);
    RunStepsAppend(s, claim, ConfirmSteps(token, key.messageId, page, own, text) + DeliverSteps(token, reply));
  }

  /** A check that fails ends the job with the status its reason calls for. */
  lemma FailedCheckCloses(s: State, t: Token, own: set<nat>)
    requires Owns(s, t, PROCESSING) && s.runs[t].pc.Seen?
    requires var Seen(history, _, enabled, row) := s.runs[t].pc;
             Check(s.runs[t].job, history, enabled, row, own, s.now).Some?
    ensures var Seen(history, _, enabled, row) := s.runs[t].pc;
            var after := RunSteps(s, [CheckDecides(t, own)] + [WorkerFinishes(t)]);
            && Settled(s, after, s.runs[t].job.key,
                       ClosingStatus(Check(s.runs[t].job, history, enabled, row, own, s.now).value))
            && after.posts == s.posts && after.receipts == s.receipts
  {
    var Seen(history, draft, enabled, row) := s.runs[t].pc;
    var outcome := ClosingStatus(Check(s.runs[t].job, history, enabled, row, own, s.now).value);
    RunRead(s, CheckDecides(t, own), s.runs[t].(pc := Closing(outcome)));
    var closing := RunSteps(s, [CheckDecides(t, own)]);
    RunFinish(closing, t, PROCESSING);
    RunStepsAppend(s, [CheckDecides(t, own)], [WorkerFinishes(t)]);
  }

  /** Once somebody else has written, on a page that shows it, the message and the thread are the host's. */
  lemma HostMessageHandsOver(s: State, t: Token, own: set<nat>, m: Message)
    requires Owns(s, t, PROCESSING) && s.runs[t].pc.Seen? && s.runs[t].pc.enabled && !s.runs[t].pc.seen.isClosed
    requires m in s.runs[t].pc.seen.items && m.sender.Property? && m.insertedAt >= s.runs[t].job.since && m.id !in own
    ensures var after, key := RunSteps(s, [CheckDecides(t, own)] + [WorkerFinishes(t)]), s.runs[t].job.key;
            && key in after.db.inbound && after.db.inbound[key].status == NEEDS_HOST
            && key.thread in after.db.threads && after.db.threads[key.thread].mode.HUMAN?
            && after.posts == s.posts
  {
    var Seen(history, _, enabled, row) := s.runs[t].pc;
    assert HostWrote(history, s.runs[t].job.since, own);
    var latest := CheckAnswers(s.runs[t].job, history, enabled, row, own, s.now);
    var again := HostGetsItExactlyWhen(s.runs[t].job, history, enabled, row, own, s.now);
    FailedCheckCloses(s, t, own);
  }

  /** A message that a later one has superseded, or that is not after the boundary, is passed over; the thread stays. */
  lemma OldMessageIsPassedOver(s: State, t: Token, own: set<nat>, m: Message)
    requires Owns(s, t, PROCESSING) && s.runs[t].pc.Seen?
    requires var Seen(history, _, enabled, row) := s.runs[t].pc;
             && Undisturbed(s.runs[t].job, history, enabled, row, own)
             && m in history.items
             && (forall n :: n in history.items && n != m ==> n.insertedAt < m.insertedAt)
             && (m.id != s.runs[t].job.key.messageId || m.sender.Property? || m.insertedAt <= s.runs[t].job.since)
    ensures var after, key := RunSteps(s, [CheckDecides(t, own)] + [WorkerFinishes(t)]), s.runs[t].job.key;
            && key in after.db.inbound && after.db.inbound[key].status == SKIPPED
            && key.thread in after.db.threads && after.db.threads[key.thread].mode == s.db.threads[key.thread].mode
            && after.posts == s.posts
  {
    var Seen(history, _, enabled, row) := s.runs[t].pc;
    var latest := CheckAnswers(s.runs[t].job, history, enabled, row, own, s.now);
    assert latest == Some(m);
    FailedCheckCloses(s, t, own);
  }

  /** The second check sends the draft on exactly if the page has not changed and the draft answers this message. */
  lemma DraftGoesOutExactlyWhen(s: State, run: Run, own: set<nat>)
    requires run.pc.Seen? && run.pc.pending.Some?
    requires Check(run.job, run.pc.seen, run.pc.enabled, run.pc.row, own, s.now).None?
    ensures var draft, pc := run.pc.pending.value, PcAfterCheck(s, run, own);
            && (pc == Ready(draft.text) <==>
                draft.before.items == run.pc.seen.items && draft.before.isClosed == run.pc.seen.isClosed &&
                draft.basedOn == run.job.key.messageId)
            && (!pc.Ready? ==> pc == Closing(NEEDS_HOST))
  {
  }

  /** A worker whose provider or model fails before the fence gives the message to the host, but for known refusals. */
  lemma FailureCloses(s: State, t: Token, reason: Reason)
    requires Owns(s, t, PROCESSING)
    requires var pc := s.runs[t].pc; pc.Start? || pc.Checking? || pc.Seen? || pc.Drafting? || pc.Drafted?
    ensures var after := RunSteps(s, [WorkerFails(t, reason)] + [WorkerFinishes(t)]);
            && Settled(s, after, s.runs[t].job.key,
                       if reason in {DISABLED, THREAD_CLOSED, SUPERSEDED_OR_ECHO, BEFORE_ACTIVATION,
                                     SERVICE_WINDOW_CLOSED} then SKIPPED
                       else NEEDS_HOST)
            && after.posts == s.posts
  {
    RunRead(s, WorkerFails(t, reason), s.runs[t].(pc := Closing(ClosingStatus(reason))));
    RunFinish(RunSteps(s, [WorkerFails(t, reason)]), t, PROCESSING);
    RunStepsAppend(s, [WorkerFails(t, reason)], [WorkerFinishes(t)]);
  }

  /** A fence that fails gives the message to the host. */
  lemma LostFenceCloses(s: State, t: Token)
    requires Owns(s, t, PROCESSING) && s.runs[t].pc.Ready? && !FenceResult(s.db, s.runs[t].job, s.now).Fenced?
    ensures var after := RunSteps(s, [WorkerFences(t)] + [WorkerFinishes(t)]);
            Settled(s, after, s.runs[t].job.key, NEEDS_HOST) && after.posts == s.posts && after.receipts == s.receipts
  {
    FenceMeans(s.db, s.runs[t].job, s.now);
    FenceWrites(s, WorkerFences(t));
    RunOne(s, WorkerFences(t));
    RunFinish(RunSteps(s, [WorkerFences(t)]), t, PROCESSING);
    RunStepsAppend(s, [WorkerFences(t)], [WorkerFinishes(t)]);
  }

  /** A host who takes over before the fence gets the message, and nothing is posted for it. */
  lemma TakeoverBeatsFence(s: State, t: Token, since: Time)
    requires Owns(s, t, PROCESSING) && s.runs[t].pc.Ready?
    ensures var thread := s.runs[t].job.key.thread;
            var after := RunSteps(s, [HostControls(thread, HUMAN, since)] + ([WorkerFences(t)] + [WorkerFinishes(t)]));
            && s.runs[t].job.key in after.db.inbound && after.db.inbound[s.runs[t].job.key].status == NEEDS_HOST
            && thread in after.db.threads && after.db.threads[thread].mode.HUMAN? && after.posts == s.posts
  {
    var control := HostControls(s.runs[t].job.key.thread, HUMAN, since);
    ControlWrites(s, control);
    RunOne(s, control);
    var taken := RunSteps(s, [control]);
    ControlMeans(s.db, control.thread, HUMAN, since, s.now);
    FenceMeans(taken.db, taken.runs[t].job, taken.now);
    LostFenceCloses(taken, t);
    RunStepsAppend(s, [control], [WorkerFences(t)] + [WorkerFinishes(t)]);
  }

  /** A message whose worker died between its fence and its outcome is never posted again, and becomes the host's. */
  lemma ExpiredDispatchIsGivenUp(s: State, key: InboundKey, token: Token, since: Time)
    requires key in s.db.inbound && s.db.inbound[key].status.SENDING? && token !in s.runs
    requires s.db.inbound[key].leaseUntil.Some? && s.db.inbound[key].leaseUntil.value < s.now &&
             Idle(s.db, key.thread, s.now)
    ensures var after := RunSteps(s, [WorkerClaims(key, SENDING, since, token)] + [WorkerFinishes(token)]);
            && key in after.db.inbound && after.db.inbound[key] == InboundRow(UNKNOWN, None, None)
            && key.thread in after.db.threads && after.db.threads[key.thread].mode.HUMAN?
            && !after.db.threads[key.thread].sending && after.db.threads[key.thread].leaseUntil.None?
            && after.posts == s.posts && after.receipts == s.receipts
  {
    var claim := WorkerClaims(key, SENDING, since, token);
    ClaimMeans(s.db, key, SENDING, since, s.now, token);
    ClaimWrites(s, claim);
    RunOne(s, claim);
    var claimed := RunSteps(s, [claim]);
    RunFinish(claimed, token, SENDING);
    RunStepsAppend(s, [claim], [WorkerFinishes(token)]);
  }

  /** The call a host's reply makes. */
  function HostCall(step: Step): Call
    requires step.HostReplies?
  {
    Call(ReceiptKey(step.to.organizationId, step.requestKey),
         Fingerprint(step.to.propertyId, step.to.threadId, step.text, step.user), Preflight)
  }

  /** A host's reply takes the thread over, and goes ahead unless the automation is just sending. */
  lemma ReplyTakesOver(s: State, step: Step)
    requires step.HostReplies? && step.id !in s.hosts && step.user != AUTOMATIC_SENDER
    ensures var after := RunSteps(s, [step]);
            var sending := step.to in s.db.threads && s.db.threads[step.to].sending;
            && after == s.(db := after.db, hosts := after.hosts)
            && (step.takenOver ==> step.to in after.db.threads && after.db.threads[step.to].mode.HUMAN?)
            && (!step.takenOver ==> after.db == s.db)
            && after.hosts == if step.takenOver && sending then s.hosts else s.hosts[step.id := HostCall(step)]
  {
    RunOne(s, step);
    ReplyWrites(s, step);
    ControlMeans(s.db, step.to, HUMAN, step.since, s.now);
  }

  /** A run of one step inside a host's call. */
  lemma RunHostCall(s: State, step: Step, call: Call)
    requires Calls(step) && step.call.Host? && step.call.id in s.hosts &&
             CallAfter(s, s.hosts[step.call.id], step) == call
    ensures RunSteps(s, [step]) ==
            s.(receipts := ReceiptsAfter(s, step), posts := PostsAfter(s, step), hosts := s.hosts[step.call.id := call])
  {
    RunOne(s, step);
    HostCallWrites(s, step);
  }

  lemma HostReserves(s: State, id: nat)
    requires id in s.hosts && s.hosts[id].pc.Preflight?
    ensures var call, after := s.hosts[id], RunSteps(s, [CallReserves(Host(id))]);
            && after.posts == s.posts && after.hosts.Keys == s.hosts.Keys && id in after.hosts
            && (call.key !in s.receipts ==>
                  && after.hosts[id] == call.(pc := Reserved)
                  && after.receipts == s.receipts[call.key := Receipt(call.fingerprint, Pending, None, Host(id))])
            && (call.key in s.receipts ==>
                  && after.receipts == s.receipts
                  && after.hosts[id].pc ==
                     if s.receipts[call.key].fingerprint != call.fingerprint then Threw(KeyConflict)
                     else if s.receipts[call.key].status.Delivered? then Returned(s.receipts[call.key].response, true)
                     else Threw(OutcomeUnknown))
  {
    var step := CallReserves(Host(id));
    RunHostCall(s, step, CallAfter(s, s.hosts[id], step));
  }

  lemma HostPosts(s: State, id: nat, reply: Option<nat>)
    requires id in s.hosts && s.hosts[id].pc.Reserved? && s.hosts[id].key in s.receipts
    requires s.receipts[s.hosts[id].key] == Receipt(s.hosts[id].fingerprint, Pending, None, Host(id))
    ensures var call, after := s.hosts[id], RunSteps(s, [CallPosts(Host(id))] + [CallSettles(Host(id), reply)]);
            && after.posts == s.posts + [Post(call.key, Host(id), s.now)]
            && after.receipts == s.receipts[call.key := HostDelivery(call, id, reply)]
            && id in after.hosts
            && after.hosts[id].pc == if reply.Some? then Returned(reply, false) else Threw(OutcomeUnknown)
  {
    var call, settles := s.hosts[id], CallSettles(Host(id), reply);
    var posted := call.(pc := Posted);
    var mid := s.(posts := s.posts + [Post(call.key, Host(id), s.now)], hosts := s.hosts[id := posted]);
    RunHostCall(s, CallPosts(Host(id)), posted);
    RunHostCall(mid, settles, CallAfter(mid, posted, settles));
    RunBoth(s, [CallPosts(Host(id))], mid, [settles], RunSteps(mid, [settles]));
  }

  /**
   * A host's reply under a new key, undisturbed: one POST, whose message is returned and kept if it came back. (Under a
   * known key it ends with the reservation.)
   */
  lemma HostReplyIsSent(s: State, id: nat, reply: Option<nat>)
    requires id in s.hosts && s.hosts[id].pc.Preflight? && s.hosts[id].key !in s.receipts
    ensures var call := s.hosts[id];
            var after := RunSteps(s, [CallReserves(Host(id))] +
                                  ([CallPosts(Host(id))] + [CallSettles(Host(id), reply)]));
            && after.posts == s.posts + [Post(call.key, Host(id), s.now)]
            && id in after.hosts
            && after.hosts[id].pc == (if reply.Some? then Returned(reply, false) else Threw(OutcomeUnknown))
            && after.receipts == s.receipts[call.key := HostDelivery(call, id, reply)]
  {
    var call, pending := s.hosts[id], Receipt(s.hosts[id].fingerprint, Pending, None, Host(id));
    var reserved := call.(pc := Reserved);
    var mid := s.(receipts := s.receipts[call.key := pending], hosts := s.hosts[id := reserved]);
    var rest := [CallPosts(Host(id))] + [CallSettles(Host(id), reply)];
    assert RunSteps(s, [CallReserves(Host(id))]) == mid by {
      RunHostCall(s, CallReserves(Host(id)), reserved);
    }
    Replaces(s.receipts, call.key, pending, HostDelivery(call, id, reply));
    HostPosts(mid, id, reply);
    RunBoth(s, [CallReserves(Host(id))], mid, rest, RunSteps(mid, rest));
  }
}
