/** Every run from the empty tables, and what it can never do. */
module PinAiSafety {
  import opened Common
  import opened AutoRepository
  import opened HostInbox
  import opened AutoResponder
  import opened PinAiProtocol
  import opened PinAiInvariant
  import opened PinAiReceipts

  ghost predicate Good(s: State) {
    Inv(s) && ReceiptInv(s)
  }

  lemma WorkersUseDerivedKeys(s: State)
    requires Inv(s)
    ensures WorkerKeys(s)
  {
    forall t | t in s.runs && s.runs[t].pc.Sending?
      ensures s.runs[t].fenced && s.runs[t].pc.call.key == AutoReceiptKey(s.runs[t].job.key)
    {
      assert RunAgrees(s, t);
    }
  }

  /** The second check passed, so the answered message is newer than the job's boundary. */
  lemma CheckedIsNewer(s: State, run: Run, own: set<nat>)
    requires run.pc.Seen? && PcAfterCheck(s, run, own).Ready?
    ensures Newest(run.pc.seen).Some? && Newest(run.pc.seen).value > run.job.since
  {
    var sorted := Sort(run.pc.seen.items);
    assert Check(run.job, run.pc.seen, run.pc.enabled, run.pc.row, own, s.now).None?;
    assert sorted != [] && sorted[|sorted| - 1].insertedAt > run.job.since;
  }

  /** Settled receipts stay settled, so a program counter that does not move still agrees. */
  lemma UnmovedPcAgrees(s: State, s': State, run: Run)
    requires PcAgrees(s, run) && ReceiptsAdvance(s.receipts, s'.receipts)
    ensures PcAgrees(s', run)
  {
  }

  lemma CallPcAgrees(s: State, run: Run, step: Step)
    requires Calls(step) && WorkerOf(step).Some? && PcAgrees(s, run)
    ensures PcAgrees(s, RunAfter(s, run, step))
  {
  }

  /** Where a worker's own step takes it, from what it has done and what its call knows. */
  lemma MovedPcAgrees(s: State, run: Run, step: Step)
    requires WorkerOf(step).Some? && PcAgrees(s, run)
    requires run.pc.Sending? ==> CallAgrees(s, run.pc.call, Worker(WorkerOf(step).value))
    ensures PcAgrees(s, RunAfter(s, run, step))
  {
    match step
    case CheckDecides(_, own) =>
      if run.pc.Seen? && PcAfterCheck(s, run, own).Ready? {
        CheckedIsNewer(s, run, own);
      }
    case _ =>
      if Calls(step) {
        CallPcAgrees(s, run, step);
      }
  }

  lemma NewRunAgrees(s: State, step: Step)
    requires step.WorkerClaims? && step.token !in s.runs && step.token in Next(s, step).runs
    ensures PcAgrees(s, Next(s, step).runs[step.token])
  {
  }

  /** After any step every program counter agrees with what its worker has done. */
  lemma NextPcAgrees(s: State, step: Step, t: Token)
    requires ReceiptInv(s) && t in Next(s, step).runs && (t in s.runs ==> PcAgrees(s, s.runs[t]))
    ensures PcAgrees(Next(s, step), Next(s, step).runs[t])
  {
    var s' := Next(s, step);
    NextAdvancesReceipts(s, step);
    if t !in s.runs {
      NewRunAgrees(s, step);
      UnmovedPcAgrees(s, s', s'.runs[t]);
    } else if WorkerOf(step) == Some(t) {
      assert HasCall(s, Worker(t)) ==> CallAgrees(s, CallOf(s, Worker(t)), Worker(t));
      MovedPcAgrees(s, s.runs[t], step);
      UnmovedPcAgrees(s, s', RunAfter(s, s.runs[t], step));
    } else {
      UnmovedPcAgrees(s, s', s.runs[t]);
    }
  }

  /** A step that writes no row and fences nobody. */
  predicate WritesNothing(s: State, step: Step) {
    || Reads(step) || Calls(step) || step.Tick?
    || (step.WorkerClaims? && step.token in s.runs)
    || (step.WorkerFences? && !(step.token in s.runs && s.runs[step.token].pc.Ready? &&
                                FenceResult(s.db, s.runs[step.token].job, s.now).Fenced?))
    || (step.WorkerFinishes? && !(step.token in s.runs && s.runs[step.token].pc.Closing?))
  }

  lemma ReadIsQuiet(s: State, step: Step)
    requires Reads(step)
    ensures Quiet(s, Next(s, step))
  {
  }

  lemma CallIsQuiet(s: State, step: Step)
    requires Calls(step) && ReceiptsAdvance(s.receipts, Next(s, step).receipts)
    ensures Quiet(s, Next(s, step))
  {
  }

  lemma WritesNothingIsQuiet(s: State, step: Step)
    requires ReceiptInv(s) && WritesNothing(s, step)
    ensures Quiet(s, Next(s, step))
  {
    if Reads(step) {
      ReadIsQuiet(s, step);
    } else if Calls(step) {
      NextAdvancesReceipts(s, step);
      CallIsQuiet(s, step);
    }
  }

  lemma WritesNothingKeepsInv(s: State, step: Step)
    requires Good(s) && WritesNothing(s, step)
    ensures Inv(Next(s, step))
  {
    var s' := Next(s, step);
    WritesNothingIsQuiet(s, step);
    forall t | t in s'.runs ensures PcAgrees(s', s'.runs[t]) {
      assert RunAgrees(s, t);
      NextPcAgrees(s, step, t);
    }
    QuietKeepsInv(s, s');
  }

  lemma ControlStepKeepsInv(s: State, step: Step)
    requires Inv(s) && step.HostControls?
    ensures Inv(Next(s, step))
  {
    ControlKeepsInv(s, Next(s, step), step.thread, step.mode, step.since);
  }

  lemma RepliesOnlyAddCalls(s: State, step: Step)
    requires step.HostReplies?
    ensures Next(s, step) == s.(db := Next(s, step).db, hosts := Next(s, step).hosts)
  {
  }

  lemma HostsAloneKeepInv(s: State, s': State)
    requires Inv(s) && s' == s.(hosts := s'.hosts)
    ensures Inv(s')
  {
    forall t | t in s'.runs ensures PcAgrees(s', s'.runs[t]) {
      assert RunAgrees(s, t);
    }
    QuietKeepsInv(s, s');
  }

  /** The takeover before a host's reply. */
  lemma ReplyStepKeepsInv(s: State, step: Step)
    requires Inv(s) && step.HostReplies?
    ensures Inv(Next(s, step))
  {
    var s' := Next(s, step);
    var mid := s.(db := s'.db);
    if s'.db != s.db {
      ControlKeepsInv(s, mid, step.to, HUMAN, step.since);
    }
    RepliesOnlyAddCalls(s, step);
    HostsAloneKeepInv(mid, s');
  }

  lemma ClaimStepKeepsInv(s: State, step: Step)
    requires Inv(s) && step.WorkerClaims? && step.token !in s.runs
    ensures Inv(Next(s, step))
  {
    ClaimKeepsInv(s, Next(s, step), step.inbound, step.candidate, step.since, step.token);
  }

  lemma FenceStepKeepsInv(s: State, step: Step)
    requires Inv(s) && step.WorkerFences? && step.token in s.runs && s.runs[step.token].pc.Ready?
    requires FenceResult(s.db, s.runs[step.token].job, s.now).Fenced?
    ensures Inv(Next(s, step))
  {
    FenceKeepsInv(s, Next(s, step), step.token);
  }

  lemma FinishStepKeepsInv(s: State, step: Step)
    requires Inv(s) && step.WorkerFinishes? && step.token in s.runs && s.runs[step.token].pc.Closing?
    ensures Inv(Next(s, step))
  {
    FinishKeepsInv(s, Next(s, step), step.token);
  }

  /** The writes of the workers. */
  lemma WorkerWriteKeepsInv(s: State, step: Step)
    requires Inv(s) && !WritesNothing(s, step) && (step.WorkerClaims? || step.WorkerFences? || step.WorkerFinishes?)
    ensures Inv(Next(s, step))
  {
    match step
    case WorkerClaims(_, _, _, _) => ClaimStepKeepsInv(s, step);
    case WorkerFences(_) => FenceStepKeepsInv(s, step);
    case WorkerFinishes(_) => FinishStepKeepsInv(s, step);
  }

  /** The writes of hosts and of the webhook that enqueues messages. */
  lemma OutsideWriteKeepsInv(s: State, step: Step)
    requires Inv(s) && (step.HostControls? || step.HostReplies? || step.MessageArrives?)
    ensures Inv(Next(s, step))
  {
    match step
    case HostControls(_, _, _) => ControlStepKeepsInv(s, step);
    case HostReplies(_, _, _, _, _, _, _) => ReplyStepKeepsInv(s, step);
    case MessageArrives(key) => EnqueueKeepsInv(s, Next(s, step), key);
  }

  lemma NextKeepsInv(s: State, step: Step)
    requires Good(s)
    ensures Inv(Next(s, step))
  {
    if WritesNothing(s, step) {
      WritesNothingKeepsInv(s, step);
    } else if step.WorkerClaims? || step.WorkerFences? || step.WorkerFinishes? {
      WorkerWriteKeepsInv(s, step);
    } else {
      OutsideWriteKeepsInv(s, step);
    }
  }

  /** Outside `reply` a call is only ever begun, by a worker that has just fenced. */
  lemma CallsOnlyBegin(s: State, run: Run, step: Step)
    requires WorkerOf(step).Some? && !Calls(step) && PcAgrees(s, run) && PcAfter(s, run, step).Sending?
    ensures PcAfter(s, run, step) == run.pc || (PcAfter(s, run, step).call.pc.Preflight? && !run.fenced)
  {
  }

  lemma SendingOutside(s: State, step: Step, t: Token)
    requires RunsAgree(s) && !Calls(step) && t in Next(s, step).runs && Next(s, step).runs[t].pc.Sending?
    ensures var pc := Next(s, step).runs[t].pc;
            t in s.runs && (pc == s.runs[t].pc || (pc.call.pc.Preflight? && !s.runs[t].fenced))
  {
    if t in s.runs && WorkerOf(step) == Some(t) {
      assert RunAgrees(s, t);
      CallsOnlyBegin(s, s.runs[t], step);
    }
  }

  /** No deed of a worker is undone. */
  lemma RunsStay(s: State, step: Step, t: Token)
    requires t in s.runs
    ensures var after := Next(s, step).runs;
            && t in after && after[t].job == s.runs[t].job
            && (s.runs[t].fenced ==> after[t].fenced) && (s.runs[t].finished ==> after[t].finished)
  {
  }

  lemma HostsStay(s: State, step: Step)
    requires !Calls(step)
    ensures forall h :: h in s.hosts ==> h in Next(s, step).hosts && Next(s, step).hosts[h] == s.hosts[h]
    ensures forall h :: h in Next(s, step).hosts && h !in s.hosts ==> Next(s, step).hosts[h].pc.Preflight?
    ensures Next(s, step).receipts == s.receipts && Next(s, step).posts == s.posts && Next(s, step).now >= s.now
  {
  }

  lemma OutsideStepsKeepReceipts(s: State, s': State, step: Step)
    requires Good(s) && !Calls(step) && s' == Next(s, step)
    ensures ReceiptInv(s')
  {
    HostsStay(s, step);
    forall t | t in s.runs
      ensures t in s'.runs && s'.runs[t].job == s.runs[t].job && (s.runs[t].fenced ==> s'.runs[t].fenced)
    {
      RunsStay(s, step, t);
    }
    forall t | t in s'.runs && s'.runs[t].pc.Sending?
      ensures t in s.runs && (s'.runs[t].pc == s.runs[t].pc || (s'.runs[t].pc.call.pc.Preflight? && !s.runs[t].fenced))
    {
      SendingOutside(s, step, t);
    }
    OtherStepsKeepReceipts(s, s');
  }

  lemma NextKeepsReceipts(s: State, step: Step)
    requires Good(s)
    ensures ReceiptInv(Next(s, step))
  {
    if Calls(step) {
      WorkersUseDerivedKeys(s);
      CallStepsKeepReceipts(s, step);
    } else {
      OutsideStepsKeepReceipts(s, Next(s, step), step);
    }
  }

  /** Every state of every run is good. */
  lemma {:induction false} RunsAreGood(s: State, steps: seq<Step>)
    requires Good(s)
    ensures Good(RunSteps(s, steps))
    decreases |steps|
  {
    if steps == [] {
    } else {
      NextKeepsInv(s, steps[0]);
      NextKeepsReceipts(s, steps[0]);
      RunsAreGood(Next(s, steps[0]), steps[1..]);
    }
  }

  lemma InitialIsGood()
    ensures Good(INITIAL)
  {
  }

  /**
   * At most one provider POST per inbound message, over any number of workers, crashes, lease expiries, re-claims
   * and host controls; and at most one POST per (organization, request key) by anybody.
   */
  lemma AtMostOnePost(steps: seq<Step>, i: nat, j: nat)
    requires i < j < |RunSteps(INITIAL, steps).posts|
    ensures var s := RunSteps(INITIAL, steps);
            && s.posts[i].key != s.posts[j].key
            && (s.posts[i].caller.Worker? && s.posts[j].caller.Worker? ==>
                  && s.posts[i].caller.token in s.runs && s.posts[j].caller.token in s.runs
                  && s.runs[s.posts[i].caller.token].job.key != s.runs[s.posts[j].caller.token].job.key)
  {
    InitialIsGood();
    RunsAreGood(INITIAL, steps);
    var s := RunSteps(INITIAL, steps);
    assert PostAgrees(s, s.posts[i]) && PostAgrees(s, s.posts[j]);
  }

  /** A fence succeeds at most once per inbound message, whatever happens to its workers. */
  lemma AtMostOneFence(steps: seq<Step>, t: Token, u: Token)
    requires var s := RunSteps(INITIAL, steps);
             t in s.runs && u in s.runs && s.runs[t].fenced && s.runs[u].fenced &&
               s.runs[t].job.key == s.runs[u].job.key
    ensures t == u
  {
    InitialIsGood();
    RunsAreGood(INITIAL, steps);
  }

  /**
   * While a worker has fenced, has not finished and its lease is not past, the thread is marked sending under its
   * token; so two live fenced windows on one thread are the same worker's.
   */
  lemma FencedWindow(steps: seq<Step>, t: Token, u: Token)
    requires var s := RunSteps(INITIAL, steps);
             t in s.runs && InWindow(s.runs[t]) && Live(s, s.runs[t])
    ensures var s := RunSteps(INITIAL, steps);
            var thread := s.runs[t].job.key.thread;
            && thread in s.db.threads && s.db.threads[thread].leaseToken == Some(t) && s.db.threads[thread].sending
            && (OnThread(s, u, thread) && InWindow(s.runs[u]) && Live(s, s.runs[u]) ==> t == u)
  {
    InitialIsGood();
    RunsAreGood(INITIAL, steps);
    var s := RunSteps(INITIAL, steps);
    assert RunAgrees(s, t);
    assert u in s.runs ==> RunAgrees(s, u);
  }

  /** The fence's conflict, which would throw out of the transaction, cannot happen. */
  lemma FenceNeverConflicts(steps: seq<Step>, t: Token)
    requires t in RunSteps(INITIAL, steps).runs && RunSteps(INITIAL, steps).runs[t].pc.Ready?
    ensures var s := RunSteps(INITIAL, steps); !FenceResult(s.db, s.runs[t].job, s.now).Conflict?
  {
    InitialIsGood();
    RunsAreGood(INITIAL, steps);
    var s := RunSteps(INITIAL, steps);
    assert RunAgrees(s, t);
    if HoldsThread(s.db, s.runs[t].job, s.now) {
      assert ThreadLinked(s, s.runs[t].job.key.thread);
    }
  }

  /**
   * The stored status never lies about a POST: a posted message is SENDING, SENT or UNKNOWN, so SKIPPED and
   * NEEDS_HOST mean that no worker ever posted for it; SENT means its receipt is delivered; and the three
   * dispatched statuses mean that a worker's fence did succeed for it.
   */
  lemma StatusIsTruthful(steps: seq<Step>, key: InboundKey, p: Post)
    requires key in RunSteps(INITIAL, steps).db.inbound
    ensures var s := RunSteps(INITIAL, steps);
            var status := s.db.inbound[key].status;
            && (p in s.posts && p.caller.Worker? && p.caller.token in s.runs &&
                s.runs[p.caller.token].job.key == key ==>
                  Dispatched(status))
            && (status.SENT? ==> SettledAsSent(s, AutoReceiptKey(key)))
            && (Dispatched(status) ==> exists t :: t in s.runs && s.runs[t].fenced && s.runs[t].job.key == key)
  {
    InitialIsGood();
    RunsAreGood(INITIAL, steps);
    var s := RunSteps(INITIAL, steps);
    assert InboundLinked(s, key);
    if p in s.posts && p.caller.Worker? {
      assert PostAgrees(s, p);
      assert RunAgrees(s, p.caller.token);
    }
  }

  ghost predicate StatusAdvances(before: map<InboundKey, InboundRow>, after: map<InboundKey, InboundRow>,
                                 key: InboundKey)
    requires key in before
  {
    && key in after
    && (Dispatched(before[key].status) ==> Dispatched(after[key].status))
    && (Terminal(before[key].status) ==> after[key] == before[key])
  }

  lemma QuietStepsKeepInbound(s: State, step: Step)
    requires Reads(step) || Calls(step) || step.Tick?
    ensures Next(s, step).db == s.db
  {
  }

  lemma ClaimAdvancesStatus(s: State, step: Step, key: InboundKey)
    requires key in s.db.inbound && step.WorkerClaims?
    ensures StatusAdvances(s.db.inbound, Next(s, step).db.inbound, key)
  {
  }

  lemma WriteAdvancesStatus(s: State, step: Step, key: InboundKey)
    requires key in s.db.inbound && InboundLinked(s, key) && (step.WorkerFences? || step.WorkerFinishes?)
    requires step.token in s.runs ==> RunAgrees(s, step.token)
    ensures StatusAdvances(s.db.inbound, Next(s, step).db.inbound, key)
  {
  }

  lemma NextAdvancesStatus(s: State, step: Step, key: InboundKey)
    requires Inv(s) && key in s.db.inbound
    ensures StatusAdvances(s.db.inbound, Next(s, step).db.inbound, key)
  {
    if Reads(step) || Calls(step) || step.Tick? {
      QuietStepsKeepInbound(s, step);
    } else if step.WorkerClaims? {
      ClaimAdvancesStatus(s, step, key);
    } else if step.WorkerFences? || step.WorkerFinishes? {
      assert InboundLinked(s, key);
      assert step.token in s.runs ==> RunAgrees(s, step.token);
      WriteAdvancesStatus(s, step, key);
    }
  }

  /** A message that was dispatched stays dispatched, and a terminal status never changes. */
  lemma {:induction false} StatusesOnlyAdvance(s: State, steps: seq<Step>, key: InboundKey)
    requires Good(s) && key in s.db.inbound
    ensures StatusAdvances(s.db.inbound, RunSteps(s, steps).db.inbound, key)
    decreases |steps|
  {
    if steps == [] {
    } else {
      var s' := Next(s, steps[0]);
      NextAdvancesStatus(s, steps[0], key);
      NextKeepsInv(s, steps[0]);
      NextKeepsReceipts(s, steps[0]);
      StatusesOnlyAdvance(s', steps[1..], key);
    }
  }

  /** The receipts of one run: a replay returns what was stored, and only to the same request. */
  lemma ReplayReturnsStored(steps: seq<Step>, id: CallId)
    requires HasCall(RunSteps(INITIAL, steps), id) && CallOf(RunSteps(INITIAL, steps), id).pc.Returned?
    ensures var s := RunSteps(INITIAL, steps);
            var call := CallOf(s, id);
            && call.key in s.receipts && s.receipts[call.key].status.Delivered?
            && s.receipts[call.key].response == call.pc.message
            && s.receipts[call.key].fingerprint == call.fingerprint
  {
    InitialIsGood();
    RunsAreGood(INITIAL, steps);
    var s := RunSteps(INITIAL, steps);
    assert CallAgrees(s, CallOf(s, id), id);
  }

  /** Over any run a receipt keeps its owner and fingerprint and settles at most once. */
  lemma {:induction false} ReceiptsSettleOnce(s: State, steps: seq<Step>)
    requires Good(s)
    ensures ReceiptsAdvance(s.receipts, RunSteps(s, steps).receipts)
    ensures s.posts <= RunSteps(s, steps).posts
    decreases |steps|
  {
    if steps == [] {
    } else {
      NextAdvancesReceipts(s, steps[0]);
      NextKeepsInv(s, steps[0]);
      NextKeepsReceipts(s, steps[0]);
      ReceiptsSettleOnce(Next(s, steps[0]), steps[1..]);
    }
  }
}
