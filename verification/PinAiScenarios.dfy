/** Concrete runs: where the protocol's promises stop, and how a thread comes back from a crash. */
module PinAiScenarios {
  import opened Common
  import opened AutoRepository
  import opened HostInbox
  import opened AutoResponder
  import opened PinAiProtocol
  import opened PinAiInvariant
  import opened PinAiReceipts
  import opened PinAiSafety
  import opened PinAiTakeover

  lemma RunOne(s: State, a: Step)
    ensures RunSteps(s, [a]) == Next(s, a)
  {
    assert [a][1..] == [];
  }

  lemma {:induction false} RunStepsAppend(s: State, first: seq<Step>, second: seq<Step>)
    ensures RunSteps(s, first + second) == RunSteps(RunSteps(s, first), second)
    decreases |first|
  {
    if first == [] {
      assert first + second == second;
    } else {
      assert (first + second)[1..] == first[1..] + second;
      RunStepsAppend(Next(s, first[0]), first[1..], second);
    }
  }

  /** One run after another. */
  lemma RunBoth(s: State, first: seq<Step>, mid: State, second: seq<Step>, end: State)
    requires RunSteps(s, first) == mid && RunSteps(mid, second) == end
    ensures RunSteps(s, first + second) == end
  {
    RunStepsAppend(s, first, second);
  }

  /** A run of one reading step, told by where it takes its worker. */
  lemma RunRead(s: State, step: Step, run: Run)
    requires Reads(step) && step.token in s.runs && RunAfter(s, s.runs[step.token], step) == run
    ensures RunSteps(s, [step]) == s.(runs := s.runs[step.token := run])
  {
    RunOne(s, step);
    ReadMoves(s, step);
  }

  lemma Overwrites(runs: map<Token, Run>, t: Token, first: Run, second: Run)
    ensures runs[t := first][t := second] == runs[t := second]
  {
  }

  const THREAD := ThreadKey("org", "property", "thread")
  const FIRST := InboundKey(THREAD, 1)
  const SECOND := InboundKey(THREAD, 2)

  /** The page a worker answering message `id` reads twice. */
  function Page(id: nat, at: Time): History {
    History([Message(id, Guest, at, "Hola")], 1, false)
  }

  lemma PageChecks(job: Job, row: ThreadRow, at: Time, now: Time)
    requires row.mode.AUTO? && row.leaseToken == Some(job.token) && job.since < at <= now + CLOCK_SKEW_MS
    ensures Sort(Page(job.key.messageId, at).items) == Page(job.key.messageId, at).items
    ensures Check(job, Page(job.key.messageId, at), true, Some(row), {}, now).None?
    ensures Newest(Page(job.key.messageId, at)) == Some(at)
  {
    assert Page(job.key.messageId, at).items[1..] == [];
  }

  /** The two reads and the verdict, the first or the second time; `own` are the messages the automation sent. */
  function CheckSteps(t: Token, page: History, own: set<nat>): seq<Step> {
    [HistoryRead(t, page)] + ([StateRead(t, true)] + [CheckDecides(t, own)])
  }

  /** Everything a worker does between its claim and its fence. */
  function ConfirmSteps(t: Token, message: nat, page: History, own: set<nat>, text: string): seq<Step> {
    CheckSteps(t, page, own) + ([DraftReturned(t, text, message)] + CheckSteps(t, page, own))
  }

  /** Where a worker that is ready to read stands on its own thread. */
  predicate OnItsThread(s: State, t: Token) {
    && t in s.runs && s.runs[t].job.token == t && s.runs[t].job.key.thread in s.db.threads
    && s.db.threads[s.runs[t].job.key.thread].mode.AUTO?
    && s.db.threads[s.runs[t].job.key.thread].leaseToken == Some(t)
  }

  /** A page whose check passes. */
  predicate Clear(s: State, t: Token, page: History, own: set<nat>)
    requires OnItsThread(s, t)
  {
    Check(s.runs[t].job, page, true, Some(s.db.threads[s.runs[t].job.key.thread]), own, s.now).None?
  }

  /** The run after a passed check. */
  function Passed(run: Run, page: History, draft: Option<Draft>): Run {
    if draft.None? then run.(pc := Drafting(page))
    else run.(pc := Ready(draft.value.text), answered := Newest(page))
  }

  /** A worker on its thread reads that nothing stands in its way. */
  lemma CheckPasses(s: State, t: Token, page: History, own: set<nat>, draft: Option<Draft>)
    requires OnItsThread(s, t) && Clear(s, t, page, own)
    requires s.runs[t].pc == Seen(page, draft, true, Some(s.db.threads[s.runs[t].job.key.thread]))
    requires draft.Some? ==> draft.value.before == page && draft.value.basedOn == s.runs[t].job.key.messageId
    ensures RunAfter(s, s.runs[t], CheckDecides(t, own)) == Passed(s.runs[t], page, draft)
  {
  }

  lemma WorkerReads(s: State, t: Token, page: History, draft: Option<Draft>)
    requires OnItsThread(s, t) && s.runs[t].pc == if draft.None? then Start else Drafted(draft.value)
    ensures RunSteps(s, [HistoryRead(t, page)]) == SetPc(s, t, Checking(page, draft))
    ensures var row := s.db.threads[s.runs[t].job.key.thread];
            RunSteps(SetPc(s, t, Checking(page, draft)), [StateRead(t, true)]) ==
              SetPc(s, t, Seen(page, draft, true, Some(row)))
  {
    var row := s.db.threads[s.runs[t].job.key.thread];
    RunRead(s, HistoryRead(t, page), s.runs[t].(pc := Checking(page, draft)));
    RunRead(SetPc(s, t, Checking(page, draft)), StateRead(t, true),
            s.runs[t].(pc := Seen(page, draft, true, Some(row))));
  }

  lemma WorkerChecks(s: State, t: Token, page: History, own: set<nat>, draft: Option<Draft>)
    requires OnItsThread(s, t) && s.runs[t].pc == if draft.None? then Start else Drafted(draft.value)
    requires Clear(s, t, page, own)
    requires draft.Some? ==> draft.value.before == page && draft.value.basedOn == s.runs[t].job.key.messageId
    ensures RunSteps(s, CheckSteps(t, page, own)) == s.(runs := s.runs[t := Passed(s.runs[t], page, draft)])
  {
    var row := s.db.threads[s.runs[t].job.key.thread];
    var a, b := SetPc(s, t, Checking(page, draft)), SetPc(s, t, Seen(page, draft, true, Some(row)));
    var c := s.(runs := s.runs[t := Passed(s.runs[t], page, draft)]);
    WorkerReads(s, t, page, draft);
    CheckPasses(b, t, page, own, draft);
    RunRead(b, CheckDecides(t, own), Passed(s.runs[t], page, draft));
    RunBoth(a, [StateRead(t, true)], b, [CheckDecides(t, own)], c);
    RunBoth(s, [HistoryRead(t, page)], a, [StateRead(t, true)] + [CheckDecides(t, own)], c);
  }

  /** From the draft to the brink of the fence. */
  lemma DraftConfirms(s: State, t: Token, page: History, own: set<nat>, text: string)
    requires OnItsThread(s, t) && s.runs[t].pc == Drafting(page) && Clear(s, t, page, own)
    ensures RunSteps(s, [DraftReturned(t, text, s.runs[t].job.key.messageId)] + CheckSteps(t, page, own)) ==
            s.(runs := s.runs[t := s.runs[t].(pc := Ready(text), answered := Newest(page))])
  {
    var message := s.runs[t].job.key.messageId;
    var draft := Draft(page, text, message);
    var b := SetPc(s, t, Drafted(draft));
    var last := s.runs[t].(pc := Ready(text), answered := Newest(page));
    Overwrites(s.runs, t, b.runs[t], last);
    assert RunSteps(s, [DraftReturned(t, text, message)]) == b by {
      RunRead(s, DraftReturned(t, text, message), s.runs[t].(pc := Drafted(draft)));
    }
    assert RunSteps(b, CheckSteps(t, page, own)) == s.(runs := s.runs[t := last]) by {
      WorkerChecks(b, t, page, own, Some(draft));
    }
    RunBoth(s, [DraftReturned(t, text, message)], b, CheckSteps(t, page, own), s.(runs := s.runs[t := last]));
  }

  /** From the claim to the brink of the fence: the page is clear and has not changed while the draft was made. */
  lemma WorkerConfirms(s: State, t: Token, page: History, own: set<nat>, text: string)
    requires OnItsThread(s, t) && s.runs[t].pc.Start? && Clear(s, t, page, own)
    ensures RunSteps(s, ConfirmSteps(t, s.runs[t].job.key.messageId, page, own, text)) ==
            s.(runs := s.runs[t := s.runs[t].(pc := Ready(text), answered := Newest(page))])
  {
    var message := s.runs[t].job.key.messageId;
    var a := SetPc(s, t, Drafting(page));
    var last := s.runs[t].(pc := Ready(text), answered := Newest(page));
    Overwrites(s.runs, t, a.runs[t], last);
    assert RunSteps(s, CheckSteps(t, page, own)) == a by {
      WorkerChecks(s, t, page, own, None);
    }
    assert RunSteps(a, [DraftReturned(t, text, message)] + CheckSteps(t, page, own)) ==
           s.(runs := s.runs[t := last]) by {
      DraftConfirms(a, t, page, own, text);
    }
    RunBoth(s, CheckSteps(t, page, own), a, [DraftReturned(t, text, message)] + CheckSteps(t, page, own),
            s.(runs := s.runs[t := last]));
  }

  /** A worker that claims a queued message and gets as far as its fence. */
  function AnswerSteps(key: InboundKey, token: Token, since: Time, at: Time): seq<Step> {
    [WorkerClaims(key, QUEUED, since, token)] +
    ConfirmSteps(token, key.messageId, Page(key.messageId, at), {}, "Hola")
  }

  /** The state it gets to. */
  function Answering(s: State, key: InboundKey, token: Token, since: Time, at: Time): State {
    var job := ClaimedJob(s.db, key, QUEUED, since, s.now, token);
    s.(db := Claim(s.db, key, QUEUED, since, s.now, token),
       runs := s.runs[token := Run(job, Ready("Hola"), false, false, Some(at))])
  }

  /** The thread is automatic, or new, and nobody is at it; the message is queued. */
  predicate Free(s: State, key: InboundKey, token: Token, since: Time) {
    var row := ClaimRow(s.db, key.thread, since);
    row.mode.AUTO? && !row.sending && ClaimSucceeds(s.db, key, QUEUED, since, s.now) && token !in s.runs
  }

  lemma ClaimTakes(s: State, key: InboundKey, token: Token, since: Time)
    requires ClaimSucceeds(s.db, key, QUEUED, since, s.now) && token !in s.runs
    ensures RunSteps(s, [WorkerClaims(key, QUEUED, since, token)]) ==
            s.(db := Claim(s.db, key, QUEUED, since, s.now, token),
               runs := s.runs[token := NewRun(s, key, QUEUED, since, token)])
  {
    var claim := WorkerClaims(key, QUEUED, since, token);
    ClaimWrites(s, claim);
    RunOne(s, claim);
  }

  lemma WorkerAnswers(s: State, key: InboundKey, token: Token, since: Time, at: Time)
    requires Free(s, key, token, since)
    requires Max(since, ClaimRow(s.db, key.thread, since).since) < at <= s.now + CLOCK_SKEW_MS
    ensures RunSteps(s, AnswerSteps(key, token, since, at)) == Answering(s, key, token, since, at)
  {
    var first := NewRun(s, key, QUEUED, since, token);
    var last := first.(pc := Ready("Hola"), answered := Some(at));
    var claimed := s.(db := Claim(s.db, key, QUEUED, since, s.now, token), runs := s.runs[token := first]);
    assert RunSteps(s, [WorkerClaims(key, QUEUED, since, token)]) == claimed by {
      ClaimTakes(s, key, token, since);
    }
    Overwrites(s.runs, token, first, last);
    var confirm := ConfirmSteps(token, key.messageId, Page(key.messageId, at), {}, "Hola");
    assert RunSteps(claimed, confirm) == claimed.(runs := s.runs[token := last]) by {
      PageChecks(first.job, claimed.db.threads[key.thread], at, s.now);
      WorkerConfirms(claimed, token, Page(key.messageId, at), {}, "Hola");
    }
    RunBoth(s, [WorkerClaims(key, QUEUED, since, token)], claimed, confirm,
            claimed.(runs := s.runs[token := last]));
  }

  /** The fence it has come to succeeds. */
  lemma AnswererFences(s: State, key: InboundKey, token: Token, since: Time, at: Time)
    requires Free(s, key, token, since)
    ensures FenceSucceeds(Answering(s, key, token, since, at), token)
  {
  }

  /** A guest message that arrives now and is answered although it is as old as `at`. */
  lemma ArrivedIsAnswered(s: State, key: InboundKey, token: Token, at: Time)
    requires key.thread in s.db.threads && key !in s.db.inbound && token !in s.runs
    requires var row := s.db.threads[key.thread];
             row.mode.AUTO? && !row.sending && LeaseFree(row, s.now) && row.since < at <= s.now
    ensures var l := RunSteps(s, [MessageArrives(key)] + AnswerSteps(key, token, s.db.threads[key.thread].since, at));
            FenceSucceeds(l, token) && OnThread(l, token, key.thread) && l.runs[token].answered == Some(at)
  {
    var since := s.db.threads[key.thread].since;
    ArrivalWrites(s, MessageArrives(key));
    RunOne(s, MessageArrives(key));
    var arrived := s.(db := Enqueue(s.db, key));
    WorkerAnswers(arrived, key, token, since, at);
    AnswererFences(arrived, key, token, since, at);
    RunStepsAppend(s, [MessageArrives(key)], AnswerSteps(key, token, since, at));
  }

  /** Without a resume the boundary stays, and every fence answers a message after it. */
  lemma {:induction false} BoundaryHolds(s: State, steps: seq<Step>, thread: ThreadKey)
    requires thread in s.db.threads && NeverResumed(steps, thread)
    ensures var after := RunSteps(s, steps).db.threads;
            thread in after && after[thread].since == s.db.threads[thread].since
    decreases |steps|
  {
    if steps == [] {
    } else {
      BoundaryStays(s, steps[0], thread);
      BoundaryHolds(Next(s, steps[0]), steps[1..], thread);
    }
  }

  lemma AnswersAreAfterBoundary(s: State, steps: seq<Step>, thread: ThreadKey, t: Token)
    requires Good(s) && thread in s.db.threads && NeverResumed(steps, thread)
    requires FenceSucceeds(RunSteps(s, steps), t) && OnThread(RunSteps(s, steps), t, thread)
    ensures var run := RunSteps(s, steps).runs[t];
            run.answered.Some? && run.answered.value > s.db.threads[thread].since
  {
    RunsAreGood(s, steps);
    BoundaryHolds(s, steps, thread);
    assert RunAgrees(RunSteps(s, steps), t) && ThreadLinked(RunSteps(s, steps), thread);
  }

  /** A run to a fence on the thread that answers a message no later than `boundary`. */
  ghost predicate AnswersOlder(s: State, steps: seq<Step>, thread: ThreadKey, boundary: Time) {
    exists t :: FenceSucceeds(RunSteps(s, steps), t) && OnThread(RunSteps(s, steps), t, thread) &&
                RunSteps(s, steps).runs[t].answered.Some? && RunSteps(s, steps).runs[t].answered.value <= boundary
  }

  lemma NoOlderAnswers(s: State, steps: seq<Step>, thread: ThreadKey, boundary: Time)
    requires Good(s) && thread in s.db.threads && NeverResumed(steps, thread) && s.db.threads[thread].since >= boundary
    ensures !AnswersOlder(s, steps, thread, boundary)
  {
    forall t | FenceSucceeds(RunSteps(s, steps), t) && OnThread(RunSteps(s, steps), t, thread)
      ensures RunSteps(s, steps).runs[t].answered.Some? && RunSteps(s, steps).runs[t].answered.value > boundary
    {
      AnswersAreAfterBoundary(s, steps, thread, t);
    }
  }

  lemma OlderIsAnswered(s: State, key: InboundKey, token: Token, boundary: Time) returns (steps: seq<Step>)
    requires key.thread in s.db.threads && key !in s.db.inbound && token !in s.runs
    requires var row := s.db.threads[key.thread];
             row.mode.AUTO? && !row.sending && LeaseFree(row, s.now) && row.since < boundary <= s.now
    ensures NeverResumed(steps, key.thread) && AnswersOlder(s, steps, key.thread, boundary)
  {
    steps := [MessageArrives(key)] + AnswerSteps(key, token, s.db.threads[key.thread].since, boundary);
    ArrivedIsAnswered(s, key, token, boundary);
  }

  /**
   * Resume safety, exactly. On an idle automatic thread, a message no later than a boundary can still be answered
   * before the next resume if and only if the thread's row carries an earlier boundary: the one a late control has
   * left there.
   */
  lemma ResumeHoldsExactlyWhen(s: State, thread: ThreadKey, boundary: Time, message: nat, token: Token)
    requires Good(s) && thread in s.db.threads && boundary <= s.now
    requires var row := s.db.threads[thread]; row.mode.AUTO? && !row.sending && LeaseFree(row, s.now)
    requires InboundKey(thread, message) !in s.db.inbound && token !in s.runs
    ensures (exists steps :: NeverResumed(steps, thread) && AnswersOlder(s, steps, thread, boundary)) <==>
            s.db.threads[thread].since < boundary
  {
    if s.db.threads[thread].since < boundary {
      var steps := OlderIsAnswered(s, InboundKey(thread, message), token, boundary);
    } else {
      forall steps | NeverResumed(steps, thread) ensures !AnswersOlder(s, steps, thread, boundary) {
        NoOlderAnswers(s, steps, thread, boundary);
      }
    }
  }

  lemma RunArrival(s: State, key: InboundKey)
    ensures RunSteps(s, [MessageArrives(key)]) == s.(db := Enqueue(s.db, key))
  {
    RunOne(s, MessageArrives(key));
    ArrivalWrites(s, MessageArrives(key));
  }

  lemma RunTick(s: State, elapsed: nat)
    ensures RunSteps(s, [Tick(elapsed)]) == s.(now := s.now + elapsed)
  {
    RunOne(s, Tick(elapsed));
    TickWrites(s, Tick(elapsed));
  }

  lemma LateControl(s: State)
    requires s.now == 20 && THREAD in s.db.threads && s.db.threads[THREAD] == ThreadRow(AUTO, 10, None, None, false)
    requires FIRST in s.db.inbound && s.db.inbound[FIRST].status.QUEUED? && s.runs == map[]
    ensures AnswersOlder(s, [HostControls(THREAD, AUTO, 5)] + AnswerSteps(FIRST, 1, 5, 8), THREAD, 8)
  {
    var late := HostControls(THREAD, AUTO, 5);
    ControlWrites(s, late);
    RunOne(s, late);
    WorkerAnswers(Next(s, late), FIRST, 1, 5, 8);
    AnswererFences(Next(s, late), FIRST, 1, 5, 8);
    RunStepsAppend(s, [late], AnswerSteps(FIRST, 1, 5, 8));
    assert OnThread(Answering(Next(s, late), FIRST, 1, 5, 8), 1, THREAD);
  }

  /** One message, at time 20. */
  lemma MessageWaits() returns (steps: seq<Step>)
    ensures RunSteps(INITIAL, steps) == INITIAL.(now := 20, db := Enqueue(INITIAL.db, FIRST))
  {
    RunTick(INITIAL, 20);
    RunArrival(INITIAL.(now := 20), FIRST);
    RunBoth(INITIAL, [Tick(20)], INITIAL.(now := 20), [MessageArrives(FIRST)],
            INITIAL.(now := 20, db := Enqueue(INITIAL.db, FIRST)));
    steps := [Tick(20)] + [MessageArrives(FIRST)];
  }

  /**
   * Resume controls that commit out of order. The boundary is read from the clock before the transaction, so an
   * earlier one can commit last; the thread then answers a message older than the boundary committed first.
   */
  lemma LateResumeLowersBoundary() returns (before: seq<Step>, after: seq<Step>)
    ensures var s := RunSteps(INITIAL, before);
            CanResume(s.db, THREAD, 10, s.now) &&
              AnswersOlder(Next(s, HostControls(THREAD, AUTO, 10)), after, THREAD, 8)
  {
    before := MessageWaits();
    var s := RunSteps(INITIAL, before);
    ControlWrites(s, HostControls(THREAD, AUTO, 10));
    LateControl(Next(s, HostControls(THREAD, AUTO, 10)));
    after := [HostControls(THREAD, AUTO, 5)] + AnswerSteps(FIRST, 1, 5, 8);
  }

  /** A worker at its fence, which it passes, and then stalls past its lease. */
  lemma FencedWorkerStalls(s: State, token: Token)
    requires FenceSucceeds(s, token)
    ensures var l := RunSteps(s, [WorkerFences(token), Tick(LEASE_MS + 1)]);
            && l == s.(now := s.now + LEASE_MS + 1, db := Fence(s.db, s.runs[token].job, s.now),
                       runs := s.runs[token := RunAfter(s, s.runs[token], WorkerFences(token))])
  {
    var fence, tick := WorkerFences(token), Tick(LEASE_MS + 1);
    FenceWrites(s, fence);
    TickWrites(Next(s, fence), tick);
    RunOne(s, fence);
    RunOne(Next(s, fence), tick);
    RunStepsAppend(s, [fence], [tick]);
    assert [fence, tick] == [fence] + [tick];
  }

  /** Two messages of a new thread. */
  lemma MessagesWait() returns (steps: seq<Step>)
    ensures RunSteps(INITIAL, steps) == INITIAL.(db := Enqueue(Enqueue(INITIAL.db, FIRST), SECOND))
  {
    var mid := INITIAL.(db := Enqueue(INITIAL.db, FIRST));
    RunArrival(INITIAL, FIRST);
    RunArrival(mid, SECOND);
    RunBoth(INITIAL, [MessageArrives(FIRST)], mid, [MessageArrives(SECOND)], mid.(db := Enqueue(mid.db, SECOND)));
    steps := [MessageArrives(FIRST)] + [MessageArrives(SECOND)];
  }

  /** A worker claims a message, fences it and stalls past its lease. */
  lemma WorkerStallsFrom(s: State, key: InboundKey, token: Token, since: Time, at: Time)
    returns (steps: seq<Step>, l: State)
    requires Free(s, key, token, since)
    requires Max(since, ClaimRow(s.db, key.thread, since).since) < at <= s.now + CLOCK_SKEW_MS
    ensures RunSteps(s, steps) == l && l.runs.Keys == s.runs.Keys + {token} && l.receipts == s.receipts
    ensures l.runs[token].job.key == key && l.runs[token].pc == Sending(AutoCall(l.runs[token].job, "Hola"))
    ensures key.thread in l.db.threads && LeaseFree(l.db.threads[key.thread], l.now)
    ensures forall other :: other in s.db.inbound && other != key ==>
            other in l.db.inbound && l.db.inbound[other] == s.db.inbound[other]
  {
    var answering := Answering(s, key, token, since, at);
    WorkerAnswers(s, key, token, since, at);
    AnswererFences(s, key, token, since, at);
    FencedWorkerStalls(answering, token);
    var rest := [WorkerFences(token), Tick(LEASE_MS + 1)];
    l := RunSteps(answering, rest);
    RunBoth(s, AnswerSteps(key, token, since, at), answering, rest, l);
    steps := AnswerSteps(key, token, since, at) + rest;
  }

  /** Two messages of the thread, the first of which a worker has fenced before it stalled past its lease. */
  lemma WorkerStalls() returns (steps: seq<Step>, job: Job)
    ensures var s := RunSteps(INITIAL, steps);
            && THREAD in s.db.threads && SECOND in s.db.inbound && s.db.inbound[SECOND].status.QUEUED?
            && LeaseFree(s.db.threads[THREAD], s.now) && s.runs.Keys == {1}
            && job.key == FIRST && s.receipts == map[]
            && s.runs[1].job == job && s.runs[1].pc == Sending(AutoCall(job, "Hola"))
  {
    var arrivals := MessagesWait();
    var s := RunSteps(INITIAL, arrivals);
    var stalling, l := WorkerStallsFrom(s, FIRST, 1, 0, 8);
    RunBoth(INITIAL, arrivals, s, stalling, l);
    steps := arrivals + stalling;
    job := l.runs[1].job;
  }

  /** One queued message and one failing worker clear the sending flag of a thread whose lease has run out. */
  lemma FailingWorkerClears(s: State, key: InboundKey, token: Token, since: Time) returns (steps: seq<Step>)
    requires key.thread in s.db.threads && LeaseFree(s.db.threads[key.thread], s.now)
    requires key in s.db.inbound && s.db.inbound[key].status.QUEUED? && token !in s.runs
    ensures var after := RunSteps(s, steps);
            && key.thread in after.db.threads && key in after.db.inbound
            && !after.db.threads[key.thread].sending && after.db.threads[key.thread].mode.HUMAN?
            && after.db.threads[key.thread].leaseUntil.None?
            && after.db.inbound[key].status.NEEDS_HOST?
            && (forall t :: t in s.runs ==> t in after.runs && after.runs[t] == s.runs[t])
            && after.receipts == s.receipts && after.now == s.now
  {
    var claim := WorkerClaims(key, QUEUED, since, token);
    var fail, finish := WorkerFails(token, OTHER("timeout")), WorkerFinishes(token);
    steps := [claim] + ([fail] + [finish]);
    var claimed := s.(db := Claim(s.db, key, QUEUED, since, s.now, token),
                      runs := s.runs[token := NewRun(s, key, QUEUED, since, token)]);
    assert RunSteps(s, [claim]) == claimed by {
      ClaimTakes(s, key, token, since);
    }
    var failed := SetPc(claimed, token, Closing(NEEDS_HOST));
    RunRead(claimed, fail, claimed.runs[token].(pc := Closing(NEEDS_HOST)));
    FinishWrites(failed, finish);
    RunOne(failed, finish);
    RunBoth(claimed, [fail], failed, [finish], Next(failed, finish));
    RunBoth(s, [claim], claimed, [fail] + [finish], Next(failed, finish));
    assert HoldsInbound(failed.db, failed.runs[token].job, PROCESSING);
    assert failed.db.threads[key.thread].leaseToken == Some(token);
  }

  /** A takeover of a thread whose flag is clear, while a worker is past its fence and short of its receipt. */
  lemma TakeoverMissesStalled(s: State, t: Token, thread: ThreadKey) returns (after: seq<Step>)
    requires Good(s) && thread in s.db.threads && !s.db.threads[thread].sending
    requires OnThread(s, t, thread) && s.runs[t].pc.Sending? && s.runs[t].pc.call.pc.Preflight?
    requires s.runs[t].pc.call.key !in s.receipts
    ensures var taken := Next(s, HostControls(thread, HUMAN, 0));
            TakenOver(taken, thread) && NeverResumed(after, thread) && PostsLater(taken, after, thread)
  {
    var takeover := HostControls(thread, HUMAN, 0);
    NextKeepsInv(s, takeover);
    NextKeepsReceipts(s, takeover);
    ControlWrites(s, takeover);
    assert CanStillPost(Next(s, takeover), t, thread);
    after := StalePost(Next(s, takeover), t, thread);
  }

  /**
   * The stalled worker's consequence: another message's worker clears the sending flag, the host takes over and is
   * told that nothing is being sent, and the stalled worker posts afterwards.
   */
  lemma StalledWorkerPostsAfterTakeover()
    ensures exists before, after ::
              var s := Next(RunSteps(INITIAL, before), HostControls(THREAD, HUMAN, 0));
              TakenOver(s, THREAD) && NeverResumed(after, THREAD) && PostsLater(s, after, THREAD)
  {
    var stalled, job := WorkerStalls();
    var mid := RunSteps(INITIAL, stalled);
    var cleared := FailingWorkerClears(mid, SECOND, 2, 0);
    var before := stalled + cleared;
    RunStepsAppend(INITIAL, stalled, cleared);
    InitialIsGood();
    RunsAreGood(INITIAL, before);
    var after := TakeoverMissesStalled(RunSteps(INITIAL, before), 1, THREAD);
  }

  /**
   * A thread is never wedged. Whatever crashed on it, once its lease has run out, one queued message and one failing
   * worker are enough to clear the sending flag, and the host can then resume.
   */
  lemma ThreadRecovers(s: State, key: InboundKey, token: Token, since: Time) returns (steps: seq<Step>)
    requires key.thread in s.db.threads && LeaseFree(s.db.threads[key.thread], s.now)
    requires key in s.db.inbound && s.db.inbound[key].status.QUEUED? && token !in s.runs
    ensures var after := RunSteps(s, steps);
            key.thread in after.db.threads &&
            var row := after.db.threads[key.thread];
            row.mode.AUTO? && row.since == since && row.leaseUntil.None? && !row.sending
  {
    var clearing := FailingWorkerClears(s, key, token, since);
    var cleared, resume := RunSteps(s, clearing), HostControls(key.thread, AUTO, since);
    assert CanResume(cleared.db, key.thread, since, cleared.now);
    ControlWrites(cleared, resume);
    RunOne(cleared, resume);
    RunStepsAppend(s, clearing, [resume]);
    steps := clearing + [resume];
  }
}
