/** What a host's takeover and a host's resume guarantee over the rest of the run. */
module PinAiTakeover {
  import opened Common
  import opened AutoRepository
  import opened HostInbox
  import opened AutoResponder
  import opened PinAiProtocol
  import opened PinAiInvariant
  import opened PinAiReceipts
  import opened PinAiSafety

  predicate Resumes(step: Step, thread: ThreadKey) {
    step.HostControls? && step.thread == thread && step.mode.AUTO?
  }

  predicate NeverResumed(steps: seq<Step>, thread: ThreadKey) {
    forall i :: 0 <= i < |steps| ==> !Resumes(steps[i], thread)
  }

  predicate HumanMode(s: State, thread: ThreadKey) {
    thread in s.db.threads && s.db.threads[thread].mode.HUMAN?
  }

  /** A worker is never forgotten: its job stays, and what it did stays done. */
  ghost predicate RunAdvances(s: State, s': State, t: Token)
    requires t in s.runs
  {
    && t in s'.runs && s'.runs[t].job == s.runs[t].job
    && (s.runs[t].fenced ==> s'.runs[t].fenced)
    && (s.runs[t].finished ==> s'.runs[t].finished)
  }

  ghost predicate RunsAdvance(s: State, s': State) {
    s'.now >= s.now && forall t :: t in s.runs ==> RunAdvances(s, s', t)
  }

  lemma NextAdvancesRun(s: State, step: Step, t: Token)
    requires t in s.runs
    ensures RunAdvances(s, Next(s, step), t)
  {
    RunsStay(s, step, t);
  }

  lemma NextAdvancesRuns(s: State, step: Step)
    ensures RunsAdvance(s, Next(s, step))
  {
    forall t | t in s.runs ensures RunAdvances(s, Next(s, step), t) {
      NextAdvancesRun(s, step, t);
    }
    assert Next(s, step).now >= s.now;
  }

  lemma AdvanceIsTransitive(a: State, b: State, c: State)
    requires RunsAdvance(a, b) && RunsAdvance(b, c)
    ensures RunsAdvance(a, c)
  {
    forall t | t in a.runs ensures RunAdvances(a, c, t) {
      assert RunAdvances(a, b, t) && RunAdvances(b, c, t);
    }
  }

  lemma {:induction false} RunStepsAdvances(s: State, steps: seq<Step>)
    ensures RunsAdvance(s, RunSteps(s, steps))
    decreases |steps|
  {
    if steps == [] {
    } else {
      var s' := Next(s, steps[0]);
      NextAdvancesRuns(s, steps[0]);
      RunStepsAdvances(s', steps[1..]);
      AdvanceIsTransitive(s, s', RunSteps(s', steps[1..]));
    }
  }

  /** A thread in human hands stays there until it is resumed. */
  lemma HumanStays(s: State, step: Step, thread: ThreadKey)
    requires HumanMode(s, thread) && !Resumes(step, thread)
    ensures HumanMode(Next(s, step), thread)
  {
    match step
    case WorkerClaims(k, candidate, since, token) =>
    case WorkerFinishes(t) =>
    case _ =>
  }

  lemma HumanBlocksFence(s: State, step: Step, thread: ThreadKey, t: Token)
    requires HumanMode(s, thread) && OnThread(Next(s, step), t, thread) && Next(s, step).runs[t].fenced
    ensures t in s.runs && s.runs[t].fenced
  {
    match step
    case WorkerClaims(k, candidate, since, token) =>
    case WorkerFences(u) =>
    case _ =>
  }

  /** A fence that had succeeded by the end of a run without a resume had succeeded at its start. */
  lemma {:induction false} HumanBlocksFences(s: State, steps: seq<Step>, thread: ThreadKey, t: Token)
    requires HumanMode(s, thread) && NeverResumed(steps, thread)
    requires OnThread(RunSteps(s, steps), t, thread) && RunSteps(s, steps).runs[t].fenced
    ensures t in s.runs && s.runs[t].fenced && s.runs[t].job == RunSteps(s, steps).runs[t].job
    decreases |steps|
  {
    if steps == [] {
    } else {
      var s' := Next(s, steps[0]);
      HumanStays(s, steps[0], thread);
      HumanBlocksFences(s', steps[1..], thread, t);
      HumanBlocksFence(s, steps[0], thread, t);
      NextAdvancesRun(s, steps[0], t);
    }
  }

  ghost predicate NewPost(s: State, steps: seq<Step>, i: int) {
    |s.posts| <= i < |RunSteps(s, steps).posts|
  }

  lemma FirstNewPost(s: State, step: Step, i: int)
    requires RunsAgree(s) && |s.posts| <= i < |Next(s, step).posts|
    ensures var p := Next(s, step).posts[i];
            && p.at >= s.now
            && (p.caller.Worker? && p.caller.token in s.runs ==> !s.runs[p.caller.token].finished)
  {
    assert step.CallPosts?;
    if step.call.Worker? {
      assert RunAgrees(s, step.call.token);
    }
  }

  /** A post made later in a run is stamped no earlier, by a worker that had not finished. */
  lemma {:induction false} LaterPosts(s: State, steps: seq<Step>, i: int)
    requires Good(s) && NewPost(s, steps, i)
    ensures var p := RunSteps(s, steps).posts[i];
            && p.at >= s.now
            && (p.caller.Worker? && p.caller.token in s.runs ==> !s.runs[p.caller.token].finished)
    decreases |steps|
  {
    if steps == [] {
    } else {
      var s' := Next(s, steps[0]);
      NextKeepsInv(s, steps[0]);
      NextKeepsReceipts(s, steps[0]);
      NextAdvancesRuns(s, steps[0]);
      NextAdvancesReceipts(s, steps[0]);
      ReceiptsSettleOnce(s', steps[1..]);
      if i < |s'.posts| {
        assert RunSteps(s', steps[1..]).posts[i] == s'.posts[i];
        FirstNewPost(s, steps[0], i);
      } else {
        LaterPosts(s', steps[1..], i);
      }
    }
  }

  /** The state right after a takeover that reported `sending: false`. */
  ghost predicate TakenOver(s: State, thread: ThreadKey) {
    Good(s) && HumanMode(s, thread) && !s.db.threads[thread].sending
  }

  /**
   * Takeover safety. After a HUMAN control that reports no send in progress, and until an AUTO control: no fence
   * succeeds on the thread, and every automatic POST that still appears on it comes from a worker fenced before,
   * after that worker's lease had run out. Workers that respect their lease therefore post nothing.
   */
  lemma TakeoverSafety(before: seq<Step>, thread: ThreadKey, since: Time, after: seq<Step>)
    requires NeverResumed(after, thread)
    requires !Next(RunSteps(INITIAL, before), HostControls(thread, HUMAN, since)).db.threads[thread].sending
    ensures var s := Next(RunSteps(INITIAL, before), HostControls(thread, HUMAN, since));
            var later := RunSteps(s, after);
            && (forall t :: OnThread(later, t, thread) && later.runs[t].fenced ==> t in s.runs && s.runs[t].fenced)
            && (forall i :: NewPost(s, after, i) && AutoPost(later, later.posts[i], thread) ==>
                  later.posts[i].at > later.runs[later.posts[i].caller.token].job.leaseUntil)
  {
    InitialIsGood();
    RunsAreGood(INITIAL, before);
    var start := RunSteps(INITIAL, before);
    var s := Next(start, HostControls(thread, HUMAN, since));
    NextKeepsInv(start, HostControls(thread, HUMAN, since));
    NextKeepsReceipts(start, HostControls(thread, HUMAN, since));
    RunsAreGood(s, after);
    var later := RunSteps(s, after);
    forall t | OnThread(later, t, thread) && later.runs[t].fenced ensures t in s.runs && s.runs[t].fenced {
      HumanBlocksFences(s, after, thread, t);
    }
    forall i | NewPost(s, after, i) && AutoPost(later, later.posts[i], thread)
      ensures later.posts[i].at > later.runs[later.posts[i].caller.token].job.leaseUntil
    {
      var t := later.posts[i].caller.token;
      LaterPosts(s, after, i);
      assert PostAgrees(later, later.posts[i]);
      HumanBlocksFences(s, after, thread, t);
      assert t in s.runs && s.runs[t].fenced && !s.runs[t].finished;
      assert RunAgrees(s, t);
    }
  }

  /** A worker past its fence that has not reached its POST, and whose receipt does not stop it. */
  predicate CanStillPost(s: State, t: Token, thread: ThreadKey) {
    && OnThread(s, t, thread) && s.runs[t].pc.Sending?
    && (s.runs[t].pc.call.pc.Reserved? || (s.runs[t].pc.call.pc.Preflight? && s.runs[t].pc.call.key !in s.receipts))
  }

  ghost predicate PostsLater(s: State, steps: seq<Step>, thread: ThreadKey) {
    exists i :: NewPost(s, steps, i) && AutoPost(RunSteps(s, steps), RunSteps(s, steps).posts[i], thread)
  }

  lemma FenceSends(s: State, step: Step, t: Token)
    requires step.WorkerFences? && t in Next(s, step).runs && Next(s, step).runs[t].pc.Sending?
    ensures t in s.runs && s.runs[t].job == Next(s, step).runs[t].job
    ensures s.runs[t].pc == Next(s, step).runs[t].pc ||
            (s.runs[t].pc.Ready? && FenceResult(s.db, s.runs[t].job, s.now).Fenced?)
  {
  }

  lemma NothingElseSends(s: State, step: Step, t: Token)
    requires !Calls(step) && !step.WorkerFences? && t in Next(s, step).runs && Next(s, step).runs[t].pc.Sending?
    ensures t in s.runs && s.runs[t] == Next(s, step).runs[t]
  {
    match step
    case WorkerClaims(k, candidate, since, token) =>
    case CheckDecides(u, own) =>
    case _ =>
  }

  /** Outside `reply`, only a successful fence puts a worker inside it. */
  lemma SendingFromFence(s: State, step: Step, t: Token)
    requires !Calls(step) && t in Next(s, step).runs && Next(s, step).runs[t].pc.Sending?
    ensures t in s.runs && s.runs[t].job == Next(s, step).runs[t].job
    ensures s.runs[t].pc == Next(s, step).runs[t].pc ||
            (s.runs[t].pc.Ready? && FenceResult(s.db, s.runs[t].job, s.now).Fenced?)
  {
    if step.WorkerFences? {
      FenceSends(s, step, t);
    } else {
      NothingElseSends(s, step, t);
    }
  }

  /** Inside `reply`, a worker's call only moves forward, and reserves only a free key. */
  lemma SendingFromCall(s: State, step: Step, t: Token)
    requires Calls(step) && t in Next(s, step).runs && Next(s, step).runs[t].pc.Sending?
    ensures t in s.runs && s.runs[t].job == Next(s, step).runs[t].job && s.runs[t].pc.Sending?
    ensures var call, call' := s.runs[t].pc.call, Next(s, step).runs[t].pc.call;
            && call.key == call'.key
            && (call'.pc.Preflight? ==> call.pc.Preflight?)
            && (call'.pc.Reserved? ==> call.pc.Reserved? || (call.pc.Preflight? && call.key !in s.receipts))
  {
    if step.call == Worker(t) {
      assert HasCall(s, step.call);
    } else {
      assert Next(s, step).runs[t] == s.runs[t];
    }
  }

  lemma StillCannotPost(s: State, step: Step, thread: ThreadKey, t: Token)
    requires HumanMode(s, thread) && !CanStillPost(s, t, thread)
    requires ReceiptsAdvance(s.receipts, Next(s, step).receipts)
    ensures !CanStillPost(Next(s, step), t, thread)
  {
    if OnThread(Next(s, step), t, thread) && Next(s, step).runs[t].pc.Sending? {
      if Calls(step) {
        SendingFromCall(s, step, t);
      } else {
        SendingFromFence(s, step, t);
      }
    }
  }

  lemma NobodyPostsStep(s: State, step: Step, thread: ThreadKey)
    requires ReceiptInv(s) && HumanMode(s, thread) && !Resumes(step, thread)
    requires forall t :: !CanStillPost(s, t, thread)
    ensures forall t :: !CanStillPost(Next(s, step), t, thread)
    ensures forall i :: |s.posts| <= i < |Next(s, step).posts| ==>
            !AutoPost(Next(s, step), Next(s, step).posts[i], thread)
  {
    NextAdvancesReceipts(s, step);
    forall t ensures !CanStillPost(Next(s, step), t, thread) {
      StillCannotPost(s, step, thread, t);
    }
    if step.CallPosts? && step.call.Worker? {
      assert !CanStillPost(s, step.call.token, thread);
    }
  }

  lemma {:induction false} NobodyPosts(s: State, steps: seq<Step>, thread: ThreadKey)
    requires Good(s) && HumanMode(s, thread) && NeverResumed(steps, thread)
    requires forall t :: !CanStillPost(s, t, thread)
    ensures !PostsLater(s, steps, thread)
    decreases |steps|
  {
    if steps == [] {
    } else {
      var s', later := Next(s, steps[0]), RunSteps(s, steps);
      NextKeepsInv(s, steps[0]);
      NextKeepsReceipts(s, steps[0]);
      NobodyPostsStep(s, steps[0], thread);
      HumanStays(s, steps[0], thread);
      NobodyPosts(s', steps[1..], thread);
      ReceiptsSettleOnce(s', steps[1..]);
      RunStepsAdvances(s', steps[1..]);
      forall i | NewPost(s, steps, i) ensures !AutoPost(later, later.posts[i], thread) {
        if i < |s'.posts| {
          assert later.posts[i] == s'.posts[i];
          assert PostAgrees(s', s'.posts[i]);
        } else {
          assert NewPost(s', steps[1..], i);
        }
      }
    }
  }

  lemma StalePost(s: State, t: Token, thread: ThreadKey) returns (steps: seq<Step>)
    requires CanStillPost(s, t, thread)
    ensures NeverResumed(steps, thread) && PostsLater(s, steps, thread)
  {
    var id := Worker(t);
    if s.runs[t].pc.call.pc.Reserved? {
      steps := [CallPosts(id)];
      assert RunSteps(s, steps) == Next(s, CallPosts(id)) by {
        assert steps[1..] == [];
      }
    } else {
      steps := [CallReserves(id), CallPosts(id)];
      var s' := Next(s, CallReserves(id));
      assert RunSteps(s', [CallPosts(id)]) == Next(s', CallPosts(id)) by {
        assert [CallPosts(id)][1..] == [];
      }
      assert steps[1..] == [CallPosts(id)];
    }
    assert NewPost(s, steps, |s.posts|);
  }

  /**
   * The limit of takeover safety. `sending: false` alone does not rule a later automatic POST out: one is possible
   * before any resume exactly when some worker is past its fence and short of its POST at the takeover.
   */
  lemma TakeoverIsFinalExactlyWhen(s: State, thread: ThreadKey)
    requires TakenOver(s, thread)
    ensures (exists steps :: NeverResumed(steps, thread) && PostsLater(s, steps, thread)) <==>
            (exists t :: CanStillPost(s, t, thread))
    ensures forall t :: CanStillPost(s, t, thread) ==> s.now > s.runs[t].job.leaseUntil
  {
    forall t | CanStillPost(s, t, thread) ensures s.now > s.runs[t].job.leaseUntil {
      assert RunAgrees(s, t);
    }
    if t :| CanStillPost(s, t, thread) {
      var steps := StalePost(s, t, thread);
    } else {
      forall steps | NeverResumed(steps, thread) ensures !PostsLater(s, steps, thread) {
        NobodyPosts(s, steps, thread);
      }
    }
  }

  /** Whatever lease the workers of `earlier` still hold on the thread has run out. */
  ghost predicate OldLeasesPast(s: State, thread: ThreadKey, earlier: set<Token>) {
    && thread in s.db.threads && earlier <= s.runs.Keys
    && (s.db.threads[thread].leaseToken.Some? && s.db.threads[thread].leaseToken.value in earlier ==>
          LeaseFree(s.db.threads[thread], s.now))
  }

  predicate NoEarlierResume(steps: seq<Step>, thread: ThreadKey, since: Time) {
    forall i :: 0 <= i < |steps| && Resumes(steps[i], thread) ==> steps[i].since >= since
  }

  lemma OldLeasesStay(s: State, step: Step, thread: ThreadKey, earlier: set<Token>)
    requires OldLeasesPast(s, thread, earlier)
    ensures OldLeasesPast(Next(s, step), thread, earlier)
  {
  }

  /** Only a resume moves the boundary of a thread. */
  lemma BoundaryStays(s: State, step: Step, thread: ThreadKey)
    requires thread in s.db.threads
    ensures var after := Next(s, step).db.threads;
            thread in after &&
            (after[thread].since == s.db.threads[thread].since ||
             (Resumes(step, thread) && after[thread].since == step.since))
  {
  }

  lemma {:induction false} ResumeRun(s: State, steps: seq<Step>, thread: ThreadKey, earlier: set<Token>, since: Time)
    requires OldLeasesPast(s, thread, earlier)
    ensures OldLeasesPast(RunSteps(s, steps), thread, earlier)
    ensures s.db.threads[thread].since >= since && NoEarlierResume(steps, thread, since) ==>
              RunSteps(s, steps).db.threads[thread].since >= since
    decreases |steps|
  {
    if steps == [] {
    } else {
      OldLeasesStay(s, steps[0], thread, earlier);
      BoundaryStays(s, steps[0], thread);
      ResumeRun(Next(s, steps[0]), steps[1..], thread, earlier, since);
    }
  }

  /** A worker is about to fence, and its fence will succeed. */
  predicate FenceSucceeds(s: State, t: Token) {
    t in s.runs && s.runs[t].pc.Ready? && FenceResult(s.db, s.runs[t].job, s.now).Fenced?
  }

  /** What a resume leaves: no live lease of an earlier worker. */
  lemma ResumeSafetyFrom(s: State, thread: ThreadKey, since: Time, after: seq<Step>, t: Token)
    requires Good(s) && OldLeasesPast(s, thread, s.runs.Keys) && s.db.threads[thread].since == since
    requires FenceSucceeds(RunSteps(s, after), t) && OnThread(RunSteps(s, after), t, thread)
    ensures var later := RunSteps(s, after);
            var run := later.runs[t];
            && t !in s.runs
            && thread in later.db.threads && run.job.since >= later.db.threads[thread].since
            && run.answered.Some? && run.answered.value > run.job.since
            && (NoEarlierResume(after, thread, since) ==> run.job.since >= since && run.answered.value > since)
  {
    RunsAreGood(s, after);
    ResumeRun(s, after, thread, s.runs.Keys, since);
    assert RunAgrees(RunSteps(s, after), t) && ThreadLinked(RunSteps(s, after), thread);
  }

  /**
   * Resume safety. Every fence that succeeds after a committed AUTO control belongs to a job claimed after it, whose
   * boundary is at least the boundary the thread now carries, and answers a message inserted strictly after that.
   * The thread's boundary is the control's own T as long as no AUTO control with an earlier one commits later.
   */
  lemma ResumeSafety(before: seq<Step>, thread: ThreadKey, since: Time, after: seq<Step>, t: Token)
    requires CanResume(RunSteps(INITIAL, before).db, thread, since, RunSteps(INITIAL, before).now)
    requires var s := Next(RunSteps(INITIAL, before), HostControls(thread, AUTO, since));
             FenceSucceeds(RunSteps(s, after), t) && OnThread(RunSteps(s, after), t, thread)
    ensures var s := Next(RunSteps(INITIAL, before), HostControls(thread, AUTO, since));
            var later := RunSteps(s, after);
            var run := later.runs[t];
            && t !in s.runs
            && thread in later.db.threads && run.job.since >= later.db.threads[thread].since
            && run.answered.Some? && run.answered.value > run.job.since
            && (NoEarlierResume(after, thread, since) ==> run.job.since >= since && run.answered.value > since)
  {
    InitialIsGood();
    RunsAreGood(INITIAL, before);
    var start, resume := RunSteps(INITIAL, before), HostControls(thread, AUTO, since);
    NextKeepsInv(start, resume);
    NextKeepsReceipts(start, resume);
    ControlWrites(start, resume);
    ResumeSafetyFrom(Next(start, resume), thread, since, after, t);
  }
}
