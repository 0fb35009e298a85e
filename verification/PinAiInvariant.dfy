/** What every step of the protocol keeps. */
module PinAiInvariant {
  import opened Common
  import opened AutoRepository
  import opened HostInbox
  import opened AutoResponder
  import opened PinAiProtocol

  /** A leased thread belongs to one worker, whose inbound row carries the same lease. */
  ghost predicate ThreadLinked(s: State, thread: ThreadKey)
    requires thread in s.db.threads
  {
    var row := s.db.threads[thread];
    && (row.leaseToken.None? <==> row.leaseUntil.None?)
    && (row.leaseToken.Some? ==>
          var t := row.leaseToken.value;
          && OnThread(s, t, thread)
          && row.leaseUntil == Some(s.runs[t].job.leaseUntil)
          && s.runs[t].job.key in s.db.inbound
          && s.db.inbound[s.runs[t].job.key].leaseToken == Some(t)
          && (Live(s, s.runs[t]) ==> s.runs[t].job.since >= row.since))
  }

  ghost predicate SettledAsSent(s: State, key: ReceiptKey) {
    key in s.receipts && s.receipts[key].status.Delivered?
  }

  ghost predicate InboundLinked(s: State, key: InboundKey)
    requires key in s.db.inbound
  {
    var row := s.db.inbound[key];
    && (row.leaseToken.Some? <==> Open(row.status))
    && (row.leaseToken.None? <==> row.leaseUntil.None?)
    && (row.leaseToken.Some? ==>
          var t := row.leaseToken.value;
          t in s.runs && s.runs[t].job.key == key && row.leaseUntil == Some(s.runs[t].job.leaseUntil))
    && (row.status.SENT? ==> SettledAsSent(s, AutoReceiptKey(key)))
  }

  /** How a worker's program counter relates to what it has already done. */
  ghost predicate PcAgrees(s: State, run: Run) {
    && (run.fenced ==> run.pc.Sending? || run.pc.Closing? || run.pc.Stopped?)
    && (run.finished ==> run.pc.Stopped?)
    && (run.pc.Sending? ==> run.fenced && run.pc.call.key == AutoReceiptKey(run.job.key) &&
                            run.pc.call.fingerprint.requestedBy == AUTOMATIC_SENDER)
    && (run.job.candidate.SENDING? ==> run.pc == Closing(UNKNOWN) || run.pc.Stopped?)
    && (run.job.candidate.SENDING? ==> !run.fenced)
    && (run.pc.Ready? || run.fenced ==> run.answered.Some? && run.answered.value > run.job.since)
    && (run.pc.Closing? ==>
          && Terminal(run.pc.outcome)
          && (run.pc.outcome.SENT? ==> run.fenced && SettledAsSent(s, AutoReceiptKey(run.job.key)))
          && (run.pc.outcome.UNKNOWN? <==> !run.pc.outcome.SENT? && (run.fenced || run.job.candidate.SENDING?)))
  }

  ghost predicate RunAgrees(s: State, t: Token)
    requires t in s.runs
  {
    var run := s.runs[t];
    var key := run.job.key;
    && run.job.token == t
    && PcAgrees(s, run)
    && key in s.db.inbound && key.thread in s.db.threads
    && (run.fenced || run.job.candidate.SENDING? ==> Dispatched(s.db.inbound[key].status))
    && (!run.fenced && !run.job.candidate.SENDING? && s.db.inbound[key].leaseToken == Some(t) ==>
          s.db.inbound[key].status.PROCESSING?)
    && (InWindow(run) && Live(s, run) ==>
          s.db.threads[key.thread].leaseToken == Some(t) && s.db.threads[key.thread].sending)
  }

  ghost predicate ThreadsLinked(s: State) {
    forall thread :: thread in s.db.threads ==> ThreadLinked(s, thread)
  }

  ghost predicate InboundsLinked(s: State) {
    forall key :: key in s.db.inbound ==> InboundLinked(s, key)
  }

  ghost predicate RunsAgree(s: State) {
    forall t :: t in s.runs ==> RunAgrees(s, t)
  }

  ghost predicate OneFencePerMessage(s: State) {
    forall t, u :: t in s.runs && u in s.runs && t != u && s.runs[t].fenced && s.runs[u].fenced ==>
      s.runs[t].job.key != s.runs[u].job.key
  }

  /** A message counts as dispatched only because some worker's fence succeeded. */
  ghost predicate DispatchedOnlyByFence(s: State) {
    forall key :: key in s.db.inbound && Dispatched(s.db.inbound[key].status) ==>
      exists t :: t in s.runs && s.runs[t].fenced && s.runs[t].job.key == key
  }

  ghost predicate Inv(s: State) {
    && ThreadsLinked(s)
    && InboundsLinked(s)
    && RunsAgree(s)
    && OneFencePerMessage(s)
    && DispatchedOnlyByFence(s)
  }

  /** Steps that fence nobody keep the two facts about fences. */
  lemma FencesKept(s: State, s': State)
    requires OneFencePerMessage(s) && DispatchedOnlyByFence(s)
    requires forall u :: u in s.runs ==>
               u in s'.runs && s'.runs[u].fenced == s.runs[u].fenced && s'.runs[u].job == s.runs[u].job
    requires forall u :: u in s'.runs && s'.runs[u].fenced ==> u in s.runs
    requires forall k :: k in s'.db.inbound && Dispatched(s'.db.inbound[k].status) ==>
                           k in s.db.inbound && Dispatched(s.db.inbound[k].status)
    ensures OneFencePerMessage(s') && DispatchedOnlyByFence(s')
  {
    forall k | k in s'.db.inbound && Dispatched(s'.db.inbound[k].status)
      ensures exists u :: u in s'.runs && s'.runs[u].fenced && s'.runs[u].job.key == k
    {
      var u :| u in s.runs && s.runs[u].fenced && s.runs[u].job.key == k;
      assert u in s'.runs;
    }
  }

  /** Time passes, receipts settle and program counters move; the tables and what the workers have done stay. */
  ghost predicate Quiet(s: State, s': State) {
    && s'.db == s.db && s'.now >= s.now && s'.runs.Keys == s.runs.Keys
    && (forall k :: SettledAsSent(s, k) ==> SettledAsSent(s', k))
    && (forall t :: t in s.runs ==>
          s'.runs[t].job == s.runs[t].job && s'.runs[t].fenced == s.runs[t].fenced &&
            s'.runs[t].finished == s.runs[t].finished)
  }

  lemma QuietKeepsRun(s: State, s': State, t: Token)
    requires Quiet(s, s') && t in s.runs && RunAgrees(s, t) && PcAgrees(s', s'.runs[t])
    ensures RunAgrees(s', t)
  {
  }

  lemma QuietKeepsThread(s: State, s': State, thread: ThreadKey)
    requires Quiet(s, s') && thread in s.db.threads && ThreadLinked(s, thread)
    ensures ThreadLinked(s', thread)
  {
  }

  lemma QuietKeepsInbound(s: State, s': State, key: InboundKey)
    requires Quiet(s, s') && key in s.db.inbound && InboundLinked(s, key)
    ensures InboundLinked(s', key)
  {
  }

  lemma QuietKeepsInv(s: State, s': State)
    requires Inv(s) && Quiet(s, s') && forall t :: t in s'.runs ==> PcAgrees(s', s'.runs[t])
    ensures Inv(s')
  {
    forall t | t in s'.runs ensures RunAgrees(s', t) {
      QuietKeepsRun(s, s', t);
    }
    forall thread | thread in s'.db.threads ensures ThreadLinked(s', thread) {
      QuietKeepsThread(s, s', thread);
    }
    forall key | key in s'.db.inbound ensures InboundLinked(s', key) {
      QuietKeepsInbound(s, s', key);
    }
    FencesKept(s, s');
  }

  lemma ControlKeepsThread(s: State, s': State, thread: ThreadKey, mode: Mode, since: Time, other: ThreadKey)
    requires s' == s.(db := Control(s.db, thread, mode, since, s.now)) && other in s'.db.threads
    requires other in s.db.threads ==> ThreadLinked(s, other)
    ensures ThreadLinked(s', other)
  {
  }

  lemma ControlKeepsInv(s: State, s': State, thread: ThreadKey, mode: Mode, since: Time)
    requires Inv(s)
    requires s' == s.(db := Control(s.db, thread, mode, since, s.now))
    ensures Inv(s')
  {
    forall u | u in s'.runs ensures RunAgrees(s', u) {
      assert RunAgrees(s, u);
    }
    forall th | th in s'.db.threads ensures ThreadLinked(s', th) {
      ControlKeepsThread(s, s', thread, mode, since, th);
    }
    forall key | key in s'.db.inbound ensures InboundLinked(s', key) {
      assert InboundLinked(s, key);
    }
  }

  lemma EnqueueKeepsInv(s: State, s': State, key: InboundKey)
    requires Inv(s)
    requires s' == s.(db := Enqueue(s.db, key))
    ensures Inv(s')
  {
    forall u | u in s'.runs ensures RunAgrees(s', u) {
      assert RunAgrees(s, u);
    }
    forall th | th in s'.db.threads ensures ThreadLinked(s', th) {
      assert ThreadLinked(s, th);
    }
    forall k | k in s'.db.inbound ensures InboundLinked(s', k) {
      if k in s.db.inbound {
        assert InboundLinked(s, k);
      }
    }
  }

  ghost predicate StepClaims(s: State, s': State, key: InboundKey, candidate: Status, since: Time, token: Token) {
    && token !in s.runs
    && s' == s.(db := Claim(s.db, key, candidate, since, s.now, token),
                runs := if ClaimSucceeds(s.db, key, candidate, since, s.now) then
                          s.runs[token := NewRun(s, key, candidate, since, token)]
                        else s.runs)
  }

  lemma ClaimKeepsRun(s: State, s': State, key: InboundKey, candidate: Status, since: Time, token: Token, u: Token)
    requires StepClaims(s, s', key, candidate, since, token) && u in s'.runs
    requires u in s.runs ==> RunAgrees(s, u)
    requires key in s.db.inbound ==> InboundLinked(s, key)
    requires key.thread in s.db.threads ==> ThreadLinked(s, key.thread)
    ensures RunAgrees(s', u)
  {
    if u == token {
      assert ClaimSucceeds(s.db, key, candidate, since, s.now);
    } else if ClaimSucceeds(s.db, key, candidate, since, s.now) {
      assert s'.runs[u] == s.runs[u];
    }
  }

  lemma ClaimKeepsOtherThread(s: State, s': State, key: InboundKey, candidate: Status, since: Time, token: Token,
                              thread: ThreadKey)
    requires StepClaims(s, s', key, candidate, since, token)
    requires thread != key.thread && thread in s.db.threads && ThreadLinked(s, thread)
    ensures thread in s'.db.threads && ThreadLinked(s', thread)
  {
    var row := s.db.threads[thread];
    assert s'.db.threads[thread] == row;
    if row.leaseToken.Some? {
      var t := row.leaseToken.value;
      assert t != token && s'.runs[t] == s.runs[t];
      assert s.runs[t].job.key != key;
      assert s'.db.inbound[s.runs[t].job.key] == s.db.inbound[s.runs[t].job.key];
    }
  }

  lemma ClaimKeepsItsThread(s: State, s': State, key: InboundKey, candidate: Status, since: Time, token: Token)
    requires StepClaims(s, s', key, candidate, since, token)
    requires key.thread in s.db.threads ==> ThreadLinked(s, key.thread)
    ensures key.thread in s'.db.threads && ThreadLinked(s', key.thread)
  {
    var row := ClaimRow(s.db, key.thread, since);
    if !LeaseFree(row, s.now) {
      assert s'.db.threads[key.thread] == row == s.db.threads[key.thread] && s'.runs == s.runs;
      assert s'.db.inbound == s.db.inbound;
    } else if !Claimable(s.db, key, candidate, s.now) {
      assert s'.db.threads[key.thread].leaseToken.None?;
    } else {
      assert s'.db.threads[key.thread].leaseToken == Some(token) && s'.db.inbound[key].leaseToken == Some(token);
    }
  }

  lemma ClaimKeepsInbound(s: State, s': State, key: InboundKey, candidate: Status, since: Time, token: Token,
                          k: InboundKey)
    requires StepClaims(s, s', key, candidate, since, token) && k in s'.db.inbound
    requires k in s.db.inbound ==> InboundLinked(s, k)
    ensures InboundLinked(s', k)
    ensures k in s.db.inbound
    ensures Dispatched(s'.db.inbound[k].status) ==> Dispatched(s.db.inbound[k].status)
  {
    if ClaimSucceeds(s.db, key, candidate, since, s.now) {
    }
  }

  lemma ClaimKeepsFences(s: State, s': State, key: InboundKey, candidate: Status, since: Time, token: Token)
    requires Inv(s) && StepClaims(s, s', key, candidate, since, token)
    ensures OneFencePerMessage(s') && DispatchedOnlyByFence(s')
  {
    forall k | k in s'.db.inbound && Dispatched(s'.db.inbound[k].status)
      ensures k in s.db.inbound && Dispatched(s.db.inbound[k].status)
    {
      assert k in s.db.inbound ==> InboundLinked(s, k);
      ClaimKeepsInbound(s, s', key, candidate, since, token, k);
    }
    FencesKept(s, s');
  }

  lemma ClaimKeepsRows(s: State, s': State, key: InboundKey, candidate: Status, since: Time, token: Token)
    requires ThreadsLinked(s) && InboundsLinked(s) && StepClaims(s, s', key, candidate, since, token)
    ensures ThreadsLinked(s') && InboundsLinked(s')
  {
    forall th | th in s'.db.threads ensures ThreadLinked(s', th) {
      if th == key.thread {
        ClaimKeepsItsThread(s, s', key, candidate, since, token);
      } else {
        ClaimKeepsOtherThread(s, s', key, candidate, since, token, th);
      }
    }
    forall k | k in s'.db.inbound ensures InboundLinked(s', k) {
      ClaimKeepsInbound(s, s', key, candidate, since, token, k);
    }
  }

  /** A claim takes a thread only when no fenced window on it is still live. */
  lemma ClaimKeepsInv(s: State, s': State, key: InboundKey, candidate: Status, since: Time, token: Token)
    requires Inv(s) && StepClaims(s, s', key, candidate, since, token)
    ensures Inv(s')
  {
    ClaimKeepsRows(s, s', key, candidate, since, token);
    ClaimKeepsFences(s, s', key, candidate, since, token);
    assert RunsAgree(s') by {
      forall u | u in s'.runs ensures RunAgrees(s', u) {
        ClaimKeepsRun(s, s', key, candidate, since, token, u);
      }
    }
  }

  ghost predicate StepFences(s: State, s': State, t: Token) {
    && t in s.runs && s.runs[t].pc.Ready?
    && FenceResult(s.db, s.runs[t].job, s.now).Fenced?
    && s' == s.(db := Fence(s.db, s.runs[t].job, s.now),
                runs := s.runs[t := s.runs[t].(pc := Sending(AutoCall(s.runs[t].job, s.runs[t].pc.text)),
                                               fenced := true)])
  }

  lemma FenceKeepsRun(s: State, s': State, t: Token, u: Token)
    requires StepFences(s, s', t) && u in s.runs && RunAgrees(s, t) && RunAgrees(s, u)
    ensures RunAgrees(s', u)
  {
  }

  lemma FenceKeepsThread(s: State, s': State, t: Token, thread: ThreadKey)
    requires StepFences(s, s', t) && thread in s.db.threads && ThreadLinked(s, thread)
    ensures thread in s'.db.threads && ThreadLinked(s', thread)
  {
  }

  lemma FenceKeepsInbound(s: State, s': State, t: Token, key: InboundKey)
    requires StepFences(s, s', t) && key in s.db.inbound && InboundLinked(s, key)
    ensures key in s'.db.inbound && InboundLinked(s', key)
  {
  }

  lemma FenceKeepsRows(s: State, s': State, t: Token)
    requires Inv(s) && StepFences(s, s', t)
    ensures ThreadsLinked(s') && InboundsLinked(s')
  {
    forall th | th in s'.db.threads ensures ThreadLinked(s', th) {
      FenceKeepsThread(s, s', t, th);
    }
    forall k | k in s'.db.inbound ensures InboundLinked(s', k) {
      FenceKeepsInbound(s, s', t, k);
    }
  }

  /** A message fenced before is no longer PROCESSING, so its second fence fails. */
  lemma FenceIsFirst(s: State, s': State, t: Token)
    requires Inv(s) && StepFences(s, s', t)
    ensures OneFencePerMessage(s') && DispatchedOnlyByFence(s')
  {
    var key := s.runs[t].job.key;
    forall u | u in s.runs && s.runs[u].fenced ensures s.runs[u].job.key != key {
      assert RunAgrees(s, u);
    }
    forall k | k in s'.db.inbound && Dispatched(s'.db.inbound[k].status)
      ensures exists u :: u in s'.runs && s'.runs[u].fenced && s'.runs[u].job.key == k
    {
      if k == key {
        assert s'.runs[t].fenced;
      } else {
        var u :| u in s.runs && s.runs[u].fenced && s.runs[u].job.key == k;
        assert u in s'.runs;
      }
    }
  }

  lemma FenceKeepsInv(s: State, s': State, t: Token)
    requires Inv(s) && StepFences(s, s', t)
    ensures Inv(s')
  {
    forall u | u in s'.runs ensures RunAgrees(s', u) {
      FenceKeepsRun(s, s', t, u);
    }
    FenceKeepsRows(s, s', t);
    FenceIsFirst(s, s', t);
  }

  ghost predicate StepFinishes(s: State, s': State, t: Token) {
    && t in s.runs && s.runs[t].pc.Closing?
    && s' == s.(db := Finish(s.db, s.runs[t].job, s.runs[t].pc.outcome),
                runs := s.runs[t := s.runs[t].(pc := Stopped, finished := true)])
  }

  lemma FinishKeepsRun(s: State, s': State, t: Token, u: Token)
    requires StepFinishes(s, s', t) && u in s.runs && RunAgrees(s, t) && RunAgrees(s, u)
    requires InboundLinked(s, s.runs[t].job.key)
    ensures RunAgrees(s', u)
  {
  }

  lemma FinishKeepsThread(s: State, s': State, t: Token, thread: ThreadKey)
    requires StepFinishes(s, s', t) && RunAgrees(s, t)
    requires thread in s.db.threads && ThreadLinked(s, thread)
    ensures ThreadLinked(s', thread)
  {
  }

  lemma FinishKeepsInbound(s: State, s': State, t: Token, k: InboundKey)
    requires StepFinishes(s, s', t) && RunAgrees(s, t)
    requires k in s.db.inbound && InboundLinked(s, k)
    ensures k in s'.db.inbound && InboundLinked(s', k)
    ensures Dispatched(s'.db.inbound[k].status) ==> Dispatched(s.db.inbound[k].status)
  {
  }

  /** Writing an outcome frees the thread only for the worker that holds it. */
  lemma FinishKeepsInv(s: State, s': State, t: Token)
    requires Inv(s) && StepFinishes(s, s', t)
    ensures Inv(s')
  {
    forall u | u in s'.runs ensures RunAgrees(s', u) {
      FinishKeepsRun(s, s', t, u);
    }
    forall th | th in s'.db.threads ensures ThreadLinked(s', th) {
      FinishKeepsThread(s, s', t, th);
    }
    forall k | k in s'.db.inbound
      ensures InboundLinked(s', k)
      ensures k in s.db.inbound && (Dispatched(s'.db.inbound[k].status) ==> Dispatched(s.db.inbound[k].status))
    {
      FinishKeepsInbound(s, s', t, k);
    }
    FencesKept(s, s');
  }
}
