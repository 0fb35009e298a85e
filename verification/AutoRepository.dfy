/**
 * The tables behind the automatic Pin AI replies and the transactions that change them.
 * Each transaction is one atomic step: a function from the tables before to the tables after
 * says what it does, and the class below carries the conditional updates out one by one.
 */
module AutoRepository {
  import opened Common

  const LEASE_MS: Time := 180000

  /** A lease token; `randomUUID` in the source, so two claims never draw the same one. */
  type Token = nat

  datatype ThreadKey = ThreadKey(organizationId: string, propertyId: string, threadId: string)
  datatype InboundKey = InboundKey(thread: ThreadKey, messageId: nat)

  datatype Mode = AUTO | HUMAN
  datatype Status = QUEUED | PROCESSING | SENDING | SENT | SKIPPED | NEEDS_HOST | UNKNOWN

  datatype ThreadRow = ThreadRow(mode: Mode, since: Time, leaseToken: Option<Token>, leaseUntil: Option<Time>,
                                 sending: bool)

  datatype InboundRow = InboundRow(status: Status, leaseToken: Option<Token>, leaseUntil: Option<Time>)

  /** The claimed inbound row handed to a worker; `candidate` is the status the claimant had read. */
  datatype Job = Job(key: InboundKey, candidate: Status, token: Token, leaseUntil: Time, since: Time)

  datatype Tables = Tables(threads: map<ThreadKey, ThreadRow>, inbound: map<InboundKey, InboundRow>)

  /** A row offered to the scheduler: its key, the status read, and the activation boundary to apply. */
  datatype Candidate = Candidate(key: InboundKey, status: Status, since: Time)

  datatype FenceOutcome = Fenced | Lost | Conflict

  predicate Open(status: Status) {
    status.PROCESSING? || status.SENDING?
  }

  predicate LeaseFree(row: ThreadRow, now: Time) {
    row.leaseUntil.None? || row.leaseUntil.value < now
  }

  predicate LeasePast(row: InboundRow, now: Time) {
    row.leaseUntil.Some? && row.leaseUntil.value < now
  }

  /** `createMany` with `skipDuplicates`. */
  function CreateThread(threads: map<ThreadKey, ThreadRow>, key: ThreadKey, mode: Mode, since: Time)
    : map<ThreadKey, ThreadRow>
  {
    if key in threads then threads else threads[key := ThreadRow(mode, since, None, None, false)]
  }

  function Enqueue(db: Tables, key: InboundKey): Tables {
    if key in db.inbound then db else db.(inbound := db.inbound[key := InboundRow(QUEUED, None, None)])
  }

  /** The row a host control acts on. */
  function ControlRow(db: Tables, key: ThreadKey, since: Time): ThreadRow {
    CreateThread(db.threads, key, HUMAN, since)[key]
  }

  predicate CanResume(db: Tables, key: ThreadKey, since: Time, now: Time) {
    !ControlRow(db, key, since).sending && LeaseFree(ControlRow(db, key, since), now)
  }

  /** A host control; a refused AUTO control throws, so its transaction leaves no trace. */
  function Control(db: Tables, key: ThreadKey, mode: Mode, since: Time, now: Time): Tables {
    if mode.HUMAN? then
      db.(threads := db.threads[key := ControlRow(db, key, since).(mode := HUMAN)])
    else if CanResume(db, key, since, now) then
      db.(threads := db.threads[key := ControlRow(db, key, since).(mode := AUTO, since := since)])
    else
      db
  }

  predicate Claimable(db: Tables, key: InboundKey, candidate: Status, now: Time) {
    && key in db.inbound
    && db.inbound[key].status == candidate
    && (candidate.QUEUED? || (Open(candidate) && LeasePast(db.inbound[key], now)))
  }

  /** The thread row a claim acts on, created with the schema's defaults when it is missing. */
  function ClaimRow(db: Tables, key: ThreadKey, since: Time): ThreadRow {
    CreateThread(db.threads, key, AUTO, since)[key]
  }

  predicate ClaimSucceeds(db: Tables, key: InboundKey, candidate: Status, since: Time, now: Time) {
    LeaseFree(ClaimRow(db, key.thread, since), now) && Claimable(db, key, candidate, now)
  }

  function ClaimedJob(db: Tables, key: InboundKey, candidate: Status, since: Time, now: Time, token: Token): Job {
    Job(key, candidate, token, now + LEASE_MS, Max(since, ClaimRow(db, key.thread, since).since))
  }

  /** A claim: a busy thread keeps its lease, a row that moved on gives the thread's lease back. */
  function Claim(db: Tables, key: InboundKey, candidate: Status, since: Time, now: Time, token: Token): Tables {
    var row := ClaimRow(db, key.thread, since);
    if !LeaseFree(row, now) then
      db.(threads := db.threads[key.thread := row])
    else if !Claimable(db, key, candidate, now) then
      db.(threads := db.threads[key.thread := row.(leaseToken := None, leaseUntil := None)])
    else
      Tables(db.threads[key.thread := row.(leaseToken := Some(token), leaseUntil := Some(now + LEASE_MS))],
             db.inbound[key := InboundRow(if candidate.SENDING? then SENDING else PROCESSING,
                                          Some(token), Some(now + LEASE_MS))])
  }

  /** The first half of the fence: the thread is automatic, idle and leased to this job. */
  predicate HoldsThread(db: Tables, job: Job, now: Time) {
    && job.key.thread in db.threads
    && var row := db.threads[job.key.thread];
       row.mode.AUTO? && row.leaseToken == Some(job.token) && row.leaseUntil.Some? &&
       row.leaseUntil.value > now && !row.sending
  }

  predicate HoldsInbound(db: Tables, job: Job, status: Status) {
    && job.key in db.inbound
    && db.inbound[job.key].leaseToken == Some(job.token)
    && db.inbound[job.key].status == status
  }

  function FenceResult(db: Tables, job: Job, now: Time): FenceOutcome {
    if !HoldsThread(db, job, now) then Lost
    else if HoldsInbound(db, job, PROCESSING) then Fenced
    else Conflict
  }

  /** The fence; only `Fenced` commits, a conflict throws and rolls the thread update back. */
  function Fence(db: Tables, job: Job, now: Time): Tables {
    if FenceResult(db, job, now).Fenced? then
      Tables(db.threads[job.key.thread := db.threads[job.key.thread].(sending := true)],
             db.inbound[job.key := db.inbound[job.key].(status := SENDING)])
    else
      db
  }

  predicate Finishes(db: Tables, job: Job) {
    HoldsInbound(db, job, PROCESSING) || HoldsInbound(db, job, SENDING)
  }

  /** Writing an outcome: it needs the inbound lease, and frees the thread only if that lease is the job's too. */
  function Finish(db: Tables, job: Job, outcome: Status): Tables {
    if !Finishes(db, job) then db
    else
      var inbound := db.inbound[job.key := InboundRow(outcome, None, None)];
      var thread := job.key.thread;
      if thread in db.threads && db.threads[thread].leaseToken == Some(job.token) then
        var row := db.threads[thread].(leaseToken := None, leaseUntil := None, sending := false);
        Tables(db.threads[thread := if outcome.NEEDS_HOST? || outcome.UNKNOWN? then row.(mode := HUMAN) else row],
               inbound)
      else
        db.(inbound := inbound)
  }

  /** Nobody is at the thread: it is new, or its lease is missing or past. */
  predicate Idle(db: Tables, thread: ThreadKey, now: Time) {
    thread in db.threads ==> db.threads[thread].leaseUntil.None? || db.threads[thread].leaseUntil.value < now
  }

  /** A new message waits in the queue; a known one is left to whoever has it. */
  lemma EnqueueMeans(db: Tables, key: InboundKey)
    ensures var after := Enqueue(db, key);
            && after.threads == db.threads && (key in db.inbound ==> after == db)
            && (key !in db.inbound ==> after.inbound == db.inbound[key := InboundRow(QUEUED, None, None)])
  {
  }

  /** Every row but the named ones is as it was. */
  ghost predicate OthersStay(before: Tables, after: Tables, thread: ThreadKey, key: Option<InboundKey>) {
    && before.threads.Keys <= after.threads.Keys <= before.threads.Keys + {thread}
    && (forall other :: other in before.threads && other != thread ==> after.threads[other] == before.threads[other])
    && after.inbound.Keys == before.inbound.Keys
    && (forall other :: other in before.inbound && Some(other) != key ==> after.inbound[other] == before.inbound[other])
  }

  /**
   * A claim succeeds exactly on an idle thread, for a message that still has the status read and is queued or was
   * left behind by a worker whose lease is past. It then leases both rows for three minutes, keeps the thread's mode,
   * and works from the later of the two boundaries.
   */
  lemma ClaimMeans(db: Tables, key: InboundKey, candidate: Status, since: Time, now: Time, token: Token)
    ensures ClaimSucceeds(db, key, candidate, since, now) <==>
            && Idle(db, key.thread, now) && key in db.inbound && db.inbound[key].status == candidate
            && (candidate.QUEUED? || ((candidate.PROCESSING? || candidate.SENDING?) &&
                                      db.inbound[key].leaseUntil.Some? &&
                                      db.inbound[key].leaseUntil.value < now))
    ensures var after := Claim(db, key, candidate, since, now, token);
            && key.thread in after.threads
            && after.threads[key.thread].mode ==
                 (if key.thread in db.threads then db.threads[key.thread].mode else AUTO)
            && OthersStay(db, after, key.thread,
                          if ClaimSucceeds(db, key, candidate, since, now) then Some(key) else None)
            && after.threads[key.thread].since ==
                 (if key.thread in db.threads then db.threads[key.thread].since else since)
            && after.threads[key.thread].sending == (key.thread in db.threads && db.threads[key.thread].sending)
            && (!Idle(db, key.thread, now) ==> after == db)
            && (Idle(db, key.thread, now) && !ClaimSucceeds(db, key, candidate, since, now) ==>
                  after.threads[key.thread].leaseToken.None? && after.threads[key.thread].leaseUntil.None?)
    ensures ClaimSucceeds(db, key, candidate, since, now) ==>
              var after, job := Claim(db, key, candidate, since, now, token),
                  ClaimedJob(db, key, candidate, since, now, token);
              && job.since >= since && (key.thread in db.threads ==> job.since >= db.threads[key.thread].since)
              && (job.since == since || (key.thread in db.threads && job.since == db.threads[key.thread].since))
              && job.token == token && job.leaseUntil == now + 180000 && job.key == key && job.candidate == candidate
              && after.threads[key.thread].leaseToken == Some(token)
              && after.threads[key.thread].leaseUntil == Some(now + 180000)
              && after.inbound[key] ==
                 InboundRow(if candidate.SENDING? then SENDING else PROCESSING, Some(token), Some(now + 180000))
  {
  }

  /**
   * A takeover always works and touches the mode only. A resume works exactly on a thread that is idle and not
   * sending, and sets mode and boundary only; a refused one leaves no trace.
   */
  lemma ControlMeans(db: Tables, key: ThreadKey, mode: Mode, since: Time, now: Time)
    ensures var after, sending := Control(db, key, mode, since, now), key in db.threads && db.threads[key].sending;
            && (CanResume(db, key, since, now) <==> Idle(db, key, now) && !sending)
            && (mode.AUTO? && !(Idle(db, key, now) && !sending) ==> after == db)
            && (mode.HUMAN? || (Idle(db, key, now) && !sending) ==>
                  && key in after.threads && after.threads[key].mode == mode && after.threads[key].sending == sending
                  && OthersStay(db, after, key, None)
                  && (mode.AUTO? ==> after.threads[key].since == since)
                  && (key in db.threads ==>
                        && after.threads[key].leaseToken == db.threads[key].leaseToken
                        && after.threads[key].leaseUntil == db.threads[key].leaseUntil
                        && (mode.HUMAN? ==> after.threads[key].since == db.threads[key].since)))
  {
  }

  /** The fence, told of the two rows: when it succeeds, and that it marks them and nothing else. */
  lemma FenceMeans(db: Tables, job: Job, now: Time)
    ensures FenceResult(db, job, now).Fenced? <==>
            && job.key.thread in db.threads && job.key in db.inbound
            && db.threads[job.key.thread].mode.AUTO? && !db.threads[job.key.thread].sending
            && db.threads[job.key.thread].leaseToken == Some(job.token) == db.inbound[job.key].leaseToken
            && db.threads[job.key.thread].leaseUntil.Some? && db.threads[job.key.thread].leaseUntil.value > now
            && db.inbound[job.key].status.PROCESSING?
    ensures !FenceResult(db, job, now).Fenced? ==> Fence(db, job, now) == db
    ensures FenceResult(db, job, now).Fenced? ==>
              var after := Fence(db, job, now);
              && OthersStay(db, after, job.key.thread, Some(job.key))
              && after.threads[job.key.thread] == db.threads[job.key.thread].(sending := true)
              && after.inbound[job.key] == db.inbound[job.key].(status := SENDING)
  {
  }

  /**
   * An outcome is written exactly by the worker that still leases the message. The thread is freed exactly if that
   * worker leases it too, and goes to the host exactly for the outcomes that need one.
   */
  lemma FinishMeans(db: Tables, job: Job, outcome: Status)
    requires job.key in db.inbound
    ensures var after, row, thread := Finish(db, job, outcome), db.inbound[job.key], job.key.thread;
            var leases := row.leaseToken == Some(job.token) && (row.status.PROCESSING? || row.status.SENDING?);
            && (!leases ==> after == db)
            && OthersStay(db, after, thread, Some(job.key))
            && (leases ==> after.inbound[job.key] == InboundRow(outcome, None, None))
            && (leases && thread in db.threads && db.threads[thread].leaseToken == Some(job.token) ==>
                  && after.threads[thread].leaseToken.None? && after.threads[thread].leaseUntil.None?
                  && !after.threads[thread].sending && after.threads[thread].since == db.threads[thread].since
                  && (after.threads[thread].mode.HUMAN? <==>
                      db.threads[thread].mode.HUMAN? || outcome == NEEDS_HOST || outcome == UNKNOWN))
            && (thread in db.threads && db.threads[thread].leaseToken != Some(job.token) ==>
                  after.threads[thread] == db.threads[thread])
  {
  }

  /** What a scheduler pass does with its candidates: the first successful claim ends the pass. */
  function ClaimFirst(db: Tables, candidates: seq<Candidate>, now: Time, token: Token): (Tables, Option<Job>)
    decreases |candidates|
  {
    if candidates == [] then (db, None)
    else
      var Candidate(key, status, since) := candidates[0];
      var after := Claim(db, key, status, since, now, token);
      if ClaimSucceeds(db, key, status, since, now) then
        (after, Some(ClaimedJob(db, key, status, since, now, token)))
      else
        ClaimFirst(after, candidates[1..], now, token)
  }

  /**
   * A scheduler pass touches at most one inbound row, the one it returns a job for, and that row had no live
   * owner; every other row keeps its status and its lease.
   */
  lemma {:induction false} ClaimFirstTakesOneRow(db: Tables, candidates: seq<Candidate>, now: Time, token: Token)
    ensures var (after, job) := ClaimFirst(db, candidates, now, token);
            && (job.None? ==> after.inbound == db.inbound)
            && (job.Some? ==>
                  && job.value.key in db.inbound
                  && (db.inbound[job.value.key].status.QUEUED? || LeasePast(db.inbound[job.value.key], now))
                  && after.inbound[job.value.key := db.inbound[job.value.key]] == db.inbound
                  && after.inbound.Keys == db.inbound.Keys
                  && HoldsInbound(after, job.value, if job.value.candidate.SENDING? then SENDING else PROCESSING))
    decreases |candidates|
  {
    if candidates == [] {
    } else {
      var Candidate(key, status, since) := candidates[0];
      if !ClaimSucceeds(db, key, status, since, now) {
        ClaimFirstTakesOneRow(Claim(db, key, status, since, now, token), candidates[1..], now, token);
      }
    }
  }

  predicate CanTake(db: Tables, c: Candidate, now: Time) {
    ClaimSucceeds(db, c.key, c.status, c.since, now)
  }

  /** A claim that fails takes nothing from any other. */
  lemma FailedClaimIsHarmless(db: Tables, failed: Candidate, other: Candidate, now: Time, token: Token)
    requires !CanTake(db, failed, now)
    ensures CanTake(Claim(db, failed.key, failed.status, failed.since, now, token), other, now) <==>
            CanTake(db, other, now)
  {
  }

  /** The first candidate that can be claimed. */
  ghost predicate FirstToTake(db: Tables, candidates: seq<Candidate>, now: Time, i: nat) {
    i < |candidates| && CanTake(db, candidates[i], now) && forall j :: 0 <= j < i ==> !CanTake(db, candidates[j], now)
  }

  /** A scheduler pass gets the first candidate that can be claimed, and comes back empty only if there is none. */
  lemma {:induction false} ClaimFirstTakesTheFirst(db: Tables, candidates: seq<Candidate>, now: Time, token: Token)
    ensures var job := ClaimFirst(db, candidates, now, token).1;
            && (job.None? ==> forall c :: c in candidates ==> !CanTake(db, c, now))
            && (job.Some? ==>
                  exists i: nat ::
                    FirstToTake(db, candidates, now, i) && job.value.key == candidates[i].key &&
                    job.value.candidate == candidates[i].status)
    decreases |candidates|
  {
    if candidates == [] {
    } else {
      var (first, rest) := (candidates[0], candidates[1..]);
      var (after, job) := ClaimFirst(db, candidates, now, token);
      if CanTake(db, first, now) {
        assert FirstToTake(db, candidates, now, 0);
      } else {
        var next := Claim(db, first.key, first.status, first.since, now, token);
        ClaimFirstTakesTheFirst(next, rest, now, token);
        forall c: Candidate ensures CanTake(next, c, now) <==> CanTake(db, c, now) {
          FailedClaimIsHarmless(db, first, c, now, token);
        }
        if job.Some? {
          var i: nat :| FirstToTake(next, rest, now, i) && job.value.key == rest[i].key &&
                        job.value.candidate == rest[i].status;
          assert FirstToTake(db, candidates, now, i + 1);
        }
      }
    }
  }

  /** The two tables, updated in place by conditional `updateMany` statements. */
  class Repository {
    var threads: map<ThreadKey, ThreadRow>
    var inbound: map<InboundKey, InboundRow>

    ghost function Db(): Tables
      reads this
    {
      Tables(threads, inbound)
    }

    constructor ()
      ensures Db() == Tables(map[], map[])
    {
      threads, inbound := map[], map[];
    }

    method EnqueueMessage(key: InboundKey)
      modifies this
      ensures Db() == Enqueue(old(Db()), key)
    {
      if key !in inbound {
        inbound := inbound[key := InboundRow(QUEUED, None, None)];
      }
    }

    method SetMode(key: ThreadKey, mode: Mode, since: Time, now: Time) returns (result: Result<bool, ()>)
      modifies this
      ensures Db() == Control(old(Db()), key, mode, since, now)
      ensures result.Err? <==> mode.AUTO? && !CanResume(old(Db()), key, since, now)
      ensures result.Ok? ==> key in threads && threads[key].mode == mode && result.value == threads[key].sending
    {
      var before := threads;
      if key !in threads {
        threads := threads[key := ThreadRow(HUMAN, since, None, None, false)];
      }
      var row := threads[key];
      if mode.AUTO? {
        if row.sending || !(row.leaseUntil.None? || row.leaseUntil.value < now) {
          threads := before;
          return Err(());
        }
        threads := threads[key := row.(mode := mode, since := since)];
        return Ok(false);
      }
      threads := threads[key := row.(mode := mode)];
      return Ok(row.sending);
    }

    method ClaimCandidate(key: InboundKey, candidate: Status, since: Time, now: Time, token: Token)
      returns (job: Option<Job>)
      modifies this
      ensures Db() == Claim(old(Db()), key, candidate, since, now, token)
      ensures job.Some? <==> ClaimSucceeds(old(Db()), key, candidate, since, now)
      ensures job.Some? ==> job.value == ClaimedJob(old(Db()), key, candidate, since, now, token)
    {
      var thread, until := key.thread, now + LEASE_MS;
      if thread !in threads {
        threads := threads[thread := ThreadRow(AUTO, since, None, None, false)];
      }
      var row := threads[thread];
      if !(row.leaseUntil.None? || row.leaseUntil.value < now) {
        return None;
      }
      threads := threads[thread := row.(leaseToken := Some(token), leaseUntil := Some(until))];
      var changed := key in inbound && inbound[key].status == candidate &&
      (candidate.QUEUED? || (Open(candidate) && LeasePast(inbound[key], now)));
      if !changed {
        threads := threads[thread := threads[thread].(leaseToken := None, leaseUntil := None)];
        return None;
      }
      var status := if candidate.SENDING? then SENDING else PROCESSING;
      inbound := inbound[key := InboundRow(status, Some(token), Some(until))];
      return Some(Job(key, candidate, token, until, if since >= row.since then since else row.since));
    }

    method FenceJob(job: Job, now: Time) returns (outcome: FenceOutcome)
      modifies this
      ensures outcome == FenceResult(old(Db()), job, now)
      ensures Db() == Fence(old(Db()), job, now)
    {
      var before := threads;
      var thread := job.key.thread;
      if thread !in threads {
        return Lost;
      }
      var row := threads[thread];
      if row.mode != AUTO || row.leaseToken != Some(job.token) || row.leaseUntil.None? ||
         row.leaseUntil.value <= now || row.sending {
        return Lost;
      }
      threads := threads[thread := row.(sending := true)];
      if job.key in inbound && inbound[job.key].leaseToken == Some(job.token) && inbound[job.key].status == PROCESSING {
        inbound := inbound[job.key := inbound[job.key].(status := SENDING)];
        return Fenced;
      }
      threads := before;
      return Conflict;
    }

    method FinishJob(job: Job, outcome: Status)
      modifies this
      ensures Db() == Finish(old(Db()), job, outcome)
    {
      if job.key !in inbound || inbound[job.key].leaseToken != Some(job.token) || !Open(inbound[job.key].status) {
        return;
      }
      inbound := inbound[job.key := InboundRow(outcome, None, None)];
      var thread := job.key.thread;
      if thread in threads && threads[thread].leaseToken == Some(job.token) {
        threads := threads[thread := threads[thread].(leaseToken := None, leaseUntil := None, sending := false)];
        if outcome.NEEDS_HOST? || outcome.UNKNOWN? {
          threads := threads[thread := threads[thread].(mode := HUMAN)];
        }
      }
    }

    /** One scheduler pass over the candidates read before it. */
    method RunNext(candidates: seq<Candidate>, now: Time, token: Token) returns (job: Option<Job>)
      modifies this
      ensures (Db(), job) == ClaimFirst(old(Db()), candidates, now, token)
    {
      for i := 0 to |candidates|
        invariant ClaimFirst(Db(), candidates[i..], now, token) == ClaimFirst(old(Db()), candidates, now, token)
      {
        var Candidate(key, status, since) := candidates[i];
        assert candidates[i..][1..] == candidates[i + 1..];
        job := ClaimCandidate(key, status, since, now, token);
        if job.Some? {
          return;
        }
      }
      job := None;
    }
  }
}
