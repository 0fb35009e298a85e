/** What the automatic worker decides from a conversation: the `check` before and after a draft is generated. */
module AutoResponder {
  import opened Common
  import opened AutoRepository

  const CLOCK_SKEW_MS: Time := 60000

  datatype Sender = Guest | Property

  /** A provider message; identifiers are numbers in the order the source sorts them. */
  datatype Message = Message(id: nat, sender: Sender, insertedAt: Time, text: string)

  /** One page of a conversation: its items in any order and the size of the whole conversation. */
  datatype History = History(items: seq<Message>, total: nat, isClosed: bool)

  datatype Reason = DISABLED | HOST_TAKEOVER | THREAD_CLOSED | HISTORY_REQUIRES_REVIEW | SUPERSEDED_OR_ECHO
    | BEFORE_ACTIVATION | INVALID_MESSAGE_TIME | CONVERSATION_CHANGED | SERVICE_WINDOW_CLOSED | OTHER(code: string)

  /** The reasons that leave the thread automatic. */
  predicate Skips(reason: Reason) {
    reason.DISABLED? || reason.THREAD_CLOSED? || reason.SUPERSEDED_OR_ECHO? || reason.BEFORE_ACTIVATION? ||
    reason.SERVICE_WINDOW_CLOSED?
  }

  /** The status an abandoned job is given. */
  function ClosingStatus(reason: Reason): Status {
    if Skips(reason) then SKIPPED else NEEDS_HOST
  }

  predicate Before(a: Message, b: Message) {
    a.insertedAt < b.insertedAt || (a.insertedAt == b.insertedAt && a.id <= b.id)
  }

  function Insert(m: Message, sorted: seq<Message>): seq<Message> {
    if sorted == [] || Before(m, sorted[0]) then [m] + sorted else [sorted[0]] + Insert(m, sorted[1..])
  }

  function Sort(items: seq<Message>): seq<Message> {
    if items == [] then [] else Insert(items[0], Sort(items[1..]))
  }

  predicate Foreign(m: Message, since: Time, own: set<nat>) {
    m.sender.Property? && m.insertedAt >= since && m.id !in own
  }

  function Check(job: Job, history: History, enabled: bool, row: Option<ThreadRow>, own: set<nat>, now: Time)
    : Option<Reason>
  {
    var sorted := Sort(history.items);
    if !enabled then Some(DISABLED)
    else if row.None? || row.value.mode != AUTO || row.value.leaseToken != Some(job.token) then Some(HOST_TAKEOVER)
    else if history.isClosed then Some(THREAD_CLOSED)
    else if history.total > |sorted| && sorted != [] && sorted[0].insertedAt >= job.since then
      Some(HISTORY_REQUIRES_REVIEW)
    else if exists i :: 0 <= i < |sorted| && Foreign(sorted[i], job.since, own) then Some(HOST_TAKEOVER)
    else if sorted == [] || sorted[|sorted| - 1].id != job.key.messageId || !sorted[|sorted| - 1].sender.Guest? then
      Some(SUPERSEDED_OR_ECHO)
    else if sorted[|sorted| - 1].insertedAt <= job.since then Some(BEFORE_ACTIVATION)
    else if sorted[|sorted| - 1].insertedAt > now + CLOCK_SKEW_MS then Some(INVALID_MESSAGE_TIME)
    else None
  }

  ghost predicate Sorted(s: seq<Message>) {
    forall i, j :: 0 <= i < j < |s| ==> Before(s[i], s[j])
  }

  lemma {:induction false} InsertKeeps(m: Message, s: seq<Message>)
    ensures multiset(Insert(m, s)) == multiset{m} + multiset(s) && |Insert(m, s)| == |s| + 1
  {
    if s == [] || Before(m, s[0]) {
    } else {
      InsertKeeps(m, s[1..]);
      assert s == [s[0]] + s[1..];
    }
  }

  lemma {:induction false} InsertSorts(m: Message, s: seq<Message>)
    requires Sorted(s)
    ensures Sorted(Insert(m, s))
  {
    if s == [] || Before(m, s[0]) {
    } else {
      var rest := Insert(m, s[1..]);
      InsertSorts(m, s[1..]);
      InsertKeeps(m, s[1..]);
      forall x | x in rest ensures Before(s[0], x) {
        assert x in multiset(rest);
        assert x == m || x in s[1..];
      }
    }
  }

  lemma {:induction false} SortSorts(items: seq<Message>)
    ensures Sorted(Sort(items)) && |Sort(items)| == |items|
    ensures multiset(Sort(items)) == multiset(items)
  {
    if items == [] {
    } else {
      SortSorts(items[1..]);
      InsertSorts(items[0], Sort(items[1..]));
      InsertKeeps(items[0], Sort(items[1..]));
      assert items == [items[0]] + items[1..];
    }
  }

  lemma SortKeepsMembers(items: seq<Message>, m: Message)
    ensures m in Sort(items) <==> m in items
  {
    SortSorts(items);
    assert m in multiset(Sort(items)) <==> m in multiset(items);
  }

  /**
   * A passed check pins the message being answered: it is in the page, a guest wrote it, nothing in the page
   * follows it, and it was inserted strictly after the job's boundary.
   */
  lemma CheckedMessage(job: Job, history: History, enabled: bool, row: Option<ThreadRow>, own: set<nat>, now: Time)
    returns (latest: Message)
    requires Check(job, history, enabled, row, own, now).None?
    ensures latest in history.items && latest.id == job.key.messageId && latest.sender.Guest?
    ensures job.since < latest.insertedAt <= now + CLOCK_SKEW_MS
    ensures forall m :: m in history.items ==> Before(m, latest)
  {
    var sorted := Sort(history.items);
    SortSorts(history.items);
    latest := sorted[|sorted| - 1];
    SortKeepsMembers(history.items, latest);
    forall m | m in history.items ensures Before(m, latest) {
      SortKeepsMembers(history.items, m);
      var i :| 0 <= i < |sorted| && sorted[i] == m;
      assert i < |sorted| - 1 ==> Before(sorted[i], sorted[|sorted| - 1]);
    }
  }

  /** The page is the newest part of the whole conversation, as a provider listing by descending time returns it. */
  ghost predicate NewestPage(history: History, conversation: seq<Message>) {
    && history.total == |conversation|
    && (forall m :: m in history.items ==> m in conversation)
    && (history.total <= |history.items| ==> forall m :: m in conversation ==> m in history.items)
    && (forall m, n :: m in conversation && m !in history.items && n in history.items ==> m.insertedAt <= n.insertedAt)
  }

  /**
   * Host absence is never inferred from a truncated window: once a check passes, no message of the whole
   * conversation, seen or not, was written by a human host at or after the job's boundary.
   */
  lemma CheckSeesEveryHostMessage(job: Job, history: History, conversation: seq<Message>, enabled: bool,
                                  row: Option<ThreadRow>, own: set<nat>, now: Time)
    requires NewestPage(history, conversation)
    requires Check(job, history, enabled, row, own, now).None?
    ensures forall m :: m in conversation ==> !Foreign(m, job.since, own)
  {
    var sorted := Sort(history.items);
    SortSorts(history.items);
    forall m | m in conversation ensures !Foreign(m, job.since, own) {
      SortKeepsMembers(history.items, m);
      if m !in history.items {
        SortKeepsMembers(history.items, sorted[0]);
        assert sorted[0] in history.items;
      }
    }
  }

  /** The last message of the page in reading order, if it has any. */
  ghost predicate Latest(history: History, latest: Option<Message>) {
    && (latest.None? <==> history.items == [])
    && (latest.Some? ==> latest.value in history.items && forall m :: m in history.items ==>
          m.insertedAt < latest.value.insertedAt ||
            (m.insertedAt == latest.value.insertedAt && m.id <= latest.value.id))
  }

  /** The page may have cut off messages at or after the boundary. */
  ghost predicate CutOff(history: History, since: Time) {
    history.total > |history.items| && history.items != [] && forall m :: m in history.items ==> m.insertedAt >= since
  }

  /** Somebody other than the automation has written at or after the boundary. */
  ghost predicate HostWrote(history: History, since: Time, own: set<nat>) {
    exists m :: m in history.items && m.sender.Property? && m.insertedAt >= since && m.id !in own
  }

  predicate Mine(job: Job, row: Option<ThreadRow>) {
    row.Some? && row.value.mode.AUTO? && row.value.leaseToken == Some(job.token)
  }

  /** A page that leaves only the message itself in question. */
  ghost predicate Undisturbed(job: Job, history: History, enabled: bool, row: Option<ThreadRow>, own: set<nat>) {
    enabled && Mine(job, row) && !history.isClosed && !CutOff(history, job.since) && !HostWrote(history, job.since, own)
  }

  predicate AsksThis(job: Job, latest: Option<Message>) {
    latest.Some? && latest.value.id == job.key.messageId && latest.value.sender.Guest?
  }

  lemma LatestIsLast(history: History) returns (latest: Option<Message>)
    ensures Latest(history, latest)
    ensures var sorted := Sort(history.items); latest == if sorted == [] then None else Some(sorted[|sorted| - 1])
  {
    var sorted := Sort(history.items);
    SortSorts(history.items);
    latest := if sorted == [] then None else Some(sorted[|sorted| - 1]);
    if latest.Some? {
      SortKeepsMembers(history.items, latest.value);
      forall m | m in history.items ensures Before(m, latest.value) {
        SortKeepsMembers(history.items, m);
        var i :| 0 <= i < |sorted| && sorted[i] == m;
        assert i < |sorted| - 1 ==> Before(sorted[i], sorted[|sorted| - 1]);
      }
    }
  }

  /** What the check asks of the sorted page, told of the page as it came. */
  lemma SortedTells(history: History, since: Time, own: set<nat>)
    ensures var sorted := Sort(history.items);
            && |sorted| == |history.items|
            && (history.total > |sorted| && sorted != [] && sorted[0].insertedAt >= since <==> CutOff(history, since))
            && ((exists i :: 0 <= i < |sorted| && Foreign(sorted[i], since, own)) <==> HostWrote(history, since, own))
  {
    var sorted := Sort(history.items);
    SortSorts(history.items);
    if sorted != [] {
      SortKeepsMembers(history.items, sorted[0]);
      forall m | m in history.items ensures sorted[0].insertedAt <= m.insertedAt {
        SortKeepsMembers(history.items, m);
        var i :| 0 <= i < |sorted| && sorted[i] == m;
        assert i > 0 ==> Before(sorted[0], sorted[i]);
      }
      assert sorted[0] in history.items;
    }
    if HostWrote(history, since, own) {
      var m :| m in history.items && m.sender.Property? && m.insertedAt >= since && m.id !in own;
      SortKeepsMembers(history.items, m);
      var i :| 0 <= i < |sorted| && sorted[i] == m;
      assert Foreign(sorted[i], since, own);
    }
    if i :| 0 <= i < |sorted| && Foreign(sorted[i], since, own) {
      SortKeepsMembers(history.items, sorted[i]);
      assert sorted[i] in history.items;
    }
  }

  /**
   * Which answer a check gives, exactly, over the page as it came: what disturbs the page first, and only on an
   * undisturbed page what is wrong with the message.
   */
  lemma CheckAnswers(job: Job, history: History, enabled: bool, row: Option<ThreadRow>, own: set<nat>, now: Time)
    returns (latest: Option<Message>)
    ensures Latest(history, latest)
    ensures var answer, calm := Check(job, history, enabled, row, own, now),
            Undisturbed(job, history, enabled, row, own);
            var readable := enabled && Mine(job, row) && !history.isClosed;
            && (answer == Some(DISABLED) <==> !enabled)
            && (answer == Some(THREAD_CLOSED) <==> enabled && Mine(job, row) && history.isClosed)
            && (answer == Some(HISTORY_REQUIRES_REVIEW) <==> readable && CutOff(history, job.since))
            && (answer == Some(HOST_TAKEOVER) <==>
                (enabled && !Mine(job, row)) ||
                (readable && !CutOff(history, job.since) && HostWrote(history, job.since, own)))
            && (answer == Some(SUPERSEDED_OR_ECHO) <==> calm && !AsksThis(job, latest))
            && (answer == Some(BEFORE_ACTIVATION) <==>
                calm && AsksThis(job, latest) && latest.value.insertedAt <= job.since)
            && (answer == Some(INVALID_MESSAGE_TIME) <==>
                calm && AsksThis(job, latest) && latest.value.insertedAt > job.since &&
                latest.value.insertedAt > now + 60000)
            && (answer == None <==>
                calm && AsksThis(job, latest) && job.since < latest.value.insertedAt <= now + 60000)
  {
    latest := LatestIsLast(history);
    SortedTells(history, job.since, own);
  }

  /**
   * Who gets the message when a check fails: the host whenever somebody else may be at it or its time is impossible,
   * and nobody when automation is off, the thread is closed, or the message is no longer the one to answer.
   */
  lemma HostGetsItExactlyWhen(job: Job, history: History, enabled: bool, row: Option<ThreadRow>, own: set<nat>,
                              now: Time)
    returns (latest: Option<Message>)
    requires Check(job, history, enabled, row, own, now).Some?
    ensures Latest(history, latest)
    ensures var outcome := ClosingStatus(Check(job, history, enabled, row, own, now).value);
            && (outcome.NEEDS_HOST? <==>
                enabled && (!Mine(job, row) ||
                            (!history.isClosed &&
                             (CutOff(history, job.since) || HostWrote(history, job.since, own) ||
                              (AsksThis(job, latest) && job.since < latest.value.insertedAt)))))
            && (outcome.NEEDS_HOST? || outcome.SKIPPED?)
  {
    latest := CheckAnswers(job, history, enabled, row, own, now);
  }
}
