/** The receipt machine under any interleaving of hosts and automatic workers. */
module PinAiReceipts {
  import opened Common
  import opened AutoRepository
  import opened HostInbox
  import opened AutoResponder
  import opened PinAiProtocol

  /** What a call in progress knows about its receipt. */
  ghost predicate CallAgrees(s: State, call: Call, id: CallId) {
    && (call.pc.Reserved? || call.pc.Posted? ==>
          call.key in s.receipts && s.receipts[call.key].owner == id && s.receipts[call.key].status.Pending? &&
          s.receipts[call.key].fingerprint == call.fingerprint)
    && (call.pc.Reserved? ==> forall p :: p in s.posts ==> p.key != call.key)
    && (call.pc.Returned? ==>
          && call.key in s.receipts && s.receipts[call.key].status.Delivered?
          && s.receipts[call.key].response == call.pc.message
          && s.receipts[call.key].fingerprint == call.fingerprint)
  }

  ghost predicate CallsAgree(s: State) {
    forall id :: HasCall(s, id) ==> CallAgrees(s, CallOf(s, id), id)
  }

  predicate PastPost(call: Call) {
    !call.pc.Preflight? && !call.pc.Reserved?
  }

  /** A post was made by the call that created the receipt, and that call will not post again. */
  ghost predicate PostAgrees(s: State, p: Post) {
    && p.key in s.receipts && s.receipts[p.key].owner == p.caller
    && p.at <= s.now
    && (p.caller.Worker? ==>
          var t := p.caller.token;
          && t in s.runs && s.runs[t].fenced && p.key == AutoReceiptKey(s.runs[t].job.key)
          && (s.runs[t].pc.Sending? ==> PastPost(s.runs[t].pc.call)))
    && (p.caller.Host? ==> p.caller.id in s.hosts && PastPost(s.hosts[p.caller.id]))
  }

  ghost predicate PostsAgree(s: State) {
    forall p :: p in s.posts ==> PostAgrees(s, p)
  }

  /** At most one post per receipt key. */
  ghost predicate OnePostPerKey(s: State) {
    forall i, j :: 0 <= i < j < |s.posts| ==> s.posts[i].key != s.posts[j].key
  }

  ghost predicate ReceiptInv(s: State) {
    CallsAgree(s) && PostsAgree(s) && OnePostPerKey(s)
  }

  /** Worker calls use the derived key of their own message. */
  ghost predicate WorkerKeys(s: State) {
    forall t :: t in s.runs && s.runs[t].pc.Sending? ==>
      s.runs[t].fenced && s.runs[t].pc.call.key == AutoReceiptKey(s.runs[t].job.key)
  }

  /** Steps outside `reply`: calls may begin or be abandoned, but none moves. */
  lemma OtherStepsKeepReceipts(s: State, s': State)
    requires ReceiptInv(s)
    requires s'.receipts == s.receipts && s'.posts == s.posts && s'.now >= s.now
    requires forall h :: h in s.hosts ==> h in s'.hosts && s'.hosts[h] == s.hosts[h]
    requires forall h :: h in s'.hosts && h !in s.hosts ==> s'.hosts[h].pc.Preflight?
    requires forall t :: t in s.runs ==>
               t in s'.runs && s'.runs[t].job == s.runs[t].job && (s.runs[t].fenced ==> s'.runs[t].fenced)
    requires forall t :: t in s'.runs && s'.runs[t].pc.Sending? ==>
                           t in s.runs && (s'.runs[t].pc == s.runs[t].pc ||
                                           (s'.runs[t].pc.call.pc.Preflight? && !s.runs[t].fenced))
    ensures ReceiptInv(s')
  {
    forall id | HasCall(s', id) ensures CallAgrees(s', CallOf(s', id), id) {
      if id.Host? && id.id in s.hosts {
        assert HasCall(s, id);
      } else if id.Worker? && s'.runs[id.token].pc == s.runs[id.token].pc {
        assert HasCall(s, id);
      }
    }
    forall p | p in s'.posts ensures PostAgrees(s', p) {
      assert PostAgrees(s, p);
    }
  }

  /** A step inside `reply`: one call moves on, and every other call and every worker's deeds stay. */
  ghost predicate CallMoves(s: State, s': State, step: Step)
    requires Calls(step) && HasCall(s, step.call)
  {
    && s'.receipts == ReceiptsAfter(s, step) && s'.posts == PostsAfter(s, step) && s'.now == s.now
    && s'.runs.Keys == s.runs.Keys && s'.hosts.Keys == s.hosts.Keys
    && (forall t :: t in s.runs ==> s'.runs[t].job == s.runs[t].job && s'.runs[t].fenced == s.runs[t].fenced)
    && (forall id :: HasCall(s', id) <==> HasCall(s, id))
    && (forall id :: HasCall(s, id) ==>
          CallOf(s', id) == if id == step.call then CallAfter(s, CallOf(s, id), step) else CallOf(s, id))
  }

  lemma CallFollows(s: State, step: Step, id: CallId)
    requires Calls(step) && HasCall(s, step.call)
    ensures HasCall(Next(s, step), id) <==> HasCall(s, id)
    ensures HasCall(s, id) ==>
              CallOf(Next(s, step), id) == if id == step.call then CallAfter(s, CallOf(s, id), step) else CallOf(s, id)
  {
  }

  lemma CallStepMoves(s: State, step: Step)
    requires Calls(step) && HasCall(s, step.call)
    ensures CallMoves(s, Next(s, step), step)
  {
    forall id
      ensures HasCall(Next(s, step), id) <==> HasCall(s, id)
      ensures HasCall(s, id) ==>
                CallOf(Next(s, step), id) == if id == step.call then CallAfter(s, CallOf(s, id), step)
                  else CallOf(s, id)
    {
      CallFollows(s, step, id);
    }
  }

  lemma ReservedCallAgrees(s: State, s': State, step: Step)
    requires step.CallReserves? && HasCall(s, step.call) && CallMoves(s, s', step) && PostsAgree(s)
    requires CallAgrees(s, CallOf(s, step.call), step.call)
    ensures CallAgrees(s', CallOf(s', step.call), step.call)
  {
    var call := CallOf(s, step.call);
    if call.pc.Preflight? && call.key !in s.receipts {
      forall p | p in s.posts ensures p.key != call.key {
        assert PostAgrees(s, p);
      }
    }
  }

  lemma SettledCallAgrees(s: State, s': State, step: Step)
    requires step.CallSettles? && HasCall(s, step.call) && CallMoves(s, s', step)
    requires CallAgrees(s, CallOf(s, step.call), step.call)
    ensures CallAgrees(s', CallOf(s', step.call), step.call)
  {
  }

  lemma PostedCallAgrees(s: State, s': State, step: Step)
    requires (step.CallRejected? || step.CallPosts?) && HasCall(s, step.call) && CallMoves(s, s', step)
    requires CallAgrees(s, CallOf(s, step.call), step.call)
    ensures CallAgrees(s', CallOf(s', step.call), step.call)
  {
  }

  /** Two calls never hold the same receipt. */
  lemma OtherCallAgrees(s: State, s': State, step: Step, other: CallId)
    requires Calls(step) && HasCall(s, step.call) && CallMoves(s, s', step) && HasCall(s, other) && other != step.call
    requires CallAgrees(s, CallOf(s, step.call), step.call) && CallAgrees(s, CallOf(s, other), other)
    ensures CallAgrees(s', CallOf(s', other), other)
  {
  }

  lemma OldPostAgrees(s: State, s': State, step: Step, p: Post)
    requires Calls(step) && HasCall(s, step.call) && CallMoves(s, s', step) && PostAgrees(s, p)
    requires CallAgrees(s, CallOf(s, step.call), step.call)
    ensures PostAgrees(s', p)
  {
    if p.caller.Worker? && s'.runs[p.caller.token].pc.Sending? {
      assert HasCall(s', p.caller) && HasCall(s, p.caller);
    } else if p.caller.Host? {
      assert HasCall(s, p.caller);
    }
  }

  /** Only the creator of a receipt posts under its key, and only once. */
  lemma NewPostAgrees(s: State, s': State, step: Step)
    requires step.CallPosts? && HasCall(s, step.call) && CallMoves(s, s', step) && WorkerKeys(s)
    requires CallAgrees(s, CallOf(s, step.call), step.call) && CallOf(s, step.call).pc.Reserved?
    ensures PostAgrees(s', Post(CallOf(s, step.call).key, step.call, s.now))
  {
    assert HasCall(s', step.call);
  }

  /** A step for a call that is not there. */
  lemma IdleCallStep(s: State, step: Step)
    requires Calls(step) && !HasCall(s, step.call)
    ensures Next(s, step) == s
  {
    assert RunsAfter(s, step) == s.runs && HostsAfter(s, step) == s.hosts;
  }

  lemma MovesKeepCalls(s: State, s': State, step: Step, other: CallId)
    requires CallsAgree(s) && PostsAgree(s) && Calls(step) && HasCall(s, step.call) && CallMoves(s, s', step)
    requires HasCall(s, other)
    ensures CallAgrees(s', CallOf(s', other), other)
  {
    assert CallAgrees(s, CallOf(s, step.call), step.call) && CallAgrees(s, CallOf(s, other), other);
    if other == step.call {
      match step
      case CallReserves(_) => ReservedCallAgrees(s, s', step);
      case CallSettles(_, _) => SettledCallAgrees(s, s', step);
      case _ => PostedCallAgrees(s, s', step);
    } else {
      OtherCallAgrees(s, s', step, other);
    }
  }

  lemma MovesKeepReceipts(s: State, s': State, step: Step)
    requires ReceiptInv(s) && WorkerKeys(s) && Calls(step) && HasCall(s, step.call) && CallMoves(s, s', step)
    ensures ReceiptInv(s')
  {
    assert CallAgrees(s, CallOf(s, step.call), step.call);
    forall other | HasCall(s', other) ensures CallAgrees(s', CallOf(s', other), other) {
      MovesKeepCalls(s, s', step, other);
    }
    forall p | p in s'.posts ensures PostAgrees(s', p) {
      if p in s.posts {
        OldPostAgrees(s, s', step, p);
      } else {
        NewPostAgrees(s, s', step);
      }
    }
    forall i, j | 0 <= i < j < |s'.posts| ensures s'.posts[i].key != s'.posts[j].key {
      assert s'.posts[i] == s.posts[i] && s.posts[i] in s.posts;
    }
  }

  lemma CallStepsKeepReceipts(s: State, step: Step)
    requires ReceiptInv(s) && WorkerKeys(s) && Calls(step)
    ensures ReceiptInv(Next(s, step))
  {
    if HasCall(s, step.call) {
      CallStepMoves(s, step);
      MovesKeepReceipts(s, Next(s, step), step);
    } else {
      IdleCallStep(s, step);
      OtherStepsKeepReceipts(s, Next(s, step));
    }
  }

  /** A receipt keeps its owner and fingerprint, is never lost, and leaves Pending at most once, for good. */
  ghost predicate ReceiptsAdvance(before: Receipts, after: Receipts) {
    forall k :: k in before ==>
      && k in after && after[k].owner == before[k].owner && after[k].fingerprint == before[k].fingerprint
      && (before[k].status.Pending? || after[k] == before[k])
  }

  lemma NextAdvancesReceipts(s: State, step: Step)
    requires ReceiptInv(s)
    ensures ReceiptsAdvance(s.receipts, Next(s, step).receipts)
    ensures s.posts <= Next(s, step).posts
  {
    match step
    case CallSettles(id, reply) =>
      if HasCall(s, id) && CallOf(s, id).pc.Posted? {
        assert CallAgrees(s, CallOf(s, id), id);
      }
    case _ =>
  }
}
