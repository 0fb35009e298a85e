/**
 * The durable side of an Airbnb channel activation, for one connection: the claim taken before the
 * non-replayable POST and the audit rows that say how each claim ended.
 */
module ActivationStore {
  import opened Common
  import opened ChannelLifecycle

  type RequestKey = string

  datatype AuditStatus = Pending | Success | Failed | Unknown

  /** An ACTIVATION_REQUESTED audit; its decision id is derived from the request key. */
  datatype Audit = Audit(status: AuditStatus, startedAt: Time)

  /**
   * `claim` is `activationRequestedAt`. `version` stands for `updatedAt`: every update of the row changes it.
   * `verified` holds the request keys whose ACTIVATION_VERIFIED audit exists.
   */
  datatype Store = Store(claim: Option<Time>, version: nat, audits: map<RequestKey, Audit>, verified: set<RequestKey>)

  predicate Open(status: AuditStatus) {
    status.Pending? || status.Unknown?
  }

  predicate IsOpen(store: Store, key: RequestKey) {
    key in store.audits && Open(store.audits[key].status)
  }

  function Close(audits: map<RequestKey, Audit>, key: RequestKey, status: AuditStatus): map<RequestKey, Audit> {
    if key in audits && Open(audits[key].status) then audits[key := audits[key].(status := status)] else audits
  }

  predicate ClaimSucceeds(store: Store, key: RequestKey, seen: nat, contextOk: bool) {
    contextOk && key !in store.audits && store.claim.None? && store.version == seen
  }

  function Claim(store: Store, key: RequestKey, seen: nat, now: Time, contextOk: bool): Store {
    if !ClaimSucceeds(store, key, seen, contextOk) then store
    else store.(claim := Some(now), version := store.version + 1, audits := store.audits[key := Audit(Pending, now)])
  }

  function MarkUnverified(store: Store, key: RequestKey, requestedAt: Time, definitive: bool): Store {
    var closed := store.(audits := Close(store.audits, key, if definitive then Failed else Unknown));
    if definitive && store.claim == Some(requestedAt) then closed.(claim := None, version := store.version + 1)
    else closed
  }

  predicate FinalizeSucceeds(store: Store, claimedAt: Option<Time>, contextOk: bool) {
    contextOk && (claimedAt.Some? ==> store.claim == claimedAt)
  }

  function Finalize(store: Store, requested: Option<RequestKey>, verifiedKey: RequestKey, claimedAt: Option<Time>,
                    contextOk: bool): Store
  {
    if !FinalizeSucceeds(store, claimedAt, contextOk) then store
    else
      var released := if claimedAt.Some? then store.(claim := None, version := store.version + 1) else store;
      released.(verified := store.verified + {verifiedKey},
                audits := if requested.Some? then Close(store.audits, requested.value, Success) else store.audits)
  }

  /** The lifecycle webhook rewrites the same row, without a look at the audits or at a POST under way. */
  function AfterEvent(store: Store, event: EventType): Store {
    store.(claim := if Invalidates(event) then None else store.claim, version := store.version + 1)
  }

  function OpenKeys(store: Store): set<RequestKey> {
    set key | key in store.audits && Open(store.audits[key].status)
  }

  /** The rows, updated in place inside serializable transactions. */
  class Rows {
    var claim: Option<Time>
    var version: nat
    var audits: map<RequestKey, Audit>
    var verified: set<RequestKey>

    ghost function Value(): Store
      reads this
    {
      Store(claim, version, audits, verified)
    }

    constructor ()
      ensures Value() == Store(None, 0, map[], {})
    {
      claim, version, audits, verified := None, 0, map[], {};
    }

    /** Takes the claim and its audit together; any failing check aborts the transaction. */
    method ClaimActivation(key: RequestKey, seen: nat, now: Time, contextOk: bool) returns (claimed: bool)
      modifies this
      ensures Value() == Claim(old(Value()), key, seen, now, contextOk)
      ensures claimed <==> ClaimSucceeds(old(Value()), key, seen, contextOk)
    {
      if !contextOk || key in audits {
        return false;
      }
      if version != seen || claim.Some? {
        return false;
      }
      claim, version := Some(now), version + 1;
      audits := audits[key := Audit(Pending, now)];
      return true;
    }

    method MarkActivationUnverified(key: RequestKey, requestedAt: Time, definitive: bool)
      modifies this
      ensures Value() == MarkUnverified(old(Value()), key, requestedAt, definitive)
    {
      if key in audits && Open(audits[key].status) {
        audits := audits[key := audits[key].(status := if definitive then Failed else Unknown)];
      }
      if definitive && claim == Some(requestedAt) {
        claim, version := None, version + 1;
      }
    }

    method FinalizeActivationVerified(requested: Option<RequestKey>, verifiedKey: RequestKey, claimedAt: Option<Time>,
                                      contextOk: bool)
      returns (finalized: bool)
      modifies this
      ensures Value() == Finalize(old(Value()), requested, verifiedKey, claimedAt, contextOk)
      ensures finalized <==> FinalizeSucceeds(old(Value()), claimedAt, contextOk)
    {
      if !contextOk {
        return false;
      }
      if claimedAt.Some? {
        if claim != claimedAt {
          return false;
        }
        claim, version := None, version + 1;
      }
      verified := verified + {verifiedKey};
      if requested.Some? && requested.value in audits && Open(audits[requested.value].status) {
        audits := audits[requested.value := audits[requested.value].(status := Success)];
      }
      return true;
    }

    method ApplyLifecycleEvent(event: EventType)
      modifies this
      ensures Value() == AfterEvent(old(Value()), event)
    {
      version := version + 1;
      if Invalidates(event) {
        claim := None;
      }
    }
  }
}
