/**
 * Replies posted to a provider thread: a durable receipt per (organization, request key) is taken before the
 * POST, and a key is never posted twice. Hosts and the automatic worker share this machine.
 */
module HostInbox {
  import opened Common
  import opened AutoRepository

  /** A key is chosen by its caller, or derived from an inbound message by the automatic worker. */
  datatype RequestKey = Derived(inbound: InboundKey) | Chosen(text: string)

  datatype ReceiptKey = ReceiptKey(organizationId: string, requestKey: RequestKey)

  /** The hashed tuple; the hash is taken to be injective. */
  datatype Fingerprint = Fingerprint(propertyId: string, threadId: string, text: string, requestedBy: string)

  datatype ReceiptStatus = Pending | Delivered | Uncertain

  /** `owner` records which call created the row. */
  datatype Receipt = Receipt(fingerprint: Fingerprint, status: ReceiptStatus, response: Option<nat>, owner: CallId)

  datatype CallId = Worker(token: Token) | Host(id: nat)

  /** How far a call of `reply` has come. */
  datatype CallPc =
    | Preflight
    | Reserved
    | Posted
    | Returned(message: Option<nat>, replayed: bool)
    | Threw(error: ReplyError)

  datatype ReplyError = Rejected | KeyConflict | OutcomeUnknown

  datatype Call = Call(key: ReceiptKey, fingerprint: Fingerprint, pc: CallPc)

  type Receipts = map<ReceiptKey, Receipt>

  /** The unique-key insert, or the stored row when the key is taken. */
  function ReserveReceipts(receipts: Receipts, call: Call, id: CallId): Receipts {
    if call.key in receipts then receipts
    else receipts[call.key := Receipt(call.fingerprint, Pending, None, id)]
  }

  function ReservePc(receipts: Receipts, call: Call): CallPc {
    if call.key !in receipts then Reserved
    else if receipts[call.key].fingerprint != call.fingerprint then Threw(KeyConflict)
    else if !receipts[call.key].status.Delivered? then Threw(OutcomeUnknown)
    else Returned(receipts[call.key].response, true)
  }

  /** After the POST: a parsed property message completes the receipt, anything else marks it uncertain. */
  function SettleReceipts(receipts: Receipts, key: ReceiptKey, reply: Option<nat>): Receipts
    requires key in receipts
  {
    if reply.Some? then receipts[key := receipts[key].(status := Delivered, response := reply)]
    else if receipts[key].status.Pending? then receipts[key := receipts[key].(status := Uncertain)]
    else receipts
  }

  function SettlePc(reply: Option<nat>): CallPc {
    if reply.Some? then Returned(reply, false) else Threw(OutcomeUnknown)
  }

  /** The receipt table with the three statements `reply` issues against it. */
  class ReceiptTable {
    var rows: Receipts

    constructor ()
      ensures rows == map[]
    {
      rows := map[];
    }

    method Reserve(call: Call, id: CallId) returns (created: bool, receipt: Receipt)
      modifies this
      ensures rows == ReserveReceipts(old(rows), call, id)
      ensures created <==> call.key !in old(rows)
      ensures call.key in rows && receipt == rows[call.key]
    {
      created := call.key !in rows;
      if created {
        rows := rows[call.key := Receipt(call.fingerprint, Pending, None, id)];
      }
      receipt := rows[call.key];
    }

    method Complete(key: ReceiptKey, message: nat)
      requires key in rows
      modifies this
      ensures rows == SettleReceipts(old(rows), key, Some(message))
    {
      rows := rows[key := rows[key].(status := Delivered, response := Some(message))];
    }

    method MarkUnknown(key: ReceiptKey)
      requires key in rows
      modifies this
      ensures rows == SettleReceipts(old(rows), key, None)
    {
      if rows[key].status.Pending? {
        rows := rows[key := rows[key].(status := Uncertain)];
      }
    }

    /**
     * `reply` run without interference. `accepted` says whether the checks before the reservation pass, `reply`
     * is what a POST would yield. A POST is made exactly for a key that had no receipt, and the receipt then
     * records whether the outcome is known; a key that had one is answered from its stored message or refused.
     */
    method Send(call: Call, id: CallId, accepted: bool, reply: Option<nat>) returns (pc: CallPc, posted: bool)
      modifies this
      ensures posted <==> accepted && call.key !in old(rows)
      ensures !accepted ==> pc == Threw(Rejected)
      ensures !posted ==> rows == old(rows)
      ensures posted ==>
                rows == old(rows)[call.key := Receipt(call.fingerprint, if reply.Some? then Delivered else Uncertain,
                                                      reply, id)]
      ensures pc.Returned? ==> call.key in rows && rows[call.key].fingerprint == call.fingerprint &&
                               rows[call.key].status.Delivered? && rows[call.key].response == pc.message
      ensures pc.Returned? ==> pc.replayed == !posted
      ensures accepted && !posted ==> (pc.Returned? <==> old(rows)[call.key].fingerprint == call.fingerprint &&
                                                         old(rows)[call.key].status.Delivered?)
      ensures accepted && !posted ==>
                (pc == Threw(KeyConflict) <==> old(rows)[call.key].fingerprint != call.fingerprint)
      ensures pc == if !accepted then Threw(Rejected) else if posted then SettlePc(reply)
              else ReservePc(old(rows), call)
    {
      posted := false;
      if !accepted {
        return Threw(Rejected), false;
      }
      var created, receipt := Reserve(call, id);
      if !created {
        if receipt.fingerprint != call.fingerprint {
          return Threw(KeyConflict), false;
        }
        if !receipt.status.Delivered? {
          return Threw(OutcomeUnknown), false;
        }
        return Returned(receipt.response, true), false;
      }
      posted := true;
      if reply.Some? {
        Complete(call.key, reply.value);
        pc := Returned(reply, false);
      } else {
        MarkUnknown(call.key);
        pc := Threw(OutcomeUnknown);
      }
    }
  }
}
