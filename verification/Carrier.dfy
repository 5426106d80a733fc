/** Pushing transactions to bitcoind, at most once per transaction between two resets. */
module Carrier {
  import opened Basics

  const RPC_DESERIALIZATION_ERROR := -22
  const RPC_VERIFY_ERROR := -25
  const RPC_VERIFY_REJECTED := -26
  const RPC_VERIFY_ALREADY_IN_CHAIN := -27
  const RPC_TX_REORGED_AFTER_BROADCAST := -256
  const UNKNOWN_JSON_RPC_EXCEPTION := -257

  datatype Receipt = Receipt(delivered: bool, confirmations: int, reason: Option<int>)

  /** The answer of bitcoind to a push: accepted, or an RPC error code. */
  datatype Reply = Accepted | RpcError(code: int)

  /**
   How bitcoind behaves towards each transaction at one moment: how often the connection is refused first,
   the answer to the push, and the confirmation count it reports when the transaction is on the chain.
   */
  datatype Network = Network(refusals: Txid -> nat, reply: Txid -> Reply, confirmations: Txid -> Option<nat>)

  function ReceiptOf(reply: Reply, confirmations: Option<nat>): Receipt {
    match reply
    case Accepted => Receipt(true, 0, None)
    case RpcError(code) =>
      if code == RPC_VERIFY_REJECTED then Receipt(false, 0, Some(RPC_VERIFY_REJECTED))
      else if code == RPC_VERIFY_ERROR then Receipt(false, 0, Some(RPC_VERIFY_ERROR))
      else if code == RPC_VERIFY_ALREADY_IN_CHAIN then
        match confirmations
        case Some(n) => Receipt(true, n, Some(RPC_VERIFY_ALREADY_IN_CHAIN))
        case None => Receipt(false, 0, Some(RPC_TX_REORGED_AFTER_BROADCAST))
      else if code == RPC_DESERIALIZATION_ERROR then Receipt(false, 0, Some(RPC_DESERIALIZATION_ERROR))
      else Receipt(false, 0, Some(UNKNOWN_JSON_RPC_EXCEPTION))
  }

  /** The receipt a call gets: the issued one, or the one bitcoind answers now. */
  function ReceiptFor(issued: map<Txid, Receipt>, net: Network, txid: Txid): Receipt {
    if txid in issued then issued[txid] else ReceiptOf(net.reply(txid), net.confirmations(txid))
  }

  /**
   What bitcoind says about a transaction it is asked to push, code by code: it takes it, or it already has it on the
   chain and reports a count; everything else is a refusal.
   */
  ghost predicate FitsReply(net: Network, txid: Txid, receipt: Receipt) {
    match net.reply(txid)
    case Accepted => receipt == Receipt(true, 0, None)
    case RpcError(code) =>
      if code == -27 then
        match net.confirmations(txid)
        case Some(n) => receipt == Receipt(true, n, Some(-27))
        case None => receipt == Receipt(false, 0, Some(-256))
      else receipt == Receipt(false, 0, Some(if code in {-26, -25, -22} then code else -257))
  }

  lemma FreshFitsReply(issued: map<Txid, Receipt>, net: Network, txid: Txid)
    requires txid !in issued
    ensures FitsReply(net, txid, ReceiptFor(issued, net, txid))
  {
  }

  /** The issued receipts once every transaction of a set has been sent. */
  function Sent(issued: map<Txid, Receipt>, net: Network, txids: set<Txid>): map<Txid, Receipt> {
    map t | t in issued.Keys + txids :: ReceiptFor(issued, net, t)
  }

  lemma SentNothing(issued: map<Txid, Receipt>, net: Network)
    ensures Sent(issued, net, {}) == issued
  {
  }

  lemma SentOneMore(issued: map<Txid, Receipt>, net: Network, done: set<Txid>, txid: Txid)
    ensures ReceiptFor(Sent(issued, net, done), net, txid) == ReceiptFor(issued, net, txid)
    ensures Sent(issued, net, done + {txid}) == Sent(issued, net, done)[txid := ReceiptFor(issued, net, txid)]
  {
  }

  /** Exactly the transactions without a receipt were pushed in between, each once. */
  ghost predicate Pushed(before: seq<Txid>, after: seq<Txid>, issued: map<Txid, Receipt>, sent: set<Txid>) {
    && NoDup(after)
    && forall t :: t in after && t !in before <==> t in sent && t !in issued
  }

  lemma PushedIff(before: seq<Txid>, after: seq<Txid>, issued: map<Txid, Receipt>, net: Network, sent: set<Txid>)
    requires Elems(before) == issued.Keys && NoDup(after) && Elems(after) == Sent(issued, net, sent).Keys
    ensures Pushed(before, after, issued, sent)
  {
    forall t ensures (t in before <==> t in issued) && (t in after <==> t in issued || t in sent) {
      assert t in before <==> t in Elems(before);
      assert t in after <==> t in Elems(after);
    }
  }

  class Carrier {
    var issuedReceipts: map<Txid, Receipt>
    /** The pushes bitcoind has answered since the last reset. */
    ghost var answered: seq<Txid>

    ghost predicate Valid()
      reads this
    {
      NoDup(answered) && Elems(answered) == issuedReceipts.Keys
    }

    constructor ()
      ensures Valid() && issuedReceipts == map[]
    {
      issuedReceipts, answered := map[], [];
    }

    method SendTransaction(net: Network, rawtx: string, txid: Txid) returns (receipt: Receipt)
      requires Valid()
      modifies this
      ensures Valid()
      ensures receipt == ReceiptFor(old(issuedReceipts), net, txid)
      ensures txid !in old(issuedReceipts) ==> FitsReply(net, txid, receipt)
      ensures issuedReceipts == old(issuedReceipts)[txid := receipt]
      ensures answered == if txid in old(issuedReceipts) then old(answered) else old(answered) + [txid]
    {
      receipt := Push(net, rawtx, txid, net.refusals(txid));
    }

    /** `refusals` more connection attempts fail before bitcoind answers. */
    method Push(net: Network, rawtx: string, txid: Txid, refusals: nat) returns (receipt: Receipt)
      requires Valid()
      modifies this
      ensures Valid()
      ensures receipt == ReceiptFor(old(issuedReceipts), net, txid)
      ensures txid !in old(issuedReceipts) ==> FitsReply(net, txid, receipt)
      ensures issuedReceipts == old(issuedReceipts)[txid := receipt]
      ensures answered == if txid in old(issuedReceipts) then old(answered) else old(answered) + [txid]
      decreases refusals
    {
      if txid in issuedReceipts {
        receipt := issuedReceipts[txid];
        assert issuedReceipts == issuedReceipts[txid := receipt];
        return;
      }
      if refusals > 0 {
        receipt := Push(net, rawtx, txid, refusals - 1);
      } else {
        receipt := ReceiptOf(net.reply(txid), net.confirmations(txid));
        assert txid !in answered by { assert txid !in Elems(answered); }
        NoDupAppend(answered, txid);
        assert Elems(answered + [txid]) == Elems(answered) + {txid};
        answered := answered + [txid];
      }
      issuedReceipts := issuedReceipts[txid := receipt];
    }

    method ResetReceipts()
      modifies this
      ensures Valid() && issuedReceipts == map[]
    {
      issuedReceipts, answered := map[], [];
    }
  }

  // ---------- Any sequence of calls ----------

  /** A call, with the state of bitcoind at that moment. */
  datatype Call = Call(txid: Txid, net: Network)

  function AfterCalls(issued: map<Txid, Receipt>, calls: seq<Call>): map<Txid, Receipt>
    decreases |calls|
  {
    if calls == [] then issued
    else
      var call := calls[0];
      AfterCalls(issued[call.txid := ReceiptFor(issued, call.net, call.txid)], calls[1..])
  }

  /** The receipt returned to the i-th call. */
  function Returned(issued: map<Txid, Receipt>, calls: seq<Call>, i: nat): Receipt
    requires i < |calls|
  {
    ReceiptFor(AfterCalls(issued, calls[..i]), calls[i].net, calls[i].txid)
  }

  lemma {:induction false} AfterCallsAppend(issued: map<Txid, Receipt>, calls: seq<Call>, call: Call)
    ensures AfterCalls(issued, calls + [call]) ==
            var before := AfterCalls(issued, calls);
            before[call.txid := ReceiptFor(before, call.net, call.txid)]
    decreases |calls|
  {
    if calls == [] {
      assert ([] + [call])[1..] == [];
    } else {
      AfterCallsAppend(issued[calls[0].txid := ReceiptFor(issued, calls[0].net, calls[0].txid)], calls[1..], call);
      assert (calls + [call])[1..] == calls[1..] + [call];
    }
  }

  lemma {:induction false} IssuedStays(issued: map<Txid, Receipt>, calls: seq<Call>, i: nat, j: nat)
    requires i < j <= |calls|
    ensures calls[i].txid in AfterCalls(issued, calls[..j])
    ensures AfterCalls(issued, calls[..j])[calls[i].txid] == Returned(issued, calls, i)
    decreases j
  {
    assert calls[..j] == calls[..j - 1] + [calls[j - 1]];
    AfterCallsAppend(issued, calls[..j - 1], calls[j - 1]);
    if i < j - 1 {
      IssuedStays(issued, calls, i, j - 1);
    }
  }

  /** Between two resets every call for one transaction returns the first receipt, however bitcoind changes. */
  lemma FirstReceiptWins(issued: map<Txid, Receipt>, calls: seq<Call>, i: nat, j: nat)
    requires i < j < |calls| && calls[i].txid == calls[j].txid
    ensures Returned(issued, calls, j) == Returned(issued, calls, i)
    ensures calls[j].txid in AfterCalls(issued, calls[..j])
  {
    IssuedStays(issued, calls, i, j);
  }
}
