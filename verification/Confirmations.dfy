/** Confirmation counting for the penalties the Responder has broadcast: what one block does to the counters. */
module Confirmations {
  import opened Basics

  const CONFIRMATIONS_BEFORE_RETRY := 6

  /** Every watched transaction of the block leaves the list of unconfirmed ones. */
  function Confirm(unconfirmed: seq<Txid>, txs: seq<Txid>, watched: set<Txid>): seq<Txid>
    decreases |txs|
  {
    if txs == [] then unconfirmed
    else
      var tx := txs[0];
      var left := if tx in watched && tx in unconfirmed then RemoveFirst(unconfirmed, tx) else unconfirmed;
      Confirm(left, txs[1..], watched)
  }

  lemma {:induction false} ConfirmFacts(unconfirmed: seq<Txid>, txs: seq<Txid>, watched: set<Txid>)
    requires NoDup(unconfirmed)
    ensures NoDup(Confirm(unconfirmed, txs, watched))
    ensures forall t :: t in Confirm(unconfirmed, txs, watched) <==> t in unconfirmed && !(t in txs && t in watched)
    decreases |txs|
  {
    if txs != [] {
      var tx := txs[0];
      if tx in watched && tx in unconfirmed {
        RemoveFirstElems(unconfirmed, tx);
      }
      var left := if tx in watched && tx in unconfirmed then RemoveFirst(unconfirmed, tx) else unconfirmed;
      ConfirmFacts(left, txs[1..], watched);
      forall t ensures t in txs <==> t == tx || t in txs[1..] {
      }
    }
  }

  lemma {:induction false} ConfirmOneMore(unconfirmed: seq<Txid>, txs: seq<Txid>, watched: set<Txid>, tx: Txid)
    ensures Confirm(unconfirmed, txs + [tx], watched) ==
            var before := Confirm(unconfirmed, txs, watched);
            if tx in watched && tx in before then RemoveFirst(before, tx) else before
    decreases |txs|
  {
    if txs == [] {
      assert ([] + [tx])[1..] == [];
    } else {
      var t := txs[0];
      var left := if t in watched && t in unconfirmed then RemoveFirst(unconfirmed, t) else unconfirmed;
      ConfirmOneMore(left, txs[1..], watched, tx);
      assert (txs + [tx])[1..] == txs[1..] + [tx];
    }
  }

  function Count(missed: map<Txid, nat>, tx: Txid): nat {
    if tx in missed then missed[tx] else 0
  }

  /** Every transaction still unconfirmed has missed one more block. */
  function Miss(missed: map<Txid, nat>, unconfirmed: set<Txid>): map<Txid, nat> {
    map t | t in missed.Keys + unconfirmed :: Count(missed, t) + if t in unconfirmed then 1 else 0
  }

  function ToRebroadcast(missed: map<Txid, nat>): set<Txid> {
    set t | t in missed && missed[t] >= CONFIRMATIONS_BEFORE_RETRY
  }

  function Reset(missed: map<Txid, nat>, txs: set<Txid>): map<Txid, nat> {
    map t | t in missed :: if t in txs then 0 else missed[t]
  }

  lemma ResetOneMore(missed: map<Txid, nat>, done: set<Txid>, tx: Txid)
    requires tx in missed
    ensures Reset(missed, done + {tx}) == Reset(missed, done)[tx := 0]
  {
  }

  lemma MissNothing(missed: map<Txid, nat>)
    ensures Miss(missed, {}) == missed
  {
  }

  lemma MissOneMore(missed: map<Txid, nat>, done: set<Txid>, tx: Txid)
    requires tx !in done
    ensures Miss(missed, done + {tx}) == Miss(missed, done)[tx := Count(Miss(missed, done), tx) + 1]
  {
  }

  /** The counters after a block, once the due transactions have been sent again. */
  function AfterBlock(missed: map<Txid, nat>, unconfirmed: set<Txid>): map<Txid, nat> {
    var counted := Miss(missed, unconfirmed);
    Reset(counted, ToRebroadcast(counted))
  }

  /** All counters are below the threshold between blocks. */
  ghost predicate BelowThreshold(missed: map<Txid, nat>) {
    forall t <- missed :: missed[t] < CONFIRMATIONS_BEFORE_RETRY
  }

  /** One block moves an unconfirmed counter one step around a circle of six and sends exactly when it comes round. */
  lemma BlockCounts(missed: map<Txid, nat>, unconfirmed: set<Txid>, t: Txid)
    requires BelowThreshold(missed)
    ensures BelowThreshold(AfterBlock(missed, unconfirmed))
    ensures t in unconfirmed ==>
              && Count(AfterBlock(missed, unconfirmed), t) == (Count(missed, t) + 1) % 6
              && (t in ToRebroadcast(Miss(missed, unconfirmed)) <==> Count(missed, t) == 5)
    ensures t !in unconfirmed ==>
              && Count(AfterBlock(missed, unconfirmed), t) == Count(missed, t)
              && t !in ToRebroadcast(Miss(missed, unconfirmed))
  {
  }
}
