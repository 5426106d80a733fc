/** The Responder: it follows the penalties handed over by the Watcher until they are irrevocably resolved. */
module Responder {
  import opened Basics
  import opened Records
  import opened BlockTree
  import opened InverseIndex
  import opened AppointmentsDb
  import opened Carrier
  import opened Gatekeeper
  import opened Slots
  import opened Confirmations
  import Cleaner
  import Expiry

  const IRREVOCABLY_RESOLVED := 100

  /** `getrawtransaction`: not found, in the mempool, or on the chain with a confirmation count. */
  datatype TxInfo = NotFound | InMempool | OnChain(confirmations: nat)

  /** The trackers whose penalty has enough confirmations. */
  function Completed(trackers: map<Uuid, TrackerSummary>, unconfirmed: seq<Txid>, getTx: Txid -> TxInfo): set<Uuid> {
    set u | u in trackers && IsCompleted(trackers[u].penaltyTxid, unconfirmed, getTx)
  }

  predicate IsCompleted(penaltyTxid: Txid, unconfirmed: seq<Txid>, getTx: Txid -> TxInfo) {
    && penaltyTxid !in unconfirmed
    && getTx(penaltyTxid).OnChain?
    && getTx(penaltyTxid).confirmations >= IRREVOCABLY_RESOLVED
  }

  /** The outdated appointments whose penalty did not make it to the chain. */
  function Stuck(outdated: set<Uuid>, trackers: map<Uuid, TrackerSummary>, unconfirmed: seq<Txid>): set<Uuid> {
    set u | u in outdated && u in trackers && trackers[u].penaltyTxid in unconfirmed
  }

  function Owners(trackers: map<Uuid, TrackerSummary>, uuids: set<Uuid>): map<Uuid, UserId> {
    map u | u in trackers && u in uuids :: trackers[u].userId
  }

  /** Memory holds the summaries of what the database holds. */
  ghost predicate InStep(trackers: map<Uuid, TrackerSummary>, r: map<Uuid, Tracker>) {
    && trackers.Keys == r.Keys
    && forall u <- trackers :: trackers[u] == r[u].Summary()
  }

  /** What the Responder holds, without its derived index. */
  datatype ResponderState = ResponderState(
    trackers: map<Uuid, TrackerSummary>, unconfirmed: seq<Txid>, missed: map<Txid, nat>, lastKnown: Hash)

  /** The penalties being followed. */
  function Penalties(trackers: map<Uuid, TrackerSummary>): set<Txid> {
    set u | u in trackers :: trackers[u].penaltyTxid
  }

  /** The penalties due for another broadcast after a block. */
  function Due(r: ResponderState, txs: seq<Txid>): set<Txid> {
    ToRebroadcast(Miss(r.missed, Elems(Confirm(r.unconfirmed, txs, Penalties(r.trackers)))))
  }

  /** One block: confirmations are counted against the old trackers, then `gone` leaves. */
  function NextState(r: ResponderState, txs: seq<Txid>, gone: set<Uuid>, blockHash: Hash): ResponderState {
    var unconfirmed := Confirm(r.unconfirmed, txs, Penalties(r.trackers));
    ResponderState(r.trackers - gone, unconfirmed, AfterBlock(r.missed, Elems(unconfirmed)), blockHash)
  }

  lemma ExactKeysArePenalties(trackers: map<Uuid, TrackerSummary>, index: map<Txid, seq<Uuid>>)
    requires Exact(PenaltyOf(trackers), index)
    ensures index.Keys == Penalties(trackers)
  {
    forall t | t in index ensures t in Penalties(trackers) {
      var u := index[t][0];
      assert u in index[t];
      assert u in PenaltyOf(trackers) && trackers[u].penaltyTxid == t;
    }
    forall t | t in Penalties(trackers) ensures t in index {
      var u :| u in trackers && trackers[u].penaltyTxid == t;
      assert u in PenaltyOf(trackers);
    }
  }

  /** A tracker is never both completed and stuck: one needs its penalty confirmed, the other unconfirmed. */
  lemma CompletedAndStuckApart(
    outdated: set<Uuid>, trackers: map<Uuid, TrackerSummary>, unconfirmed: seq<Txid>, getTx: Txid -> TxInfo)
    ensures Completed(trackers, unconfirmed, getTx) !! Stuck(outdated, trackers, unconfirmed)
  {
  }

  lemma FinishedAreTracked(
    outdated: set<Uuid>, trackers: map<Uuid, TrackerSummary>, unconfirmed: seq<Txid>, getTx: Txid -> TxInfo)
    ensures Completed(trackers, unconfirmed, getTx) <= trackers.Keys
    ensures Stuck(outdated, trackers, unconfirmed) <= trackers.Keys
  {
  }

  lemma InStepRemove(trackers: map<Uuid, TrackerSummary>, r: map<Uuid, Tracker>, gone: set<Uuid>)
    requires InStep(trackers, r)
    ensures InStep(trackers - gone, r - gone)
  {
  }

  lemma InStepAdd(trackers: map<Uuid, TrackerSummary>, r: map<Uuid, Tracker>, u: Uuid, tracker: Tracker)
    requires InStep(trackers, r)
    ensures InStep(trackers[u := tracker.Summary()], r[u := tracker])
  {
  }

  class Responder {
    var trackers: map<Uuid, TrackerSummary>
    var txTrackerMap: map<Txid, seq<Uuid>>
    var unconfirmedTxs: seq<Txid>
    var missedConfirmations: map<Txid, nat>
    var lastKnownBlock: Hash
    const dbManager: AppointmentsDbm
    const gatekeeper: Gatekeeper
    const carrier: Carrier

    ghost predicate Valid()
      reads this, dbManager, carrier
    {
      && Exact(PenaltyOf(trackers), txTrackerMap)
      && NoDup(unconfirmedTxs)
      && dbManager.Valid() && carrier.Valid()
      && InStep(trackers, dbManager.view.r)
    }

    constructor (dbManager: AppointmentsDbm, gatekeeper: Gatekeeper, carrier: Carrier, lastKnownBlock: Hash)
      ensures dbManager.Valid() && carrier.Valid() && dbManager.view.r == map[] ==> Valid()
      ensures this.dbManager == dbManager && this.gatekeeper == gatekeeper && this.carrier == carrier
      ensures trackers == map[] && txTrackerMap == map[] && unconfirmedTxs == [] && missedConfirmations == map[]
      ensures this.lastKnownBlock == lastKnownBlock
    {
      this.dbManager, this.gatekeeper, this.carrier := dbManager, gatekeeper, carrier;
      trackers, txTrackerMap, unconfirmedTxs, missedConfirmations := map[], map[], [], map[];
      this.lastKnownBlock := lastKnownBlock;
    }

    /** A uuid that is already tracked gets its new tracker too, but the index then lists it twice. */
    method AddTracker(uuid: Uuid, tracker: Tracker, confirmations: int)
      requires Valid()
      modifies this`trackers, this`txTrackerMap, this`unconfirmedTxs, dbManager
      ensures Valid() <==> uuid !in old(trackers)
      ensures NoDup(unconfirmedTxs) && dbManager.Valid() && InStep(trackers, dbManager.view.r)
      ensures txTrackerMap == Insert(old(txTrackerMap), tracker.penaltyTxid, uuid)
      ensures trackers == old(trackers)[uuid := tracker.Summary()]
      ensures dbManager.view == old(dbManager.view).(r := old(dbManager.view).r[uuid := tracker])
      ensures unconfirmedTxs == if tracker.penaltyTxid !in old(unconfirmedTxs) && confirmations == 0
                                then old(unconfirmedTxs) + [tracker.penaltyTxid] else old(unconfirmedTxs)
    {
      InsertExactIff(PenaltyOf(trackers), txTrackerMap, tracker.penaltyTxid, uuid);
      Cleaner.PenaltyOfUpdates(trackers, uuid, tracker.Summary());
      InStepAdd(trackers, dbManager.view.r, uuid, tracker);
      trackers := trackers[uuid := tracker.Summary()];
      txTrackerMap := Insert(txTrackerMap, tracker.penaltyTxid, uuid);
      if tracker.penaltyTxid !in unconfirmedTxs && confirmations == 0 {
        NoDupAppend(unconfirmedTxs, tracker.penaltyTxid);
        unconfirmedTxs := unconfirmedTxs + [tracker.penaltyTxid];
      }
      dbManager.StoreResponderTracker(uuid, tracker);
    }

    /** Broadcasts a penalty; it is followed only when it was delivered. */
    method HandleBreach(net: Network, uuid: Uuid, tracker: Tracker) returns (receipt: Receipt)
      requires Valid()
      modifies this`trackers, this`txTrackerMap, this`unconfirmedTxs, dbManager, carrier
      ensures Valid() <==> !receipt.delivered || uuid !in old(trackers)
      ensures NoDup(unconfirmedTxs) && dbManager.Valid() && carrier.Valid() && InStep(trackers, dbManager.view.r)
      ensures txTrackerMap == if receipt.delivered then Insert(old(txTrackerMap), tracker.penaltyTxid, uuid)
                              else old(txTrackerMap)
      ensures receipt == ReceiptFor(old(carrier.issuedReceipts), net, tracker.penaltyTxid)
      ensures carrier.issuedReceipts == old(carrier.issuedReceipts)[tracker.penaltyTxid := receipt]
      ensures tracker.penaltyTxid !in old(carrier.issuedReceipts) ==> FitsReply(net, tracker.penaltyTxid, receipt)
      ensures Pushed(old(carrier.answered), carrier.answered, old(carrier.issuedReceipts), {tracker.penaltyTxid})
      ensures trackers == if receipt.delivered then old(trackers)[uuid := tracker.Summary()] else old(trackers)
      ensures dbManager.view == if receipt.delivered
                                then old(dbManager.view).(r := old(dbManager.view).r[uuid := tracker])
                                else old(dbManager.view)
      ensures unconfirmedTxs ==
              if receipt.delivered && tracker.penaltyTxid !in old(unconfirmedTxs) && receipt.confirmations == 0
              then old(unconfirmedTxs) + [tracker.penaltyTxid] else old(unconfirmedTxs)
    {
      receipt := carrier.SendTransaction(net, tracker.penaltyRawtx, tracker.penaltyTxid);
      if receipt.delivered {
        AddTracker(uuid, tracker, receipt.confirmations);
      }
    }

    method GetCompletedTrackers(getTx: Txid -> TxInfo) returns (completed: seq<Uuid>)
      ensures NoDup(completed) && Elems(completed) == Completed(trackers, unconfirmedTxs, getTx)
    {
      completed := [];
      var checkedTxs: map<Txid, TxInfo> := map[];
      var pending := trackers.Keys;
      while pending != {}
        invariant pending <= trackers.Keys && NoDup(completed)
        invariant Elems(completed) == Completed(trackers, unconfirmedTxs, getTx) - pending
        invariant forall t <- checkedTxs :: checkedTxs[t] == getTx(t)
        decreases pending
      {
        var uuid :| uuid in pending;
        var penaltyTxid := trackers[uuid].penaltyTxid;
        assert uuid !in completed by { assert uuid !in Elems(completed); }
        if penaltyTxid !in unconfirmedTxs {
          var tx := if penaltyTxid in checkedTxs then checkedTxs[penaltyTxid] else getTx(penaltyTxid);
          if tx != NotFound {
            checkedTxs := checkedTxs[penaltyTxid := tx];
            if tx.OnChain? && tx.confirmations >= IRREVOCABLY_RESOLVED {
              NoDupAppend(completed, uuid);
              assert Elems(completed + [uuid]) == Elems(completed) + {uuid};
              completed := completed + [uuid];
            }
          }
        }
        pending := pending - {uuid};
      }
    }

    /** Fails on the first outdated appointment that has no tracker. */
    method GetOutdatedTrackers(height: int) returns (r: Result<seq<Uuid>>)
      requires Expiry.GetOutdated.requires(gatekeeper.config, gatekeeper.State(), height)
      ensures var outdated := Flatten(Expiry.GetOutdated(gatekeeper.config, gatekeeper.State(), height));
              && (r.Ok? <==> outdated <= trackers.Keys)
              && (r.Raised? ==> r == Raised(KeyError))
              && (r.Ok? ==> Elems(r.value) == Stuck(outdated, trackers, unconfirmedTxs))
      ensures r.Ok? && Apart(Expiry.GetOutdated(gatekeeper.config, gatekeeper.State(), height)) ==> NoDup(r.value)
    {
      var uuids := gatekeeper.GetOutdatedAppointments(height);
      var stuck: seq<Uuid> := [];
      for i := 0 to |uuids|
        invariant forall u <- uuids[..i] :: u in trackers
        invariant forall u ::
                    u in stuck <==> u in uuids[..i] && u in trackers && trackers[u].penaltyTxid in unconfirmedTxs
        invariant NoDup(uuids) ==> NoDup(stuck)
      {
        if uuids[i] !in trackers {
          assert uuids[i] in Elems(uuids);
          return Raised(KeyError);
        }
        if NoDup(uuids) {
          assert uuids[i] !in uuids[..i];
        }
        assert uuids[..i + 1] == uuids[..i] + [uuids[i]];
        if trackers[uuids[i]].penaltyTxid in unconfirmedTxs {
          stuck := stuck + [uuids[i]];
        }
      }
      assert uuids[..|uuids|] == uuids;
      assert forall u :: u in uuids <==> u in Elems(uuids);
      r := Ok(stuck);
    }

    method CheckConfirmations(txs: seq<Txid>)
      requires NoDup(unconfirmedTxs)
      modifies this`unconfirmedTxs, this`missedConfirmations
      ensures unconfirmedTxs == Confirm(old(unconfirmedTxs), txs, txTrackerMap.Keys)
      ensures missedConfirmations == Miss(old(missedConfirmations), Elems(unconfirmedTxs))
      ensures NoDup(unconfirmedTxs)
    {
      for i := 0 to |txs|
        invariant unconfirmedTxs == Confirm(old(unconfirmedTxs), txs[..i], txTrackerMap.Keys)
        invariant missedConfirmations == old(missedConfirmations)
      {
        ConfirmOneMore(old(unconfirmedTxs), txs[..i], txTrackerMap.Keys, txs[i]);
        assert txs[..i + 1] == txs[..i] + [txs[i]];
        if txs[i] in txTrackerMap && txs[i] in unconfirmedTxs {
          unconfirmedTxs := RemoveFirst(unconfirmedTxs, txs[i]);
        }
      }
      assert txs[..|txs|] == txs;
      ConfirmFacts(old(unconfirmedTxs), txs, txTrackerMap.Keys);
      CountMissedConfirmations();
    }

    /** The second loop of `check_confirmations`. */
    method CountMissedConfirmations()
      requires NoDup(unconfirmedTxs)
      modifies this`missedConfirmations
      ensures missedConfirmations == Miss(old(missedConfirmations), Elems(unconfirmedTxs))
    {
      hide Miss;
      MissNothing(missedConfirmations);
      assert Elems(unconfirmedTxs[..0]) == {};
      for i := 0 to |unconfirmedTxs|
        invariant missedConfirmations == Miss(old(missedConfirmations), Elems(unconfirmedTxs[..i]))
      {
        var tx := unconfirmedTxs[i];
        ElemsOneMore(unconfirmedTxs, i);
        assert tx !in Elems(unconfirmedTxs[..i]) by {
          assert tx !in unconfirmedTxs[..i];
        }
        MissOneMore(old(missedConfirmations), Elems(unconfirmedTxs[..i]), tx);
        if tx in missedConfirmations {
          missedConfirmations := missedConfirmations[tx := missedConfirmations[tx] + 1];
        } else {
          missedConfirmations := missedConfirmations[tx := 1];
        }
      }
      assert unconfirmedTxs[..|unconfirmedTxs|] == unconfirmedTxs;
    }

    method GetTxsToRebroadcast() returns (txs: seq<Txid>)
      ensures NoDup(txs) && Elems(txs) == ToRebroadcast(missedConfirmations)
    {
      txs := [];
      var pending := missedConfirmations.Keys;
      while pending != {}
        invariant pending <= missedConfirmations.Keys && NoDup(txs)
        invariant Elems(txs) == ToRebroadcast(missedConfirmations) - pending
        decreases pending
      {
        var tx :| tx in pending;
        assert tx !in txs by { assert tx !in Elems(txs); }
        if missedConfirmations[tx] >= CONFIRMATIONS_BEFORE_RETRY {
          NoDupAppend(txs, tx);
          assert Elems(txs + [tx]) == Elems(txs) + {tx};
          txs := txs + [tx];
        }
        pending := pending - {tx};
      }
    }

    /**
     Sends the transactions again, once per tracker; one without trackers raises. Bitcoind gets each of them once,
     unless it still has a receipt.
     */
    method Rebroadcast(net: Network, txs: seq<Txid>) returns (r: Result<()>)
      requires Valid() && Elems(txs) <= missedConfirmations.Keys
      modifies this`missedConfirmations, carrier
      ensures Valid()
      ensures r == if Elems(txs) <= txTrackerMap.Keys then Ok(()) else Raised(KeyError)
      ensures r.Ok? ==> missedConfirmations == Reset(old(missedConfirmations), Elems(txs))
      ensures r.Ok? ==> carrier.issuedReceipts == Sent(old(carrier.issuedReceipts), net, Elems(txs))
      ensures r.Ok? ==> Pushed(old(carrier.answered), carrier.answered, old(carrier.issuedReceipts), Elems(txs))
    {
      SentNothing(carrier.issuedReceipts, net);
      for i := 0 to |txs|
        invariant Valid() && Elems(txs[..i]) <= txTrackerMap.Keys
        invariant missedConfirmations == Reset(old(missedConfirmations), Elems(txs[..i]))
        invariant carrier.issuedReceipts == Sent(old(carrier.issuedReceipts), net, Elems(txs[..i]))
      {
        assert txs[i] in Elems(txs);
        assert Elems(txs[..i + 1]) == Elems(txs[..i]) + {txs[i]};
        ResetOneMore(old(missedConfirmations), Elems(txs[..i]), txs[i]);
        SentOneMore(old(carrier.issuedReceipts), net, Elems(txs[..i]), txs[i]);
        missedConfirmations := missedConfirmations[txs[i] := 0];
        if txs[i] !in txTrackerMap {
          return Raised(KeyError);
        }
        SendForAll(net, txs[i]);
      }
      assert txs[..|txs|] == txs;
      PushedIff(old(carrier.answered), carrier.answered, old(carrier.issuedReceipts), net, Elems(txs));
      r := Ok(());
    }

    method SendForAll(net: Network, txid: Txid)
      requires Valid() && txid in txTrackerMap
      modifies carrier
      ensures carrier.Valid()
      ensures carrier.issuedReceipts ==
              old(carrier.issuedReceipts)[txid := ReceiptFor(old(carrier.issuedReceipts), net, txid)]
    {
      var uuids := txTrackerMap[txid];
      for i := 0 to |uuids|
        invariant carrier.Valid()
        invariant carrier.issuedReceipts == if i == 0 then old(carrier.issuedReceipts) else
                    old(carrier.issuedReceipts)[txid := ReceiptFor(old(carrier.issuedReceipts), net, txid)]
      {
        ExactLists(PenaltyOf(trackers), txTrackerMap, txid, uuids[i]);
        var tracker := dbManager.LoadResponderTracker(uuids[i]);
        var receipt := carrier.SendTransaction(net, tracker.value.penaltyRawtx, tracker.value.penaltyTxid);
      }
    }

    ghost function State(): ResponderState
      reads this
    {
      ResponderState(trackers, unconfirmedTxs, missedConfirmations, lastKnownBlock)
    }

    /** The users outdated at a height, as the Gatekeeper reports them. */
    ghost function OutdatedAt(height: int): Expiry.Outdated
      reads gatekeeper
    {
      Expiry.GetOutdated(gatekeeper.config, gatekeeper.State(), height)
    }

    /** Deletes completed and stuck trackers; only the former give their slots back. */
    method DeleteFinished(completed: seq<Uuid>, stuck: seq<Uuid>)
      requires Valid() && gatekeeper.Valid() && NoDup(completed) && NoDup(stuck)
      requires Elems(completed) <= trackers.Keys && Elems(stuck) <= trackers.Keys && Elems(completed) !! Elems(stuck)
      modifies this`trackers, this`txTrackerMap, dbManager
      ensures Valid()
      ensures trackers == old(trackers) - (Elems(completed) + Elems(stuck))
      ensures dbManager.view == Cleaner.WithoutTrackers(old(dbManager.view), Elems(completed) + Elems(stuck))
    {
      ghost var c, o := Elems(completed), Elems(stuck);
      Cleaner.WithoutTwice(dbManager.view, c, o);
      InStepRemove(trackers, dbManager.view.r, c + o);
      assert trackers - c - o == trackers - (c + o);
      trackers, txTrackerMap := Cleaner.DeleteTrackers(completed, trackers, txTrackerMap, dbManager);
      trackers, txTrackerMap := Cleaner.DeleteTrackers(stuck, trackers, txTrackerMap, dbManager);
    }

    /**
     The part of a block handled under the lock, on a block that extends the last known one. An untracked outdated
     appointment makes it fail before anything changes; a due penalty without a tracker only after everything but the
     counters and the receipts is settled.
     */
    method ExtendChain(net: Network, getTx: Txid -> TxInfo, block: Block) returns (r: Result<()>)
      requires Valid() && gatekeeper.Valid() && Apart(OutdatedAt(block.height))
      modifies this`trackers, this`txTrackerMap, this`unconfirmedTxs, this`missedConfirmations
      modifies dbManager, carrier, gatekeeper`registeredUsers, gatekeeper.userDb
      ensures var outdated := Flatten(old(OutdatedAt(block.height)));
              var completed := Completed(old(trackers), old(unconfirmedTxs), getTx);
              var gone := completed + Stuck(outdated, old(trackers), old(unconfirmedTxs));
              && Valid() && gatekeeper.Valid()
              && (r.Ok? <==> outdated <= old(trackers).Keys
                             && Due(old(State()), block.txs) <= Penalties(old(trackers) - gone))
              && (if !(outdated <= old(trackers).Keys) then
                    && State() == old(State()) && dbManager.view == old(dbManager.view)
                    && carrier.issuedReceipts == old(carrier.issuedReceipts)
                    && gatekeeper.registeredUsers == old(gatekeeper.registeredUsers)
                  else
                    && State().(missed := old(missedConfirmations)) ==
                         NextState(old(State()), block.txs, gone, lastKnownBlock).(missed := old(missedConfirmations))
                    && dbManager.view == Cleaner.WithoutTrackers(old(dbManager.view), gone)
                    && gatekeeper.registeredUsers ==
                         Refund(old(gatekeeper.registeredUsers), Owners(old(trackers), completed)))
              && (r.Ok? ==>
                    && State() == NextState(old(State()), block.txs, gone, lastKnownBlock)
                    && carrier.issuedReceipts == Sent(old(carrier.issuedReceipts), net, Due(old(State()), block.txs)))
    {
      hide InverseIndex.Exact, Represents, InStep, PenaltyOf, Completed, Stuck, Flatten, Expiry.GetOutdated, Refund,
           Sent, Miss, Confirm;
      var completed := GetCompletedTrackers(getTx);
      var outdated := GetOutdatedTrackers(block.height);
      if outdated.Raised? {
        return Raised(outdated.exception);
      }
      var owners := map u | u in trackers && u in completed :: trackers[u].userId;
      assert owners == Owners(trackers, Elems(completed));
      ExactKeysArePenalties(trackers, txTrackerMap);
      CheckConfirmations(block.txs);
      CompletedAndStuckApart(Flatten(old(OutdatedAt(block.height))), old(trackers), old(unconfirmedTxs), getTx);
      FinishedAreTracked(Flatten(old(OutdatedAt(block.height))), old(trackers), old(unconfirmedTxs), getTx);
      DeleteFinished(completed, outdated.value);
      ExactKeysArePenalties(trackers, txTrackerMap);
      gatekeeper.DeleteAppointments(owners);
      var txs := GetTxsToRebroadcast();
      r := Rebroadcast(net, txs);
    }

    /** The body of `do_watch` for one block. */
    method OnBlock(net: Network, getTx: Txid -> TxInfo, blockHash: Hash, block: Block) returns (r: Result<()>)
      requires Valid() && gatekeeper.Valid() && Apart(OutdatedAt(block.height))
      requires block.prev == Some(lastKnownBlock) || trackers == map[]
      modifies this, dbManager, carrier, gatekeeper`registeredUsers, gatekeeper.userDb
      ensures var outdated := Flatten(old(OutdatedAt(block.height)));
              var completed := Completed(old(trackers), old(unconfirmedTxs), getTx);
              var gone := completed + Stuck(outdated, old(trackers), old(unconfirmedTxs));
              && Valid() && gatekeeper.Valid()
              && (r.Ok? <==> old(trackers) == map[] ||
                             (&& outdated <= old(trackers).Keys
                              && Due(old(State()), block.txs) <= Penalties(old(trackers) - gone)))
              && (r.Ok? ==>
                    if old(trackers) == map[] then
                      && State() == old(State()).(lastKnown := blockHash)
                      && dbManager.view == old(dbManager.view).(br := Some(blockHash))
                      && gatekeeper.registeredUsers == old(gatekeeper.registeredUsers)
                      && carrier.issuedReceipts == old(carrier.issuedReceipts)
                    else
                      && State() == NextState(old(State()), block.txs, gone, blockHash)
                      && dbManager.view == Cleaner.WithoutTrackers(old(dbManager.view), gone).(br := Some(blockHash))
                      && gatekeeper.registeredUsers ==
                           Refund(old(gatekeeper.registeredUsers), Owners(old(trackers), completed))
                      && carrier.issuedReceipts == map[])
              && (r.Raised? ==>
                    if !(outdated <= old(trackers).Keys) then
                      && State() == old(State()) && dbManager.view == old(dbManager.view)
                      && carrier.issuedReceipts == old(carrier.issuedReceipts)
                      && gatekeeper.registeredUsers == old(gatekeeper.registeredUsers)
                    else
                      && State().(missed := old(missedConfirmations)) ==
                           NextState(old(State()), block.txs, gone, old(lastKnownBlock)).(
                             missed := old(missedConfirmations))
                      && dbManager.view == Cleaner.WithoutTrackers(old(dbManager.view), gone)
                      && gatekeeper.registeredUsers ==
                           Refund(old(gatekeeper.registeredUsers), Owners(old(trackers), completed)))
    {
      hide InverseIndex.Exact, Represents, Completed, Stuck, Flatten, Expiry.GetOutdated, Refund, Due, Penalties;
      hide InStep;
      if |trackers| > 0 {
        r := ExtendChain(net, getTx, block);
        if r.Raised? {
          return;
        }
        carrier.ResetReceipts();
      }
      dbManager.StoreLastBlockHashResponder(blockHash);
      lastKnownBlock := blockHash;
      r := Ok(());
    }
  }
}
