/** How often the Responder sends an unconfirmed penalty again, over whole runs. */
module Rebroadcasts {
  import opened Basics
  import opened BlockTree
  import opened Carrier
  import opened LocatorCache
  import opened Responder
  import opened Gatekeeper
  import opened Slots
  import opened Breaches
  import opened Confirmations
  import opened TowerModel
  import opened Invariants
  import opened BlockSteps
  import opened Runs
  import opened Lifecycle
  import Expiry

  /** A block the Responder does not skip. */
  ghost predicate Counted(t: Tower, e: Event) {
    e.ResponderSaw? && t.responder.trackers != map[]
  }

  /** The penalty is confirmed by this step. */
  ghost predicate ConfirmedBy(world: World, t: Tower, e: Event, p: Txid) {
    Counted(t, e) && e.h in world.tree && p in world.tree[e.h].txs && p in Penalties(t.responder.trackers)
  }

  ghost predicate SentBy(world: World, t: Tower, e: Event, p: Txid) {
    Counted(t, e) && e.h in world.tree && p in Due(t.responder, world.tree[e.h].txs)
  }

  /** The penalty that a request has the Responder send at once, if any. */
  ghost function RequestPenalty(world: World, t: Tower, req: Request, blockCount: int, net: Network): Option<Txid>
    requires WorldOk(world) && t.lastKnown in world.tree
  {
    if !Admitted(world, t, req, blockCount, net) || req.locator !in CacheAt(world, t.lastKnown) then None
    else
      match world.decrypt(req.blob, CacheAt(world, t.lastKnown)[req.locator])
      case Some(p) => Some(p.txid)
      case None => None
  }

  /** The penalties delivered for breaches in this step: they get new trackers. */
  ghost function DeliveredBy(world: World, t: Tower, e: Event): set<Txid>
    requires WorldOk(world)
  {
    match e
    case WatcherSaw(h, net, entries) =>
      var valid := ValidPart(Verdicts(world.decrypt, entries));
      if h in world.tree && Searched(world, t, h) then PenaltyTxids(valid, Delivered(valid, valid.Keys, t.issued, net))
      else {}
    case Requested(req, blockCount, net) =>
      if t.lastKnown !in world.tree then {}
      else
        var p := RequestPenalty(world, t, req, blockCount, net);
        if p.Some? && ReceiptFor(t.issued, net, p.value).delivered then {p.value} else {}
    case _ => {}
  }

  /** Those of them that are not on the chain yet. */
  ghost function AddedBy(world: World, t: Tower, e: Event): set<Txid>
    requires WorldOk(world)
  {
    match e
    case WatcherSaw(_, net, _) =>
      set p | p in DeliveredBy(world, t, e) && ReceiptFor(t.issued, net, p).confirmations == 0
    case Requested(_, _, net) =>
      set p | p in DeliveredBy(world, t, e) && ReceiptFor(t.issued, net, p).confirmations == 0
    case _ => {}
  }

  ghost function BlocksCounted(ts: seq<Tower>, es: seq<Event>, i: nat, j: nat): nat
    requires i <= j <= |es| < |ts|
  {
    if i == j then 0 else BlocksCounted(ts, es, i, j - 1) + if Counted(ts[j - 1], es[j - 1]) then 1 else 0
  }

  ghost function TimesSent(world: World, ts: seq<Tower>, es: seq<Event>, p: Txid, i: nat, j: nat): nat
    requires i <= j <= |es| < |ts|
  {
    if i == j then 0
    else TimesSent(world, ts, es, p, i, j - 1) + if SentBy(world, ts[j - 1], es[j - 1], p) then 1 else 0
  }

  // ---------- One step ----------

  /** What a step does to one penalty: its place in the list, its counter, and whether it is sent again. */
  ghost predicate CountsOnce(world: World, t: Tower, e: Event, t': Tower, p: Txid) {
    && p in t'.responder.unconfirmed
    && Count(t'.responder.missed, p) ==
         (if Counted(t, e) then (Count(t.responder.missed, p) + 1) % 6
          else Count(t.responder.missed, p))
    && (SentBy(world, t, e, p) <==> Counted(t, e) && Count(t.responder.missed, p) == 5)
  }

  lemma BlockCountsOnce(world: World, t: Tower, h: Hash, getTx: Txid -> TxInfo, t': Tower, p: Txid)
    requires InMemory(t) && ResponderBlock(world, t, t', h, getTx)
    requires p in t.responder.unconfirmed && !ConfirmedBy(world, t, ResponderSaw(h, getTx), p)
    ensures CountsOnce(world, t, ResponderSaw(h, getTx), t', p)
  {
    hide Completed, Stuck, Refund, Flatten, Expiry.GetOutdated;
    if t.responder.trackers != map[] {
      var unconfirmed := Confirm(t.responder.unconfirmed, world.tree[h].txs, Penalties(t.responder.trackers));
      ConfirmFacts(t.responder.unconfirmed, world.tree[h].txs, Penalties(t.responder.trackers));
      BlockCounts(t.responder.missed, Elems(unconfirmed), p);
    }
  }

  lemma WatcherLeavesCounters(world: World, t: Tower, t': Tower, h: Hash, net: Network, entries: seq<Entry>)
    requires WatcherBlock(world, t, t', h, net, entries)
    ensures t'.responder.missed == t.responder.missed
    ensures forall p <- t.responder.unconfirmed :: p in t'.responder.unconfirmed
  {
    hide ListsBreached, Refund, Sent, Verdicts, OutdatedHere, NewTrackers;
    assert forall p <- t.responder.unconfirmed :: p in Elems(t.responder.unconfirmed);
  }

  lemma RequestLeavesCounters(world: World, t: Tower, req: Request, blockCount: int, net: Network)
    requires WorldOk(world) && t.lastKnown in world.tree
    ensures var t' := AddAppointment(world, t, req, blockCount, net).0;
            && t'.responder.missed == t.responder.missed
            && forall p <- t.responder.unconfirmed :: p in t'.responder.unconfirmed
  {
    hide WellFormed, CacheAt, Refusal, Charge;
  }

  lemma StepCountsOnce(world: World, t: Tower, e: Event, t': Tower, p: Txid)
    requires WorldOk(world) && Inv(world, t) && Step(world, t, e, t') && !e.Restarted?
    requires p in t.responder.unconfirmed && !ConfirmedBy(world, t, e, p)
    ensures CountsOnce(world, t, e, t', p)
  {
    hide WorldOk, OnDisk, Sourced, Quiet, Charged, OwnCharges, WatcherBlock, ResponderBlock, AddAppointment;
    match e
    case Registered(_, _) =>
    case Requested(req, blockCount, net) => RequestLeavesCounters(world, t, req, blockCount, net);
    case WatcherSaw(h, net, entries) => WatcherLeavesCounters(world, t, t', h, net, entries);
    case ResponderSaw(h, getTx) => BlockCountsOnce(world, t, h, getTx, t', p);
    case GatekeeperSaw(_) =>
  }

  // ---------- Runs ----------

  /** Between `i` and `j` the tower is not restarted and `p` is not confirmed. */
  ghost predicate Unconfirmed(world: World, ts: seq<Tower>, es: seq<Event>, p: Txid, i: nat, j: nat)
    requires i <= j <= |es| < |ts|
  {
    forall k :: i <= k < j ==> !es[k].Restarted? && !ConfirmedBy(world, ts[k], es[k], p)
  }

  lemma StepCountsOnceAt(world: World, ts: seq<Tower>, es: seq<Event>, k: nat, p: Txid)
    requires WorldOk(world) && |ts| == |es| + 1 && k < |es| && StepAt(world, ts, es, k) && Inv(world, ts[k])
    requires !es[k].Restarted? && !ConfirmedBy(world, ts[k], es[k], p) && p in ts[k].responder.unconfirmed
    ensures CountsOnce(world, ts[k], es[k], ts[k + 1], p)
  {
    hide WorldOk, Inv, Step, ConfirmedBy, CountsOnce;
    StepCountsOnce(world, ts[k], es[k], ts[k + 1], p);
  }

  /**
   From a counter at `m`, `n` blocks without the penalty leave it at `(m + n) mod 6`, and it was sent again exactly
   `(m + n) / 6` times.
   */
  lemma {:induction false} SentEverySixBlocks(world: World, ts: seq<Tower>, es: seq<Event>, p: Txid, i: nat, j: nat)
    requires WorldOk(world) && IsRun(world, ts, es) && Inv(world, ts[0]) && i <= j <= |es|
    requires p in ts[i].responder.unconfirmed && Unconfirmed(world, ts, es, p, i, j)
    ensures p in ts[j].responder.unconfirmed
    ensures var m, n := Count(ts[i].responder.missed, p), BlocksCounted(ts, es, i, j);
            && m < 6
            && Count(ts[j].responder.missed, p) == (m + n) % 6
            && TimesSent(world, ts, es, p, i, j) == (m + n) / 6
    decreases j - i
  {
    hide WorldOk, Inv, StepAt, Counted, SentBy, ConfirmedBy, Count;
    RunKeepsInv(world, ts, es, i);
    CounterIsLow(world, ts[i], p);
    if i < j {
      SentEverySixBlocks(world, ts, es, p, i, j - 1);
      CountsOnceAt(world, ts, es, j - 1, p);
      OneMoreBlock(Count(ts[i].responder.missed, p) + BlocksCounted(ts, es, i, j - 1));
    }
  }

  lemma CountsOnceAt(world: World, ts: seq<Tower>, es: seq<Event>, k: nat, p: Txid)
    requires WorldOk(world) && IsRun(world, ts, es) && Inv(world, ts[0]) && k < |es|
    requires !es[k].Restarted? && !ConfirmedBy(world, ts[k], es[k], p) && p in ts[k].responder.unconfirmed
    ensures CountsOnce(world, ts[k], es[k], ts[k + 1], p)
  {
    hide WorldOk, Inv, StepAt, ConfirmedBy, CountsOnce;
    RunKeepsInv(world, ts, es, k);
    StepCountsOnceAt(world, ts, es, k, p);
  }

  lemma OneMoreBlock(x: nat)
    ensures (x + 1) % 6 == (x % 6 + 1) % 6
    ensures (x + 1) / 6 == x / 6 + if x % 6 == 5 then 1 else 0
  {
  }

  lemma CounterIsLow(world: World, t: Tower, p: Txid)
    requires WorldOk(world) && Inv(world, t)
    ensures Count(t.responder.missed, p) < 6
  {
  }

  // ---------- Penalties that are not in the list ----------

  /** Only what is unconfirmed, and not confirmed by this very block, is sent again. */
  lemma OnlyUnconfirmedAreSent(world: World, t: Tower, e: Event, p: Txid)
    requires WorldOk(world) && Inv(world, t) && SentBy(world, t, e, p)
    ensures p in t.responder.unconfirmed && !ConfirmedBy(world, t, e, p)
  {
    hide WorldOk, OnDisk, Sourced, Quiet, Charged, OwnCharges;
    var txs := world.tree[e.h].txs;
    ConfirmFacts(t.responder.unconfirmed, txs, Penalties(t.responder.trackers));
    BlockCounts(t.responder.missed, Elems(Confirm(t.responder.unconfirmed, txs, Penalties(t.responder.trackers))), p);
  }

  lemma WatcherAdds(world: World, t: Tower, t': Tower, h: Hash, net: Network, entries: seq<Entry>, p: Txid)
    requires WorldOk(world) && WatcherBlock(world, t, t', h, net, entries)
    ensures p in t'.responder.unconfirmed <==>
            p in t.responder.unconfirmed || p in AddedBy(world, t, WatcherSaw(h, net, entries))
  {
    hide WellFormed, DistinctLocators, Injective, ListsBreached, Refund, Sent, Verdicts, OutdatedHere;
    hide NewTrackers, ReceiptFor;
    if Searched(world, t, h) {
      var valid := ValidPart(Verdicts(world.decrypt, entries));
      var delivered := Delivered(valid, valid.Keys, t.issued, net);
      assert AddedBy(world, t, WatcherSaw(h, net, entries)) == NewlyUnconfirmed(valid, delivered, t.issued, net);
      assert p in t'.responder.unconfirmed <==> p in Elems(t'.responder.unconfirmed);
      assert p in t.responder.unconfirmed <==> p in Elems(t.responder.unconfirmed);
    }
  }

  lemma RequestAdds(world: World, t: Tower, req: Request, blockCount: int, net: Network, p: Txid)
    requires WorldOk(world) && t.lastKnown in world.tree
    ensures p in AddAppointment(world, t, req, blockCount, net).0.responder.unconfirmed <==>
            p in t.responder.unconfirmed || p in AddedBy(world, t, Requested(req, blockCount, net))
  {
    hide WellFormed, DistinctLocators, Injective, CacheAt, Refusal, Charge, ReceiptFor;
  }

  /** A step puts a penalty in the list exactly when it delivers it for a breach and it is not on the chain yet. */
  lemma OutOfListStepIff(world: World, t: Tower, e: Event, t': Tower, p: Txid)
    requires WorldOk(world) && Inv(world, t) && Step(world, t, e, t') && p !in t.responder.unconfirmed
    ensures !SentBy(world, t, e, p)
    ensures p in t'.responder.unconfirmed <==> p in AddedBy(world, t, e)
  {
    hide WorldOk, Inv, Stored, WatcherBlock, AddAppointment, AddedBy, SentBy, InMemory;
    if SentBy(world, t, e, p) {
      OnlyUnconfirmedAreSent(world, t, e, p);
    }
    match e
    case WatcherSaw(h, net, entries) => WatcherAdds(world, t, t', h, net, entries, p);
    case Requested(req, blockCount, net) => RequestAdds(world, t, req, blockCount, net, p);
    case _ => OtherStepsAddNothing(world, t, e, t', p);
  }

  lemma OtherStepsAddNothing(world: World, t: Tower, e: Event, t': Tower, p: Txid)
    requires WorldOk(world) && Inv(world, t) && Step(world, t, e, t') && !e.WatcherSaw? && !e.Requested?
    requires p !in t.responder.unconfirmed
    ensures p !in t'.responder.unconfirmed && p !in AddedBy(world, t, e)
  {
    hide WellFormed, DistinctLocators, Injective, OnDisk, Sourced, Quiet, Charged, OwnCharges;
    if Counted(t, e) {
      ConfirmFacts(t.responder.unconfirmed, world.tree[e.h].txs, Penalties(t.responder.trackers));
    }
  }

  lemma OutOfListStepAt(world: World, ts: seq<Tower>, es: seq<Event>, k: nat, p: Txid)
    requires WorldOk(world) && |ts| == |es| + 1 && k < |es| && StepAt(world, ts, es, k) && Inv(world, ts[k])
    requires p !in ts[k].responder.unconfirmed
    ensures !SentBy(world, ts[k], es[k], p)
    ensures p in ts[k + 1].responder.unconfirmed <==> p in AddedBy(world, ts[k], es[k])
  {
    hide WorldOk, Inv, Step, SentBy, AddedBy;
    OutOfListStepIff(world, ts[k], es[k], ts[k + 1], p);
  }

  ghost predicate NeverListed(ts: seq<Tower>, p: Txid, i: nat, j: nat)
    requires i <= j < |ts|
  {
    forall k :: i <= k <= j ==> p !in ts[k].responder.unconfirmed
  }

  ghost predicate NeverAdded(world: World, ts: seq<Tower>, es: seq<Event>, p: Txid, i: nat, j: nat)
    requires WorldOk(world) && i <= j <= |es| < |ts|
  {
    forall k :: i <= k < j ==> p !in AddedBy(world, ts[k], es[k])
  }

  /**
   A penalty that is not in the list stays out of it exactly as long as no step delivers it unconfirmed for a breach,
   and is not sent again all that time.
   */
  lemma {:induction false} SilentOutOfList(world: World, ts: seq<Tower>, es: seq<Event>, p: Txid, i: nat, j: nat)
    requires WorldOk(world) && IsRun(world, ts, es) && Inv(world, ts[0]) && i <= j <= |es|
    requires p !in ts[i].responder.unconfirmed
    ensures NeverListed(ts, p, i, j) <==> NeverAdded(world, ts, es, p, i, j)
    ensures NeverAdded(world, ts, es, p, i, j) ==> TimesSent(world, ts, es, p, i, j) == 0
    decreases j - i
  {
    hide WorldOk, Inv, StepAt, SentBy, AddedBy;
    if i < j {
      SilentOutOfList(world, ts, es, p, i, j - 1);
      if NeverListed(ts, p, i, j - 1) {
        RunKeepsInv(world, ts, es, j - 1);
        OutOfListStepAt(world, ts, es, j - 1, p);
      }
    }
  }

  /** A confirmed penalty leaves the list at once. */
  lemma ConfirmedLeavesList(world: World, t: Tower, h: Hash, getTx: Txid -> TxInfo, t': Tower, p: Txid)
    requires InMemory(t) && ResponderBlock(world, t, t', h, getTx) && ConfirmedBy(world, t, ResponderSaw(h, getTx), p)
    ensures p !in t'.responder.unconfirmed
  {
    hide Completed, Stuck, Refund, Flatten, Expiry.GetOutdated;
    ConfirmFacts(t.responder.unconfirmed, world.tree[h].txs, Penalties(t.responder.trackers));
  }

  lemma ConfirmedAt(world: World, ts: seq<Tower>, es: seq<Event>, k: nat, p: Txid)
    requires WorldOk(world) && |ts| == |es| + 1 && k < |es| && StepAt(world, ts, es, k) && Inv(world, ts[k])
    requires ConfirmedBy(world, ts[k], es[k], p)
    ensures p !in ts[k + 1].responder.unconfirmed && !SentBy(world, ts[k], es[k], p)
  {
    hide WorldOk, OnDisk, Sourced, Quiet, Charged, OwnCharges, ResponderBlock, SentBy, ConfirmedBy;
    CountedIsResponder(world, ts[k], es[k], p);
    ConfirmedLeavesList(world, ts[k], es[k].h, es[k].getTx, ts[k + 1], p);
    if SentBy(world, ts[k], es[k], p) {
      OnlyUnconfirmedAreSent(world, ts[k], es[k], p);
    }
  }

  lemma CountedIsResponder(world: World, t: Tower, e: Event, p: Txid)
    requires ConfirmedBy(world, t, e, p)
    ensures e.ResponderSaw?
  {
  }

  /** A penalty is not sent again from the block that confirms it on, until a breach delivers it anew, unconfirmed. */
  lemma ConfirmedStaysSilent(world: World, ts: seq<Tower>, es: seq<Event>, p: Txid, i: nat, j: nat)
    requires WorldOk(world) && IsRun(world, ts, es) && Inv(world, ts[0]) && i < j <= |es|
    requires ConfirmedBy(world, ts[i], es[i], p) && NeverAdded(world, ts, es, p, i + 1, j)
    ensures TimesSent(world, ts, es, p, i, j) == 0 && p !in ts[j].responder.unconfirmed
  {
    hide WorldOk, Inv, StepAt, SentBy, AddedBy, ConfirmedBy;
    RunKeepsInv(world, ts, es, i);
    ConfirmedAt(world, ts, es, i, p);
    SilentOutOfList(world, ts, es, p, i + 1, j);
    TimesSentSplits(world, ts, es, p, i, i + 1, j);
  }

  lemma {:induction false} TimesSentSplits(
    world: World, ts: seq<Tower>, es: seq<Event>, p: Txid, i: nat, k: nat, j: nat)
    requires i <= k <= j <= |es| < |ts|
    ensures TimesSent(world, ts, es, p, i, j) == TimesSent(world, ts, es, p, i, k) + TimesSent(world, ts, es, p, k, j)
    decreases j - k
  {
    hide SentBy;
    if k < j {
      TimesSentSplits(world, ts, es, p, i, k, j - 1);
    }
  }

  lemma RestartEmptiesList(t: Tower, p: Txid)
    ensures p !in Restart(t).responder.unconfirmed
  {
  }

  /**
   After a restart no penalty is sent again until a breach delivers it anew, whatever blocks and requests come, although
   every tracker is still there.
   */
  lemma RestartForgetsUnconfirmed(world: World, ts: seq<Tower>, es: seq<Event>, p: Txid, i: nat, j: nat)
    requires WorldOk(world) && IsRun(world, ts, es) && Inv(world, ts[0]) && i < j <= |es|
    requires es[i].Restarted? && NeverAdded(world, ts, es, p, i + 1, j)
    ensures ts[i + 1].responder.trackers == ts[i].responder.trackers
    ensures TimesSent(world, ts, es, p, i + 1, j) == 0
  {
    hide WorldOk, Inv, AddedBy;
    RunKeepsInv(world, ts, es, i);
    assert StepAt(world, ts, es, i);
    RestartIsInvisible(world, ts[i]);
    RestartEmptiesList(ts[i], p);
    hide StepAt, Restart;
    SilentOutOfList(world, ts, es, p, i + 1, j);
  }

}
