/**
 Exactly when the Responder cannot process a block: untracked outdated appointments, and penalties without a tracker.
 */
module Orphans {
  import opened Basics
  import opened Records
  import opened BlockTree
  import opened LocatorCache
  import opened Carrier
  import opened Responder
  import opened Gatekeeper
  import opened Slots
  import opened Breaches
  import opened Confirmations
  import opened TowerModel
  import opened Invariants
  import opened BlockSteps
  import opened Runs
  import opened Lifecycle
  import opened Rebroadcasts
  import Cleaner
  import Expiry

  // ---------- One block ----------

  ghost function OutdatedAt(world: World, t: Tower, h: Hash): set<Uuid>
    requires h in world.tree
  {
    Flatten(Expiry.GetOutdated(world.config, t.gk, world.tree[h].height))
  }

  /** The penalty is not confirmed by this block and every tracker that has it, if any, is outdated. */
  ghost predicate OnlyOutdated(world: World, t: Tower, h: Hash, p: Txid)
    requires h in world.tree
  {
    && p in t.responder.unconfirmed && !(p in world.tree[h].txs && p in Penalties(t.responder.trackers))
    && forall u <- t.responder.trackers :: t.responder.trackers[u].penaltyTxid == p ==> u in OutdatedAt(world, t, h)
  }

  /** The block deletes the last tracker of an unconfirmed penalty. */
  ghost predicate Orphaned(world: World, t: Tower, e: Event, p: Txid) {
    && Counted(t, e) && e.h in world.tree
    && p in Penalties(t.responder.trackers) && OnlyOutdated(world, t, e.h, p)
  }

  /** The trackers a block deletes. */
  ghost function Finishing(world: World, t: Tower, h: Hash, getTx: Txid -> TxInfo): set<Uuid>
    requires h in world.tree
  {
    Completed(t.responder.trackers, t.responder.unconfirmed, getTx)
    + Stuck(OutdatedAt(world, t, h), t.responder.trackers, t.responder.unconfirmed)
  }

  /** An unconfirmed penalty loses its last tracker exactly when all of them are outdated. */
  lemma LeftTrackedIff(world: World, t: Tower, h: Hash, getTx: Txid -> TxInfo, p: Txid)
    requires h in world.tree && p in t.responder.unconfirmed
    ensures p in Penalties(t.responder.trackers - Finishing(world, t, h, getTx)) <==>
            exists u <- t.responder.trackers ::
              t.responder.trackers[u].penaltyTxid == p && u !in OutdatedAt(world, t, h)
  {
    hide OutdatedAt;
    var left := t.responder.trackers - Finishing(world, t, h, getTx);
    if u :| u in t.responder.trackers && t.responder.trackers[u].penaltyTxid == p && u !in OutdatedAt(world, t, h) {
      assert u in left && left[u].penaltyTxid == p;
    }
    if p in Penalties(left) {
      var u :| u in left && left[u].penaltyTxid == p;
      assert u in t.responder.trackers && u !in OutdatedAt(world, t, h);
    }
  }

  /** A tracked penalty is unconfirmed without a tracker after a block exactly when the block orphans it. */
  lemma OrphanedIff(world: World, t: Tower, h: Hash, getTx: Txid -> TxInfo, t': Tower, p: Txid)
    requires InMemory(t) && ResponderBlock(world, t, t', h, getTx) && p in Penalties(t.responder.trackers)
    ensures p in t'.responder.unconfirmed && p !in Penalties(t'.responder.trackers) <==>
            Orphaned(world, t, ResponderSaw(h, getTx), p)
  {
    hide Completed, Stuck, Refund, Due;
    ConfirmFacts(t.responder.unconfirmed, world.tree[h].txs, Penalties(t.responder.trackers));
    if p in t.responder.unconfirmed {
      LeftTrackedIff(world, t, h, getTx, p);
    }
    hide Flatten, Expiry.GetOutdated, Penalties;
  }

  /**
   A block deletes a tracker exactly when its penalty was unconfirmed before and it is outdated, or was confirmed before
   and is resolved now. What the block itself confirms comes too late: an outdated tracker goes even so.
   */
  lemma DeletedIff(world: World, t: Tower, h: Hash, getTx: Txid -> TxInfo, t': Tower, u: Uuid)
    requires InMemory(t) && ResponderBlock(world, t, t', h, getTx) && u in t.responder.trackers
    ensures var p := t.responder.trackers[u].penaltyTxid;
            && (u !in t'.responder.trackers <==>
                if p in t.responder.unconfirmed then u in OutdatedAt(world, t, h)
                else IsCompleted(p, t.responder.unconfirmed, getTx))
            && (p in world.tree[h].txs ==> p !in t'.responder.unconfirmed)
  {
    hide Due, Refund, Flatten, Expiry.GetOutdated;
    ConfirmFacts(t.responder.unconfirmed, world.tree[h].txs, Penalties(t.responder.trackers));
  }

  /** The penalty that makes the lookup of its trackers fail: due in this block, and left with no tracker by it. */
  ghost predicate LookupFails(world: World, t: Tower, h: Hash, p: Txid)
    requires h in world.tree
  {
    OnlyOutdated(world, t, h, p) && Count(t.responder.missed, p) == 5
  }

  lemma DueIff(t: Tower, txs: seq<Txid>, p: Txid)
    requires InMemory(t)
    ensures p in Due(t.responder, txs) <==>
            && p in t.responder.unconfirmed && !(p in txs && p in Penalties(t.responder.trackers))
            && Count(t.responder.missed, p) == 5
  {
    ConfirmFacts(t.responder.unconfirmed, txs, Penalties(t.responder.trackers));
    BlockCounts(t.responder.missed, Elems(Confirm(t.responder.unconfirmed, txs, Penalties(t.responder.trackers))), p);
  }

  /** Some penalty that is due has no tracker left exactly when the lookup fails for it. */
  lemma LookupFailsIff(world: World, t: Tower, h: Hash, getTx: Txid -> TxInfo)
    requires InMemory(t) && h in world.tree
    ensures Due(t.responder, world.tree[h].txs) <= Penalties(t.responder.trackers - Finishing(world, t, h, getTx)) <==>
            forall p <- t.responder.unconfirmed :: !LookupFails(world, t, h, p)
  {
    var txs := world.tree[h].txs;
    var left := Penalties(t.responder.trackers - Finishing(world, t, h, getTx));
    hide Due, Penalties, Finishing, OutdatedAt, InMemory;
    forall p | p in t.responder.unconfirmed
      ensures LookupFails(world, t, h, p) <==> p in Due(t.responder, txs) && p !in left
    {
      DueIff(t, txs, p);
      LeftTrackedIff(world, t, h, getTx, p);
    }
    forall p | p in Due(t.responder, txs) ensures p in t.responder.unconfirmed {
      DueIff(t, txs, p);
    }
    if !(Due(t.responder, txs) <= left) {
      var p :| p in Due(t.responder, txs) && p !in left;
      assert LookupFails(world, t, h, p);
    }
  }

  /**
   The Responder can process a block on top of its last one exactly when every outdated appointment is tracked and no
   unconfirmed penalty makes the lookup fail.
   */
  lemma CanProcessIff(world: World, t: Tower, h: Hash, getTx: Txid -> TxInfo)
    requires InMemory(t) && h in world.tree && t.responder.trackers != map[]
    requires world.tree[h].prev == Some(t.responder.lastKnown)
    ensures (exists t' :: ResponderBlock(world, t, t', h, getTx)) <==>
            && OutdatedAt(world, t, h) <= t.responder.trackers.Keys
            && forall p <- t.responder.unconfirmed :: !LookupFails(world, t, h, p)
  {
    LookupFailsIff(world, t, h, getTx);
    hide Due, Penalties, NextState, Refund, Completed, Stuck, LookupFails, InMemory, Flatten, Expiry.GetOutdated;
    var completed := Completed(t.responder.trackers, t.responder.unconfirmed, getTx);
    var gone := Finishing(world, t, h, getTx);
    var t' := t.(
      responder := NextState(t.responder, world.tree[h].txs, gone, h),
      issued := map[],
      gk := t.gk.(users := Refund(t.gk.users, Owners(t.responder.trackers, completed))),
      view := Cleaner.WithoutTrackers(t.view, gone).(br := Some(h)));
    if && OutdatedAt(world, t, h) <= t.responder.trackers.Keys
       && forall p <- t.responder.unconfirmed :: !LookupFails(world, t, h, p)
    {
      assert ResponderBlock(world, t, t', h, getTx);
    }
  }

  /**
   An outdated appointment without a tracker stops the Responder, whether or not the Gatekeeper was first at this
   height.
   */
  lemma UntrackedWhenExpiring(world: World, t: Tower, h: Hash, u: Uuid, getTx: Txid -> TxInfo, t': Tower)
    requires h in world.tree && t.responder.trackers != map[]
    requires u in OutdatedAt(world, t, h) && u !in t.responder.trackers
    ensures !ResponderBlock(world, t, t', h, getTx)
  {
  }

  /**
   Any tower that tracks something is one registration and one request away from failing: a new user whose appointment
   just waits for its trigger stops the Responder at the height its subscription ends.
   */
  lemma WaitingWhenExpiring(
    world: World, t: Tower, id: UserId, start: int, req: Request, blockCount: int, net: Network,
    h: Hash, getTx: Txid -> TxInfo, t': Tower)
    requires WorldOk(world) && t.lastKnown in world.tree && t.responder.trackers != map[]
    requires IsCompressedPk(id) && id !in t.gk.users && req.signer == Some(id)
    requires Admitted(world, RegisterUser(world, t, id, start).0, req, blockCount, net)
    requires req.locator !in CacheAt(world, t.lastKnown)
    requires h in world.tree && world.tree[h].height !in t.gk.entries
    requires world.tree[h].height == start + world.config.subscriptionDuration + world.config.expiryDelta
    ensures var t1 := RegisterUser(world, t, id, start).0;
            !ResponderBlock(world, AddAppointment(world, t1, req, blockCount, net).0, t', h, getTx)
  {
    var t1 := RegisterUser(world, t, id, start).0;
    var t2 := AddAppointment(world, t1, req, blockCount, net).0;
    var uuid := world.uuidOf(req.locator, id);
    AdmittedFacts(world, t1, req, blockCount, net);
    UncachedIsWatched(world, t1, req, blockCount, net);
    AnswerReportsUser(world, t1, req, blockCount, net);
    EntriesStay(world, t1, req, blockCount, net);
    hide WorldOk, Admitted, AddAppointment, CacheAt, ResponderBlock;
    ExpiringIsOutdated(world, t2, h, id, uuid);
    UntrackedWhenExpiring(world, t2, h, uuid, getTx, t');
  }

  lemma ExpiringIsOutdated(world: World, t: Tower, h: Hash, id: UserId, u: Uuid)
    requires h in world.tree && world.tree[h].height !in t.gk.entries
    requires id in t.gk.users && u in t.gk.users[id].appointments
    requires world.tree[h].height == t.gk.users[id].subscriptionExpiry + world.config.expiryDelta
    ensures u in OutdatedAt(world, t, h)
  {
    var outdated := Expiry.GetOutdated(world.config, t.gk, world.tree[h].height);
    assert id in outdated && u in outdated[id];
  }

  // ---------- Every unconfirmed penalty has a tracker ----------

  ghost predicate AllTracked(t: Tower) {
    forall p <- t.responder.unconfirmed :: p in Penalties(t.responder.trackers)
  }

  /** A breach at the Watcher adds trackers for exactly the penalties it delivers. */
  lemma WatcherTracks(world: World, t: Tower, t': Tower, h: Hash, net: Network, entries: seq<Entry>, p: Txid)
    requires WorldOk(world) && Inv(world, t) && WatcherBlock(world, t, t', h, net, entries)
    ensures p in Penalties(t'.responder.trackers) <==>
            p in Penalties(t.responder.trackers) || p in DeliveredBy(world, t, WatcherSaw(h, net, entries))
  {
    hide WellFormed, DistinctLocators, Injective, OnDisk, Sourced, Quiet, Charged, OwnCharges, OutdatedHere, Verdicts,
         Delivered, Penalties, PenaltyTxids, Disposed, ListsBreached, LocatorMap;
    if Searched(world, t, h) {
      var gone := OutdatedHere(world, t, world.tree[h].height);
      var verdicts := Verdicts(world.decrypt, entries);
      var t1 := t'.(lastKnown := t.lastKnown, view := t'.view.(bw := t.view.bw));
      SearchTracks(world, t, t1, h, gone, entries, verdicts, net);
      var valid := ValidPart(verdicts);
      PenaltiesGrow(t.responder.trackers, valid, t.appointments, Delivered(valid, valid.Keys, t.issued, net), p);
    }
  }

  lemma SearchTracks(
    world: World, t: Tower, t': Tower, h: Hash, gone: set<Uuid>, entries: seq<Entry>,
    verdicts: map<Uuid, Option<Breach>>, net: Network)
    requires h in world.tree && verdicts == Verdicts(world.decrypt, entries)
    requires ListsBreached(entries, t.appointments - gone, t.view, LocatorMap(world.tree[h].txs))
    requires Disposed(t, t', gone, verdicts, net)
    ensures var valid := ValidPart(verdicts);
            var delivered := Delivered(valid, valid.Keys, t.issued, net);
            && delivered <= valid.Keys && delivered <= t.appointments.Keys
            && t'.responder.trackers == t.responder.trackers + Summaries(NewTrackers(valid, t.appointments, delivered))
  {
    hide Verdicts, ListsBreached, LocatorMap, Refund, Sent, NewlyUnconfirmed, ReceiptFor, Moved, FromBlock, Summaries;
    SearchJudges(world, t, h, gone, entries);
    DisposedMoves(world, t, t', h, gone, verdicts, net);
    hide Judged;
  }

  lemma PenaltiesGrow(
    trackers: map<Uuid, TrackerSummary>, valid: map<Uuid, Breach>, appointments: map<Uuid, AppointmentSummary>,
    delivered: set<Uuid>, p: Txid)
    requires delivered <= valid.Keys && delivered <= appointments.Keys && delivered !! trackers.Keys
    ensures p in Penalties(trackers + Summaries(NewTrackers(valid, appointments, delivered))) <==>
            p in Penalties(trackers) || p in PenaltyTxids(valid, delivered)
  {
    var more := Summaries(NewTrackers(valid, appointments, delivered));
    var after := trackers + more;
    if p in Penalties(after) {
      var u :| u in after && after[u].penaltyTxid == p;
      assert u in more ==> u in delivered && valid[u].penalty.txid == p;
    }
    if p in Penalties(trackers) {
      var u :| u in trackers && trackers[u].penaltyTxid == p;
      assert u in after && after[u] == trackers[u];
    }
    if p in PenaltyTxids(valid, delivered) {
      var u :| u in delivered && valid[u].penalty.txid == p;
      assert u in after && after[u].penaltyTxid == p;
    }
  }

  lemma RequestTracks(world: World, t: Tower, req: Request, blockCount: int, net: Network, p: Txid)
    requires WorldOk(world) && t.lastKnown in world.tree
    ensures p in Penalties(AddAppointment(world, t, req, blockCount, net).0.responder.trackers) <==>
            p in Penalties(t.responder.trackers) || p in DeliveredBy(world, t, Requested(req, blockCount, net))
  {
    hide WellFormed, DistinctLocators, Injective, CacheAt, Penalties, Charge, ReceiptFor;
    var r := t.responder.trackers;
    var t' := AddAppointment(world, t, req, blockCount, net).0;
    if Admitted(world, t, req, blockCount, net) {
      AdmittedFacts(world, t, req, blockCount, net);
      if t'.responder.trackers != r {
        var uuid := world.uuidOf(req.locator, req.signer.value);
        PenaltiesOneMore(r, uuid, t'.responder.trackers[uuid], p);
      }
    }
  }

  lemma PenaltiesOneMore(trackers: map<Uuid, TrackerSummary>, u: Uuid, s: TrackerSummary, p: Txid)
    requires u !in trackers
    ensures p in Penalties(trackers[u := s]) <==> p in Penalties(trackers) || p == s.penaltyTxid
  {
    var after := trackers[u := s];
    if p in Penalties(trackers) {
      var v :| v in trackers && trackers[v].penaltyTxid == p;
      assert v in after && after[v] == trackers[v];
    }
    assert u in after && after[u] == s;
  }

  /** Outside the Responder's blocks a penalty becomes tracked exactly when it is delivered for a breach. */
  lemma TrackedStepIff(world: World, t: Tower, e: Event, t': Tower, p: Txid)
    requires WorldOk(world) && Inv(world, t) && Step(world, t, e, t') && !e.ResponderSaw?
    ensures p in Penalties(t'.responder.trackers) <==>
            p in Penalties(t.responder.trackers) || p in DeliveredBy(world, t, e)
  {
    hide Inv, WatcherBlock, AddAppointment, Penalties, WellFormed, DistinctLocators, Injective;
    match e
    case WatcherSaw(h, net, entries) => WatcherTracks(world, t, t', h, net, entries, p);
    case Requested(req, blockCount, net) => RequestTracks(world, t, req, blockCount, net, p);
    case Restarted => RestartIsInvisible(world, t);
    case _ =>
  }

  /** A block at the Responder tracks no new penalty. */
  lemma ResponderTracksLess(world: World, t: Tower, h: Hash, getTx: Txid -> TxInfo, t': Tower, p: Txid)
    requires ResponderBlock(world, t, t', h, getTx) && p in Penalties(t'.responder.trackers)
    ensures p in Penalties(t.responder.trackers)
  {
    hide Completed, Stuck, Due, Refund, Flatten, Expiry.GetOutdated;
    var u :| u in t'.responder.trackers && t'.responder.trackers[u].penaltyTxid == p;
    assert u in t.responder.trackers && t.responder.trackers[u].penaltyTxid == p;
  }

  lemma AddedIsDelivered(world: World, t: Tower, e: Event, p: Txid)
    requires WorldOk(world) && p in AddedBy(world, t, e)
    ensures p in DeliveredBy(world, t, e)
  {
    hide DeliveredBy;
  }

  /** What a step does to one unconfirmed penalty that was, or becomes, unconfirmed. */
  lemma StaysTrackedIff(world: World, t: Tower, e: Event, t': Tower, p: Txid)
    requires WorldOk(world) && Inv(world, t) && Step(world, t, e, t') && AllTracked(t)
    ensures p in t'.responder.unconfirmed && p !in Penalties(t'.responder.trackers) <==> Orphaned(world, t, e, p)
  {
    hide WorldOk, Inv, Stored, WatcherBlock, AddAppointment, ResponderBlock, Penalties, AddedBy, DeliveredBy, Orphaned;
    if e.ResponderSaw? {
      ResponderStaysTrackedIff(world, t, e.h, e.getTx, t', p);
    } else {
      NotOrphaned(world, t, e, p);
      TrackedStepIff(world, t, e, t', p);
      if p !in t.responder.unconfirmed {
        OutOfListStepIff(world, t, e, t', p);
        if p in AddedBy(world, t, e) {
          AddedIsDelivered(world, t, e, p);
        }
      }
    }
  }

  lemma NotOrphaned(world: World, t: Tower, e: Event, p: Txid)
    requires !e.ResponderSaw?
    ensures !Orphaned(world, t, e, p)
  {
  }

  lemma ResponderStaysTrackedIff(world: World, t: Tower, h: Hash, getTx: Txid -> TxInfo, t': Tower, p: Txid)
    requires WorldOk(world) && Inv(world, t) && ResponderBlock(world, t, t', h, getTx) && AllTracked(t)
    ensures p in t'.responder.unconfirmed && p !in Penalties(t'.responder.trackers) <==>
            Orphaned(world, t, ResponderSaw(h, getTx), p)
  {
    hide WellFormed, DistinctLocators, Injective, OnDisk, Sourced, Quiet, Charged, OwnCharges, ResponderBlock;
    if p in Penalties(t.responder.trackers) {
      OrphanedIff(world, t, h, getTx, t', p);
    } else {
      assert p !in t.responder.unconfirmed;
      assert Step(world, t, ResponderSaw(h, getTx), t');
      OtherStepsAddNothing(world, t, ResponderSaw(h, getTx), t', p);
    }
  }

  /** A step leaves an unconfirmed penalty without a tracker exactly when it is a block that orphans one. */
  lemma AllTrackedStepIff(world: World, t: Tower, e: Event, t': Tower)
    requires WorldOk(world) && Inv(world, t) && Step(world, t, e, t') && AllTracked(t)
    ensures AllTracked(t') <==> forall p <- t.responder.unconfirmed :: !Orphaned(world, t, e, p)
  {
    hide WorldOk, Inv, Step, Penalties;
    forall p
      ensures p in t'.responder.unconfirmed && p !in Penalties(t'.responder.trackers) <==> Orphaned(world, t, e, p)
    {
      StaysTrackedIff(world, t, e, t', p);
    }
    forall p | Orphaned(world, t, e, p) ensures p in t.responder.unconfirmed {
    }
    hide Orphaned;
    if p :| p in t'.responder.unconfirmed && p !in Penalties(t'.responder.trackers) {
      assert Orphaned(world, t, e, p);
    }
  }

  lemma AllTrackedStepAt(world: World, ts: seq<Tower>, es: seq<Event>, k: nat)
    requires WorldOk(world) && |ts| == |es| + 1 && k < |es| && StepAt(world, ts, es, k) && Inv(world, ts[k])
    requires AllTracked(ts[k])
    ensures AllTracked(ts[k + 1]) <==> NoneOrphaned(world, ts[k], es[k])
  {
    hide WorldOk, Inv, Step, AllTracked, Orphaned;
    AllTrackedStepIff(world, ts[k], es[k], ts[k + 1]);
  }

  ghost predicate NoneOrphaned(world: World, t: Tower, e: Event) {
    forall p <- t.responder.unconfirmed :: !Orphaned(world, t, e, p)
  }

  /** Over a run, every unconfirmed penalty always has a tracker exactly when no block orphans one. */
  lemma {:induction false} AllTrackedIff(world: World, ts: seq<Tower>, es: seq<Event>, j: nat)
    requires WorldOk(world) && IsRun(world, ts, es) && Inv(world, ts[0]) && AllTracked(ts[0]) && j <= |es|
    ensures (forall k :: 0 <= k <= j ==> AllTracked(ts[k])) <==>
            forall k :: 0 <= k < j ==> NoneOrphaned(world, ts[k], es[k])
  {
    hide WorldOk, Inv, StepAt, AllTracked, NoneOrphaned;
    if j > 0 {
      AllTrackedIff(world, ts, es, j - 1);
      if forall k :: 0 <= k <= j - 1 ==> AllTracked(ts[k]) {
        RunKeepsInv(world, ts, es, j - 1);
        AllTrackedStepAt(world, ts, es, j - 1);
      }
    }
  }

  /**
   While no block has orphaned a penalty, the lookup of trackers fails at the next block only for a penalty that this
   very block both finds due and orphans.
   */
  lemma LookupFailsOnlyForOrphans(world: World, ts: seq<Tower>, es: seq<Event>, j: nat, h: Hash, getTx: Txid -> TxInfo)
    requires WorldOk(world) && IsRun(world, ts, es) && Inv(world, ts[0]) && AllTracked(ts[0]) && j <= |es|
    requires forall k :: 0 <= k < j ==> NoneOrphaned(world, ts[k], es[k])
    requires h in world.tree && ts[j].responder.trackers != map[]
    ensures var t := ts[j];
            Due(t.responder, world.tree[h].txs) <= Penalties(t.responder.trackers - Finishing(world, t, h, getTx)) <==>
            forall p <- t.responder.unconfirmed ::
              Count(t.responder.missed, p) == 5 ==>
                !Orphaned(world, t, ResponderSaw(h, getTx), p)
  {
    hide WorldOk, Inv, Stored, StepAt, NoneOrphaned, Due, Finishing, Count;
    RunKeepsInv(world, ts, es, j);
    AllTrackedIff(world, ts, es, j);
    InvInMemory(world, ts[j]);
    LookupFailsIff(world, ts[j], h, getTx);
    assert AllTracked(ts[j]);
    hide Penalties, OnlyOutdated;
  }

  lemma InvInMemory(world: World, t: Tower)
    requires WorldOk(world) && Inv(world, t)
    ensures InMemory(t)
  {
  }

  // ---------- After a penalty was orphaned ----------

  lemma UntrackedStepAt(world: World, ts: seq<Tower>, es: seq<Event>, k: nat, p: Txid)
    requires WorldOk(world) && |ts| == |es| + 1 && k < |es| && StepAt(world, ts, es, k) && Inv(world, ts[k])
    requires p !in Penalties(ts[k].responder.trackers) && p !in DeliveredBy(world, ts[k], es[k])
    ensures p !in Penalties(ts[k + 1].responder.trackers)
  {
    hide WorldOk, Inv, ResponderBlock, WatcherBlock, AddAppointment, GatekeeperBlock, Penalties, DeliveredBy;
    if p in Penalties(ts[k + 1].responder.trackers) {
      if es[k].ResponderSaw? {
        ResponderTracksLess(world, ts[k], es[k].h, es[k].getTx, ts[k + 1], p);
      } else {
        TrackedStepIff(world, ts[k], es[k], ts[k + 1], p);
      }
    }
  }

  ghost predicate NeverDelivered(world: World, ts: seq<Tower>, es: seq<Event>, p: Txid, i: nat, j: nat)
    requires WorldOk(world) && i <= j <= |es| < |ts|
  {
    forall k :: i <= k < j ==> p !in DeliveredBy(world, ts[k], es[k])
  }

  lemma {:induction false} StaysUntracked(world: World, ts: seq<Tower>, es: seq<Event>, p: Txid, i: nat, j: nat)
    requires WorldOk(world) && IsRun(world, ts, es) && Inv(world, ts[0]) && i <= j <= |es|
    requires p !in Penalties(ts[i].responder.trackers) && NeverDelivered(world, ts, es, p, i, j)
    ensures forall k :: i <= k <= j ==> p !in Penalties(ts[k].responder.trackers)
    decreases j - i
  {
    hide WorldOk, Inv, StepAt, Penalties, DeliveredBy;
    if i < j {
      StaysUntracked(world, ts, es, p, i, j - 1);
      RunKeepsInv(world, ts, es, j - 1);
      UntrackedStepAt(world, ts, es, j - 1, p);
    }
  }

  lemma UntrackedIsNotSentAt(world: World, ts: seq<Tower>, es: seq<Event>, k: nat, p: Txid)
    requires WorldOk(world) && |ts| == |es| + 1 && k < |es| && StepAt(world, ts, es, k)
    requires p !in Penalties(ts[k + 1].responder.trackers)
    ensures !SentBy(world, ts[k], es[k], p)
  {
    hide WorldOk, ResponderBlock, Penalties;
    if SentBy(world, ts[k], es[k], p) {
      DueIsTracked(world, ts[k], es[k].h, es[k].getTx, ts[k + 1], p);
    }
  }

  /** What a block sends again still has a tracker afterwards. */
  lemma DueIsTracked(world: World, t: Tower, h: Hash, getTx: Txid -> TxInfo, t': Tower, p: Txid)
    requires ResponderBlock(world, t, t', h, getTx) && SentBy(world, t, ResponderSaw(h, getTx), p)
    ensures p in Penalties(t'.responder.trackers)
  {
    hide Completed, Stuck, Refund, Flatten, Expiry.GetOutdated;
  }

  lemma {:induction false} NeverSent(world: World, ts: seq<Tower>, es: seq<Event>, p: Txid, i: nat, j: nat)
    requires WorldOk(world) && IsRun(world, ts, es) && i <= j <= |es|
    requires forall k :: i <= k <= j ==> p !in Penalties(ts[k].responder.trackers)
    ensures TimesSent(world, ts, es, p, i, j) == 0
    decreases j - i
  {
    hide WorldOk, StepAt, Penalties, SentBy;
    if i < j {
      NeverSent(world, ts, es, p, i, j - 1);
      UntrackedIsNotSentAt(world, ts, es, j - 1, p);
    }
  }

  /**
   An unconfirmed penalty without a tracker lets the Responder process only as many blocks at which something is tracked
   as its counter has left.
   */
  lemma UntrackedStopsResponder(world: World, ts: seq<Tower>, es: seq<Event>, p: Txid, i: nat, j: nat)
    requires WorldOk(world) && IsRun(world, ts, es) && Inv(world, ts[0]) && i <= j <= |es|
    requires p in ts[i].responder.unconfirmed && p !in Penalties(ts[i].responder.trackers)
    requires (forall k :: i <= k < j ==> !es[k].Restarted?) && NeverDelivered(world, ts, es, p, i, j)
    ensures p in ts[j].responder.unconfirmed && TimesSent(world, ts, es, p, i, j) == 0
    ensures Count(ts[i].responder.missed, p) + BlocksCounted(ts, es, i, j) < 6
  {
    StaysUntracked(world, ts, es, p, i, j);
    hide WorldOk, Inv, StepAt, Penalties, SentBy, Counted, Count, DeliveredBy;
    forall k | i <= k < j ensures !ConfirmedBy(world, ts[k], es[k], p) {
    }
    hide ConfirmedBy;
    SentEverySixBlocks(world, ts, es, p, i, j);
    NeverSent(world, ts, es, p, i, j);
  }

  lemma OrphanedAt(world: World, ts: seq<Tower>, es: seq<Event>, k: nat, p: Txid)
    requires WorldOk(world) && |ts| == |es| + 1 && k < |es| && StepAt(world, ts, es, k) && Inv(world, ts[k])
    requires Orphaned(world, ts[k], es[k], p)
    ensures p in ts[k + 1].responder.unconfirmed && p !in Penalties(ts[k + 1].responder.trackers)
  {
    hide WorldOk, Inv, ResponderBlock, Penalties, OnlyOutdated;
    InvInMemory(world, ts[k]);
    OrphanedIff(world, ts[k], es[k].h, es[k].getTx, ts[k + 1], p);
  }

  /**
   Once a block deletes the last tracker of an unconfirmed penalty, that penalty is never sent again, and the Responder
   processes at most five more blocks at which something is tracked, unless the tower restarts or a breach delivers the
   penalty anew.
   */
  lemma OrphanStopsResponder(world: World, ts: seq<Tower>, es: seq<Event>, p: Txid, i: nat, j: nat)
    requires WorldOk(world) && IsRun(world, ts, es) && Inv(world, ts[0]) && i < j <= |es|
    requires Orphaned(world, ts[i], es[i], p)
    requires (forall k :: i < k < j ==> !es[k].Restarted?) && NeverDelivered(world, ts, es, p, i + 1, j)
    ensures p in ts[j].responder.unconfirmed && TimesSent(world, ts, es, p, i + 1, j) == 0
    ensures Count(ts[i + 1].responder.missed, p) + BlocksCounted(ts, es, i + 1, j) < 6
  {
    hide WorldOk, Inv, StepAt, Penalties, Orphaned, DeliveredBy;
    RunKeepsInv(world, ts, es, i);
    OrphanedAt(world, ts, es, i, p);
    UntrackedStopsResponder(world, ts, es, p, i + 1, j);
  }

  // ---------- After a failure ----------

  /** The state a failed block leaves behind is that of a completed one, but for what a restart forgets. */
  lemma FailureSettles(world: World, t: Tower, t': Tower, h: Hash, getTx: Txid -> TxInfo) returns (t1: Tower)
    requires WorldOk(world) && Inv(world, t) && FailedBlock(world, t, t', h, getTx)
    ensures Inv(world, t1) && Restart(t1) == Restart(t')
    ensures t1.lastKnown == t.lastKnown && t1.responder.lastKnown == t.responder.lastKnown
  {
    hide WellFormed, DistinctLocators, Injective, InMemory, OnDisk, Sourced, Quiet, Due, Penalties, Refund, IsCompleted;
    var outdated := Flatten(Expiry.GetOutdated(world.config, t.gk, world.tree[h].height));
    var completed := Completed(t.responder.trackers, t.responder.unconfirmed, getTx);
    var gone := completed + Stuck(outdated, t.responder.trackers, t.responder.unconfirmed);
    t1 := t;
    if outdated <= t.responder.trackers.Keys {
      t1 := t'.(
        responder := NextState(t.responder, world.tree[h].txs, gone, t.responder.lastKnown), issued := t.issued);
      LastIsStored(world, t);
      FinishKeepsStored(world, t, t1, world.tree[h].txs, gone, t.responder.lastKnown);
      RefundKeepsCharges(world, t, Owners(t.responder.trackers, completed), t'.view);
      ChargesIgnoreTheRest(world, t.(gk := t'.gk, view := t'.view), t1);
    }
  }

  lemma LastIsStored(world: World, t: Tower)
    requires WorldOk(world) && Inv(world, t)
    ensures t.view.br == Some(t.responder.lastKnown)
  {
  }

  /** A restart after a failed block is sound: the invariant holds again, before the same block. */
  lemma RestartAfterFailure(world: World, t: Tower, t': Tower, h: Hash, getTx: Txid -> TxInfo)
    requires WorldOk(world) && Inv(world, t) && FailedBlock(world, t, t', h, getTx)
    ensures Inv(world, Restart(t')) && world.tree[h].prev == Some(Restart(t').responder.lastKnown)
    ensures Restart(t').responder.unconfirmed == []
  {
    var t1 := FailureSettles(world, t, t', h, getTx);
    hide WellFormed, DistinctLocators, Injective, Inv;
    RestartIsInvisible(world, t1);
    hide Restart;
    FailedStands(world, t, t', h, getTx);
  }

  lemma FailedStands(world: World, t: Tower, t': Tower, h: Hash, getTx: Txid -> TxInfo)
    requires FailedBlock(world, t, t', h, getTx)
    ensures h in world.tree && world.tree[h].prev == Some(t.responder.lastKnown)
  {
  }

  /**
   After that restart the Responder gets through the block exactly when nothing is tracked or every outdated appointment
   is.
   */
  lemma AfterFailureIff(world: World, t: Tower, t': Tower, h: Hash, getTx: Txid -> TxInfo, getTx': Txid -> TxInfo)
    requires WorldOk(world) && Inv(world, t) && FailedBlock(world, t, t', h, getTx)
    ensures var t2 := Restart(t');
            (exists t3 :: ResponderBlock(world, t2, t3, h, getTx')) <==>
            t2.responder.trackers == map[] || OutdatedAt(world, t2, h) <= t2.responder.trackers.Keys
  {
    FailedStands(world, t, t', h, getTx);
    hide WorldOk, Inv, FailedBlock, OutdatedAt;
    RestartAfterFailure(world, t, t', h, getTx);
    InvInMemory(world, Restart(t'));
    var t2 := Restart(t');
    hide Restart, InMemory, LookupFails;
    if t2.responder.trackers == map[] {
      var t3 := t2.(responder := t2.responder.(lastKnown := h), view := t2.view.(br := Some(h)));
      assert ResponderBlock(world, t2, t3, h, getTx');
    } else {
      CanProcessIff(world, t2, h, getTx');
    }
  }
}
