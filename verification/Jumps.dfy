/**
 What a block breaks that is not on top of the Watcher's last one, after a reorg or downtime: the cache is rebuilt with
 blocks that were never searched.
 */
module Jumps {
  import opened Basics
  import opened BlockTree
  import opened LocatorCache
  import opened Carrier
  import opened Slots
  import opened Records
  import opened Breaches
  import opened TowerModel
  import opened Invariants
  import opened BlockSteps
  import opened Confirmations
  import opened Responder
  import opened Gatekeeper
  import opened Runs
  import opened Lifecycle
  import Cleaner
  import Expiry

  /** A watched appointment is sent again while its trigger is cached, and its penalty is delivered. */
  ghost predicate AnsweredWhileWatched(world: World, t: Tower, req: Request, net: Network)
    requires WorldOk(world) && t.lastKnown in world.tree && req.signer.Some?
  {
    var cache := CacheAt(world, t.lastKnown);
    && world.uuidOf(req.locator, req.signer.value) in t.appointments
    && req.locator in cache
    && var penalty := world.decrypt(req.blob, cache[req.locator]);
    penalty.Some? && ReceiptFor(t.issued, net, penalty.value.txid).delivered
  }

  /**
   Whatever blocks came before, an accepted request leaves an appointment both watched and tracked in exactly one case.
   */
  lemma ExclusiveAfterAddIff(world: World, t: Tower, req: Request, blockCount: int, net: Network)
    requires WorldOk(world) && t.lastKnown in world.tree && Exclusive(t) && Admitted(world, t, req, blockCount, net)
    ensures req.signer.Some?
    ensures Exclusive(AddAppointment(world, t, req, blockCount, net).0) <==> !AnsweredWhileWatched(world, t, req, net)
  {
    AdmittedFacts(world, t, req, blockCount, net);
    hide AddAppointment, Admitted, WellFormed, DistinctLocators, Injective, CacheAt, Watch, Respond, Exclusive;
    var uuid := world.uuidOf(req.locator, req.signer.value);
    var charged := t.(gk := t.gk.(users := Charge(t.gk.users, req.signer.value, uuid, |req.blob|).value));
    var a := Extended(world, t, req);
    var cache := CacheAt(world, t.lastKnown);
    ExclusiveIgnoresUsers(t, charged);
    if req.locator !in cache {
      WatchKeepsExclusive(charged, uuid, a);
    } else {
      match world.decrypt(req.blob, cache[req.locator])
      case None =>
      case Some(p) =>
        var tracker := TrackerFor(Breach(a.locator, cache[req.locator], p), a.userId);
        RespondExclusiveIff(charged, uuid, a, tracker, ReceiptFor(t.issued, net, p.txid));
    }
  }

  lemma ExclusiveIgnoresUsers(t: Tower, t': Tower)
    requires Exclusive(t) && t'.appointments == t.appointments && t'.responder == t.responder
    ensures Exclusive(t')
  {
  }

  lemma WatchKeepsExclusive(t: Tower, uuid: Uuid, a: Appointment)
    requires Exclusive(t) && uuid !in t.responder.trackers
    ensures Exclusive(Watch(t, uuid, a))
  {
  }

  lemma RespondExclusiveIff(t: Tower, uuid: Uuid, a: Appointment, tracker: Tracker, receipt: Receipt)
    requires Exclusive(t)
    ensures Exclusive(Respond(t, uuid, a, tracker, receipt)) <==> !(receipt.delivered && uuid in t.appointments)
  {
    if receipt.delivered && uuid in t.appointments {
      var t' := Respond(t, uuid, a, tracker, receipt);
      assert uuid in t'.appointments.Keys * t'.responder.trackers.Keys;
    }
  }

  /** Under the invariant that case cannot arise. */
  lemma NeverAnsweredWhileWatched(world: World, t: Tower, req: Request, blockCount: int, net: Network)
    requires WorldOk(world) && Inv(world, t) && Admitted(world, t, req, blockCount, net)
    ensures req.signer.Some? && !AnsweredWhileWatched(world, t, req, net)
  {
    hide AddAppointment, Admitted, WellFormed, DistinctLocators, Injective, InMemory, OnDisk, Sourced, Charged;
    hide OwnCharges, CacheAt;
    AdmittedFacts(world, t, req, blockCount, net);
    if AnsweredWhileWatched(world, t, req, net) {
      FreshWhenTriggered(world, t, req.locator, req.signer.value);
    }
  }

  /**
   A jump to a block whose window holds, in another block, the trigger of a watched appointment leaves it watched. When
   its owner sends it again and the penalty is delivered, it is both watched and tracked.
   */
  lemma JumpBreaksExclusive(
    world: World, t: Tower, t1: Tower, h: Hash, net: Network, entries: seq<Entry>, u: Uuid,
    req: Request, blockCount: int, net': Network)
    requires WorldOk(world) && WatcherBlock(world, t, t1, h, net, entries) && Searched(world, t, h)
    requires u in Overlooked(world, t, h) && req.locator == t.appointments[u].locator
    requires Exclusive(t1) && Admitted(world, t1, req, blockCount, net')
    requires req.signer.Some? && u == world.uuidOf(req.locator, req.signer.value)
    requires var penalty := world.decrypt(req.blob, CacheAt(world, h)[req.locator]);
             penalty.Some? && ReceiptFor(t1.issued, net', penalty.value.txid).delivered
    ensures u in t1.appointments && !Exclusive(AddAppointment(world, t1, req, blockCount, net').0)
  {
    OverlookedStayWatched(world, t, t1, h, net, entries);
    hide WorldOk, Disposed, ListsBreached, Overlooked, CacheAt, OutdatedHere, Admitted, Exclusive, AddAppointment;
    assert u in (set v | v in t1.appointments && t1.appointments[v].locator in CacheAt(world, h));
    assert t1.lastKnown == h;
    ExclusiveAfterAddIff(world, t1, req, blockCount, net');
  }

  // ---------- Any moves ----------

  /** The move is an accepted request for a watched appointment that is answered at once. */
  ghost predicate AnswersWatched(world: World, t: Tower, e: Event)
    requires WorldOk(world)
  {
    && e.Requested? && t.lastKnown in world.tree && Admitted(world, t, e.req, e.blockCount, e.net)
    && e.req.signer.Some? && AnsweredWhileWatched(world, t, e.req, e.net)
  }

  lemma ChargedKeepsConsistent(world: World, t: Tower, req: Request, blockCount: int, net: Network)
    requires WorldOk(world) && Consistent(world, t) && t.lastKnown in world.tree
    requires Admitted(world, t, req, blockCount, net)
    ensures req.signer.Some? && req.signer.value in t.gk.users
    ensures var id := req.signer.value;
            var charged := Charge(t.gk.users, id, world.uuidOf(req.locator, id), |req.blob|);
            charged.Ok? && Consistent(world, t.(gk := t.gk.(users := charged.value)))
  {
    AdmittedFacts(world, t, req, blockCount, net);
    hide WellFormed, DistinctLocators, Injective, Admitted, AddAppointment, Charge, Consistent;
    ConsistentParts(world, t);
    var uuid := world.uuidOf(req.locator, req.signer.value);
    ChargeKeepsOwn(world, t, req.signer.value, uuid, req.locator, |req.blob|);
    hide OwnCharges;
    UsersKeepConsistent(world, t, t.gk.(users := Charge(t.gk.users, req.signer.value, uuid, |req.blob|).value));
  }

  lemma ConsistentParts(world: World, t: Tower)
    requires Consistent(world, t)
    ensures OwnCharges(world, t.gk)
  {
  }

  lemma PlaceKeepsConsistent(world: World, t: Tower, a: Appointment, net: Network)
    requires WorldOk(world) && Consistent(world, t) && t.lastKnown in world.tree
    requires world.uuidOf(a.locator, a.userId) !in t.responder.trackers
    requires var cache := CacheAt(world, t.lastKnown);
             a.locator in cache && world.decrypt(a.blob, cache[a.locator]).Some?
             && ReceiptFor(t.issued, net, world.decrypt(a.blob, cache[a.locator]).value.txid).delivered ==>
               world.uuidOf(a.locator, a.userId) !in t.appointments
    ensures Consistent(world, Place(world, t, world.uuidOf(a.locator, a.userId), a, net))
  {
    hide WellFormed, DistinctLocators, Injective, CacheAt, OwnCharges, ReceiptFor, InMemory, OnDisk, Sourced, Respond;
    hide Watch;
    var uuid := world.uuidOf(a.locator, a.userId);
    var cache := CacheAt(world, t.lastKnown);
    if a.locator !in cache {
      WatchKeepsConsistent(world, t, a);
    } else {
      CachedOnChain(world, t.lastKnown, a.locator);
      match world.decrypt(a.blob, cache[a.locator])
      case None =>
      case Some(p) =>
        var tracker := TrackerFor(Breach(a.locator, cache[a.locator], p), a.userId);
        RespondKeepsConsistent(world, t, a, tracker, ReceiptFor(t.issued, net, p.txid));
    }
  }

  lemma WatchKeepsConsistent(world: World, t: Tower, a: Appointment)
    requires Consistent(world, t) && world.uuidOf(a.locator, a.userId) !in t.responder.trackers
    ensures Consistent(world, Watch(t, world.uuidOf(a.locator, a.userId), a))
  {
    WatchKeepsMemory(t, world.uuidOf(a.locator, a.userId), a);
    hide InMemory, OnDisk, OwnCharges;
  }

  lemma RespondKeepsConsistent(world: World, t: Tower, a: Appointment, tracker: Tracker, receipt: Receipt)
    requires Consistent(world, t) && a.userId == tracker.userId
    requires a.locator == tracker.locator == ComputeLocator(tracker.disputeTxid)
    requires SeenOnChain(world.tree, tracker.disputeTxid)
    requires var uuid := world.uuidOf(a.locator, a.userId);
             uuid !in t.responder.trackers && (receipt.delivered ==> uuid !in t.appointments)
    ensures Consistent(world, Respond(t, world.uuidOf(a.locator, a.userId), a, tracker, receipt))
  {
    var uuid := world.uuidOf(a.locator, a.userId);
    if receipt.delivered {
      RespondKeepsMemory(t, uuid, a, tracker, receipt);
      RespondKeepsSources(world, t, uuid, a, tracker, receipt);
      hide InMemory, OnDisk, Sourced, OwnCharges;
    } else {
      hide OwnCharges, Named, Invariants.Triggered;
    }
  }

  /** A request keeps memory and disk consistent exactly when it does not answer a watched appointment. */
  lemma RequestKeepsConsistentIff(world: World, t: Tower, req: Request, blockCount: int, net: Network)
    requires WorldOk(world) && Consistent(world, t) && t.lastKnown in world.tree
    ensures var t' := AddAppointment(world, t, req, blockCount, net).0;
            && (Consistent(world, t') <==> !AnswersWatched(world, t, Requested(req, blockCount, net)))
            && (Exclusive(t') <==> !AnswersWatched(world, t, Requested(req, blockCount, net)))
  {
    ConsistentIsExclusive(world, t);
    ConsistentIsExclusive(world, AddAppointment(world, t, req, blockCount, net).0);
    hide WorldOk, Consistent, Admitted, AddAppointment, CacheAt, Charge, Exclusive;
    if Admitted(world, t, req, blockCount, net) {
      ExclusiveAfterAddIff(world, t, req, blockCount, net);
      if !AnsweredWhileWatched(world, t, req, net) {
        AdmittedFacts(world, t, req, blockCount, net);
        ChargedKeepsConsistent(world, t, req, blockCount, net);
        var uuid := world.uuidOf(req.locator, req.signer.value);
        var charged := t.(gk := t.gk.(users := Charge(t.gk.users, req.signer.value, uuid, |req.blob|).value));
        PlaceKeepsConsistent(world, charged, Extended(world, t, req), net);
      }
    } else {
      RefusedChangesNothing(world, t, req, blockCount, net);
    }
  }

  lemma ConsistentIsAddressed(world: World, t: Tower)
    requires InMemory(t) && Sourced(world, t)
    ensures Addressed(world, t)
  {
  }

  lemma RequestKeepsAddressed(world: World, t: Tower, req: Request, blockCount: int, net: Network)
    requires WorldOk(world) && Addressed(world, t) && t.lastKnown in world.tree
    ensures Addressed(world, AddAppointment(world, t, req, blockCount, net).0)
  {
    hide WellFormed, DistinctLocators, Injective, CacheAt, Refusal, Charge, ReceiptFor;
  }

  lemma ConsistentIsExclusive(world: World, t: Tower)
    ensures Consistent(world, t) ==> Exclusive(t)
  {
  }

  lemma ResponderKeepsConsistent(world: World, t: Tower, t': Tower, h: Hash, getTx: Txid -> TxInfo)
    requires Consistent(world, t) && ResponderBlock(world, t, t', h, getTx)
    ensures Consistent(world, t')
  {
    hide Due, Penalties, Refund, IsCompleted, SeenOnChain, Flatten, Expiry.GetOutdated;
    if t.responder.trackers != map[] {
      var outdated := Flatten(Expiry.GetOutdated(world.config, t.gk, world.tree[h].height));
      var completed := Completed(t.responder.trackers, t.responder.unconfirmed, getTx);
      var gone := completed + Stuck(outdated, t.responder.trackers, t.responder.unconfirmed);
      FinishKeepsDisk(t, t', gone, h);
      FinishKeepsSources(world, t, t', gone, h);
      ConfirmFacts(t.responder.unconfirmed, world.tree[h].txs, Penalties(t.responder.trackers));
      BlockCounts(t.responder.missed, Elems(t'.responder.unconfirmed), "");
      RefundKeepsOwn(world, t.gk, Owners(t.responder.trackers, completed));
      hide MemoryOk, OnDisk, Named, Invariants.Triggered, OwnCharges, Cleaner.WithoutTrackers;
    } else {
      hide OwnCharges, Named, Invariants.Triggered;
    }
  }

  lemma WatcherKeepsConsistent(world: World, t: Tower, t': Tower, h: Hash, net: Network, entries: seq<Entry>)
    requires Consistent(world, t) && WatcherBlock(world, t, t', h, net, entries)
    ensures Consistent(world, t')
  {
    hide InMemory, OnDisk, Sourced, OwnCharges, ListsBreached, Verdicts, OutdatedHere, Refund;
    WatcherBlockKeepsMemory(world, t, t', h, net, entries);
    if Searched(world, t, h) {
      var verdicts := Verdicts(world.decrypt, entries);
      var dropped := verdicts.Keys - Delivered(ValidPart(verdicts), ValidPart(verdicts).Keys, t.issued, net);
      RefundKeepsOwn(world, t.gk, AppointmentOwners(t.appointments, dropped));
    }
  }

  lemma RestartKeepsConsistent(world: World, t: Tower)
    requires Consistent(world, t)
    ensures Consistent(world, Restart(t))
    ensures Restart(t).appointments == t.appointments && Restart(t).responder.trackers == t.responder.trackers
  {
    hide SeenOnChain;
    var t' := Restart(t);
    assert t'.appointments == t.appointments;
    assert t'.responder.trackers == t.responder.trackers;
    assert OnDisk(t') && InMemory(t');
  }

  lemma UsersKeepConsistent(world: World, t: Tower, gk: Expiry.State)
    requires Consistent(world, t) && OwnCharges(world, gk)
    ensures Consistent(world, t.(gk := gk))
  {
    hide OwnCharges;
  }

  /** A move keeps memory and disk consistent exactly when it does not answer a watched appointment. */
  lemma MoveKeepsConsistentIff(world: World, t: Tower, e: Event, t': Tower)
    requires WorldOk(world) && Consistent(world, t) && Move(world, t, e, t')
    ensures Consistent(world, t') <==> !AnswersWatched(world, t, e)
  {
    hide WorldOk, Consistent, WatcherBlock, ResponderBlock, AddAppointment, Admitted, AnsweredWhileWatched, Restart;
    match e
    case Registered(userId, blockCount) => RegisterKeepsConsistent(world, t, userId, blockCount);
    case Requested(req, blockCount, net) => RequestKeepsConsistentIff(world, t, req, blockCount, net);
    case WatcherSaw(h, net, entries) => WatcherKeepsConsistent(world, t, t', h, net, entries);
    case ResponderSaw(h, getTx) => ResponderKeepsConsistent(world, t, t', h, getTx);
    case GatekeeperSaw(height) => ExpiryKeepsConsistent(world, t, t', height);
    case Restarted => RestartKeepsConsistent(world, t);
  }

  lemma RegisterKeepsConsistent(world: World, t: Tower, userId: UserId, blockCount: int)
    requires Consistent(world, t)
    ensures Consistent(world, RegisterUser(world, t, userId, blockCount).0)
  {
    hide OwnCharges, InMemory, OnDisk, Sourced;
    match Register(world.config, t.gk.users, userId, blockCount)
    case Ok(users) =>
      RegisterKeepsOwn(world, t.gk, userId, users, blockCount);
      UsersKeepConsistent(world, t, t.gk.(users := users));
    case Raised(_) =>
  }

  lemma ExpiryKeepsConsistent(world: World, t: Tower, t': Tower, height: int)
    requires Consistent(world, t) && GatekeeperBlock(world, t, t', height)
    ensures Consistent(world, t')
  {
    hide OwnCharges, InMemory, OnDisk, Sourced, Expiry.Block;
    GatekeeperKeepsOwn(world, t, t', height);
    UsersKeepConsistent(world, t, t'.gk);
  }

  lemma MoveAtKeepsConsistentIff(world: World, ts: seq<Tower>, es: seq<Event>, i: nat)
    requires WorldOk(world) && |ts| == |es| + 1 && i < |es| && MoveAt(world, ts, es, i) && Consistent(world, ts[i])
    ensures Consistent(world, ts[i + 1]) <==> !AnswersWatched(world, ts[i], es[i])
  {
    hide WorldOk, Consistent, AnswersWatched, Move;
    MoveKeepsConsistentIff(world, ts[i], es[i], ts[i + 1]);
  }

  /**
   Over any moves, whatever the blocks, no appointment is ever both watched and tracked and the database is memory
   exactly as long as no accepted request answers a watched appointment.
   */
  lemma {:induction false} ConsistentIff(world: World, ts: seq<Tower>, es: seq<Event>, n: nat)
    requires WorldOk(world) && AreMoves(world, ts, es) && Consistent(world, ts[0]) && n <= |es|
    ensures (forall k :: 0 <= k <= n ==> Consistent(world, ts[k])) <==>
            forall k :: 0 <= k < n ==> !AnswersWatched(world, ts[k], es[k])
  {
    hide WorldOk, Consistent, AnswersWatched, MoveAt;
    if n > 0 {
      ConsistentIff(world, ts, es, n - 1);
      if forall k :: 0 <= k <= n - 1 ==> Consistent(world, ts[k]) {
        MoveAtKeepsConsistentIff(world, ts, es, n - 1);
      }
    }
  }

  /** A watched appointment is answered only after some block overlooked a trigger. */
  lemma AnsweredAfterOverlooked(world: World, ts: seq<Tower>, es: seq<Event>, n: nat)
    requires WorldOk(world) && AreMoves(world, ts, es) && Inv(world, ts[0]) && n < |es|
    requires AnswersWatched(world, ts[n], es[n])
    ensures exists k :: 0 <= k < n && !OverlooksNothing(world, ts[k], es[k])
  {
    hide WorldOk, Inv, OverlooksNothing, MoveAt, Admitted, AnsweredWhileWatched;
    if forall k :: 0 <= k < n ==> OverlooksNothing(world, ts[k], es[k]) {
      InvHoldsIff(world, ts, es, n);
      NeverAnsweredWhileWatched(world, ts[n], es[n].req, es[n].blockCount, es[n].net);
    }
  }
}
