/** What every step of the tower keeps, as long as no block overlooks a trigger. */
module Invariants {
  import opened Basics
  import opened Records
  import opened BlockTree
  import opened LocatorCache
  import opened Carrier
  import opened Responder
  import opened Gatekeeper
  import opened Slots
  import opened Breaches
  import opened Confirmations
  import opened TowerModel
  import Expiry

  /** The database is exactly memory: the two unions of families and the flags. */
  ghost predicate OnDisk(t: Tower) {
    && t.view.w.Keys == t.appointments.Keys + t.responder.trackers.Keys
    && InStep(t.responder.trackers, t.view.r)
    && t.view.ta == t.responder.trackers.Keys
    && t.view.bw == Some(t.lastKnown) && t.view.br == Some(t.responder.lastKnown)
  }

  /** Every stored appointment sits under the hash of its own locator and user; its tracker agrees with it. */
  ghost predicate Named(world: World, t: Tower) {
    && (forall u <- t.view.w :: u == world.uuidOf(t.view.w[u].locator, t.view.w[u].userId))
    && (forall u <- t.view.r :: u in t.view.w && t.view.r[u].locator == t.view.w[u].locator
                                && t.view.r[u].userId == t.view.w[u].userId)
  }

  ghost predicate SeenOnChain(tree: Tree, txid: Txid) {
    exists h <- tree :: txid in tree[h].txs
  }

  /** Every tracked dispute is a transaction of some block, and is what the appointment was waiting for. */
  ghost predicate Triggered(world: World, r: map<Uuid, Tracker>) {
    forall u <- r :: ComputeLocator(r[u].disputeTxid) == r[u].locator && SeenOnChain(world.tree, r[u].disputeTxid)
  }

  /** No watched appointment has its trigger among the cached blocks. */
  ghost predicate Quiet(world: World, t: Tower)
    requires WellFormed(world.tree)
  {
    && t.lastKnown in world.tree
    && forall u <- t.appointments :: t.appointments[u].locator !in CacheAt(world, t.lastKnown)
  }

  /** A stored appointment that is charged to a user is charged for its stored blob. */
  ghost predicate Charged(t: Tower) {
    forall id <- t.gk.users :: forall u <- t.gk.users[id].appointments ::
      u in t.view.w ==> t.gk.users[id].appointments[u] == RequiredSlots(|t.view.w[u].blob|)
  }

  ghost predicate OwnUuids(world: World, id: UserId, uuids: set<Uuid>) {
    forall u <- uuids :: exists l :: u == world.uuidOf(l, id)
  }

  /** Users are charged, and remembered as outdated, only for uuids made from their own id. */
  ghost predicate OwnCharges(world: World, gk: Expiry.State) {
    && (forall id <- gk.users :: OwnUuids(world, id, gk.users[id].appointments.Keys))
    && (forall h <- gk.entries :: forall id <- gk.entries[h] :: OwnUuids(world, id, gk.entries[h][id]))
  }

  ghost predicate InMemory(t: Tower) {
    MemoryOk(t) && NoDup(t.responder.unconfirmed) && BelowThreshold(t.responder.missed)
  }

  ghost predicate Sourced(world: World, t: Tower) {
    Named(world, t) && Triggered(world, t.view.r)
  }

  /** What does not depend on the Gatekeeper. */
  ghost predicate Stored(world: World, t: Tower)
    requires WorldOk(world)
  {
    InMemory(t) && OnDisk(t) && Sourced(world, t) && Quiet(world, t)
  }

  ghost predicate Inv(world: World, t: Tower)
    requires WorldOk(world)
  {
    Stored(world, t) && Charged(t) && OwnCharges(world, t.gk)
  }

  /** No appointment is both watched and tracked. */
  ghost predicate Exclusive(t: Tower) {
    t.appointments.Keys !! t.responder.trackers.Keys
  }

  /** Every watched appointment sits under the hash of its own locator and user. */
  ghost predicate Addressed(world: World, t: Tower) {
    forall u <- t.appointments :: u == world.uuidOf(t.appointments[u].locator, t.appointments[u].userId)
  }

  /** What survives even a block that overlooks a trigger. */
  ghost predicate Consistent(world: World, t: Tower) {
    InMemory(t) && OnDisk(t) && Sourced(world, t) && OwnCharges(world, t.gk)
  }

  lemma StoredIgnoresUsers(world: World, t: Tower, gk: Expiry.State, issued: map<Txid, Receipt>)
    requires WorldOk(world) && Stored(world, t)
    ensures Stored(world, t.(gk := gk, issued := issued))
  {
  }

  // ---------- Outdated users do not share appointments ----------

  lemma OutdatedAreApart(world: World, gk: Expiry.State, height: int)
    requires Injective(world.uuidOf) && OwnCharges(world, gk)
    ensures Apart(Expiry.GetOutdated(world.config, gk, height))
  {
    var outdated := Expiry.GetOutdated(world.config, gk, height);
    forall i, j | i in outdated && j in outdated && i != j ensures outdated[i] !! outdated[j] {
      assert OwnUuids(world, i, outdated[i]) && OwnUuids(world, j, outdated[j]);
    }
  }

  // ---------- Requests ----------

  lemma RegisterKeepsCharges(world: World, t: Tower, userId: UserId, users: Users, blockCount: int)
    requires Charged(t) && OwnCharges(world, t.gk)
    requires Register(world.config, t.gk.users, userId, blockCount) == Ok(users)
    ensures Charged(t.(gk := t.gk.(users := users))) && OwnCharges(world, t.gk.(users := users))
  {
    RegisterKeepsOwn(world, t.gk, userId, users, blockCount);
  }

  lemma RegisterKeepsOwn(world: World, gk: Expiry.State, userId: UserId, users: Users, blockCount: int)
    requires OwnCharges(world, gk) && Register(world.config, gk.users, userId, blockCount) == Ok(users)
    ensures OwnCharges(world, gk.(users := users))
  {
    assert OwnUuids(world, userId, {});
    forall id | id in users ensures OwnUuids(world, id, users[id].appointments.Keys) {
      assert id in gk.users ==> users[id].appointments == gk.users[id].appointments;
      assert id !in gk.users ==> users[id].appointments.Keys == {};
    }
  }

  lemma RegisterKeepsInv(world: World, t: Tower, userId: UserId, blockCount: int)
    requires WorldOk(world) && Inv(world, t)
    ensures Inv(world, RegisterUser(world, t, userId, blockCount).0)
  {
    match Register(world.config, t.gk.users, userId, blockCount)
    case Ok(users) =>
      StoredIgnoresUsers(world, t, t.gk.(users := users), t.issued);
      RegisterKeepsCharges(world, t, userId, users, blockCount);
    case Raised(_) =>
  }

  /** An appointment that is already watched cannot have its trigger in the cache. */
  lemma FreshWhenTriggered(world: World, t: Tower, l: Locator, userId: UserId)
    requires WorldOk(world) && Inv(world, t)
    requires l in CacheAt(world, t.lastKnown) && world.uuidOf(l, userId) !in t.responder.trackers
    ensures world.uuidOf(l, userId) !in t.appointments && world.uuidOf(l, userId) !in t.view.w
  {
    var uuid := world.uuidOf(l, userId);
    assert forall u <- t.appointments :: t.view.w[u].locator == t.appointments[u].locator;
  }

  lemma ChargeKeepsOwn(world: World, t: Tower, userId: UserId, uuid: Uuid, l: Locator, blobLength: nat)
    requires userId in t.gk.users && uuid == world.uuidOf(l, userId) && Charge(t.gk.users, userId, uuid, blobLength).Ok?
    requires OwnCharges(world, t.gk)
    ensures OwnCharges(world, t.gk.(users := Charge(t.gk.users, userId, uuid, blobLength).value))
  {
    var users := Charge(t.gk.users, userId, uuid, blobLength).value;
    forall id | id in users ensures OwnUuids(world, id, users[id].appointments.Keys) {
      if id == userId {
        forall u | u in users[id].appointments ensures exists l' :: u == world.uuidOf(l', id) {
          if u != uuid {
            assert u in t.gk.users[id].appointments.Keys;
          }
        }
      }
    }
  }

  /** Another user cannot be charged for this uuid. */
  lemma ChargedToOne(world: World, gk: Expiry.State, uuid: Uuid, l: Locator, userId: UserId, id: UserId)
    requires Injective(world.uuidOf) && OwnCharges(world, gk)
    requires uuid == world.uuidOf(l, userId) && id in gk.users && uuid in gk.users[id].appointments
    ensures id == userId
  {
    assert OwnUuids(world, id, gk.users[id].appointments.Keys);
  }

  /** After the charge, storing this very blob under the uuid keeps charges accurate. */
  lemma StoreKeepsCharged(world: World, t: Tower, userId: UserId, l: Locator, a: Appointment, users: Users)
    requires Injective(world.uuidOf) && OwnCharges(world, t.gk) && Charged(t) && userId in t.gk.users
    requires var uuid := world.uuidOf(l, userId); Charge(t.gk.users, userId, uuid, |a.blob|) == Ok(users)
    ensures var uuid := world.uuidOf(l, userId);
            Charged(t.(gk := t.gk.(users := users), view := t.view.(w := t.view.w[uuid := a])))
  {
    var uuid := world.uuidOf(l, userId);
    forall id | id in users
      ensures forall u <- users[id].appointments :: u in t.view.w[uuid := a] ==>
                users[id].appointments[u] == RequiredSlots(|t.view.w[uuid := a][u].blob|)
    {
      if id != userId && uuid in users[id].appointments {
        ChargedToOne(world, t.gk, uuid, l, userId, id);
      }
    }
  }

  lemma WatchKeepsMemory(t: Tower, uuid: Uuid, a: Appointment)
    requires InMemory(t) && OnDisk(t) && uuid !in t.responder.trackers
    ensures InMemory(Watch(t, uuid, a)) && OnDisk(Watch(t, uuid, a))
  {
  }

  lemma WatchKeepsStored(world: World, t: Tower, a: Appointment)
    requires WorldOk(world) && Stored(world, t)
    requires world.uuidOf(a.locator, a.userId) !in t.responder.trackers && a.locator !in CacheAt(world, t.lastKnown)
    ensures Stored(world, Watch(t, world.uuidOf(a.locator, a.userId), a))
  {
    hide WellFormed, DistinctLocators, CacheAt;
    var uuid := world.uuidOf(a.locator, a.userId);
    WatchKeepsMemory(t, uuid, a);
    assert Sourced(world, Watch(t, uuid, a)) && Quiet(world, Watch(t, uuid, a));
  }

  lemma WatchKeepsInv(world: World, t: Tower, userId: UserId, a: Appointment, users: Users)
    requires WorldOk(world) && Inv(world, t) && userId in t.gk.users && a.userId == userId
    requires var uuid := world.uuidOf(a.locator, userId);
             uuid !in t.responder.trackers && Charge(t.gk.users, userId, uuid, |a.blob|) == Ok(users)
    requires a.locator !in CacheAt(world, t.lastKnown)
    ensures var uuid := world.uuidOf(a.locator, userId);
            Inv(world, Watch(t.(gk := t.gk.(users := users)), uuid, a))
  {
    var uuid := world.uuidOf(a.locator, userId);
    StoredIgnoresUsers(world, t, t.gk.(users := users), t.issued);
    WatchKeepsStored(world, t.(gk := t.gk.(users := users)), a);
    ChargeKeepsOwn(world, t, userId, uuid, a.locator, |a.blob|);
    StoreKeepsCharged(world, t, userId, a.locator, a, users);
  }

  /** A charge for an appointment that is not stored leaves the accuracy of the others alone. */
  lemma ChargeUnstored(world: World, t: Tower, userId: UserId, uuid: Uuid, blobLength: nat, users: Users)
    requires userId in t.gk.users && Charged(t) && uuid !in t.view.w
    requires Charge(t.gk.users, userId, uuid, blobLength) == Ok(users)
    ensures Charged(t.(gk := t.gk.(users := users)))
  {
  }

  lemma RespondKeepsMemory(t: Tower, uuid: Uuid, a: Appointment, tracker: Tracker, receipt: Receipt)
    requires InMemory(t) && OnDisk(t) && uuid !in t.view.w
    ensures InMemory(Respond(t, uuid, a, tracker, receipt)) && OnDisk(Respond(t, uuid, a, tracker, receipt))
  {
    if receipt.delivered {
      InStepAdd(t.responder.trackers, t.view.r, uuid, tracker);
    }
  }

  lemma RespondKeepsSources(world: World, t: Tower, uuid: Uuid, a: Appointment, tracker: Tracker, receipt: Receipt)
    requires Sourced(world, t) && uuid == world.uuidOf(a.locator, a.userId) && a.userId == tracker.userId
    requires a.locator == tracker.locator == ComputeLocator(tracker.disputeTxid)
    requires SeenOnChain(world.tree, tracker.disputeTxid)
    ensures Sourced(world, Respond(t, uuid, a, tracker, receipt))
  {
  }

  lemma RespondKeepsStored(world: World, t: Tower, uuid: Uuid, a: Appointment, tracker: Tracker, receipt: Receipt)
    requires WorldOk(world) && Stored(world, t) && a.userId == tracker.userId
    requires a.locator == tracker.locator == ComputeLocator(tracker.disputeTxid)
    requires SeenOnChain(world.tree, tracker.disputeTxid)
    requires uuid == world.uuidOf(a.locator, a.userId) && uuid !in t.view.w
    ensures Stored(world, Respond(t, uuid, a, tracker, receipt))
  {
    RespondKeepsMemory(t, uuid, a, tracker, receipt);
    RespondKeepsSources(world, t, uuid, a, tracker, receipt);
  }

  lemma RespondKeepsInv(world: World, t: Tower, a: Appointment, users: Users, tracker: Tracker, receipt: Receipt)
    requires WorldOk(world) && Inv(world, t) && a.userId in t.gk.users && a.userId == tracker.userId
    requires a.locator == tracker.locator == ComputeLocator(tracker.disputeTxid)
    requires SeenOnChain(world.tree, tracker.disputeTxid)
    requires var uuid := world.uuidOf(a.locator, a.userId);
             uuid !in t.view.w && Charge(t.gk.users, a.userId, uuid, |a.blob|) == Ok(users)
    ensures var uuid := world.uuidOf(a.locator, a.userId);
            Inv(world, Respond(t.(gk := t.gk.(users := users)), uuid, a, tracker, receipt))
  {
    var uuid := world.uuidOf(a.locator, a.userId);
    StoredIgnoresUsers(world, t, t.gk.(users := users), t.issued);
    RespondKeepsStored(world, t.(gk := t.gk.(users := users)), uuid, a, tracker, receipt);
    ChargeKeepsOwn(world, t, a.userId, uuid, a.locator, |a.blob|);
    if receipt.delivered {
      StoreKeepsCharged(world, t, a.userId, a.locator, a, users);
    } else {
      ChargeUnstored(world, t, a.userId, uuid, |a.blob|, users);
    }
  }

  lemma CachedOnChain(world: World, h: Hash, l: Locator)
    requires WorldOk(world) && h in world.tree && l in CacheAt(world, h)
    ensures ComputeLocator(CacheAt(world, h)[l]) == l && SeenOnChain(world.tree, CacheAt(world, h)[l])
  {
    CacheAnswers(world.tree, h, world.cacheSize, l);
    WindowFacts(world.tree, h, world.cacheSize);
  }

  lemma PlaceKeepsInv(world: World, t: Tower, a: Appointment, users: Users, net: Network)
    requires WorldOk(world) && Inv(world, t) && a.userId in t.gk.users
    requires var uuid := world.uuidOf(a.locator, a.userId);
             uuid !in t.responder.trackers && Charge(t.gk.users, a.userId, uuid, |a.blob|) == Ok(users)
    ensures Inv(world, Place(world, t.(gk := t.gk.(users := users)), world.uuidOf(a.locator, a.userId), a, net))
  {
    var uuid := world.uuidOf(a.locator, a.userId);
    var cache := CacheAt(world, t.lastKnown);
    if a.locator !in cache {
      WatchKeepsInv(world, t, a.userId, a, users);
    } else {
      FreshWhenTriggered(world, t, a.locator, a.userId);
      CachedOnChain(world, t.lastKnown, a.locator);
      match world.decrypt(a.blob, cache[a.locator])
      case None =>
        StoredIgnoresUsers(world, t, t.gk.(users := users), t.issued);
        ChargeKeepsOwn(world, t, a.userId, uuid, a.locator, |a.blob|);
        ChargeUnstored(world, t, a.userId, uuid, |a.blob|, users);
      case Some(p) =>
        var tracker := TrackerFor(Breach(a.locator, cache[a.locator], p), a.userId);
        RespondKeepsInv(world, t, a, users, tracker, ReceiptFor(t.issued, net, p.txid));
    }
  }

  lemma AddKeepsInv(world: World, t: Tower, req: Request, blockCount: int, net: Network)
    requires WorldOk(world) && Inv(world, t)
    ensures Inv(world, AddAppointment(world, t, req, blockCount, net).0)
  {
    hide WellFormed, DistinctLocators, Injective, InMemory, OnDisk, Sourced, Charged, OwnCharges, Place, Charge;
    if Refusal(world, t, req, blockCount).None? {
      var a := Extended(world, t, req);
      var charged := Charge(t.gk.users, a.userId, world.uuidOf(req.locator, a.userId), |req.blob|);
      if charged.Ok? {
        PlaceKeepsInv(world, t, a, charged.value, net);
      }
    }
  }
}
