/** No slot is lost or invented, over whole runs of the tower. */
module Accounts {
  import opened Basics
  import opened BlockTree
  import opened Carrier
  import opened Responder
  import opened Gatekeeper
  import opened LocatorCache
  import opened Slots
  import opened Breaches
  import opened TowerModel
  import opened Invariants
  import opened BlockSteps
  import opened Runs
  import Expiry

  /** The slots granted to every registered user since it last registered from scratch. */
  ghost function Granted(world: World, t: Tower, e: Event, granted: map<UserId, nat>): map<UserId, nat> {
    match e
    case Registered(id, blockCount) => Expiry.GrantStep(world.config, t.gk, granted, Expiry.RegisterOp(id, blockCount))
    case GatekeeperSaw(height) => Expiry.GrantStep(world.config, t.gk, granted, Expiry.BlockOp(height))
    case _ => granted
  }

  ghost function GrantedAt(
    world: World, ts: seq<Tower>, es: seq<Event>, granted: map<UserId, nat>, i: nat): map<UserId, nat>
    requires i <= |es| < |ts|
  {
    if i == 0 then granted else Granted(world, ts[i - 1], es[i - 1], GrantedAt(world, ts, es, granted, i - 1))
  }

  /** A request charges at most one user. */
  lemma RequestCharges(world: World, t: Tower, req: Request, blockCount: int, net: Network)
    requires WellFormed(world.tree) && t.lastKnown in world.tree
    ensures var users := AddAppointment(world, t, req, blockCount, net).0.gk.users;
            || users == t.gk.users
            || (req.signer.Some? && req.signer.value in t.gk.users
                && Charge(t.gk.users, req.signer.value, world.uuidOf(req.locator, req.signer.value), |req.blob|) ==
                     Ok(users))
  {
    hide WellFormed, CacheAt, Charge;
  }

  lemma RequestConserves(world: World, t: Tower, req: Request, blockCount: int, net: Network, granted: map<UserId, nat>)
    requires WellFormed(world.tree) && t.lastKnown in world.tree && Conserved(t.gk.users, granted)
    ensures Conserved(AddAppointment(world, t, req, blockCount, net).0.gk.users, granted)
  {
    hide WellFormed, AddAppointment, Charge, Balance;
    RequestCharges(world, t, req, blockCount, net);
    var users := AddAppointment(world, t, req, blockCount, net).0.gk.users;
    if users != t.gk.users {
      ChargeKeepsBalance(t.gk.users, req.signer.value, world.uuidOf(req.locator, req.signer.value), |req.blob|);
    }
  }

  lemma RefundConserves(users: Users, owners: map<Uuid, UserId>, granted: map<UserId, nat>)
    requires Conserved(users, granted)
    ensures Conserved(Refund(users, owners), granted)
  {
    hide Refund, Balance;
    RefundKeepsBalance(users, owners);
  }

  lemma WatcherConserves(
    world: World, t: Tower, h: Hash, net: Network, entries: seq<Entry>, t': Tower, granted: map<UserId, nat>)
    requires WatcherBlock(world, t, t', h, net, entries) && Conserved(t.gk.users, granted)
    ensures Conserved(t'.gk.users, granted)
  {
    hide Refund, Conserved, ListsBreached, Verdicts, OutdatedHere;
    if Searched(world, t, h) {
      var verdicts := Verdicts(world.decrypt, entries);
      var dropped := verdicts.Keys - Delivered(ValidPart(verdicts), ValidPart(verdicts).Keys, t.issued, net);
      RefundConserves(t.gk.users, AppointmentOwners(t.appointments, dropped), granted);
    }
  }

  lemma ResponderConserves(world: World, t: Tower, h: Hash, getTx: Txid -> TxInfo, t': Tower, granted: map<UserId, nat>)
    requires ResponderBlock(world, t, t', h, getTx) && Conserved(t.gk.users, granted)
    ensures Conserved(t'.gk.users, granted)
  {
    hide Refund, Conserved, Completed, Stuck, Due, Penalties;
    var completed := Completed(t.responder.trackers, t.responder.unconfirmed, getTx);
    RefundConserves(t.gk.users, Owners(t.responder.trackers, completed), granted);
  }

  lemma StepConservesSlots(world: World, t: Tower, e: Event, t': Tower, granted: map<UserId, nat>)
    requires WorldOk(world) && Move(world, t, e, t') && Conserved(t.gk.users, granted)
    ensures Conserved(t'.gk.users, Granted(world, t, e, granted))
  {
    hide WellFormed, WatcherBlock, ResponderBlock, AddAppointment, Conserved, Register, Expiry.Block;
    hide Expiry.GrantStep;
    match e
    case Registered(id, blockCount) =>
      Expiry.StepConserves(world.config, t.gk, granted, Expiry.RegisterOp(id, blockCount));
    case Requested(req, blockCount, net) => RequestConserves(world, t, req, blockCount, net, granted);
    case WatcherSaw(h, net, entries) => WatcherConserves(world, t, h, net, entries, t', granted);
    case ResponderSaw(h, getTx) => ResponderConserves(world, t, h, getTx, t', granted);
    case GatekeeperSaw(height) =>
      Expiry.StepConserves(world.config, t.gk, granted, Expiry.BlockOp(height));
    case Restarted =>
  }

  lemma StepConservesSlotsAt(world: World, ts: seq<Tower>, es: seq<Event>, i: nat, granted: map<UserId, nat>)
    requires WorldOk(world) && |ts| == |es| + 1 && i < |es| && MoveAt(world, ts, es, i)
    requires Conserved(ts[i].gk.users, granted)
    ensures Conserved(ts[i + 1].gk.users, Granted(world, ts[i], es[i], granted))
  {
    hide WorldOk, Move, Conserved, Granted;
    StepConservesSlots(world, ts[i], es[i], ts[i + 1], granted);
  }

  /**
   In every state of every run, available plus charged slots of every user equal what it was granted, and none is
   overdrawn.
   */
  lemma {:induction false} RunConservesSlots(
    world: World, ts: seq<Tower>, es: seq<Event>, granted: map<UserId, nat>, i: nat)
    requires WorldOk(world) && AreMoves(world, ts, es) && Conserved(ts[0].gk.users, granted) && i < |ts|
    ensures Conserved(ts[i].gk.users, GrantedAt(world, ts, es, granted, i))
  {
    hide WorldOk, MoveAt, Conserved, Granted;
    if i > 0 {
      RunConservesSlots(world, ts, es, granted, i - 1);
      StepConservesSlotsAt(world, ts, es, i - 1, GrantedAt(world, ts, es, granted, i - 1));
    }
  }

  // ---------- When slots come back ----------

  lemma ChargedAfterRefund(users: Users, owners: map<Uuid, UserId>, id: UserId, u: Uuid)
    requires id in users
    ensures id in Refund(users, owners)
    ensures u in Refund(users, owners)[id].appointments <==>
            u in users[id].appointments && !(u in owners && owners[u] == id)
  {
  }

  ghost predicate IsCharged(t: Tower, u: Uuid, id: UserId) {
    id in t.gk.users && u in t.gk.users[id].appointments
  }

  /** A block at the Watcher gives back the slots of exactly the appointments that were triggered in vain. */
  lemma WatcherReturnsSlots(world: World, t: Tower, t': Tower, h: Hash, net: Network, entries: seq<Entry>, u: Uuid)
    requires WorldOk(world) && Inv(world, t) && WatcherBlock(world, t, t', h, net, entries)
    requires u in t.appointments && IsCharged(t, u, t.appointments[u].userId)
    ensures IsCharged(t', u, t.appointments[u].userId) <==>
            u in t'.view.w || (Searched(world, t, h) && u in OutdatedHere(world, t, world.tree[h].height))
  {
    hide WellFormed, DistinctLocators, Injective, OnDisk, Sourced, Quiet, Charged, OwnCharges;
    hide Searched, OutdatedHere, Verdicts, Delivered, Refund, ListsBreached;
    if Searched(world, t, h) {
      var gone := OutdatedHere(world, t, world.tree[h].height);
      var t1 := t'.(lastKnown := t.lastKnown, view := t'.view.(bw := t.view.bw));
      var verdicts := Verdicts(world.decrypt, entries);
      SearchJudges(world, t, h, gone, entries);
      DisposedMoves(world, t, t1, h, gone, verdicts, net);
      var dropped := verdicts.Keys - Delivered(ValidPart(verdicts), ValidPart(verdicts).Keys, t.issued, net);
      ChargedAfterRefund(t.gk.users, AppointmentOwners(t.appointments, dropped), t.appointments[u].userId, u);
    }
  }

  /** A block at the Responder gives back the slots of exactly the completed trackers. */
  lemma ResponderReturnsSlots(world: World, t: Tower, t': Tower, h: Hash, getTx: Txid -> TxInfo, u: Uuid)
    requires ResponderBlock(world, t, t', h, getTx)
    requires u in t.responder.trackers && IsCharged(t, u, t.responder.trackers[u].userId)
    ensures IsCharged(t', u, t.responder.trackers[u].userId) <==>
            u !in Completed(t.responder.trackers, t.responder.unconfirmed, getTx)
  {
    hide Completed, Stuck, Due, Penalties, Refund, Flatten, Expiry.GetOutdated;
    var completed := Completed(t.responder.trackers, t.responder.unconfirmed, getTx);
    ChargedAfterRefund(t.gk.users, Owners(t.responder.trackers, completed), t.responder.trackers[u].userId, u);
  }

  // ---------- 32 bits ----------

  /**
   In every state of every run, the available slots of a user stay within 32 bits whatever is given back next exactly
   when the slots granted to it do.
   */
  lemma SlotsFitIff(world: World, ts: seq<Tower>, es: seq<Event>, granted: map<UserId, nat>, i: nat, id: UserId)
    requires WorldOk(world) && AreMoves(world, ts, es) && Conserved(ts[0].gk.users, granted) && i < |ts|
    requires id in ts[i].gk.users
    ensures id in GrantedAt(world, ts, es, granted, i)
    ensures (forall uuids: set<Uuid> :: IsU4Int(RefundUser(ts[i].gk.users[id], uuids).availableSlots)) <==>
            GrantedAt(world, ts, es, granted, i)[id] < 0x1_0000_0000
  {
    hide WorldOk, MoveAt, RefundUser, Balance, GrantedAt;
    RunConservesSlots(world, ts, es, granted, i);
    RefundsFitIff(ts[i].gk.users[id]);
  }
}
