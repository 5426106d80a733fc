/** Whole runs of the tower: requests, blocks at each component, and restarts, in any order. */
module Runs {
  import opened Basics
  import opened Records
  import opened BlockTree
  import opened LocatorCache
  import opened AppointmentsDb
  import opened Carrier
  import opened Responder
  import opened Slots
  import opened Breaches
  import opened TowerModel
  import opened Invariants
  import opened BlockSteps
  import Expiry

  datatype Event =
    | Registered(userId: UserId, blockCount: int)
    | Requested(req: Request, blockCount: int, net: Network)
    | WatcherSaw(h: Hash, net: Network, entries: seq<Entry>)
    | ResponderSaw(h: Hash, getTx: Txid -> TxInfo)
    | GatekeeperSaw(height: int)
    | Restarted

  /** Anything the tower may do: any request, any block, and restarts, in any order. */
  ghost predicate Move(world: World, t: Tower, e: Event, t': Tower)
    requires WorldOk(world)
  {
    match e
    case Registered(userId, blockCount) => t' == RegisterUser(world, t, userId, blockCount).0
    case Requested(req, blockCount, net) =>
      t.lastKnown in world.tree && t' == AddAppointment(world, t, req, blockCount, net).0
    case WatcherSaw(h, net, entries) => WatcherBlock(world, t, t', h, net, entries)
    case ResponderSaw(h, getTx) => ResponderBlock(world, t, t', h, getTx)
    case GatekeeperSaw(height) => GatekeeperBlock(world, t, t', height)
    case Restarted => t' == Restart(t)
  }

  ghost predicate OverlooksNothing(world: World, t: Tower, e: Event)
    requires WorldOk(world)
  {
    e.WatcherSaw? && e.h in world.tree ==> Overlooked(world, t, e.h) == {}
  }

  /** A move that overlooks no trigger. */
  ghost predicate Step(world: World, t: Tower, e: Event, t': Tower)
    requires WorldOk(world)
  {
    Move(world, t, e, t') && OverlooksNothing(world, t, e)
  }

  ghost predicate StepAt(world: World, ts: seq<Tower>, es: seq<Event>, i: nat)
    requires WorldOk(world) && |ts| == |es| + 1 && i < |es|
  {
    Step(world, ts[i], es[i], ts[i + 1])
  }

  /** `es[i]` leads from `ts[i]` to `ts[i + 1]`. */
  ghost predicate IsRun(world: World, ts: seq<Tower>, es: seq<Event>)
    requires WorldOk(world)
  {
    |ts| == |es| + 1 && forall i :: 0 <= i < |es| ==> StepAt(world, ts, es, i)
  }

  ghost predicate MoveAt(world: World, ts: seq<Tower>, es: seq<Event>, i: nat)
    requires WorldOk(world) && |ts| == |es| + 1 && i < |es|
  {
    Move(world, ts[i], es[i], ts[i + 1])
  }

  /** The same for any moves, whatever they overlook. */
  ghost predicate AreMoves(world: World, ts: seq<Tower>, es: seq<Event>)
    requires WorldOk(world)
  {
    |ts| == |es| + 1 && forall i :: 0 <= i < |es| ==> MoveAt(world, ts, es, i)
  }

  lemma RunIsMoves(world: World, ts: seq<Tower>, es: seq<Event>)
    requires WorldOk(world) && IsRun(world, ts, es)
    ensures AreMoves(world, ts, es)
  {
    hide WorldOk, Move, OverlooksNothing;
    forall i | 0 <= i < |es| ensures MoveAt(world, ts, es, i) {
      assert StepAt(world, ts, es, i);
    }
  }

  lemma OneMoreMove(world: World, ts: seq<Tower>, es: seq<Event>, e: Event, t': Tower)
    requires WorldOk(world) && AreMoves(world, ts, es) && Move(world, ts[|es|], e, t')
    ensures AreMoves(world, ts + [t'], es + [e])
  {
    hide WorldOk, Move;
    var ts', es' := ts + [t'], es + [e];
    forall i | 0 <= i < |es'| ensures MoveAt(world, ts', es', i) {
      assert i < |es| ==> MoveAt(world, ts, es, i);
    }
  }

  lemma OneMoveBefore(world: World, t: Tower, e: Event, ts: seq<Tower>, es: seq<Event>)
    requires WorldOk(world) && AreMoves(world, ts, es) && Move(world, t, e, ts[0])
    ensures AreMoves(world, [t] + ts, [e] + es)
  {
    hide WorldOk, Move;
    var ts', es' := [t] + ts, [e] + es;
    forall i | 0 <= i < |es'| ensures MoveAt(world, ts', es', i) {
      assert i > 0 ==> MoveAt(world, ts, es, i - 1);
    }
  }

  // ---------- The invariant ----------

  /** A tower started with empty databases. */
  function FreshTower(h: Hash): Tower {
    TowerState(map[], h, ResponderState(map[], [], map[], h), map[], Expiry.State.State(map[], [], map[]),
               View(map[], map[], {}, Some(h), Some(h)))
  }

  lemma FreshTowerInv(world: World, h: Hash)
    requires WorldOk(world) && h in world.tree
    ensures Inv(world, FreshTower(h))
  {
  }

  lemma StepKeepsInv(world: World, t: Tower, e: Event, t': Tower)
    requires WorldOk(world) && Inv(world, t) && Step(world, t, e, t')
    ensures Inv(world, t')
  {
    match e
    case Registered(userId, blockCount) => RegisterKeepsInv(world, t, userId, blockCount);
    case Requested(req, blockCount, net) => AddKeepsInv(world, t, req, blockCount, net);
    case WatcherSaw(h, net, entries) => WatcherBlockKeepsInvIff(world, t, t', h, net, entries);
    case ResponderSaw(h, getTx) => ResponderBlockKeepsInv(world, t, t', h, getTx);
    case GatekeeperSaw(height) => GatekeeperBlockKeepsInv(world, t, t', height);
    case Restarted => RestartIsInvisible(world, t);
  }

  lemma StepAtKeepsInv(world: World, ts: seq<Tower>, es: seq<Event>, i: nat)
    requires WorldOk(world) && |ts| == |es| + 1 && i < |es| && StepAt(world, ts, es, i) && Inv(world, ts[i])
    ensures Inv(world, ts[i + 1])
  {
    StepKeepsInv(world, ts[i], es[i], ts[i + 1]);
  }

  /**
   In every state of every run: nothing is both watched and tracked, the database is exactly memory, no watched
   appointment has its trigger among the cached blocks, every tracked dispute is on the chain and matches its
   locator, and stored appointments that are charged at all are charged for what is stored.
   */
  lemma {:induction false} RunKeepsInv(world: World, ts: seq<Tower>, es: seq<Event>, i: nat)
    requires WorldOk(world) && IsRun(world, ts, es) && Inv(world, ts[0]) && i < |ts|
    ensures Inv(world, ts[i])
  {
    hide Inv, StepAt;
    if i > 0 {
      RunKeepsInv(world, ts, es, i - 1);
      StepAtKeepsInv(world, ts, es, i - 1);
    }
  }

  /** A move keeps the invariant exactly when it overlooks no trigger. */
  lemma MoveKeepsInvIff(world: World, t: Tower, e: Event, t': Tower)
    requires WorldOk(world) && Inv(world, t) && Move(world, t, e, t')
    ensures Inv(world, t') <==> OverlooksNothing(world, t, e)
  {
    hide WorldOk, Inv, Overlooked, WatcherBlock, ResponderBlock, AddAppointment, RegisterUser, GatekeeperBlock;
    if OverlooksNothing(world, t, e) {
      StepKeepsInv(world, t, e, t');
    } else {
      WatcherBlockKeepsInvIff(world, t, t', e.h, e.net, e.entries);
    }
  }

  lemma MoveAtKeepsInvIff(world: World, ts: seq<Tower>, es: seq<Event>, i: nat)
    requires WorldOk(world) && |ts| == |es| + 1 && i < |es| && MoveAt(world, ts, es, i) && Inv(world, ts[i])
    ensures Inv(world, ts[i + 1]) <==> OverlooksNothing(world, ts[i], es[i])
  {
    hide WorldOk, Inv, OverlooksNothing, Move;
    MoveKeepsInvIff(world, ts[i], es[i], ts[i + 1]);
  }

  /** Over any moves, the invariant holds at every moment exactly when no block overlooks a trigger. */
  lemma {:induction false} InvHoldsIff(world: World, ts: seq<Tower>, es: seq<Event>, n: nat)
    requires WorldOk(world) && AreMoves(world, ts, es) && Inv(world, ts[0]) && n <= |es|
    ensures (forall k :: 0 <= k <= n ==> Inv(world, ts[k])) <==>
            forall k :: 0 <= k < n ==> OverlooksNothing(world, ts[k], es[k])
  {
    hide WorldOk, Inv, OverlooksNothing, MoveAt;
    if n > 0 {
      InvHoldsIff(world, ts, es, n - 1);
      if forall k :: 0 <= k <= n - 1 ==> Inv(world, ts[k]) {
        MoveAtKeepsInvIff(world, ts, es, n - 1);
      }
    }
  }

  ghost predicate OnTopAt(world: World, t: Tower, e: Event) {
    e.WatcherSaw? && e.h in world.tree ==> OnTop(world, t, e.h)
  }

  lemma OnTopStep(world: World, t: Tower, e: Event)
    requires WorldOk(world) && Inv(world, t) && OnTopAt(world, t, e)
    ensures OverlooksNothing(world, t, e)
  {
    hide Overlooked, OnTop, WellFormed, DistinctLocators, Injective, InMemory, OnDisk, Sourced, Charged, OwnCharges;
    if e.WatcherSaw? && e.h in world.tree {
      OnTopOverlooksNothing(world, t, e.h);
    }
  }

  /** Moves in which every block reaches the Watcher on top of its last one overlook nothing. */
  lemma {:induction false} OnTopIsEnough(world: World, ts: seq<Tower>, es: seq<Event>, n: nat)
    requires WorldOk(world) && AreMoves(world, ts, es) && Inv(world, ts[0]) && n <= |es|
    requires forall k :: 0 <= k < n ==> OnTopAt(world, ts[k], es[k])
    ensures forall k :: 0 <= k < n ==> OverlooksNothing(world, ts[k], es[k])
  {
    hide WorldOk, Inv, OverlooksNothing, MoveAt, OnTopAt;
    if n > 0 {
      OnTopIsEnough(world, ts, es, n - 1);
      InvHoldsIff(world, ts, es, n - 1);
      OnTopStep(world, ts[n - 1], es[n - 1]);
    }
  }

  // ---------- What a block does to one watched appointment ----------

  /** Answered: tracked with this dispute, flagged, and still stored. */
  ghost predicate Answered(t: Tower, u: Uuid, disputeTxid: Txid) {
    && u in t.responder.trackers && u in t.view.w && u in t.view.ta
    && u in t.view.r && t.view.r[u].disputeTxid == disputeTxid
  }

  /** Gone from memory and from every family of the database. */
  ghost predicate Dropped(t: Tower, u: Uuid) {
    && u !in t.appointments && u !in t.responder.trackers
    && u !in t.view.w && u !in t.view.r && u !in t.view.ta
  }

  /** What leaves the Watcher is answered when it has a new tracker, and dropped otherwise. */
  lemma MovedAway(t: Tower, t': Tower, gone: set<Uuid>, hit: set<Uuid>, newTrackers: map<Uuid, Tracker>, u: Uuid)
    requires MemoryOk(t) && OnDisk(t) && Moved(t, t', gone, hit, newTrackers)
    requires newTrackers.Keys <= hit <= t.appointments.Keys - gone && u in t.appointments && u in gone + hit
    ensures u !in t'.appointments
    ensures if u in newTrackers then Answered(t', u, newTrackers[u].disputeTxid) && t'.view.w[u] == t.view.w[u]
            else Dropped(t', u)
  {
  }

  lemma RefundedIsUncharged(users: Users, owners: map<Uuid, UserId>, u: Uuid)
    requires u in owners && owners[u] in users
    ensures u !in Refund(users, owners)[owners[u]].appointments
  {
  }

  /** A trigger in a block is acted on in that block: answered, or dropped and, unless outdated, refunded. */
  lemma TriggerIsActedOn(world: World, t: Tower, t': Tower, h: Hash, net: Network, entries: seq<Entry>, u: Uuid)
    requires WorldOk(world) && Inv(world, t) && WatcherBlock(world, t, t', h, net, entries)
    requires u in t.appointments && t.appointments[u].locator in LocatorMap(world.tree[h].txs)
    ensures var outdated := OutdatedHere(world, t, world.tree[h].height);
            var dispute := LocatorMap(world.tree[h].txs)[t.appointments[u].locator];
            var owner := t.appointments[u].userId;
            && u !in t'.appointments
            && (u in outdated ==> Dropped(t', u))
            && (u !in outdated ==>
                  || (Answered(t', u, dispute) && t'.view.w[u] == t.view.w[u])
                  || (Dropped(t', u) && (owner in t'.gk.users ==> u !in t'.gk.users[owner].appointments)))
  {
    var gone := OutdatedHere(world, t, world.tree[h].height);
    var t1 := t'.(lastKnown := t.lastKnown, view := t'.view.(bw := t.view.bw));
    var verdicts := Verdicts(world.decrypt, entries);
    SearchJudges(world, t, h, gone, entries);
    DisposedMoves(world, t, t1, h, gone, verdicts, net);
    var valid := ValidPart(verdicts);
    var delivered := Delivered(valid, valid.Keys, t.issued, net);
    var newTrackers := NewTrackers(valid, t.appointments, delivered);
    hide WellFormed, DistinctLocators, Injective, Sourced, Quiet, Charged, OwnCharges, OutdatedHere, Verdicts;
    hide Delivered, Refund;
    MovedAway(t, t1, gone, verdicts.Keys, newTrackers, u);
    if u !in gone && u !in newTrackers {
      var owners := AppointmentOwners(t.appointments, verdicts.Keys - delivered);
      assert u in owners;
      if owners[u] in t'.gk.users {
        RefundKeepsUsers(t.gk.users, owners);
        RefundedIsUncharged(t.gk.users, owners, u);
      }
    }
  }

  lemma RefundKeepsUsers(users: Users, owners: map<Uuid, UserId>)
    ensures Refund(users, owners).Keys == users.Keys
  {
  }

  /**
   A triggered appointment is answered exactly when the penalty used for it exists and is delivered, and then with that
   penalty. It is its own one exactly when no earlier success in this block with the same blob disagrees.
   */
  lemma AnsweredIff(
    world: World, t: Tower, t': Tower, h: Hash, net: Network, entries: seq<Entry>, i: nat)
    requires WorldOk(world) && Inv(world, t) && WatcherBlock(world, t, t', h, net, entries) && Searched(world, t, h)
    requires i < |entries|
    ensures var e := entries[i];
            var used := Used(world.decrypt, entries, i);
            && e.uuid in t.appointments && t.appointments[e.uuid].locator == e.locator && e.uuid in t.view.w
            && e == EntryFor(t.view, LocatorMap(world.tree[h].txs), e.uuid, e.locator)
            && (used == world.decrypt(t.view.w[e.uuid].blob, e.disputeTxid) <==> !Stale(world.decrypt, entries, i))
            && (e.uuid in t'.responder.trackers <==>
                  used.Some? && ReceiptFor(t.issued, net, used.value.txid).delivered)
            && (e.uuid in t'.responder.trackers ==>
                  && e.uuid in t'.view.r && t'.view.r[e.uuid].penaltyTxid == used.value.txid
                  && t'.view.r[e.uuid].penaltyRawtx == used.value.rawtx)
  {
    hide WellFormed, DistinctLocators, Injective, OnDisk, Sourced, Quiet, Charged, OwnCharges, OutdatedHere;
    hide Disposed, Verdicts, Used, Stale;
    var gone := OutdatedHere(world, t, world.tree[h].height);
    var t1 := t'.(lastKnown := t.lastKnown, view := t'.view.(bw := t.view.bw));
    var e := entries[i];
    assert e in entries;
    UsedIsOwnIff(world.decrypt, entries, i);
    VerdictOf(world.decrypt, entries, i);
    TrackedIffDelivered(t, t1, gone, Verdicts(world.decrypt, entries), net, e.uuid);
  }

  /** Every triggered appointment that is not outdated is one of the entries. */
  lemma TriggeredIsListed(
    world: World, t: Tower, t': Tower, h: Hash, net: Network, entries: seq<Entry>, u: Uuid) returns (i: nat)
    requires WatcherBlock(world, t, t', h, net, entries)
    requires u in t.appointments && t.appointments[u].locator in LocatorMap(world.tree[h].txs)
    requires u !in OutdatedHere(world, t, world.tree[h].height)
    ensures Searched(world, t, h) && i < |entries| && entries[i].uuid == u
  {
    hide Disposed, OutdatedHere, LocatorMap;
    assert u in Uuids(entries);
    var e :| e in entries && e.uuid == u;
    i :| 0 <= i < |entries| && entries[i] == e;
  }

  lemma TrackedIffDelivered(
    t: Tower, t': Tower, gone: set<Uuid>, verdicts: map<Uuid, Option<Breach>>, net: Network, u: Uuid)
    requires MemoryOk(t) && Disposed(t, t', gone, verdicts, net) && u in t.appointments && u in verdicts
    ensures u in t'.responder.trackers <==>
            verdicts[u].Some? && ReceiptFor(t.issued, net, verdicts[u].value.penalty.txid).delivered
    ensures u in t'.responder.trackers ==>
              u in t'.view.r && t'.view.r[u] == TrackerFor(verdicts[u].value, t.appointments[u].userId)
  {
    hide ReceiptFor, Refund, Sent, NewlyUnconfirmed;
  }

  /** A watched appointment that is neither outdated nor triggered is left alone. */
  lemma UntriggeredIsLeftAlone(world: World, t: Tower, t': Tower, h: Hash, net: Network, entries: seq<Entry>, u: Uuid)
    requires WorldOk(world) && Inv(world, t) && WatcherBlock(world, t, t', h, net, entries)
    requires u in t.appointments && t.appointments[u].locator !in LocatorMap(world.tree[h].txs)
    requires Searched(world, t, h) ==> u !in OutdatedHere(world, t, world.tree[h].height)
    ensures u in t'.appointments && t'.appointments[u] == t.appointments[u]
    ensures u in t'.view.w && t'.view.w[u] == t.view.w[u]
  {
    if Searched(world, t, h) {
      SearchJudges(world, t, h, OutdatedHere(world, t, world.tree[h].height), entries);
    }
  }
}
