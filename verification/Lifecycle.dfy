/** What happens to an appointment from the moment it is accepted, over whole runs. */
module Lifecycle {
  import opened Basics
  import opened Records
  import opened BlockTree
  import opened LocatorCache
  import opened Carrier
  import opened Responder
  import opened Gatekeeper
  import opened Slots
  import opened Breaches
  import opened TowerModel
  import opened Invariants
  import opened BlockSteps
  import opened Runs
  import Expiry

  // ---------- Acceptance ----------

  ghost predicate Admitted(world: World, t: Tower, req: Request, blockCount: int, net: Network)
    requires WorldOk(world) && t.lastKnown in world.tree
  {
    AddAppointment(world, t, req, blockCount, net).1.Ok?
  }

  lemma AdmittedFacts(world: World, t: Tower, req: Request, blockCount: int, net: Network)
    requires WorldOk(world) && t.lastKnown in world.tree && Admitted(world, t, req, blockCount, net)
    ensures req.signer.Some? && req.signer.value in t.gk.users
    ensures var uuid := world.uuidOf(req.locator, req.signer.value);
            var charged := Charge(t.gk.users, req.signer.value, uuid, |req.blob|);
            && uuid !in t.responder.trackers && charged.Ok?
            && AddAppointment(world, t, req, blockCount, net).0 ==
                 Place(world, t.(gk := t.gk.(users := charged.value)), uuid, Extended(world, t, req), net)
  {
  }

  lemma RefusedChangesNothing(world: World, t: Tower, req: Request, blockCount: int, net: Network)
    requires WorldOk(world) && t.lastKnown in world.tree && !Admitted(world, t, req, blockCount, net)
    ensures AddAppointment(world, t, req, blockCount, net).0 == t
  {
  }

  /** A request is admitted exactly when it passes every check and its owner can pay for it. */
  lemma AdmittedIff(world: World, t: Tower, req: Request, blockCount: int, net: Network)
    requires WorldOk(world) && t.lastKnown in world.tree
    ensures Admitted(world, t, req, blockCount, net) <==>
            && |t.appointments| < world.maxAppointments
            && req.signer.Some? && req.signer.value in t.gk.users
            && var user := t.gk.users[req.signer.value];
            && var uuid := world.uuidOf(req.locator, req.signer.value);
            && blockCount < user.subscriptionExpiry && uuid !in t.responder.trackers
            && RequiredSlots(|req.blob|) <= user.availableSlots + UsedSlots(user, uuid)
  {
    hide WellFormed, DistinctLocators, Injective, Place;
  }

  /** The answer reports the height the tower had reached, and what the user is left with. */
  lemma AnswerReportsUser(world: World, t: Tower, req: Request, blockCount: int, net: Network)
    requires WorldOk(world) && t.lastKnown in world.tree && Admitted(world, t, req, blockCount, net)
    ensures req.signer.Some? && req.signer.value in t.gk.users
    ensures var (t', r) := AddAppointment(world, t, req, blockCount, net);
            var (id, uuid) := (req.signer.value, world.uuidOf(req.locator, req.signer.value));
            && r.value.locator == req.locator && r.value.startBlock == world.tree[t.lastKnown].height
            && id in t'.gk.users && uuid in t'.gk.users[id].appointments
            && r.value.availableSlots == t'.gk.users[id].availableSlots
            && r.value.availableSlots + t'.gk.users[id].appointments[uuid] ==
                 t.gk.users[id].availableSlots + UsedSlots(t.gk.users[id], uuid)
            && r.value.subscriptionExpiry == t'.gk.users[id].subscriptionExpiry == t.gk.users[id].subscriptionExpiry
  {
    hide WellFormed, DistinctLocators, Injective, CacheAt;
  }

  lemma RespondOutcome(t: Tower, uuid: Uuid, a: Appointment, tracker: Tracker, receipt: Receipt)
    requires MemoryOk(t) && OnDisk(t) && uuid !in t.view.w
    ensures var t' := Respond(t, uuid, a, tracker, receipt);
            && uuid !in t'.appointments
            && if receipt.delivered then Answered(t', uuid, tracker.disputeTxid) && t'.view.w[uuid] == a
               else Dropped(t', uuid)
  {
    assert uuid !in t.view.r && uuid !in t.view.ta;
  }

  /** Accepted with its trigger in the cache: answered at once, or dropped; either way the slots stay charged. */
  lemma CachedTriggerIsActedOn(world: World, t: Tower, req: Request, blockCount: int, net: Network)
    requires WorldOk(world) && Inv(world, t) && Admitted(world, t, req, blockCount, net)
    requires req.locator in CacheAt(world, t.lastKnown)
    ensures req.signer.Some?
    ensures var uuid := world.uuidOf(req.locator, req.signer.value);
            var t' := AddAppointment(world, t, req, blockCount, net).0;
            var dispute := CacheAt(world, t.lastKnown)[req.locator];
            var penalty := world.decrypt(req.blob, dispute);
            && uuid !in t'.appointments
            && (if penalty.Some? && ReceiptFor(t.issued, net, penalty.value.txid).delivered
                then Answered(t', uuid, dispute) && t'.view.w[uuid] == Extended(world, t, req)
                else Dropped(t', uuid))
            && req.signer.value in t'.gk.users
            && uuid in t'.gk.users[req.signer.value].appointments
            && t'.gk.users[req.signer.value].appointments[uuid] == RequiredSlots(|req.blob|)
  {
    AdmittedFacts(world, t, req, blockCount, net);
    FreshWhenTriggered(world, t, req.locator, req.signer.value);
    hide AddAppointment, Admitted, WellFormed, DistinctLocators, Injective, Sourced, Quiet, Charged, OwnCharges;
    hide CacheAt;
    hide Respond, MemoryOk, OnDisk, Answered, Dropped;
    var uuid := world.uuidOf(req.locator, req.signer.value);
    var charged := t.(gk := t.gk.(users := Charge(t.gk.users, req.signer.value, uuid, |req.blob|).value));
    var a := Extended(world, t, req);
    match world.decrypt(req.blob, CacheAt(world, t.lastKnown)[req.locator])
    case None =>
      NotStoredIsDropped(t, uuid);
      NotStoredIsDropped(charged, uuid);
    case Some(p) =>
      var tracker := TrackerFor(Breach(a.locator, CacheAt(world, t.lastKnown)[req.locator], p), a.userId);
      RespondOutcome(charged, uuid, a, tracker, ReceiptFor(t.issued, net, p.txid));
  }

  lemma NotStoredIsDropped(t: Tower, uuid: Uuid)
    requires OnDisk(t) && uuid !in t.view.w
    ensures Dropped(t, uuid)
  {
  }

  /** Accepted without its trigger in the cache: watched under its uuid, in memory and on disk. */
  lemma UncachedIsWatched(world: World, t: Tower, req: Request, blockCount: int, net: Network)
    requires WorldOk(world) && t.lastKnown in world.tree && Admitted(world, t, req, blockCount, net)
    requires req.locator !in CacheAt(world, t.lastKnown)
    ensures req.signer.Some?
    ensures var uuid := world.uuidOf(req.locator, req.signer.value);
            var t' := AddAppointment(world, t, req, blockCount, net).0;
            && t'.appointments == t.appointments[uuid := AppointmentSummary(req.locator, req.signer.value)]
            && t'.view == t.view.(w := t.view.w[uuid := Extended(world, t, req)])
            && t'.responder == t.responder
  {
    AdmittedFacts(world, t, req, blockCount, net);
    hide WellFormed, DistinctLocators, Injective, CacheAt;
  }

  // ---------- Leaving the Watcher ----------

  /** A searched block in which `u` is outdated or triggered. */
  ghost predicate Found(world: World, t: Tower, e: Event, u: Uuid) {
    && e.WatcherSaw? && e.h in world.tree && u in t.appointments && Searched(world, t, e.h)
    && (|| u in OutdatedHere(world, t, world.tree[e.h].height)
        || t.appointments[u].locator in LocatorMap(world.tree[e.h].txs))
  }

  /** Tracked with the dispute of that block, or gone. */
  ghost predicate ActedOn(world: World, t: Tower, e: Event, t': Tower, u: Uuid)
    requires e.WatcherSaw? && e.h in world.tree && u in t.appointments
  {
    var lmap := LocatorMap(world.tree[e.h].txs);
    var l := t.appointments[u].locator;
    Dropped(t', u) || (l in lmap && Answered(t', u, lmap[l]) && u in t.view.w && t'.view.w[u] == t.view.w[u])
  }

  lemma OutdatedIsDropped(world: World, t: Tower, t': Tower, h: Hash, net: Network, entries: seq<Entry>, u: Uuid)
    requires WorldOk(world) && Inv(world, t) && WatcherBlock(world, t, t', h, net, entries) && Searched(world, t, h)
    requires u in t.appointments && u in OutdatedHere(world, t, world.tree[h].height)
    ensures u !in t'.appointments && Dropped(t', u)
  {
    var gone := OutdatedHere(world, t, world.tree[h].height);
    var t1 := t'.(lastKnown := t.lastKnown, view := t'.view.(bw := t.view.bw));
    var verdicts := Verdicts(world.decrypt, entries);
    SearchJudges(world, t, h, gone, entries);
    DisposedMoves(world, t, t1, h, gone, verdicts, net);
    var valid := ValidPart(verdicts);
    var newTrackers := NewTrackers(valid, t.appointments, Delivered(valid, valid.Keys, t.issued, net));
    hide WellFormed, DistinctLocators, Injective, Sourced, Quiet, Charged, OwnCharges, OutdatedHere, Verdicts;
    hide Delivered, Refund;
    MovedAway(t, t1, gone, verdicts.Keys, newTrackers, u);
  }

  ghost predicate KeepsWatched(t: Tower, t': Tower, u: Uuid)
    requires u in t.appointments
  {
    u in t'.appointments && t'.appointments[u] == t.appointments[u]
  }

  /** A request that refreshes a watched appointment keeps its summary. */
  lemma PlaceKeepsWatched(world: World, t: Tower, a: Appointment, net: Network, u: Uuid)
    requires WorldOk(world) && Stored(world, t) && u in t.appointments
    ensures var t' := Place(world, t, world.uuidOf(a.locator, a.userId), a, net);
            KeepsWatched(t, t', u)
  {
    hide WellFormed, DistinctLocators, CacheAt;
    assert u == world.uuidOf(t.view.w[u].locator, t.view.w[u].userId);
  }

  lemma AddKeepsWatched(world: World, t: Tower, req: Request, blockCount: int, net: Network, u: Uuid)
    requires WorldOk(world) && Inv(world, t) && u in t.appointments
    ensures var t' := AddAppointment(world, t, req, blockCount, net).0;
            KeepsWatched(t, t', u)
  {
    hide AddAppointment, Admitted, WorldOk, InMemory, OnDisk, Sourced, Charged, OwnCharges, CacheAt, Place;
    if Admitted(world, t, req, blockCount, net) {
      AdmittedFacts(world, t, req, blockCount, net);
      var uuid := world.uuidOf(req.locator, req.signer.value);
      var charged := t.(gk := t.gk.(users := Charge(t.gk.users, req.signer.value, uuid, |req.blob|).value));
      StoredIgnoresUsers(world, t, charged.gk, t.issued);
      PlaceKeepsWatched(world, charged, Extended(world, t, req), net, u);
    } else {
      RefusedChangesNothing(world, t, req, blockCount, net);
    }
  }

  lemma QuietStepsKeepWatched(world: World, t: Tower, e: Event, t': Tower, u: Uuid)
    requires WorldOk(world) && Step(world, t, e, t') && (e.Registered? || e.GatekeeperSaw? || e.ResponderSaw?)
    requires u in t.appointments
    ensures KeepsWatched(t, t', u)
  {
    hide WorldOk, WatcherBlock, AddAppointment, Restart;
  }

  lemma WatchedStep(world: World, t: Tower, e: Event, t': Tower, u: Uuid)
    requires WorldOk(world) && Inv(world, t) && Step(world, t, e, t') && u in t.appointments
    ensures if Found(world, t, e, u) then u !in t'.appointments && ActedOn(world, t, e, t', u)
            else KeepsWatched(t, t', u)
  {
    hide Inv, ActedOn, KeepsWatched, WatcherBlock, ResponderBlock, GatekeeperBlock, AddAppointment, RegisterUser;
    match e
    case Requested(req, blockCount, net) => AddKeepsWatched(world, t, req, blockCount, net, u);
    case WatcherSaw(h, net, entries) => WatchedBlock(world, t, h, net, entries, t', u);
    case Restarted => RestartKeepsWatched(world, t, u);
    case _ => QuietStepsKeepWatched(world, t, e, t', u);
  }

  lemma RestartKeepsWatched(world: World, t: Tower, u: Uuid)
    requires WorldOk(world) && Inv(world, t) && u in t.appointments
    ensures KeepsWatched(t, Restart(t), u)
  {
    RestartIsInvisible(world, t);
    hide Inv, Restart;
  }

  lemma WatchedBlock(world: World, t: Tower, h: Hash, net: Network, entries: seq<Entry>, t': Tower, u: Uuid)
    requires WorldOk(world) && Inv(world, t) && WatcherBlock(world, t, t', h, net, entries) && u in t.appointments
    ensures var e := WatcherSaw(h, net, entries);
            if Found(world, t, e, u) then u !in t'.appointments && ActedOn(world, t, e, t', u)
            else KeepsWatched(t, t', u)
  {
    if Searched(world, t, h) && u in OutdatedHere(world, t, world.tree[h].height) {
      OutdatedIsDropped(world, t, t', h, net, entries, u);
    } else if t.appointments[u].locator in LocatorMap(world.tree[h].txs) {
      TriggerIsActedOn(world, t, t', h, net, entries, u);
    } else {
      UntriggeredIsLeftAlone(world, t, t', h, net, entries, u);
    }
  }

  lemma WatchedStepAt(world: World, ts: seq<Tower>, es: seq<Event>, i: nat, u: Uuid)
    requires WorldOk(world) && |ts| == |es| + 1 && i < |es| && StepAt(world, ts, es, i)
    requires Inv(world, ts[i]) && u in ts[i].appointments
    ensures if Found(world, ts[i], es[i], u)
            then u !in ts[i + 1].appointments && ActedOn(world, ts[i], es[i], ts[i + 1], u)
            else KeepsWatched(ts[i], ts[i + 1], u)
  {
    hide Inv, Step, Found, ActedOn, KeepsWatched;
    WatchedStep(world, ts[i], es[i], ts[i + 1], u);
  }

  /**
   A watched appointment stays watched until the first searched block in which it is outdated or triggered; at that
   block it leaves, tracked with the dispute of that block or dropped.
   */
  lemma {:induction false} WatchedUntilFound(world: World, ts: seq<Tower>, es: seq<Event>, i: nat, j: nat, u: Uuid)
    requires WorldOk(world) && IsRun(world, ts, es) && Inv(world, ts[0])
    requires i <= j < |ts| && u in ts[i].appointments
    ensures (forall k :: i <= k < j ==> !Found(world, ts[k], es[k], u)) ==>
              u in ts[j].appointments && ts[j].appointments[u] == ts[i].appointments[u]
    ensures forall k :: i <= k < j && Found(world, ts[k], es[k], u) ==>
              u !in ts[k + 1].appointments && ActedOn(world, ts[k], es[k], ts[k + 1], u)
    decreases j - i
  {
    hide Inv, StepAt, ActedOn;
    forall k | i <= k < j && Found(world, ts[k], es[k], u)
      ensures u !in ts[k + 1].appointments && ActedOn(world, ts[k], es[k], ts[k + 1], u)
    {
      RunKeepsInv(world, ts, es, k);
      WatchedStepAt(world, ts, es, k, u);
    }
    if i < j && forall k :: i <= k < j ==> !Found(world, ts[k], es[k], u) {
      RunKeepsInv(world, ts, es, i);
      WatchedStepAt(world, ts, es, i, u);
      WatchedUntilFound(world, ts, es, i + 1, j, u);
    }
  }

  // ---------- Leaving the Responder ----------

  /** A block at which `u` is completed, or outdated with its penalty unconfirmed. */
  ghost predicate Finished(world: World, t: Tower, e: Event, u: Uuid) {
    && e.ResponderSaw? && e.h in world.tree && t.responder.trackers != map[]
    && (|| u in Completed(t.responder.trackers, t.responder.unconfirmed, e.getTx)
        || u in Stuck(Flatten(Expiry.GetOutdated(world.config, t.gk, world.tree[e.h].height)),
                      t.responder.trackers, t.responder.unconfirmed))
  }

  ghost predicate KeepsTracked(t: Tower, t': Tower, u: Uuid)
    requires u in t.view.r && u in t.view.w
  {
    && u in t'.responder.trackers && u in t'.view.r && t'.view.r[u] == t.view.r[u]
    && u in t'.view.w && t'.view.w[u] == t.view.w[u]
  }

  lemma TrackedAtWatcher(world: World, t: Tower, h: Hash, net: Network, entries: seq<Entry>, t': Tower, u: Uuid)
    requires WorldOk(world) && Inv(world, t) && WatcherBlock(world, t, t', h, net, entries) && u in t.responder.trackers
    ensures u in t.view.r && u in t.view.w && KeepsTracked(t, t', u)
  {
    if Searched(world, t, h) {
      var gone := OutdatedHere(world, t, world.tree[h].height);
      var t1 := t'.(lastKnown := t.lastKnown, view := t'.view.(bw := t.view.bw));
      var verdicts := Verdicts(world.decrypt, entries);
      SearchJudges(world, t, h, gone, entries);
      DisposedMoves(world, t, t1, h, gone, verdicts, net);
      var valid := ValidPart(verdicts);
      var newTrackers := NewTrackers(valid, t.appointments, Delivered(valid, valid.Keys, t.issued, net));
      hide WorldOk, Sourced, Quiet, Charged, OwnCharges, Verdicts, Judged, Disposed, OutdatedHere;
      MovedKeepsTracked(t, t1, gone, verdicts.Keys, newTrackers, u);
    }
  }

  lemma MovedKeepsTracked(
    t: Tower, t': Tower, gone: set<Uuid>, hit: set<Uuid>, newTrackers: map<Uuid, Tracker>, u: Uuid)
    requires MemoryOk(t) && OnDisk(t) && Moved(t, t', gone, hit, newTrackers)
    requires gone <= t.appointments.Keys && newTrackers.Keys <= hit <= t.appointments.Keys && u in t.responder.trackers
    ensures u in t.view.r && u in t.view.w && KeepsTracked(t, t', u)
  {
    assert u !in t.appointments;
  }

  lemma QuietStepsKeepTracked(world: World, t: Tower, e: Event, t': Tower, u: Uuid)
    requires WorldOk(world) && Step(world, t, e, t') && (e.Registered? || e.GatekeeperSaw?)
    requires u in t.responder.trackers && u in t.view.r && u in t.view.w
    ensures KeepsTracked(t, t', u)
  {
    hide WorldOk, WatcherBlock, ResponderBlock, AddAppointment, Restart;
  }

  lemma TrackedStep(world: World, t: Tower, e: Event, t': Tower, u: Uuid)
    requires WorldOk(world) && Inv(world, t) && Step(world, t, e, t') && u in t.responder.trackers
    ensures u in t.view.r && u in t.view.w
    ensures if Finished(world, t, e, u) then Dropped(t', u) else KeepsTracked(t, t', u)
  {
    hide WorldOk, Inv, Dropped, KeepsTracked, WatcherBlock, ResponderBlock, GatekeeperBlock, AddAppointment;
    hide RegisterUser, Restart;
    TrackedIsStored(world, t, u);
    match e
    case WatcherSaw(h, net, entries) => TrackedAtWatcher(world, t, h, net, entries, t', u);
    case ResponderSaw(h, getTx) => TrackedAtResponder(world, t, h, getTx, t', u);
    case _ => OtherStepsKeepTracked(world, t, e, t', u);
  }

  lemma OtherStepsKeepTracked(world: World, t: Tower, e: Event, t': Tower, u: Uuid)
    requires WorldOk(world) && Inv(world, t) && Step(world, t, e, t') && !e.WatcherSaw? && !e.ResponderSaw?
    requires u in t.responder.trackers
    ensures u in t.view.r && u in t.view.w && KeepsTracked(t, t', u)
  {
    hide WorldOk, Inv, KeepsTracked, GatekeeperBlock, AddAppointment, RegisterUser, Restart;
    TrackedIsStored(world, t, u);
    match e
    case Requested(req, blockCount, net) => AddKeepsTracked(world, t, req, blockCount, net, u);
    case Restarted => RestartKeepsTracked(world, t, u);
    case _ => QuietStepsKeepTracked(world, t, e, t', u);
  }

  lemma RestartKeepsTracked(world: World, t: Tower, u: Uuid)
    requires WorldOk(world) && Inv(world, t) && u in t.responder.trackers
    ensures u in t.view.r && u in t.view.w && KeepsTracked(t, Restart(t), u)
  {
    RestartIsInvisible(world, t);
    TrackedIsStored(world, t, u);
    hide Inv, Restart;
  }

  lemma TrackedAtResponder(world: World, t: Tower, h: Hash, getTx: Txid -> TxInfo, t': Tower, u: Uuid)
    requires WorldOk(world) && Inv(world, t) && ResponderBlock(world, t, t', h, getTx) && u in t.responder.trackers
    ensures u in t.view.r && u in t.view.w
    ensures if Finished(world, t, ResponderSaw(h, getTx), u) then Dropped(t', u)
            else KeepsTracked(t, t', u)
  {
    hide WellFormed, DistinctLocators, Injective, Sourced, Quiet, Charged, OwnCharges, Completed, Stuck, Due;
    hide Penalties, Refund;
  }

  lemma AddKeepsTracked(world: World, t: Tower, req: Request, blockCount: int, net: Network, u: Uuid)
    requires WorldOk(world) && Inv(world, t) && u in t.responder.trackers
    ensures u in t.view.r && u in t.view.w
    ensures var t' := AddAppointment(world, t, req, blockCount, net).0;
            KeepsTracked(t, t', u)
  {
    hide AddAppointment, Admitted, InMemory, OnDisk, Sourced, Charged, OwnCharges, CacheAt, Place;
    TrackedIsStored(world, t, u);
    if Admitted(world, t, req, blockCount, net) {
      AdmittedFacts(world, t, req, blockCount, net);
      var uuid := world.uuidOf(req.locator, req.signer.value);
      var charged := t.(gk := t.gk.(users := Charge(t.gk.users, req.signer.value, uuid, |req.blob|).value));
      PlaceKeepsTracked(world, charged, uuid, Extended(world, t, req), net, u);
    } else {
      RefusedChangesNothing(world, t, req, blockCount, net);
    }
  }

  lemma PlaceKeepsTracked(world: World, t: Tower, uuid: Uuid, a: Appointment, net: Network, u: Uuid)
    requires WellFormed(world.tree) && t.lastKnown in world.tree && u in t.view.r && u in t.view.w
    requires u in t.responder.trackers && uuid !in t.responder.trackers
    ensures KeepsTracked(t, Place(world, t, uuid, a, net), u)
  {
    hide WellFormed, CacheAt;
  }

  lemma TrackedStepAt(world: World, ts: seq<Tower>, es: seq<Event>, i: nat, u: Uuid)
    requires WorldOk(world) && |ts| == |es| + 1 && i < |es| && StepAt(world, ts, es, i)
    requires Inv(world, ts[i]) && u in ts[i].responder.trackers
    ensures u in ts[i].view.r && u in ts[i].view.w
    ensures if Finished(world, ts[i], es[i], u) then Dropped(ts[i + 1], u)
            else KeepsTracked(ts[i], ts[i + 1], u)
  {
    hide Inv, Step, Finished, KeepsTracked, Dropped;
    TrackedStep(world, ts[i], es[i], ts[i + 1], u);
  }

  /** A tracker stays, unchanged in memory and on disk, until the first block at which it is finished. */
  lemma {:induction false} TrackedUntilFinished(world: World, ts: seq<Tower>, es: seq<Event>, i: nat, j: nat, u: Uuid)
    requires WorldOk(world) && IsRun(world, ts, es) && Inv(world, ts[0])
    requires i <= j < |ts| && u in ts[i].responder.trackers
    requires forall k :: i <= k < j ==> !Finished(world, ts[k], es[k], u)
    ensures u in ts[j].responder.trackers && u in ts[i].view.r && u in ts[j].view.r
    ensures ts[j].view.r[u] == ts[i].view.r[u]
    ensures u in ts[i].view.w && u in ts[j].view.w && ts[j].view.w[u] == ts[i].view.w[u]
    decreases j - i
  {
    hide StepAt, Finished, Stored, Charged, OwnCharges;
    RunKeepsInv(world, ts, es, i);
    TrackedIsStored(world, ts[i], u);
    if i < j {
      TrackedStepAt(world, ts, es, i, u);
      TrackedUntilFinished(world, ts, es, i + 1, j, u);
    }
  }

  lemma TrackedIsStored(world: World, t: Tower, u: Uuid)
    requires WorldOk(world) && Inv(world, t) && u in t.responder.trackers
    ensures u in t.view.r && u in t.view.w
  {
  }

  // ---------- Nothing stored is lost ----------

  /** The only steps that remove a stored appointment. */
  ghost predicate Released(world: World, t: Tower, e: Event, u: Uuid) {
    Found(world, t, e, u) || Finished(world, t, e, u)
  }

  /** Everything stored stays stored, except through a block that finds it or finishes it. */
  lemma {:induction false} StoredUntilReleased(world: World, ts: seq<Tower>, es: seq<Event>, i: nat, j: nat, u: Uuid)
    requires WorldOk(world) && IsRun(world, ts, es) && Inv(world, ts[0])
    requires i <= j < |ts| && u in ts[i].view.w
    requires forall k :: i <= k < j ==> !Released(world, ts[k], es[k], u)
    ensures u in ts[j].view.w
    ensures u in ts[i].appointments <==> u in ts[j].appointments
    ensures u in ts[i].responder.trackers <==> u in ts[j].responder.trackers
  {
    RunKeepsInv(world, ts, es, i);
    RunKeepsInv(world, ts, es, j);
    StoredIsHeld(world, ts[i], u);
    StoredIsHeld(world, ts[j], u);
    hide Inv, IsRun, Found, Finished;
    assert forall k :: i <= k < j ==> Released(world, ts[k], es[k], u) || !Found(world, ts[k], es[k], u);
    assert forall k :: i <= k < j ==> Released(world, ts[k], es[k], u) || !Finished(world, ts[k], es[k], u);
    if u in ts[i].appointments {
      WatchedUntilFound(world, ts, es, i, j, u);
    } else {
      TrackedUntilFinished(world, ts, es, i, j, u);
    }
  }

  /** What is stored is held by exactly one of the Watcher and the Responder. */
  lemma StoredIsHeld(world: World, t: Tower, u: Uuid)
    requires WorldOk(world) && Inv(world, t)
    ensures u in t.view.w <==> u in t.appointments || u in t.responder.trackers
    ensures !(u in t.appointments && u in t.responder.trackers)
  {
  }

  // ---------- Outdated by memory ----------

  /** An appointment and the users charged for its uuid have one owner. */
  lemma OneOwner(world: World, t: Tower, u: Uuid, id: UserId, uuids: set<Uuid>)
    requires WorldOk(world) && Inv(world, t) && u in t.appointments && u in uuids && OwnUuids(world, id, uuids)
    ensures id == t.appointments[u].userId
  {
    hide WellFormed, DistinctLocators, Charged, OwnCharges, Quiet;
    assert u == world.uuidOf(t.view.w[u].locator, t.view.w[u].userId);
    var l :| u == world.uuidOf(l, id);
  }

  /**
   The appointment of a user that does not expire at a height counts as outdated there exactly when the cache still
   remembers it for that height, from before the user was deleted and registered again.
   */
  lemma UnexpiredIsOutdatedIff(world: World, t: Tower, height: int, u: Uuid)
    requires WorldOk(world) && Inv(world, t) && u in t.appointments && t.appointments[u].userId in t.gk.users
    requires t.gk.users[t.appointments[u].userId].subscriptionExpiry + world.config.expiryDelta != height
    ensures u in OutdatedHere(world, t, height) <==>
            && height in t.gk.entries && t.appointments[u].userId in t.gk.entries[height]
            && u in t.gk.entries[height][t.appointments[u].userId]
  {
    hide WellFormed, DistinctLocators, Injective, InMemory, OnDisk, Sourced, Quiet, Charged;
    var outdated := Expiry.GetOutdated(world.config, t.gk, height);
    if u in OutdatedHere(world, t, height) {
      var id :| id in outdated && u in outdated[id];
      if height in t.gk.entries && t.gk.entries[height] != map[] {
        assert OwnUuids(world, id, t.gk.entries[height][id]);
      } else {
        assert id in t.gk.users && outdated[id] == t.gk.users[id].appointments.Keys;
        assert OwnUuids(world, id, t.gk.users[id].appointments.Keys);
      }
      hide Inv;
      OneOwner(world, t, u, id, outdated[id]);
    }
  }

  lemma ExpiryIsCached(world: World, t: Tower, t1: Tower, id: UserId, height: int)
    requires Expiry.CacheOk(t.gk) && GatekeeperBlock(world, t, t1, height) && height !in t.gk.entries
    requires id in t.gk.users && t.gk.users[id].subscriptionExpiry + world.config.expiryDelta == height
    ensures id !in t1.gk.users
    ensures height in t1.gk.entries && id in t1.gk.entries[height]
    ensures t1.gk.entries[height][id] == t.gk.users[id].appointments.Keys
  {
    Expiry.FreshBlock(world.config, t.gk, height);
    Expiry.UpdateCacheFacts(world.config, t.gk, height);
  }

  lemma EntriesStay(world: World, t: Tower, req: Request, blockCount: int, net: Network)
    requires WorldOk(world) && t.lastKnown in world.tree
    ensures AddAppointment(world, t, req, blockCount, net).0.gk.entries == t.gk.entries
  {
    hide WellFormed, DistinctLocators, Injective, CacheAt, Charge;
  }

  /** Deleting outdated appointments gives nothing back. */
  lemma OutdatedStaysCharged(
    world: World, t: Tower, t': Tower, h: Hash, net: Network, entries: seq<Entry>, u: Uuid, id: UserId)
    requires WatcherBlock(world, t, t', h, net, entries) && Searched(world, t, h)
    requires u in OutdatedHere(world, t, world.tree[h].height)
    requires id in t.gk.users && u in t.gk.users[id].appointments
    ensures id in t'.gk.users && u in t'.gk.users[id].appointments
    ensures t'.gk.users[id].subscriptionExpiry == t.gk.users[id].subscriptionExpiry
  {
    SearchJudges(world, t, h, OutdatedHere(world, t, world.tree[h].height), entries);
    hide ListsBreached, OutdatedHere, Verdicts, Sent, NewTrackers, NewlyUnconfirmed, Delivered, LocatorMap;
  }

  /**
   A user deleted at a height registers again and sends the same appointment. When the Watcher then reaches that height,
   it drops the new appointment, which stays charged although its subscription goes on.
   */
  lemma RenewedIsDropped(
    world: World, t: Tower, t1: Tower, id: UserId, start: int, req: Request, blockCount: int, net: Network,
    h: Hash, net': Network, entries: seq<Entry>, t4: Tower)
    requires WorldOk(world) && Inv(world, t) && Expiry.CacheOk(t.gk) && h in world.tree
    requires var height := world.tree[h].height;
             && GatekeeperBlock(world, t, t1, height) && height !in t.gk.entries && id in t.gk.users
             && t.gk.users[id].subscriptionExpiry + world.config.expiryDelta == height
             && start + world.config.subscriptionDuration + world.config.expiryDelta != height
    requires IsCompressedPk(id) && req.signer == Some(id)
    requires world.uuidOf(req.locator, id) in t.gk.users[id].appointments
    requires req.locator !in CacheAt(world, t.lastKnown)
    requires t1.lastKnown in world.tree && Admitted(world, RegisterUser(world, t1, id, start).0, req, blockCount, net)
    requires var t3 := AddAppointment(world, RegisterUser(world, t1, id, start).0, req, blockCount, net).0;
             WatcherBlock(world, t3, t4, h, net', entries) && Searched(world, t3, h)
    ensures var u := world.uuidOf(req.locator, id);
            && Dropped(t4, u) && id in t4.gk.users && u in t4.gk.users[id].appointments
            && t4.gk.users[id].subscriptionExpiry + world.config.expiryDelta != world.tree[h].height
  {
    var u, height := world.uuidOf(req.locator, id), world.tree[h].height;
    ExpiryIsCached(world, t, t1, id, height);
    GatekeeperBlockKeepsInv(world, t, t1, height);
    RegisterKeepsInv(world, t1, id, start);
    var t2 := RegisterUser(world, t1, id, start).0;
    assert t2.gk.users[id].subscriptionExpiry == start + world.config.subscriptionDuration;
    assert t2.lastKnown == t.lastKnown && t2.gk.entries == t1.gk.entries;
    hide WorldOk, Inv, GatekeeperBlock, RegisterUser, Admitted, AddAppointment, CacheAt, WatcherBlock, Searched;
    AddKeepsInv(world, t2, req, blockCount, net);
    UncachedIsWatched(world, t2, req, blockCount, net);
    AnswerReportsUser(world, t2, req, blockCount, net);
    EntriesStay(world, t2, req, blockCount, net);
    var t3 := AddAppointment(world, t2, req, blockCount, net).0;
    UnexpiredIsOutdatedIff(world, t3, height, u);
    OutdatedIsDropped(world, t3, t4, h, net', entries, u);
    OutdatedStaysCharged(world, t3, t4, h, net', entries, u, id);
  }
}
