/** The invariant across blocks and restarts. */
module BlockSteps {
  import opened Basics
  import opened Records
  import opened BlockTree
  import opened LocatorCache
  import opened AppointmentsDb
  import opened Carrier
  import opened Responder
  import opened Gatekeeper
  import opened Slots
  import opened Breaches
  import opened Confirmations
  import opened TowerModel
  import opened Invariants
  import Cleaner
  import Expiry

  /** The block is on top of the last one the Watcher has seen, or the Watcher watches nothing. */
  predicate OnTop(world: World, t: Tower, h: Hash)
    requires h in world.tree
  {
    world.tree[h].prev == Some(t.lastKnown) || t.appointments == map[]
  }

  /** The watched appointments whose trigger is cached after the block without having been searched for. */
  ghost function Overlooked(world: World, t: Tower, h: Hash): set<Uuid>
    requires WorldOk(world) && h in world.tree
  {
    set u | && u in t.appointments && t.appointments[u].locator in CacheAt(world, h)
            && !(Searched(world, t, h) && u in OutdatedHere(world, t, world.tree[h].height))
            && t.appointments[u].locator !in LocatorMap(world.tree[h].txs)
  }

  // ---------- The Watcher ----------

  /** A block adds only its own locators to the cache. */
  lemma CacheGrows(world: World, h: Hash, l: Locator)
    requires WorldOk(world) && h in world.tree && world.tree[h].prev.Some?
    requires l in CacheAt(world, h)
    ensures l in CacheAt(world, world.tree[h].prev.value) || l in LocatorMap(world.tree[h].txs)
  {
    hide RootPath, LastN, Window, CacheOf, DistinctLocators, LocatorMap;
    var parent := world.tree[h].prev.value;
    var n := world.cacheSize;
    WindowFacts(world.tree, h, n);
    WindowFacts(world.tree, parent, n);
    CacheOfMember(world.tree, Window(world.tree, h, n), l);
    CacheOfMember(world.tree, Window(world.tree, parent, n), l);
    var b :| b in Window(world.tree, h, n) && l in LocatorMap(world.tree[b].txs);
    WindowGrows(world.tree, h, n, b);
  }

  lemma WindowGrows(tree: Tree, h: Hash, n: nat, b: Hash)
    requires WellFormed(tree) && h in tree && tree[h].prev.Some? && b in Window(tree, h, n)
    ensures b == h || b in Window(tree, tree[h].prev.value, n)
  {
    hide RootPath, LastN, Window;
    WindowOfChild(tree, h, n);
    var wider := Window(tree, tree[h].prev.value, n) + [h];
    assert b in wider;
  }

  /** What a search finds: the breached appointments, with verdicts that fit them. */
  ghost predicate Judged(world: World, t: Tower, h: Hash, gone: set<Uuid>, verdicts: map<Uuid, Option<Breach>>)
    requires h in world.tree
  {
    var lmap := LocatorMap(world.tree[h].txs);
    && verdicts.Keys == (set u | u in t.appointments - gone && t.appointments[u].locator in lmap)
    && forall u <- verdicts :: verdicts[u].Some? ==>
         && verdicts[u].value.locator == t.appointments[u].locator
         && verdicts[u].value.disputeTxid == lmap[t.appointments[u].locator]
  }

  lemma SearchJudges(world: World, t: Tower, h: Hash, gone: set<Uuid>, entries: seq<Entry>)
    requires h in world.tree
    requires ListsBreached(entries, t.appointments - gone, t.view, LocatorMap(world.tree[h].txs))
    ensures Judged(world, t, h, gone, Verdicts(world.decrypt, entries))
  {
    VerdictsSound(world.decrypt, entries);
    var verdicts := Verdicts(world.decrypt, entries);
    forall u | u in verdicts && verdicts[u].Some?
      ensures verdicts[u].value.locator == t.appointments[u].locator
      ensures verdicts[u].value.disputeTxid == LocatorMap(world.tree[h].txs)[t.appointments[u].locator]
    {
      assert u in Uuids(entries);
      var e :| e in entries && e.uuid == u;
      assert Sound(world.decrypt, entries, e, verdicts[u]);
    }
  }

  lemma InStepUnion(trackers: map<Uuid, TrackerSummary>, r: map<Uuid, Tracker>, more: map<Uuid, Tracker>)
    requires InStep(trackers, r)
    ensures InStep(trackers + Summaries(more), r + more)
  {
  }

  lemma DisposedMemory(
    world: World, t: Tower, t': Tower, h: Hash, gone: set<Uuid>, verdicts: map<Uuid, Option<Breach>>, net: Network)
    requires h in world.tree && InMemory(t) && OnDisk(t) && gone <= t.appointments.Keys
    requires Judged(world, t, h, gone, verdicts) && Disposed(t, t', gone, verdicts, net)
    ensures InMemory(t')
  {
  }

  /** `hit` leaves the Watcher; the part of it with a new tracker stays stored. */
  ghost predicate Moved(t: Tower, t': Tower, gone: set<Uuid>, hit: set<Uuid>, newTrackers: map<Uuid, Tracker>) {
    && t'.appointments == t.appointments - gone - hit
    && t'.lastKnown == t.lastKnown && t'.responder.lastKnown == t.responder.lastKnown
    && t'.responder.trackers == t.responder.trackers + Summaries(newTrackers)
    && t'.view == t.view.(
         w := t.view.w - gone - (hit - newTrackers.Keys), r := t.view.r + newTrackers,
         ta := t.view.ta + newTrackers.Keys)
  }

  /** A new tracker is for a watched appointment and a transaction of this block. */
  ghost predicate FromBlock(world: World, t: Tower, h: Hash, newTrackers: map<Uuid, Tracker>)
    requires h in world.tree
  {
    forall u <- newTrackers ::
      && u in t.appointments
      && newTrackers[u].locator == t.appointments[u].locator && newTrackers[u].userId == t.appointments[u].userId
      && newTrackers[u].disputeTxid in world.tree[h].txs
      && ComputeLocator(newTrackers[u].disputeTxid) == newTrackers[u].locator
  }

  lemma DisposedMoves(
    world: World, t: Tower, t': Tower, h: Hash, gone: set<Uuid>, verdicts: map<Uuid, Option<Breach>>, net: Network)
    requires h in world.tree && Judged(world, t, h, gone, verdicts) && Disposed(t, t', gone, verdicts, net)
    ensures var valid := ValidPart(verdicts);
            var newTrackers := NewTrackers(valid, t.appointments, Delivered(valid, valid.Keys, t.issued, net));
            && newTrackers.Keys == Delivered(valid, valid.Keys, t.issued, net)
            && newTrackers.Keys <= verdicts.Keys <= t.appointments.Keys - gone
            && Moved(t, t', gone, verdicts.Keys, newTrackers) && FromBlock(world, t, h, newTrackers)
  {
    var valid := ValidPart(verdicts);
    var newTrackers := NewTrackers(valid, t.appointments, Delivered(valid, valid.Keys, t.issued, net));
    assert newTrackers.Keys == Delivered(valid, valid.Keys, t.issued, net);
  }

  lemma MovedDisk(t: Tower, t': Tower, gone: set<Uuid>, hit: set<Uuid>, newTrackers: map<Uuid, Tracker>)
    requires OnDisk(t) && t.appointments.Keys !! t.responder.trackers.Keys
    requires gone <= t.appointments.Keys && newTrackers.Keys <= hit <= t.appointments.Keys - gone
    requires Moved(t, t', gone, hit, newTrackers)
    ensures OnDisk(t')
  {
    InStepUnion(t.responder.trackers, t.view.r, newTrackers);
    assert Summaries(newTrackers).Keys == newTrackers.Keys;
  }

  lemma MovedSources(
    world: World, t: Tower, t': Tower, h: Hash, gone: set<Uuid>, hit: set<Uuid>, newTrackers: map<Uuid, Tracker>)
    requires h in world.tree && MemoryOk(t) && OnDisk(t) && Sourced(world, t)
    requires gone <= t.appointments.Keys && newTrackers.Keys <= hit <= t.appointments.Keys - gone
    requires Moved(t, t', gone, hit, newTrackers) && FromBlock(world, t, h, newTrackers)
    ensures Sourced(world, t')
  {
    forall u | u in newTrackers ensures SeenOnChain(world.tree, newTrackers[u].disputeTxid) {
    }
    forall u | u in t'.view.r
      ensures u in t'.view.w && t'.view.r[u].locator == t'.view.w[u].locator
      ensures t'.view.r[u].userId == t'.view.w[u].userId
    {
      if u !in newTrackers {
        assert u in t.responder.trackers;
      }
    }
  }

  /** A block on top of the last one overlooks nothing. */
  lemma OnTopOverlooksNothing(world: World, t: Tower, h: Hash)
    requires WorldOk(world) && Quiet(world, t) && h in world.tree && OnTop(world, t, h)
    ensures Overlooked(world, t, h) == {}
  {
    hide WellFormed, DistinctLocators, Injective, CacheAt, OutdatedHere, LocatorMap;
    forall u | u in Overlooked(world, t, h) ensures false {
      CacheGrows(world, h, t.appointments[u].locator);
    }
  }

  /**
   After any block the overlooked appointments are exactly those still watched with a cached trigger.
   */
  lemma OverlookedStayWatched(world: World, t: Tower, t': Tower, h: Hash, net: Network, entries: seq<Entry>)
    requires WorldOk(world) && WatcherBlock(world, t, t', h, net, entries)
    ensures (set u | u in t'.appointments && t'.appointments[u].locator in CacheAt(world, h)) == Overlooked(world, t, h)
    ensures Quiet(world, t') <==> Overlooked(world, t, h) == {}
  {
    hide WellFormed, DistinctLocators, Injective, CacheAt, OutdatedHere, Verdicts, LocatorMap;
    if Searched(world, t, h) {
      SearchJudges(world, t, h, OutdatedHere(world, t, world.tree[h].height), entries);
    }
    var kept := set u | u in t'.appointments && t'.appointments[u].locator in CacheAt(world, h);
    assert kept == Overlooked(world, t, h);
    if Quiet(world, t') {
      assert forall u <- t'.appointments :: u !in kept;
    } else {
      var u :| u in t'.appointments && t'.appointments[u].locator in CacheAt(world, h);
      assert u in kept;
    }
  }

  lemma RefundKeepsCharges(world: World, t: Tower, owners: map<Uuid, UserId>, view: View)
    requires Charged(t) && OwnCharges(world, t.gk)
    requires forall u <- view.w :: u in t.view.w && view.w[u] == t.view.w[u]
    ensures var gk := t.gk.(users := Refund(t.gk.users, owners));
            Charged(t.(gk := gk, view := view)) && OwnCharges(world, gk)
  {
    RefundKeepsOwn(world, t.gk, owners);
  }

  lemma RefundKeepsOwn(world: World, gk: Expiry.State, owners: map<Uuid, UserId>)
    requires OwnCharges(world, gk)
    ensures OwnCharges(world, gk.(users := Refund(gk.users, owners)))
  {
    var users := Refund(gk.users, owners);
    forall id | id in users ensures OwnUuids(world, id, users[id].appointments.Keys) {
      assert OwnUuids(world, id, gk.users[id].appointments.Keys);
    }
  }

  lemma ChargesIgnoreTheRest(world: World, t: Tower, t': Tower)
    requires Charged(t) && OwnCharges(world, t.gk) && t'.gk == t.gk && t'.view.w == t.view.w
    ensures Charged(t') && OwnCharges(world, t'.gk)
  {
  }

  /** Moving the last known block forward, in memory and on disk. */
  lemma MoveForward(world: World, t: Tower, h: Hash)
    requires WorldOk(world) && InMemory(t) && OnDisk(t) && Sourced(world, t) && h in world.tree
    requires Quiet(world, t.(lastKnown := h, view := t.view.(bw := Some(h))))
    ensures Stored(world, t.(lastKnown := h, view := t.view.(bw := Some(h))))
  {
  }

  lemma SearchKeepsInv(
    world: World, t: Tower, t': Tower, h: Hash, gone: set<Uuid>, verdicts: map<Uuid, Option<Breach>>, net: Network)
    requires WorldOk(world) && Inv(world, t) && h in world.tree && gone <= t.appointments.Keys
    requires Judged(world, t, h, gone, verdicts) && Disposed(t, t', gone, verdicts, net)
    requires Quiet(world, t'.(lastKnown := h, view := t'.view.(bw := Some(h))))
    ensures Inv(world, t'.(lastKnown := h, view := t'.view.(bw := Some(h))))
  {
    DisposedMemory(world, t, t', h, gone, verdicts, net);
    DisposedMoves(world, t, t', h, gone, verdicts, net);
    var valid := ValidPart(verdicts);
    var newTrackers := NewTrackers(valid, t.appointments, Delivered(valid, valid.Keys, t.issued, net));
    MovedDisk(t, t', gone, verdicts.Keys, newTrackers);
    MovedSources(world, t, t', h, gone, verdicts.Keys, newTrackers);
    MoveForward(world, t', h);
    var dropped := verdicts.Keys - Delivered(valid, valid.Keys, t.issued, net);
    RefundKeepsCharges(world, t, AppointmentOwners(t.appointments, dropped), t'.view);
    ChargesIgnoreTheRest(world, t.(gk := t'.gk, view := t'.view), t'.(lastKnown := h, view := t'.view.(bw := Some(h))));
  }

  /** A block at the Watcher keeps the invariant exactly when it overlooks nothing. */
  lemma WatcherBlockKeepsInvIff(world: World, t: Tower, t': Tower, h: Hash, net: Network, entries: seq<Entry>)
    requires WorldOk(world) && Inv(world, t) && WatcherBlock(world, t, t', h, net, entries)
    ensures Inv(world, t') <==> Overlooked(world, t, h) == {}
  {
    hide WellFormed, DistinctLocators, Injective, WatcherBlock, Overlooked, InMemory, OnDisk, Sourced, Quiet, Charged;
    hide OwnCharges;
    OverlookedStayWatched(world, t, t', h, net, entries);
    if Quiet(world, t') {
      QuietBlockKeepsInv(world, t, t', h, net, entries);
    }
  }

  lemma QuietBlockKeepsInv(world: World, t: Tower, t': Tower, h: Hash, net: Network, entries: seq<Entry>)
    requires WorldOk(world) && Inv(world, t) && WatcherBlock(world, t, t', h, net, entries) && Quiet(world, t')
    ensures Inv(world, t')
  {
    hide Quiet;
    var t1 := t'.(lastKnown := t.lastKnown, view := t'.view.(bw := t.view.bw));
    assert t' == t1.(lastKnown := h, view := t1.view.(bw := Some(h)));
    if Searched(world, t, h) {
      var gone := OutdatedHere(world, t, world.tree[h].height);
      SearchJudges(world, t, h, gone, entries);
      SearchKeepsInv(world, t, t1, h, gone, Verdicts(world.decrypt, entries), net);
    } else {
      MoveForward(world, t, h);
      ChargesIgnoreTheRest(world, t, t');
    }
  }

  /** Whatever the block: memory stays exclusive, the database stays in step, and trackers keep their sources. */
  lemma WatcherBlockKeepsMemory(world: World, t: Tower, t': Tower, h: Hash, net: Network, entries: seq<Entry>)
    requires InMemory(t) && OnDisk(t) && Sourced(world, t) && WatcherBlock(world, t, t', h, net, entries)
    ensures InMemory(t') && OnDisk(t') && Sourced(world, t')
  {
    hide InMemory, OnDisk, Sourced, Disposed, ListsBreached;
    var t1 := t'.(lastKnown := t.lastKnown, view := t'.view.(bw := t.view.bw));
    if Searched(world, t, h) {
      SearchKeepsMemory(world, t, t1, h, net, entries);
    }
    LastBlockMoves(world, t1, h);
  }

  lemma LastBlockMoves(world: World, t: Tower, h: Hash)
    requires InMemory(t) && OnDisk(t) && Sourced(world, t)
    ensures var t' := t.(lastKnown := h, view := t.view.(bw := Some(h)));
            InMemory(t') && OnDisk(t') && Sourced(world, t')
  {
    hide BelowThreshold, SeenOnChain;
  }

  lemma SearchKeepsMemory(world: World, t: Tower, t1: Tower, h: Hash, net: Network, entries: seq<Entry>)
    requires InMemory(t) && OnDisk(t) && Sourced(world, t) && h in world.tree
    requires var gone := OutdatedHere(world, t, world.tree[h].height);
             && ListsBreached(entries, t.appointments - gone, t.view, LocatorMap(world.tree[h].txs))
             && Disposed(t, t1, gone, Verdicts(world.decrypt, entries), net)
    ensures InMemory(t1) && OnDisk(t1) && Sourced(world, t1)
  {
    hide OnDisk, Sourced, Disposed, ListsBreached, Verdicts;
    var gone := OutdatedHere(world, t, world.tree[h].height);
    var verdicts := Verdicts(world.decrypt, entries);
    SearchJudges(world, t, h, gone, entries);
    DisposedMemory(world, t, t1, h, gone, verdicts, net);
    DisposedMoves(world, t, t1, h, gone, verdicts, net);
    var valid := ValidPart(verdicts);
    var newTrackers := NewTrackers(valid, t.appointments, Delivered(valid, valid.Keys, t.issued, net));
    MovedDisk(t, t1, gone, verdicts.Keys, newTrackers);
    MovedSources(world, t, t1, h, gone, verdicts.Keys, newTrackers);
  }

  // ---------- The Watcher never gets stuck ----------

  /** The search of a block has a result, in whatever order the breaches are listed. */
  lemma SearchEnds(
    t: Tower, gone: set<Uuid>, verdicts: map<Uuid, Option<Breach>>, net: Network) returns (t': Tower)
    requires NoDup(t.responder.unconfirmed)
    ensures Disposed(t, t', gone, verdicts, net)
  {
    hide ReceiptFor, Refund;
    var valid := ValidPart(verdicts);
    var delivered := Delivered(valid, valid.Keys, t.issued, net);
    var newTrackers := NewTrackers(valid, t.appointments, delivered);
    var unconfirmed :=
      Listing(Elems(t.responder.unconfirmed) + NewlyUnconfirmed(valid, delivered, t.issued, net));
    t' := t.(
      appointments := t.appointments - gone - verdicts.Keys,
      responder := t.responder.(
        trackers := t.responder.trackers + Summaries(newTrackers), unconfirmed := unconfirmed),
      issued := Sent(t.issued, net, PenaltyTxids(valid, valid.Keys)),
      gk := t.gk.(users := Refund(t.gk.users, AppointmentOwners(t.appointments, verdicts.Keys - delivered))),
      view := t.view.(
        w := t.view.w - gone - (verdicts.Keys - delivered), r := t.view.r + newTrackers, ta := t.view.ta + delivered));
  }

  lemma WatcherEnds(world: World, t: Tower, h: Hash, net: Network, entries: seq<Entry>) returns (t': Tower)
    requires h in world.tree && NoDup(t.responder.unconfirmed)
    requires Searched(world, t, h) ==>
               ListsBreached(entries, t.appointments - OutdatedHere(world, t, world.tree[h].height), t.view,
                             LocatorMap(world.tree[h].txs))
    ensures WatcherBlock(world, t, t', h, net, entries)
  {
    hide Disposed, ListsBreached, OutdatedHere, Searched, Verdicts;
    var t1 := t;
    if Searched(world, t, h) {
      var gone := OutdatedHere(world, t, world.tree[h].height);
      t1 := SearchEnds(t, gone, Verdicts(world.decrypt, entries), net);
      SearchKeepsLast(t, t1, gone, Verdicts(world.decrypt, entries), net);
    }
    t' := t1.(lastKnown := h, view := t1.view.(bw := Some(h)));
    assert t'.(lastKnown := t.lastKnown, view := t'.view.(bw := t.view.bw)) == t1;
  }

  lemma SearchKeepsLast(t: Tower, t': Tower, gone: set<Uuid>, verdicts: map<Uuid, Option<Breach>>, net: Network)
    requires Disposed(t, t', gone, verdicts, net)
    ensures t'.lastKnown == t.lastKnown && t'.view.bw == t.view.bw
  {
  }

  lemma EntriesExist(
    appointments: map<Uuid, AppointmentSummary>, view: View, lmap: map<Locator, Txid>) returns (entries: seq<Entry>)
    requires appointments.Keys <= view.w.Keys
    ensures ListsBreached(entries, appointments, view, lmap)
  {
    var hit := set u | u in appointments && appointments[u].locator in lmap;
    var uuids := Listing(hit);
    assert forall i :: 0 <= i < |uuids| ==> uuids[i] in Elems(uuids);
    entries := seq(|uuids|, i requires 0 <= i < |uuids| =>
      EntryFor(view, lmap, uuids[i], appointments[uuids[i]].locator));
    forall u | u in hit ensures u in Uuids(entries) {
      assert u in Elems(uuids);
      var i :| 0 <= i < |uuids| && uuids[i] == u;
      assert entries[i] in entries;
    }
  }

  /** Whatever the block, the Watcher of a consistent tower gets through it. */
  lemma WatcherCanProcess(world: World, t: Tower, h: Hash, net: Network) returns (t': Tower, entries: seq<Entry>)
    requires Consistent(world, t) && h in world.tree
    ensures WatcherBlock(world, t, t', h, net, entries)
  {
    hide OutdatedHere, ListsBreached, WatcherBlock, Sourced, OwnCharges;
    entries := EntriesExist(
      t.appointments - OutdatedHere(world, t, world.tree[h].height), t.view, LocatorMap(world.tree[h].txs));
    t' := WatcherEnds(world, t, h, net, entries);
  }

  // ---------- The Responder ----------

  lemma FinishKeepsDisk(t: Tower, t': Tower, gone: set<Uuid>, h: Hash)
    requires MemoryOk(t) && OnDisk(t) && gone <= t.responder.trackers.Keys
    requires t'.appointments == t.appointments && t'.lastKnown == t.lastKnown
    requires t'.responder.trackers == t.responder.trackers - gone && t'.responder.lastKnown == h
    requires t'.view == Cleaner.WithoutTrackers(t.view, gone).(br := Some(h))
    ensures MemoryOk(t') && OnDisk(t')
  {
    InStepRemove(t.responder.trackers, t.view.r, gone);
  }

  lemma FinishKeepsSources(world: World, t: Tower, t': Tower, gone: set<Uuid>, h: Hash)
    requires Sourced(world, t)
    requires t'.view == Cleaner.WithoutTrackers(t.view, gone).(br := Some(h))
    ensures Sourced(world, t')
  {
  }

  lemma FinishKeepsStored(world: World, t: Tower, t': Tower, txs: seq<Txid>, gone: set<Uuid>, h: Hash)
    requires WorldOk(world) && Stored(world, t) && gone <= t.responder.trackers.Keys
    requires t'.appointments == t.appointments && t'.lastKnown == t.lastKnown
    requires t'.responder == NextState(t.responder, txs, gone, h)
    requires t'.view == Cleaner.WithoutTrackers(t.view, gone).(br := Some(h))
    ensures Stored(world, t')
  {
    FinishKeepsDisk(t, t', gone, h);
    FinishKeepsSources(world, t, t', gone, h);
    ConfirmFacts(t.responder.unconfirmed, txs, Penalties(t.responder.trackers));
    BlockCounts(t.responder.missed, Elems(t'.responder.unconfirmed), "");
  }

  lemma SkipKeepsStored(world: World, t: Tower, h: Hash)
    requires WorldOk(world) && Stored(world, t)
    ensures Stored(world, t.(responder := t.responder.(lastKnown := h), view := t.view.(br := Some(h))))
  {
    hide WellFormed, DistinctLocators, Injective, BelowThreshold, SeenOnChain, CacheAt;
  }

  lemma ResponderBlockKeepsInv(world: World, t: Tower, t': Tower, h: Hash, getTx: Txid -> TxInfo)
    requires WorldOk(world) && Inv(world, t) && ResponderBlock(world, t, t', h, getTx)
    ensures Inv(world, t')
  {
    hide WellFormed, DistinctLocators, Injective, InMemory, OnDisk, Sourced, Quiet, Due, Penalties, Refund;
    hide IsCompleted;
    if t.responder.trackers == map[] {
      SkipKeepsStored(world, t, h);
      ChargesIgnoreTheRest(world, t, t');
    } else {
      var outdated := Flatten(Expiry.GetOutdated(world.config, t.gk, world.tree[h].height));
      var completed := Completed(t.responder.trackers, t.responder.unconfirmed, getTx);
      var gone := completed + Stuck(outdated, t.responder.trackers, t.responder.unconfirmed);
      FinishKeepsStored(world, t, t', world.tree[h].txs, gone, h);
      RefundKeepsCharges(world, t, Owners(t.responder.trackers, completed), t'.view);
      ChargesIgnoreTheRest(world, t.(gk := t'.gk, view := t'.view), t');
    }
  }

  // ---------- The Gatekeeper ----------

  lemma OutdatedAreOwn(world: World, gk: Expiry.State, height: int)
    requires OwnCharges(world, gk)
    ensures forall id <- Expiry.GetOutdated(world.config, gk, height) ::
              OwnUuids(world, id, Expiry.GetOutdated(world.config, gk, height)[id])
  {
  }

  lemma GatekeeperBlockKeepsInv(world: World, t: Tower, t': Tower, height: int)
    requires WorldOk(world) && Inv(world, t) && GatekeeperBlock(world, t, t', height)
    ensures Inv(world, t')
  {
    GatekeeperKeepsOwn(world, t, t', height);
    hide WellFormed, DistinctLocators, Injective, Stored, Expiry.OutdatedUsers, OwnCharges;
    StoredIgnoresUsers(world, t, t'.gk, t.issued);
  }

  lemma GatekeeperKeepsOwn(world: World, t: Tower, t': Tower, height: int)
    requires OwnCharges(world, t.gk) && GatekeeperBlock(world, t, t', height)
    ensures OwnCharges(world, t'.gk)
  {
    hide OwnUuids, Expiry.GetOutdated, Expiry.UpdateCache;
    OutdatedAreOwn(world, t.gk, height);
    CachedAreOldOrNew(world.config, t.gk, height);
  }

  lemma CachedAreOldOrNew(config: Config, g: Expiry.State, height: int)
    ensures var g1 := Expiry.UpdateCache(config, g, height);
            && g1.users == g.users
            && forall h <- g1.entries ::
                 || (h in g.entries && g1.entries[h] == g.entries[h])
                 || (h == height && g1.entries[h] == Expiry.GetOutdated(config, g, height))
  {
    hide Expiry.GetOutdated;
  }

  // ---------- Restart ----------

  /** A restart gives back the appointments, the trackers and the users; it forgets only counters and caches. */
  lemma RestartIsInvisible(world: World, t: Tower)
    requires WorldOk(world) && Inv(world, t)
    ensures Restart(t) == t.(
              responder := t.responder.(unconfirmed := [], missed := map[]),
              issued := map[],
              gk := Expiry.State.State(t.gk.users, [], map[]))
    ensures Inv(world, Restart(t))
  {
    var t' := Restart(t);
    assert t'.appointments == t.appointments;
    assert t'.responder.trackers == t.responder.trackers;
    StoredIgnoresUsers(world, t, t'.gk, map[]);
    ChargesIgnoreTheRest(world, t.(gk := t'.gk), t');
  }
}
