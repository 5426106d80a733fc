/** The daemon: it rebuilds the components after a restart, catches up with the chain, and runs their threads. */
module Teosd {
  import opened Basics
  import opened Records
  import opened BlockTree
  import opened LocatorCache
  import opened AppointmentsDb
  import opened Carrier
  import opened Responder
  import opened Gatekeeper
  import opened Slots
  import opened Breaches
  import opened TowerModel
  import opened Invariants
  import opened BlockSteps
  import opened BlockProcessor
  import opened Watcher
  import opened Builder
  import Cleaner
  import Expiry

  // ---------- Rebuilding memory ----------

  /** The components and databases give back the memory of a tower `t` that stopped between two steps. */
  method Rebuild(world: World, dbManager: AppointmentsDbm, userDb: UsersDbm, ghost t: Tower) returns (watcher: Watcher)
    requires WorldOk(world) && Inv(world, t)
    requires dbManager.Valid() && dbManager.view == t.view
    requires userDb.users == t.gk.users && forall id <- t.gk.users :: IsCompressedPk(id)
    ensures watcher.Valid() && watcher.View() == Restart(t)
    ensures watcher.appointments == t.appointments && watcher.responder.trackers == t.responder.trackers
    ensures fresh(watcher) && watcher.world == world && watcher.dbManager == dbManager
    ensures watcher.gatekeeper.userDb == userDb
  {
    hide WorldOk, Inv;
    RestartIsInvisible(world, t);
    LastBlocksAreStored(world, t);
    watcher := Assemble(world, dbManager, userDb);
  }

  /** New components over existing databases. */
  method Assemble(world: World, dbManager: AppointmentsDbm, userDb: UsersDbm) returns (watcher: Watcher)
    requires WorldOk(world) && dbManager.Valid() && forall id <- userDb.users :: IsCompressedPk(id)
    requires dbManager.view.bw.Some? && dbManager.view.bw.value in world.tree && dbManager.view.br.Some?
    ensures watcher.Attached() && fresh(watcher)
    ensures watcher.world == world && watcher.dbManager == dbManager && watcher.gatekeeper.userDb == userDb
    ensures var view := dbManager.view;
            watcher.View() == TowerState(
              map u | u in view.w && u !in view.ta :: view.w[u].Summary(), view.bw.value,
              ResponderState(Summaries(view.r), [], map[], view.br.value), map[],
              Expiry.State.State(userDb.users, [], map[]), view)
  {
    hide InverseIndex.Exact, Represents, Summaries, InStep, LocatorCache.Exact, IsCompressedPk, WellFormed;
    hide DistinctLocators, Injective;
    var gatekeeper := new Gatekeeper(world.config, userDb);
    var responder := AssembleResponder(dbManager, gatekeeper);
    var lastWatcher := dbManager.LoadLastBlockHashWatcher();
    watcher := new Watcher(world, dbManager, gatekeeper, responder, lastWatcher.value);
    LoadAppointments(watcher);
    watcher.locatorCache.Init(lastWatcher.value, world.tree);
  }

  method AssembleResponder(dbManager: AppointmentsDbm, gatekeeper: Gatekeeper) returns (responder: Responder)
    requires dbManager.Valid() && dbManager.view.br.Some?
    ensures fresh(responder) && fresh(responder.carrier) && responder.Valid()
    ensures responder.dbManager == dbManager && responder.gatekeeper == gatekeeper
    ensures responder.State() == ResponderState(Summaries(dbManager.view.r), [], map[], dbManager.view.br.value)
    ensures responder.carrier.issuedReceipts == map[]
  {
    hide InverseIndex.Exact, Represents;
    var carrier := new Carrier();
    var lastResponder := dbManager.LoadLastBlockHashResponder();
    responder := new Responder(dbManager, gatekeeper, carrier, lastResponder.value);
    LoadTrackers(responder);
    SummariesInStep(dbManager.view.r);
  }

  lemma SummariesInStep(r: map<Uuid, Tracker>)
    ensures InStep(Summaries(r), r)
  {
  }

  lemma LastBlocksAreStored(world: World, t: Tower)
    requires WorldOk(world) && Inv(world, t)
    ensures WellFormed(world.tree) && DistinctLocators(world.tree)
    ensures t.view.bw == Some(t.lastKnown) && t.view.br == Some(t.responder.lastKnown) && t.lastKnown in world.tree
  {
  }

  method LoadAppointments(watcher: Watcher)
    requires watcher.dbManager.Valid() && watcher.appointments == map[] && watcher.locatorUuidMap == map[]
    modifies watcher`appointments, watcher`locatorUuidMap
    ensures var view := watcher.dbManager.view;
            watcher.appointments == map u | u in view.w && u !in view.ta :: view.w[u].Summary()
    ensures InverseIndex.Exact(LocatorOf(watcher.appointments), watcher.locatorUuidMap)
  {
    var data := watcher.dbManager.LoadWatcherAppointments();
    if |data| != 0 {
      watcher.appointments, watcher.locatorUuidMap := BuildAppointments(data);
    }
  }

  method LoadTrackers(responder: Responder)
    requires responder.dbManager.Valid() && responder.trackers == map[] && responder.txTrackerMap == map[]
    modifies responder`trackers, responder`txTrackerMap
    ensures responder.trackers == Summaries(responder.dbManager.view.r)
    ensures InverseIndex.Exact(PenaltyOf(responder.trackers), responder.txTrackerMap)
  {
    var data := responder.dbManager.LoadResponderTrackers();
    if |data| != 0 {
      responder.trackers, responder.txTrackerMap := BuildTrackers(data);
    }
  }

  // ---------- Catching up ----------

  /** `a` is the highest block of the path to `last` that is on the best chain. */
  ghost predicate HighestOnBestChain(tree: Tree, tip: Hash, last: Hash, a: Hash)
    requires WellFormed(tree) && tip in tree
  {
    && last in tree && a in tree
    && RootPath(tree, a) <= RootPath(tree, last)
    && RootPath(tree, a) <= RootPath(tree, tip)
    && forall i :: tree[a].height < i < |RootPath(tree, last)| ==> RootPath(tree, last)[i] !in RootPath(tree, tip)
  }

  /** Processing `blocks` after `a` leads along the best chain to the tip. */
  ghost predicate Replays(tree: Tree, tip: Hash, a: Hash, blocks: seq<Hash>)
    requires WellFormed(tree) && tip in tree && a in tree
  {
    RootPath(tree, a) + blocks == RootPath(tree, tip)
  }

  /** The block is unknown to bitcoind, or shares no block with the best chain. */
  ghost predicate Lost(tree: Tree, tip: Hash, last: Hash)
    requires WellFormed(tree) && tip in tree
  {
    last !in tree || forall a <- RootPath(tree, last) :: a !in RootPath(tree, tip)
  }

  /** `blocks` are exactly what leads a component that last saw `last` to the tip. */
  ghost predicate Led(tree: Tree, tip: Hash, last: Hash, blocks: seq<Hash>)
    requires WellFormed(tree) && tip in tree
  {
    exists a :: HighestOnBestChain(tree, tip, last, a) && Replays(tree, tip, a, blocks)
  }

  /** The component stands at the tip, or on a branch that grows from it. */
  ghost predicate AtTip(tree: Tree, tip: Hash, last: Hash)
    requires WellFormed(tree) && tip in tree
  {
    last in tree && tip in RootPath(tree, last)
  }

  lemma HighestIsUnique(tree: Tree, tip: Hash, last: Hash, a: Hash, b: Hash)
    requires WellFormed(tree) && tip in tree
    requires HighestOnBestChain(tree, tip, last, a) && HighestOnBestChain(tree, tip, last, b)
    ensures a == b
  {
    hide WellFormed;
    var path := RootPath(tree, last);
    assert RootPath(tree, a)[tree[a].height] == a == path[tree[a].height];
    assert RootPath(tree, b)[tree[b].height] == b == path[tree[b].height];
    assert a == RootPath(tree, tip)[tree[a].height] && b == RootPath(tree, tip)[tree[b].height];
  }

  lemma LedFrom(tree: Tree, tip: Hash, last: Hash, a: Hash, blocks: seq<Hash>)
    requires WellFormed(tree) && tip in tree && HighestOnBestChain(tree, tip, last, a)
    ensures Led(tree, tip, last, blocks) <==> Replays(tree, tip, a, blocks)
  {
    hide WellFormed;
    if Led(tree, tip, last, blocks) {
      var b :| HighestOnBestChain(tree, tip, last, b) && Replays(tree, tip, b, blocks);
      HighestIsUnique(tree, tip, last, a, b);
    }
  }

  lemma LedByNothingIff(tree: Tree, tip: Hash, last: Hash)
    requires WellFormed(tree) && tip in tree
    ensures Led(tree, tip, last, []) <==> AtTip(tree, tip, last)
  {
    hide WellFormed;
    if Led(tree, tip, last, []) {
      var a :| HighestOnBestChain(tree, tip, last, a) && Replays(tree, tip, a, []);
      ReplayIsSuffix(tree, tip, a, []);
      assert RootPath(tree, a)[tree[a].height] == tip;
    }
    if AtTip(tree, tip, last) {
      AncestorPosition(tree, last, tip);
      assert HighestOnBestChain(tree, tip, last, tip) && Replays(tree, tip, tip, []);
    }
  }

  method MissedBy(bp: BlockProcessor, last: Hash) returns (r: Result<seq<Hash>>, ghost ancestor: Hash)
    requires bp.Valid()
    ensures r.Raised? <==> Lost(bp.tree, bp.tip, last)
    ensures r.Raised? ==> r == Raised(KeyError)
    ensures r.Ok? ==> HighestOnBestChain(bp.tree, bp.tip, last, ancestor) && Replays(bp.tree, bp.tip, ancestor, r.value)
  {
    var found, abandoned := bp.FindLastCommonAncestor(last);
    if found.Raised? {
      return Raised(KeyError), last;
    }
    ancestor := found.value.0;
    var missed := bp.GetMissedBlocks(found.value.0);
    AncestorIsHighest(bp.tree, bp.tip, last, ancestor, abandoned);
    r := Ok(missed);
  }

  lemma AncestorIsHighest(tree: Tree, tip: Hash, last: Hash, a: Hash, abandoned: seq<Hash>)
    requires WellFormed(tree) && tip in tree && last in tree && a in tree
    requires RootPath(tree, last) == RootPath(tree, a) + abandoned && RootPath(tree, a) <= RootPath(tree, tip)
    requires forall x <- abandoned :: x !in RootPath(tree, tip)
    ensures HighestOnBestChain(tree, tip, last, a) && a in RootPath(tree, tip)
  {
    hide WellFormed;
    var path := RootPath(tree, last);
    assert RootPath(tree, a)[tree[a].height] == a;
    forall i | tree[a].height < i < |path| ensures path[i] !in RootPath(tree, tip) {
      assert path[i] == abandoned[i - tree[a].height - 1];
    }
  }

  /** The part of `bootstrap_components` that feeds the missed blocks. */
  method CatchUp(
    bp: BlockProcessor, lastWatcher: Hash, lastResponder: Hash, watcherQueue: BlockQueue, responderQueue: BlockQueue)
    returns (r: Result<()>, ghost aw: Hash, ghost ar: Hash)
    requires bp.Valid() && watcherQueue.owner == TheWatcher && responderQueue.owner == TheResponder
    requires watcherQueue.log == responderQueue.log && watcherQueue.pending == [] && responderQueue.pending == []
    requires watcherQueue.log.processed == []
    modifies watcherQueue, responderQueue, watcherQueue.log
    ensures r == if Lost(bp.tree, bp.tip, lastWatcher) || Lost(bp.tree, bp.tip, lastResponder) then Raised(KeyError)
                 else Ok(())
    ensures r == Ok(()) ==>
              && HighestOnBestChain(bp.tree, bp.tip, lastWatcher, aw)
              && HighestOnBestChain(bp.tree, bp.tip, lastResponder, ar)
              && Delivers(bp.tree, bp.tip, aw, ar, watcherQueue.log.processed)
  {
    var missedWatcher, missedResponder;
    missedWatcher, aw := MissedBy(bp, lastWatcher);
    if missedWatcher.Raised? {
      return Raised(KeyError), lastWatcher, lastResponder;
    }
    if lastWatcher == lastResponder {
      missedResponder, ar := missedWatcher, aw;
    } else {
      missedResponder, ar := MissedBy(bp, lastResponder);
      if missedResponder.Raised? {
        return Raised(KeyError), lastWatcher, lastResponder;
      }
    }
    r := Feed(watcherQueue, responderQueue, missedWatcher.value, missedResponder.value);
    FeedDelivers(bp.tree, bp.tip, aw, ar, missedWatcher.value, missedResponder.value, watcherQueue.log.processed);
  }

  /** No appointment without a flag and no tracker is stored. */
  ghost predicate NothingStored(view: View) {
    (forall u <- view.w :: u in view.ta) && view.r == map[]
  }

  /**
   `bootstrap_components`: with nothing stored no component is fed anything, whatever the chain did meanwhile. Both are
   led to the tip exactly when they already stood there, or something is stored and the Watcher is not further behind.
   */
  method BootstrapComponents(
    bp: BlockProcessor, dbManager: AppointmentsDbm, watcherQueue: BlockQueue, responderQueue: BlockQueue)
    returns (r: Result<()>)
    requires bp.Valid() && dbManager.Valid() && dbManager.view.bw.Some? && dbManager.view.br.Some?
    requires watcherQueue.owner == TheWatcher && responderQueue.owner == TheResponder
    requires watcherQueue.log == responderQueue.log && watcherQueue.pending == [] && responderQueue.pending == []
    requires watcherQueue.log.processed == []
    modifies watcherQueue, responderQueue, watcherQueue.log
    ensures var lw, lr := dbManager.view.bw.value, dbManager.view.br.value;
            && r == (if !NothingStored(dbManager.view) && (Lost(bp.tree, bp.tip, lw) || Lost(bp.tree, bp.tip, lr))
                     then Raised(KeyError) else Ok(()))
            && (r == Ok(()) && NothingStored(dbManager.view) ==> watcherQueue.log.processed == [])
            && (r == Ok(()) ==>
                  (&& Led(bp.tree, bp.tip, lw, Received(TheWatcher, watcherQueue.log.processed))
                   && Led(bp.tree, bp.tip, lr, Received(TheResponder, watcherQueue.log.processed))
                   <==>
                   || (AtTip(bp.tree, bp.tip, lw) && AtTip(bp.tree, bp.tip, lr))
                   || (!NothingStored(dbManager.view) && NotFurtherBehind(bp.tree, bp.tip, lw, lr))))
  {
    hide Represents, WellFormed, RootPath, HighestOnBestChain, Replays, Led, AtTip, Lost;
    var appointments := dbManager.LoadWatcherAppointments();
    var trackers := dbManager.LoadResponderTrackers();
    ghost var tree, tip := bp.tree, bp.tip;
    ghost var lw, lr := dbManager.view.bw.value, dbManager.view.br.value;
    EmptyLoads(dbManager.view, appointments, trackers);
    if |appointments| == 0 && |trackers| == 0 {
      LedByNothingIff(tree, tip, lw);
      LedByNothingIff(tree, tip, lr);
      r := Ok(());
    } else {
      var lastWatcher := dbManager.LoadLastBlockHashWatcher();
      var lastResponder := dbManager.LoadLastBlockHashResponder();
      ghost var aw, ar;
      r, aw, ar := CatchUp(bp, lastWatcher.value, lastResponder.value, watcherQueue, responderQueue);
      if r == Ok(()) {
        DeliversIff(tree, tip, lw, lr, aw, ar, watcherQueue.log.processed);
      }
    }
  }

  /** The Watcher left the best chain no earlier than the Responder, or the Responder misses nothing. */
  ghost predicate NotFurtherBehind(tree: Tree, tip: Hash, lastWatcher: Hash, lastResponder: Hash)
    requires WellFormed(tree) && tip in tree
  {
    exists aw, ar ::
      && HighestOnBestChain(tree, tip, lastWatcher, aw) && HighestOnBestChain(tree, tip, lastResponder, ar)
      && (tree[ar].height <= tree[aw].height || ar == tip)
  }

  lemma EmptyLoads(view: View, appointments: map<Uuid, Appointment>, trackers: map<Uuid, Tracker>)
    requires appointments == (map u | u in view.w && u !in view.ta :: view.w[u]) && trackers == view.r
    ensures |appointments| == 0 && |trackers| == 0 <==> NothingStored(view)
  {
    if NothingStored(view) {
      assert appointments == map[];
    } else if |trackers| == 0 {
      var u :| u in view.w && u !in view.ta;
      assert u in appointments;
    }
  }

  lemma DeliversIff(
    tree: Tree, tip: Hash, lw: Hash, lr: Hash, aw: Hash, ar: Hash, log: seq<(Component, Hash)>)
    requires WellFormed(tree) && tip in tree
    requires HighestOnBestChain(tree, tip, lw, aw) && HighestOnBestChain(tree, tip, lr, ar)
    requires Delivers(tree, tip, aw, ar, log)
    ensures Led(tree, tip, lw, Received(TheWatcher, log)) && Led(tree, tip, lr, Received(TheResponder, log)) <==>
            (AtTip(tree, tip, lw) && AtTip(tree, tip, lr)) || NotFurtherBehind(tree, tip, lw, lr)
  {
    LedFrom(tree, tip, lw, aw, Received(TheWatcher, log));
    LedFrom(tree, tip, lr, ar, Received(TheResponder, log));
    if AtTip(tree, tip, lr) {
      AtTipIsHighest(tree, tip, lr, ar);
    }
    if NotFurtherBehind(tree, tip, lw, lr) {
      var bw, br :| HighestOnBestChain(tree, tip, lw, bw) && HighestOnBestChain(tree, tip, lr, br)
                    && (tree[br].height <= tree[bw].height || br == tip);
      HighestIsUnique(tree, tip, lw, aw, bw);
      HighestIsUnique(tree, tip, lr, ar, br);
    }
    hide WellFormed, RootPath, HighestOnBestChain, Replays, Led, AtTip, Received;
  }

  lemma AtTipIsHighest(tree: Tree, tip: Hash, last: Hash, a: Hash)
    requires WellFormed(tree) && tip in tree && AtTip(tree, tip, last) && HighestOnBestChain(tree, tip, last, a)
    ensures a == tip
  {
    hide WellFormed;
    AncestorPosition(tree, last, tip);
    assert HighestOnBestChain(tree, tip, last, tip);
    HighestIsUnique(tree, tip, last, a, tip);
  }

  /** What the choice between the two ways of feeding amounts to. */
  function FedEither(missedWatcher: seq<Hash>, missedResponder: seq<Hash>): seq<(Component, Hash)> {
    if missedWatcher == [] then Labelled(TheResponder, missedResponder)
    else if missedResponder == [] then Labelled(TheWatcher, missedWatcher)
    else Fed(missedWatcher, missedResponder)
  }

  method Feed(
    watcherQueue: BlockQueue, responderQueue: BlockQueue, missedWatcher: seq<Hash>, missedResponder: seq<Hash>)
    returns (r: Result<()>)
    requires watcherQueue.owner == TheWatcher && responderQueue.owner == TheResponder
    requires watcherQueue.log == responderQueue.log && watcherQueue.pending == [] && responderQueue.pending == []
    modifies watcherQueue, responderQueue, watcherQueue.log
    ensures r == Ok(())
    ensures watcherQueue.log.processed == old(watcherQueue.log.processed) + FedEither(missedWatcher, missedResponder)
  {
    r := Ok(());
    if |missedWatcher| == 0 && |missedResponder| != 0 {
      PopulateBlockQueue(responderQueue, missedResponder);
      responderQueue.Join();
    } else if |missedResponder| == 0 && |missedWatcher| != 0 {
      PopulateBlockQueue(watcherQueue, missedWatcher);
      watcherQueue.Join();
    } else if |missedResponder| != 0 && |missedWatcher| != 0 {
      r := UpdateStates(watcherQueue, responderQueue, missedWatcher, missedResponder);
    }
  }

  /**
   Both components are led to the tip, each once over its own missed blocks, unless the Watcher was the one further
   behind.
   */
  ghost predicate Delivers(tree: Tree, tip: Hash, aw: Hash, ar: Hash, log: seq<(Component, Hash)>)
    requires WellFormed(tree) && tip in tree && aw in tree && ar in tree
  {
    Replays(tree, tip, aw, Received(TheWatcher, log)) && Replays(tree, tip, ar, Received(TheResponder, log))
    <==> tree[ar].height <= tree[aw].height || ar == tip
  }

  lemma PathHasNoDuplicates(tree: Tree, h: Hash)
    requires WellFormed(tree) && h in tree
    ensures NoDup(RootPath(tree, h))
  {
    hide WellFormed;
  }

  lemma ReplayIsSuffix(tree: Tree, tip: Hash, a: Hash, blocks: seq<Hash>)
    requires WellFormed(tree) && tip in tree && a in tree && Replays(tree, tip, a, blocks)
    ensures |blocks| == tree[tip].height - tree[a].height
    ensures blocks == RootPath(tree, tip)[|RootPath(tree, tip)| - |blocks|..]
    ensures forall other :: Replays(tree, tip, a, other) <==> other == blocks
    ensures blocks == [] <==> a == tip
  {
    hide WellFormed;
    var path := RootPath(tree, tip);
    forall other | Replays(tree, tip, a, other) ensures other == path[|path| - |blocks|..] {
      assert |other| == |blocks|;
    }
    assert RootPath(tree, a)[tree[a].height] == a && path[tree[tip].height] == tip;
    if blocks == [] {
      assert path == RootPath(tree, a);
    }
  }

  ghost predicate ExtendsAt(tree: Tree, last: Hash, blocks: seq<Hash>, i: nat)
    requires i < |blocks|
  {
    blocks[i] in tree && tree[blocks[i]].prev == Some(if i == 0 then last else blocks[i - 1])
  }

  /** Each block is a child of the one before it, and the first of `last`. */
  ghost predicate Extends(tree: Tree, last: Hash, blocks: seq<Hash>) {
    forall i :: 0 <= i < |blocks| ==> ExtendsAt(tree, last, blocks, i)
  }

  /** Missed blocks follow each other: after the common ancestor neither component sees a reorg. */
  lemma ReplayExtends(tree: Tree, tip: Hash, a: Hash, blocks: seq<Hash>)
    requires WellFormed(tree) && tip in tree && a in tree && Replays(tree, tip, a, blocks)
    ensures Extends(tree, a, blocks)
  {
    hide WellFormed;
    var n := tree[a].height;
    assert RootPath(tree, a)[n] == a;
    forall i | 0 <= i < |blocks| ensures ExtendsAt(tree, a, blocks, i) {
      PrevOnPath(tree, tip, n + 1 + i);
      assert blocks[i] == RootPath(tree, tip)[n + 1 + i];
      assert RootPath(tree, tip)[n + i] == if i == 0 then a else blocks[i - 1];
    }
  }

  lemma FeedDelivers(
    tree: Tree, tip: Hash, aw: Hash, ar: Hash, mw: seq<Hash>, mr: seq<Hash>, log: seq<(Component, Hash)>)
    requires WellFormed(tree) && tip in tree && aw in tree && ar in tree
    requires Replays(tree, tip, aw, mw) && Replays(tree, tip, ar, mr) && log == FedEither(mw, mr)
    ensures Delivers(tree, tip, aw, ar, log)
  {
    hide WellFormed, RootPath, Replays;
    ReplayIsSuffix(tree, tip, aw, mw);
    ReplayIsSuffix(tree, tip, ar, mr);
    if mw == [] || mr == [] {
      forall owner: Component, of: Component, blocks: seq<Hash>
        ensures Received(owner, Labelled(of, blocks)) == if owner == of then blocks else []
      {
        ReceivedLabelled(owner, of, blocks);
      }
    } else {
      PathHasNoDuplicates(tree, tip);
      FedExactlyIff(RootPath(tree, tip), mw, mr);
    }
  }

  // ---------- The threads of the Responder and of the Gatekeeper ----------

  /** One block at the Responder of a valid tower. */
  method RespondToBlock(watcher: Watcher, net: Network, getTx: Txid -> TxInfo, h: Hash) returns (r: Result<()>)
    requires watcher.Valid() && h in watcher.world.tree
    requires watcher.world.tree[h].prev == Some(watcher.responder.lastKnownBlock) || watcher.responder.trackers == map[]
    modifies watcher.responder, watcher.dbManager, watcher.responder.carrier
    modifies watcher.gatekeeper`registeredUsers, watcher.gatekeeper.userDb
    ensures r.Ok? ==> watcher.Valid() && ResponderBlock(watcher.world, old(watcher.View()), watcher.View(), h, getTx)
    ensures r.Raised? ==> forall t' :: !ResponderBlock(watcher.world, old(watcher.View()), t', h, getTx)
    ensures r.Raised? ==> FailedBlock(watcher.world, old(watcher.View()), watcher.View(), h, getTx)
  {
    hide WorldOk, Inv, InverseIndex.Exact, Represents, LocatorCache.Exact, Completed, Stuck, Due, Penalties;
    hide NextState;
    hide Cleaner.WithoutTrackers, Refund, Flatten, Expiry.GetOutdated, InStep, NoDup;
    ghost var t := watcher.View();
    ValidIsApart(watcher.world, t, watcher.world.tree[h].height);
    r := watcher.responder.OnBlock(net, getTx, h, watcher.world.tree[h]);
    if r.Ok? {
      ResponderBlockKeepsInv(watcher.world, t, watcher.View(), h, getTx);
    }
  }

  lemma ValidIsApart(world: World, t: Tower, height: int)
    requires WorldOk(world) && Inv(world, t)
    ensures Apart(Expiry.GetOutdated(world.config, t.gk, height))
  {
    hide WellFormed, DistinctLocators, Injective, Stored, Charged;
    OutdatedAreApart(world, t.gk, height);
  }

  /** One block at the Gatekeeper of a valid tower. */
  method ExpireSubscriptions(watcher: Watcher, height: int) returns (r: Result<()>)
    requires watcher.Valid()
    modifies watcher.gatekeeper, watcher.gatekeeper.userDb
    ensures r == Ok(()) ==>
              watcher.Valid() && GatekeeperBlock(watcher.world, old(watcher.View()), watcher.View(), height)
    ensures r != Ok(()) ==> forall t' :: !GatekeeperBlock(watcher.world, old(watcher.View()), t', height)
  {
    hide WorldOk, Inv, InverseIndex.Exact, Represents, LocatorCache.Exact, InStep, NoDup, Expiry.Block;
    ghost var t := watcher.View();
    r := watcher.gatekeeper.OnBlock(height);
    if r == Ok(()) {
      GatekeeperBlockKeepsInv(watcher.world, t, watcher.View(), height);
    }
  }

  // ---------- Processing missed blocks ----------

  lemma BlocksMoveOn(world: World, t: Tower, t': Tower, h: Hash, net: Network, entries: seq<Entry>)
    requires WatcherBlock(world, t, t', h, net, entries)
    ensures h in world.tree && t'.lastKnown == h && t'.responder.lastKnown == t.responder.lastKnown
  {
    hide Disposed, ListsBreached, Searched, OutdatedHere;
    if Searched(world, t, h) {
      SearchLeavesResponder(world, t, t', h, net, entries);
    }
  }

  lemma SearchLeavesResponder(world: World, t: Tower, t': Tower, h: Hash, net: Network, entries: seq<Entry>)
    requires WatcherBlock(world, t, t', h, net, entries)
    ensures t'.responder.lastKnown == t.responder.lastKnown
  {
    hide ListsBreached, Searched, OutdatedHere, Verdicts, Refund, Sent, NewTrackers;
  }

  lemma ResponderMovesOn(world: World, t: Tower, t': Tower, h: Hash, getTx: Txid -> TxInfo)
    requires ResponderBlock(world, t, t', h, getTx)
    ensures t'.lastKnown == t.lastKnown && t'.responder.lastKnown == h
  {
    hide Completed, Stuck, Due, Penalties, Refund, Flatten, Expiry.GetOutdated;
  }

  /** One block at the Watcher, on top of its last one. */
  method WatchBlock(watcher: Watcher, net: Network, h: Hash)
    requires watcher.Valid() && h in watcher.world.tree && watcher.world.tree[h].prev == Some(watcher.lastKnownBlock)
    modifies watcher, watcher.locatorCache, watcher.responder, watcher.dbManager, watcher.responder.carrier
    modifies watcher.gatekeeper`registeredUsers, watcher.gatekeeper.userDb
    ensures watcher.Valid() && watcher.lastKnownBlock == h
    ensures watcher.responder.lastKnownBlock == old(watcher.responder.lastKnownBlock)
  {
    hide WorldOk, Inv, Consistent, WatcherBlock, InverseIndex.Exact, Represents, InStep, Overlooked;
    watcher.ValidIsReady();
    ghost var t := watcher.View();
    ValidOverlooksNothing(watcher.world, t, h);
    ghost var entries := watcher.OnBlock(net, h);
    BlocksMoveOn(watcher.world, t, watcher.View(), h, net, entries);
  }

  lemma ValidOverlooksNothing(world: World, t: Tower, h: Hash)
    requires WorldOk(world) && Inv(world, t) && h in world.tree && world.tree[h].prev == Some(t.lastKnown)
    ensures Overlooked(world, t, h) == {}
  {
    OnTopOverlooksNothing(world, t, h);
  }

  function LastOf(last: Hash, blocks: seq<Hash>): Hash {
    if blocks == [] then last else blocks[|blocks| - 1]
  }

  /** The component extends what it knows with the i-th block of the log. */
  lemma NextExtends(tree: Tree, owner: Component, last: Hash, log: seq<(Component, Hash)>, i: nat)
    requires i < |log| && log[i].0 == owner && Extends(tree, last, Received(owner, log))
    ensures log[i].1 in tree && tree[log[i].1].prev == Some(LastOf(last, Received(owner, log[..i])))
  {
    hide Received;
    ReceivedNext(owner, log, i);
    assert ExtendsAt(tree, last, Received(owner, log), |Received(owner, log[..i])|);
  }

  /**
   Blocks fed to both components, in any order in which each of them extends what its component knows: the tower stays
   valid, and each component ends at the last block it got.
   */
  method ProcessFed(
    watcher: Watcher, net: Hash -> Network, getTx: (Hash, Txid) -> TxInfo, log: seq<(Component, Hash)>)
    returns (r: Result<()>)
    requires watcher.Valid()
    requires Extends(watcher.world.tree, watcher.lastKnownBlock, Received(TheWatcher, log))
    requires Extends(watcher.world.tree, watcher.responder.lastKnownBlock, Received(TheResponder, log))
    modifies watcher, watcher.locatorCache, watcher.responder, watcher.dbManager, watcher.responder.carrier
    modifies watcher.gatekeeper`registeredUsers, watcher.gatekeeper.userDb
    ensures r.Ok? ==>
              && watcher.Valid()
              && watcher.lastKnownBlock == LastOf(old(watcher.lastKnownBlock), Received(TheWatcher, log))
              && watcher.responder.lastKnownBlock ==
                   LastOf(old(watcher.responder.lastKnownBlock), Received(TheResponder, log))
  {
    hide WorldOk, Inv, ResponderBlock, InverseIndex.Exact, Represents, InStep, Received, Extends, NoDup;
    hide LocatorCache.Exact;
    r := Ok(());
    ghost var lw, lr := watcher.lastKnownBlock, watcher.responder.lastKnownBlock;
    FedNothing();
    for i := 0 to |log|
      invariant watcher.Valid()
      invariant watcher.lastKnownBlock == LastOf(lw, Received(TheWatcher, log[..i]))
      invariant watcher.responder.lastKnownBlock == LastOf(lr, Received(TheResponder, log[..i]))
    {
      NextExtends(watcher.world.tree, log[i].0, if log[i].0 == TheWatcher then lw else lr, log, i);
      ReceivedNext(TheWatcher, log, i);
      ReceivedNext(TheResponder, log, i);
      r := ProcessNext(watcher, net, getTx, log[i]);
      if r.Raised? {
        return;
      }
    }
    assert log[..|log|] == log;
  }

  lemma FedNothing()
    ensures forall owner: Component, log: seq<(Component, Hash)> :: Received(owner, log[..0]) == []
  {
  }

  method ProcessNext(
    watcher: Watcher, net: Hash -> Network, getTx: (Hash, Txid) -> TxInfo, next: (Component, Hash))
    returns (r: Result<()>)
    requires watcher.Valid() && next.1 in watcher.world.tree
    requires watcher.world.tree[next.1].prev ==
             Some(if next.0 == TheWatcher then watcher.lastKnownBlock else watcher.responder.lastKnownBlock)
    modifies watcher, watcher.locatorCache, watcher.responder, watcher.dbManager, watcher.responder.carrier
    modifies watcher.gatekeeper`registeredUsers, watcher.gatekeeper.userDb
    ensures r.Ok? ==>
              && watcher.Valid()
              && watcher.lastKnownBlock == (if next.0 == TheWatcher then next.1 else old(watcher.lastKnownBlock))
              && watcher.responder.lastKnownBlock ==
                   if next.0 == TheWatcher then old(watcher.responder.lastKnownBlock) else next.1
  {
    hide WorldOk, Inv, ResponderBlock, InverseIndex.Exact, Represents, InStep, NoDup, LocatorCache.Exact;
    match next.0 {
      case TheWatcher =>
        WatchBlock(watcher, net(next.1), next.1);
        r := Ok(());
      case TheResponder =>
        ghost var t := watcher.View();
        r := RespondToBlock(watcher, net(next.1), txid => getTx(next.1, txid), next.1);
        if r.Ok? {
          ResponderMovesOn(watcher.world, t, watcher.View(), next.1, txid => getTx(next.1, txid));
        }
    }
  }

  /**
   The missed blocks, when both components stood on the best chain and the Watcher is not further behind: unless the
   Responder fails, the tower is valid at the tip.
   */
  method CatchUpTower(
    watcher: Watcher, tip: Hash, net: Hash -> Network, getTx: (Hash, Txid) -> TxInfo,
    missedWatcher: seq<Hash>, missedResponder: seq<Hash>)
    returns (r: Result<()>)
    requires watcher.Valid() && tip in watcher.world.tree
    requires watcher.responder.lastKnownBlock in watcher.world.tree
    requires Replays(watcher.world.tree, tip, watcher.lastKnownBlock, missedWatcher)
    requires Replays(watcher.world.tree, tip, watcher.responder.lastKnownBlock, missedResponder)
    requires |missedWatcher| <= |missedResponder| || missedResponder == []
    modifies watcher, watcher.locatorCache, watcher.responder, watcher.dbManager, watcher.responder.carrier
    modifies watcher.gatekeeper`registeredUsers, watcher.gatekeeper.userDb
    ensures r.Ok? ==> watcher.Valid() && watcher.lastKnownBlock == watcher.responder.lastKnownBlock == tip
  {
    hide WorldOk, Inv, InverseIndex.Exact, Represents, InStep, NoDup, LocatorCache.Exact, Received, Fed;
    hide WellFormed, RootPath, Extends, Replays, FedEither;
    watcher.CacheIsExact();
    var log := FedEither(missedWatcher, missedResponder);
    ghost var tree, lw, lr := watcher.world.tree, watcher.lastKnownBlock, watcher.responder.lastKnownBlock;
    FedInOrder(tree, tip, lw, lr, missedWatcher, missedResponder);
    r := ProcessFed(watcher, net, getTx, log);
  }

  lemma ReplayEnds(tree: Tree, tip: Hash, a: Hash, blocks: seq<Hash>)
    requires WellFormed(tree) && tip in tree && a in tree && Replays(tree, tip, a, blocks)
    ensures LastOf(a, blocks) == tip
  {
    hide WellFormed;
    ReplayIsSuffix(tree, tip, a, blocks);
  }

  lemma FedInOrder(tree: Tree, tip: Hash, lw: Hash, lr: Hash, mw: seq<Hash>, mr: seq<Hash>)
    requires WellFormed(tree) && tip in tree && lw in tree && lr in tree
    requires Replays(tree, tip, lw, mw) && Replays(tree, tip, lr, mr) && (|mw| <= |mr| || mr == [])
    ensures var log := FedEither(mw, mr);
            && Received(TheWatcher, log) == mw && Received(TheResponder, log) == mr
            && Extends(tree, lw, mw) && Extends(tree, lr, mr) && LastOf(lw, mw) == tip == LastOf(lr, mr)
  {
    hide WellFormed, RootPath, Extends;
    ReplayExtends(tree, tip, lw, mw);
    ReplayExtends(tree, tip, lr, mr);
    ReplayEnds(tree, tip, lw, mw);
    ReplayEnds(tree, tip, lr, mr);
    ReplayIsSuffix(tree, tip, lw, mw);
    ReplayIsSuffix(tree, tip, lr, mr);
    hide Replays, Received, LastOf;
    if mw == [] || mr == [] {
      forall owner: Component, of: Component, blocks: seq<Hash>
        ensures Received(owner, Labelled(of, blocks)) == if owner == of then blocks else []
      {
        ReceivedLabelled(owner, of, blocks);
      }
    } else {
      PathHasNoDuplicates(tree, tip);
      ResponderBehindIsFed(RootPath(tree, tip), mw, mr);
    }
  }
}
