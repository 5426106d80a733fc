/** What feeding the missed blocks leaves behind, also when the Watcher gets some of them twice. */
module Recovery {
  import opened Basics
  import opened BlockTree
  import opened LocatorCache
  import opened Responder
  import opened Breaches
  import opened TowerModel
  import opened Invariants
  import opened BlockSteps
  import opened Builder
  import opened Runs
  import opened Teosd

  /** A block at one of the two components, and nothing else. */
  predicate IsBlock(e: Event) {
    e.WatcherSaw? || e.ResponderSaw?
  }

  ghost predicate OnlyBlocks(es: seq<Event>) {
    forall e <- es :: IsBlock(e)
  }

  // ---------- Blocks only take appointments away ----------

  ghost predicate Fewer(t: Tower, t': Tower) {
    forall u <- t'.appointments :: u in t.appointments && t'.appointments[u] == t.appointments[u]
  }

  lemma BlockLeavesFewer(world: World, t: Tower, e: Event, t': Tower)
    requires WorldOk(world) && Move(world, t, e, t') && IsBlock(e)
    ensures Fewer(t, t')
  {
    hide WorldOk, ListsBreached, OutdatedHere, Verdicts;
  }

  lemma BlockAtLeavesFewer(world: World, ts: seq<Tower>, es: seq<Event>, k: nat)
    requires WorldOk(world) && |ts| == |es| + 1 && k < |es| && MoveAt(world, ts, es, k) && IsBlock(es[k])
    ensures Fewer(ts[k], ts[k + 1])
  {
    hide WorldOk, Move, Fewer;
    BlockLeavesFewer(world, ts[k], es[k], ts[k + 1]);
  }

  lemma {:induction false} BlocksLeaveFewer(world: World, ts: seq<Tower>, es: seq<Event>, i: nat, k: nat)
    requires WorldOk(world) && AreMoves(world, ts, es) && OnlyBlocks(es) && i <= k <= |es|
    ensures Fewer(ts[i], ts[k])
    decreases k
  {
    hide WorldOk, MoveAt;
    if i < k {
      BlocksLeaveFewer(world, ts, es, i, k - 1);
      BlockAtLeavesFewer(world, ts, es, k - 1);
    }
  }

  // ---------- A block seen before ----------

  /** A block already searched overlooks nothing, as long as appointments only left since. */
  lemma SeenOverlooksNothing(world: World, t: Tower, t': Tower)
    requires WorldOk(world) && Inv(world, t) && Fewer(t, t')
    ensures t.lastKnown in world.tree && Overlooked(world, t', t.lastKnown) == {}
  {
    hide WellFormed, DistinctLocators, Injective, InMemory, OnDisk, Sourced, Charged, OwnCharges, CacheAt, LocatorMap;
    hide OutdatedHere, Searched;
  }

  /** The Watcher gets this block on top of its last one, or has processed it before. */
  ghost predicate OnTopOrSeen(world: World, ts: seq<Tower>, es: seq<Event>, k: nat)
    requires k < |es| < |ts|
  {
    || OnTopAt(world, ts[k], es[k])
    || exists i :: 0 <= i < k && es[i].WatcherSaw? && es[k].WatcherSaw? && es[i].h == es[k].h
  }

  lemma MovesTo(world: World, ts: seq<Tower>, es: seq<Event>, i: nat)
    requires WorldOk(world) && |ts| == |es| + 1 && i < |es| && MoveAt(world, ts, es, i) && es[i].WatcherSaw?
    ensures ts[i + 1].lastKnown == es[i].h
  {
    hide WorldOk, Disposed, ListsBreached;
  }

  lemma SeenAt(world: World, ts: seq<Tower>, es: seq<Event>, i: nat, k: nat)
    requires WorldOk(world) && AreMoves(world, ts, es) && OnlyBlocks(es) && i < k < |es| && Inv(world, ts[i + 1])
    requires es[i].WatcherSaw? && es[k].WatcherSaw? && es[i].h == es[k].h
    ensures OverlooksNothing(world, ts[k], es[k])
  {
    BlocksLeaveFewer(world, ts, es, i + 1, k);
    hide WorldOk, Inv, Fewer, Overlooked, Move;
    MovesTo(world, ts, es, i);
    SeenOverlooksNothing(world, ts[i + 1], ts[k]);
  }

  /** Without requests in between, blocks on top or seen before keep the invariant. */
  lemma {:induction false} ReplayKeepsInv(world: World, ts: seq<Tower>, es: seq<Event>, n: nat)
    requires WorldOk(world) && AreMoves(world, ts, es) && OnlyBlocks(es) && Inv(world, ts[0]) && n <= |es|
    requires forall k :: 0 <= k < n ==> OnTopOrSeen(world, ts, es, k)
    ensures forall k :: 0 <= k < n ==> OverlooksNothing(world, ts[k], es[k])
    ensures forall k :: 0 <= k <= n ==> Inv(world, ts[k])
  {
    hide WorldOk, Inv, OverlooksNothing, MoveAt, OnTopAt;
    if n > 0 {
      ReplayKeepsInv(world, ts, es, n - 1);
      var k := n - 1;
      assert OnTopOrSeen(world, ts, es, k);
      if OnTopAt(world, ts[k], es[k]) {
        OnTopStep(world, ts[k], es[k]);
      } else {
        var i :| 0 <= i < k && es[i].WatcherSaw? && es[i].h == es[k].h;
        WatcherBlocksOnly(world, ts, es, k);
        SeenAt(world, ts, es, i, k);
      }
      InvHoldsIff(world, ts, es, n);
    }
  }

  lemma WatcherBlocksOnly(world: World, ts: seq<Tower>, es: seq<Event>, k: nat)
    requires k < |es| < |ts| && !OnTopAt(world, ts[k], es[k])
    ensures es[k].WatcherSaw?
  {
  }

  // ---------- The blocks that are fed ----------

  predicate IsFor(e: Event, next: (Component, Hash)) {
    match next.0
    case TheWatcher => e.WatcherSaw? && e.h == next.1
    case TheResponder => e.ResponderSaw? && e.h == next.1
  }

  /** The events are the blocks of the log, in order. */
  ghost predicate FedBy(es: seq<Event>, log: seq<(Component, Hash)>) {
    |es| == |log| && forall i :: 0 <= i < |es| ==> IsFor(es[i], log[i])
  }

  lemma BlockMovesOn(world: World, t: Tower, e: Event, t': Tower)
    requires WorldOk(world) && Move(world, t, e, t') && IsBlock(e)
    ensures t'.lastKnown == if e.WatcherSaw? then e.h else t.lastKnown
    ensures t'.responder.lastKnown == if e.ResponderSaw? then e.h else t.responder.lastKnown
  {
    hide WorldOk, WatcherBlock, ResponderBlock;
    if e.WatcherSaw? {
      BlocksMoveOn(world, t, t', e.h, e.net, e.entries);
    } else {
      ResponderMovesOn(world, t, t', e.h, e.getTx);
    }
  }

  lemma BlockAtMovesOn(world: World, ts: seq<Tower>, es: seq<Event>, k: nat)
    requires WorldOk(world) && |ts| == |es| + 1 && k < |es| && MoveAt(world, ts, es, k) && IsBlock(es[k])
    ensures ts[k + 1].lastKnown == if es[k].WatcherSaw? then es[k].h else ts[k].lastKnown
    ensures ts[k + 1].responder.lastKnown == if es[k].ResponderSaw? then es[k].h else ts[k].responder.lastKnown
  {
    hide WorldOk, Move;
    BlockMovesOn(world, ts[k], es[k], ts[k + 1]);
  }

  /** Both components stand at the last block they were fed. */
  lemma {:induction false} StandAtLast(
    world: World, ts: seq<Tower>, es: seq<Event>, log: seq<(Component, Hash)>, k: nat)
    requires WorldOk(world) && AreMoves(world, ts, es) && FedBy(es, log) && k <= |es|
    ensures ts[k].lastKnown == LastOf(ts[0].lastKnown, Received(TheWatcher, log[..k]))
    ensures ts[k].responder.lastKnown == LastOf(ts[0].responder.lastKnown, Received(TheResponder, log[..k]))
  {
    hide WorldOk, MoveAt, Received;
    if k > 0 {
      StandAtLast(world, ts, es, log, k - 1);
      assert IsFor(es[k - 1], log[k - 1]);
      BlockAtMovesOn(world, ts, es, k - 1);
      ReceivedNext(TheWatcher, log, k - 1);
      ReceivedNext(TheResponder, log, k - 1);
    } else {
      FedNothing();
    }
  }

  lemma FedAreBlocks(es: seq<Event>, log: seq<(Component, Hash)>)
    requires FedBy(es, log)
    ensures OnlyBlocks(es)
  {
    forall e | e in es ensures IsBlock(e) {
      var i :| 0 <= i < |es| && es[i] == e;
      assert IsFor(es[i], log[i]);
    }
  }

  /** Every block in the list extends the one before it, or occurred before. */
  ghost predicate ExtendsOrRepeats(tree: Tree, last: Hash, blocks: seq<Hash>) {
    forall j :: 0 <= j < |blocks| ==> ExtendsAt(tree, last, blocks, j) || blocks[j] in blocks[..j]
  }

  /** An earlier block of the list was fed at an earlier position of the log. */
  lemma {:induction false} FedBefore(owner: Component, log: seq<(Component, Hash)>, k: nat, h: Hash) returns (i: nat)
    requires k <= |log| && h in Received(owner, log[..k])
    ensures i < k && log[i] == (owner, h)
  {
    ReceivedNext(owner, log, k - 1);
    if log[k - 1] == (owner, h) {
      i := k - 1;
    } else {
      i := FedBefore(owner, log, k - 1, h);
    }
  }

  lemma FedOnTopOrSeen(world: World, ts: seq<Tower>, es: seq<Event>, log: seq<(Component, Hash)>, k: nat)
    requires WorldOk(world) && AreMoves(world, ts, es) && FedBy(es, log) && k < |es|
    requires ExtendsOrRepeats(world.tree, ts[0].lastKnown, Received(TheWatcher, log))
    ensures OnTopOrSeen(world, ts, es, k)
  {
    hide WorldOk, MoveAt, Received;
    assert IsFor(es[k], log[k]);
    if es[k].WatcherSaw? {
      StandAtLast(world, ts, es, log, k);
      ReceivedNext(TheWatcher, log, k);
      var j := |Received(TheWatcher, log[..k])|;
      assert ExtendsAt(world.tree, ts[0].lastKnown, Received(TheWatcher, log), j)
             || Received(TheWatcher, log)[j] in Received(TheWatcher, log)[..j];
      if !ExtendsAt(world.tree, ts[0].lastKnown, Received(TheWatcher, log), j) {
        var i := FedBefore(TheWatcher, log, k, es[k].h);
        assert IsFor(es[i], log[i]);
      }
    }
  }

  /** Blocks fed so keep the invariant throughout. */
  lemma FedKeepsInv(world: World, ts: seq<Tower>, es: seq<Event>, log: seq<(Component, Hash)>)
    requires WorldOk(world) && AreMoves(world, ts, es) && Inv(world, ts[0]) && FedBy(es, log)
    requires ExtendsOrRepeats(world.tree, ts[0].lastKnown, Received(TheWatcher, log))
    ensures forall k :: 0 <= k <= |es| ==> Inv(world, ts[k])
    ensures IsRun(world, ts, es)
  {
    hide WorldOk, Inv, MoveAt, OnTopOrSeen, Received;
    forall k | 0 <= k < |es| ensures OnTopOrSeen(world, ts, es, k) {
      FedOnTopOrSeen(world, ts, es, log, k);
    }
    FedAreBlocks(es, log);
    ReplayKeepsInv(world, ts, es, |es|);
    forall k | 0 <= k < |es| ensures StepAt(world, ts, es, k) {
      assert MoveAt(world, ts, es, k) && OverlooksNothing(world, ts[k], es[k]);
      MoveIsStep(world, ts, es, k);
    }
  }

  lemma MoveIsStep(world: World, ts: seq<Tower>, es: seq<Event>, k: nat)
    requires WorldOk(world) && |ts| == |es| + 1 && k < |es|
    requires MoveAt(world, ts, es, k) && OverlooksNothing(world, ts[k], es[k])
    ensures StepAt(world, ts, es, k)
  {
    hide WorldOk, Move, OverlooksNothing;
  }

  // ---------- The two ways of catching up ----------

  /** The blocks only the Watcher missed, when it is further behind than a Responder that missed some. */
  function FedFirst(mw: seq<Hash>, mr: seq<Hash>): seq<Hash> {
    if |mw| <= |mr| || mr == [] then [] else mw[..|mw| - |mr|]
  }

  /** A Watcher further behind gets its first missed blocks twice. */
  lemma BehindReceived(tree: Tree, tip: Hash, lw: Hash, lr: Hash, mw: seq<Hash>, mr: seq<Hash>)
    requires WellFormed(tree) && tip in tree && lw in tree && lr in tree
    requires Replays(tree, tip, lw, mw) && Replays(tree, tip, lr, mr) && |mr| < |mw| && mr != []
    ensures var log := FedEither(mw, mr);
            && Received(TheWatcher, log) == FedFirst(mw, mr) + mw
            && Received(TheResponder, log) == FedFirst(mw, mr) + mr
  {
    hide WellFormed, RootPath, Received;
    ReplayIsSuffix(tree, tip, lw, mw);
    ReplayIsSuffix(tree, tip, lr, mr);
    PathHasNoDuplicates(tree, tip);
    hide Replays;
    WatcherBehindIsFedTwice(RootPath(tree, tip), mw, mr);
  }

  /** What the components get: their missed blocks; a Watcher further behind gets its first ones twice. */
  lemma EitherReceived(tree: Tree, tip: Hash, lw: Hash, lr: Hash, mw: seq<Hash>, mr: seq<Hash>)
    requires WellFormed(tree) && tip in tree && lw in tree && lr in tree
    requires Replays(tree, tip, lw, mw) && Replays(tree, tip, lr, mr)
    ensures var log := FedEither(mw, mr);
            && Received(TheWatcher, log) == FedFirst(mw, mr) + mw
            && Received(TheResponder, log) == FedFirst(mw, mr) + mr
    ensures Extends(tree, lw, mw) && LastOf(lw, mw) == tip == LastOf(lr, mr)
  {
    hide WellFormed, RootPath, Extends, Received, LastOf, Replays, FedEither;
    if |mw| <= |mr| || mr == [] {
      FedInOrder(tree, tip, lw, lr, mw, mr);
      assert [] + mw == mw && [] + mr == mr;
    } else {
      ReplayExtends(tree, tip, lw, mw);
      ReplayEnds(tree, tip, lw, mw);
      ReplayEnds(tree, tip, lr, mr);
      BehindReceived(tree, tip, lw, lr, mw, mr);
    }
  }

  lemma FedFirstIsPrefix(tree: Tree, last: Hash, mw: seq<Hash>, mr: seq<Hash>)
    requires Extends(tree, last, mw)
    ensures ExtendsOrRepeats(tree, last, FedFirst(mw, mr) + mw)
  {
    var n := |FedFirst(mw, mr)|;
    assert FedFirst(mw, mr) == mw[..n];
    TwiceExtendsOrRepeats(tree, last, mw, n);
  }

  lemma LastOfConcat(last: Hash, first: seq<Hash>, blocks: seq<Hash>, end: Hash)
    requires LastOf(last, blocks) == end && (blocks == [] ==> first == [])
    ensures LastOf(last, first + blocks) == end
  {
  }

  lemma TwiceExtendsOrRepeats(tree: Tree, last: Hash, blocks: seq<Hash>, n: nat)
    requires Extends(tree, last, blocks) && n <= |blocks|
    ensures ExtendsOrRepeats(tree, last, blocks[..n] + blocks)
  {
    var all := blocks[..n] + blocks;
    forall j | 0 <= j < |all| ensures ExtendsAt(tree, last, all, j) || all[j] in all[..j] {
      if j < n {
        assert ExtendsAt(tree, last, blocks, j);
      } else if j == n {
        if n > 0 {
          assert all[0] == all[j] == all[..j][0];
        } else {
          assert ExtendsAt(tree, last, blocks, 0);
        }
      } else {
        assert ExtendsAt(tree, last, blocks, j - n);
        assert all[j - 1] == blocks[j - n - 1];
      }
    }
  }

  /**
   After downtime with both last blocks on the best chain, feeding the missed blocks keeps the invariant throughout and
   ends with both components at the tip, also when the Watcher was further behind and goes back once.
   */
  lemma CatchUpKeepsInv(
    world: World, tip: Hash, ts: seq<Tower>, es: seq<Event>, missedWatcher: seq<Hash>, missedResponder: seq<Hash>)
    requires WorldOk(world) && AreMoves(world, ts, es) && Inv(world, ts[0]) && tip in world.tree
    requires ts[0].lastKnown in world.tree && ts[0].responder.lastKnown in world.tree
    requires Replays(world.tree, tip, ts[0].lastKnown, missedWatcher)
    requires Replays(world.tree, tip, ts[0].responder.lastKnown, missedResponder)
    requires FedBy(es, FedEither(missedWatcher, missedResponder))
    ensures IsRun(world, ts, es) && forall k :: 0 <= k <= |es| ==> Inv(world, ts[k])
    ensures ts[|es|].lastKnown == tip == ts[|es|].responder.lastKnown
  {
    hide WellFormed, DistinctLocators, Injective, Inv, MoveAt, Received, RootPath, FedEither, Extends, Replays;
    var log := FedEither(missedWatcher, missedResponder);
    var lw, lr := ts[0].lastKnown, ts[0].responder.lastKnown;
    EitherReceived(world.tree, tip, lw, lr, missedWatcher, missedResponder);
    FedFirstIsPrefix(world.tree, lw, missedWatcher, missedResponder);
    LastOfConcat(lw, FedFirst(missedWatcher, missedResponder), missedWatcher, tip);
    LastOfConcat(lr, FedFirst(missedWatcher, missedResponder), missedResponder, tip);
    hide ExtendsOrRepeats, FedBy, LastOf, FedFirst;
    FedKeepsInv(world, ts, es, log);
    StandAtEnd(world, ts, es, log);
  }

  lemma StandAtEnd(world: World, ts: seq<Tower>, es: seq<Event>, log: seq<(Component, Hash)>)
    requires WorldOk(world) && AreMoves(world, ts, es) && FedBy(es, log)
    ensures ts[|es|].lastKnown == LastOf(ts[0].lastKnown, Received(TheWatcher, log))
    ensures ts[|es|].responder.lastKnown == LastOf(ts[0].responder.lastKnown, Received(TheResponder, log))
  {
    hide WorldOk, MoveAt, Received;
    assert log[..|es|] == log;
    StandAtLast(world, ts, es, log, |es|);
  }

  /**
   When the Watcher was further behind, the Responder is handed a block below its last one: it cannot go on unless it
   tracks nothing.
   */
  lemma BehindMeetsReorgPath(
    world: World, tip: Hash, t: Tower, lw: Hash, missedWatcher: seq<Hash>, missedResponder: seq<Hash>,
    getTx: Txid -> TxInfo, t': Tower)
    requires WellFormed(world.tree) && tip in world.tree && lw in world.tree && t.responder.lastKnown in world.tree
    requires Replays(world.tree, tip, lw, missedWatcher)
    requires Replays(world.tree, tip, t.responder.lastKnown, missedResponder)
    requires 0 < |missedResponder| < |missedWatcher| && t.responder.trackers != map[]
    ensures Received(TheResponder, FedEither(missedWatcher, missedResponder)) != []
    ensures Received(TheResponder, FedEither(missedWatcher, missedResponder))[0] == missedWatcher[0]
    ensures !ResponderBlock(world, t, t', missedWatcher[0], getTx)
  {
    BehindReceived(world.tree, tip, lw, t.responder.lastKnown, missedWatcher, missedResponder);
    ReplayExtends(world.tree, tip, lw, missedWatcher);
    assert ExtendsAt(world.tree, lw, missedWatcher, 0);
    ReplayIsSuffix(world.tree, tip, lw, missedWatcher);
    ReplayIsSuffix(world.tree, tip, t.responder.lastKnown, missedResponder);
    hide WellFormed, Received, FedEither, RootPath, Replays, Extends;
  }
}
