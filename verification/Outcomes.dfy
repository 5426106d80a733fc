/** What the tower does, said in terms of the chain, of bitcoind's replies and of the request alone. */
module Outcomes {
  import opened Basics
  import opened Records
  import opened BlockTree
  import opened LocatorCache
  import opened Carrier
  import opened Responder
  import opened Gatekeeper
  import opened Slots
  import opened Breaches
  import opened TowerModel
  import opened Invariants
  import opened BlockSteps
  import opened Runs
  import opened Lifecycle
  import Expiry

  // ---------- Which transaction triggers ----------

  /** The k-th transaction is the last one whose id begins with `l`. */
  predicate LastWith(txs: seq<Txid>, l: Locator, k: int) {
    0 <= k < |txs| && l <= txs[k] && forall m :: k < m < |txs| ==> !(l <= txs[m])
  }

  lemma {:induction false} MapIsPrefixes(txs: seq<Txid>, l: Locator)
    requires |l| == 32 && forall tx <- txs :: |tx| >= 32
    ensures l in LocatorMap(txs) <==> exists tx <- txs :: l <= tx
    ensures l in LocatorMap(txs) ==> LocatorMap(txs)[l] in txs && l <= LocatorMap(txs)[l]
    ensures forall k :: LastWith(txs, l, k) ==> l in LocatorMap(txs) && LocatorMap(txs)[l] == txs[k]
  {
    if tx :| tx in txs && l <= tx {
      assert ComputeLocator(tx) == l;
    }
    forall k | LastWith(txs, l, k)
      ensures l in LocatorMap(txs) && LocatorMap(txs)[l] == txs[k]
    {
      LastWithWins(txs, l, k);
    }
  }

  lemma {:induction false} LastWithWins(txs: seq<Txid>, l: Locator, k: int)
    requires |l| == 32 && (forall tx <- txs :: |tx| >= 32) && LastWith(txs, l, k)
    ensures l in LocatorMap(txs) && LocatorMap(txs)[l] == txs[k]
    decreases |txs|
  {
    hide LastWith, LocatorMap, ComputeLocator;
    var last := |txs| - 1;
    StillLastWith(txs, l, k);
    LastEntry(txs, l);
    if k < last {
      LastWithWins(txs[..last], l, k);
    }
  }

  lemma LastEntry(txs: seq<Txid>, l: Locator)
    requires |l| == 32 && txs != [] && |txs[|txs| - 1]| >= 32
    ensures l <= txs[|txs| - 1] ==> l in LocatorMap(txs) && LocatorMap(txs)[l] == txs[|txs| - 1]
    ensures !(l <= txs[|txs| - 1]) && l in LocatorMap(txs[..|txs| - 1]) ==>
              l in LocatorMap(txs) && LocatorMap(txs)[l] == LocatorMap(txs[..|txs| - 1])[l]
  {
    assert ComputeLocator(txs[|txs| - 1]) == l <==> l <= txs[|txs| - 1];
  }

  lemma StillLastWith(txs: seq<Txid>, l: Locator, k: int)
    requires LastWith(txs, l, k) && forall tx <- txs :: |tx| >= 32
    ensures 0 <= k < |txs| && |txs[|txs| - 1]| >= 32
    ensures if k == |txs| - 1 then l <= txs[k]
            else !(l <= txs[|txs| - 1]) && LastWith(txs[..|txs| - 1], l, k)
  {
    assert txs[|txs| - 1] in txs;
  }

  /**
   A watched appointment that is not outdated leaves the Watcher at a block exactly when its locator begins the id of
   some transaction of the block; if it is tracked then, its dispute is such a transaction.
   */
  lemma FoundByPrefixIff(world: World, t: Tower, t': Tower, h: Hash, net: Network, entries: seq<Entry>, u: Uuid)
    requires WorldOk(world) && Inv(world, t) && WatcherBlock(world, t, t', h, net, entries)
    requires u in t.appointments && u !in OutdatedHere(world, t, world.tree[h].height)
    requires |t.appointments[u].locator| == 32 && forall tx <- world.tree[h].txs :: |tx| >= 32
    ensures var l := t.appointments[u].locator;
            && (u !in t'.appointments <==> exists tx <- world.tree[h].txs :: l <= tx)
            && ((exists tx <- world.tree[h].txs :: l <= tx) ==> Searched(world, t, h) && u in Uuids(entries))
            && (u !in t'.appointments && u in t'.responder.trackers ==>
                  u in t'.view.r && t'.view.r[u].disputeTxid in world.tree[h].txs && l <= t'.view.r[u].disputeTxid)
  {
    MapIsPrefixes(world.tree[h].txs, t.appointments[u].locator);
    hide WorldOk, Inv, WatcherBlock, OutdatedHere, LocatorMap;
    if t.appointments[u].locator in LocatorMap(world.tree[h].txs) {
      TriggerIsActedOn(world, t, t', h, net, entries, u);
      var i := TriggeredIsListed(world, t, t', h, net, entries, u);
      assert entries[i] in entries;
    } else {
      UntriggeredIsLeftAlone(world, t, t', h, net, entries, u);
    }
  }

  /** The locator begins the id of a transaction of the i-th block up to `h`. */
  ghost predicate OccursAt(world: World, h: Hash, i: nat, l: Locator)
    requires WellFormed(world.tree) && h in world.tree && i <= world.tree[h].height
  {
    exists tx <- world.tree[RootPath(world.tree, h)[i]].txs :: l <= tx
  }

  /** The cache holds a locator exactly when it begins the id of a transaction of the last `cacheSize` blocks. */
  lemma CachedByPrefixIff(world: World, h: Hash, l: Locator)
    requires WorldOk(world) && h in world.tree && |l| == 32
    requires forall b <- world.tree :: forall tx <- world.tree[b].txs :: |tx| >= 32
    ensures l in CacheAt(world, h) <==>
            exists i: nat :: i <= world.tree[h].height < i + world.cacheSize && OccursAt(world, h, i, l)
    ensures l in CacheAt(world, h) ==> l <= CacheAt(world, h)[l]
  {
    hide WellFormed, DistinctLocators, Injective, CacheAt, OccursAt;
    CachedInWindow(world, h, l);
    if l in CacheAt(world, h) {
      CachedIsPrefix(world, h, l);
    }
  }

  lemma CachedInWindow(world: World, h: Hash, l: Locator)
    requires WorldOk(world) && h in world.tree && |l| == 32
    requires forall b <- world.tree :: forall tx <- world.tree[b].txs :: |tx| >= 32
    ensures l in CacheAt(world, h) <==>
            exists i: nat :: i <= world.tree[h].height < i + world.cacheSize && OccursAt(world, h, i, l)
  {
    hide DistinctLocators, Injective, WellFormed, LocatorMap, CacheOf, Window, OccursAt;
    var path, n := RootPath(world.tree, h), world.cacheSize;
    var window := Window(world.tree, h, n);
    WindowFacts(world.tree, h, n);
    CacheOfMember(world.tree, window, l);
    if l in CacheAt(world, h) {
      var b :| b in window && l in LocatorMap(world.tree[b].txs);
      var i := PlaceInWindow(world, h, b);
      OccursIff(world, h, i, l);
    }
    if i: nat :| i <= world.tree[h].height < i + n && OccursAt(world, h, i, l) {
      OccursIff(world, h, i, l);
      RecentInWindow(world, h, i);
    }
  }

  lemma OccursIff(world: World, h: Hash, i: nat, l: Locator)
    requires WellFormed(world.tree) && h in world.tree && i <= world.tree[h].height && |l| == 32
    requires forall b <- world.tree :: forall tx <- world.tree[b].txs :: |tx| >= 32
    ensures OccursAt(world, h, i, l) <==> l in LocatorMap(world.tree[RootPath(world.tree, h)[i]].txs)
  {
    hide WellFormed, LocatorMap;
    MapIsPrefixes(world.tree[RootPath(world.tree, h)[i]].txs, l);
  }

  lemma PlaceInWindow(world: World, h: Hash, b: Hash) returns (i: nat)
    requires WellFormed(world.tree) && h in world.tree && b in Window(world.tree, h, world.cacheSize)
    ensures i <= world.tree[h].height < i + world.cacheSize && RootPath(world.tree, h)[i] == b
  {
    hide WellFormed;
    var path, window := RootPath(world.tree, h), Window(world.tree, h, world.cacheSize);
    var k :| 0 <= k < |window| && window[k] == b;
    i := |path| - |window| + k;
  }

  lemma RecentInWindow(world: World, h: Hash, i: nat)
    requires WellFormed(world.tree) && h in world.tree && i <= world.tree[h].height < i + world.cacheSize
    ensures RootPath(world.tree, h)[i] in Window(world.tree, h, world.cacheSize)
  {
    hide WellFormed, RootPath;
    var path, window := RootPath(world.tree, h), Window(world.tree, h, world.cacheSize);
    assert window[i - (|path| - |window|)] == path[i];
  }

  lemma CachedIsPrefix(world: World, h: Hash, l: Locator)
    requires WorldOk(world) && h in world.tree && |l| == 32 && l in CacheAt(world, h)
    requires forall b <- world.tree :: forall tx <- world.tree[b].txs :: |tx| >= 32
    ensures l <= CacheAt(world, h)[l]
  {
    hide DistinctLocators, Injective, WellFormed, LocatorMap, CacheOf, RootPath;
    WindowFacts(world.tree, h, world.cacheSize);
    CacheAnswers(world.tree, h, world.cacheSize, l);
  }

  /**
   An admitted request is put among the watched appointments exactly when its locator begins no transaction id of the
   last `cacheSize` blocks; if it is tracked instead, its dispute is such a transaction.
   */
  lemma WatchedByPrefixIff(world: World, t: Tower, req: Request, blockCount: int, net: Network)
    requires WorldOk(world) && Inv(world, t) && Admitted(world, t, req, blockCount, net) && |req.locator| == 32
    requires forall b <- world.tree :: forall tx <- world.tree[b].txs :: |tx| >= 32
    ensures req.signer.Some?
    ensures var uuid := world.uuidOf(req.locator, req.signer.value);
            var t' := AddAppointment(world, t, req, blockCount, net).0;
            && (uuid !in t'.appointments <==>
                exists i: nat :: i <= world.tree[t.lastKnown].height < i + world.cacheSize
                                 && OccursAt(world, t.lastKnown, i, req.locator))
            && (uuid !in t'.appointments && uuid in t'.responder.trackers ==>
                  uuid in t'.view.r && req.locator <= t'.view.r[uuid].disputeTxid)
  {
    hide WorldOk, Inv, AddAppointment, Admitted, CacheAt, OccursAt;
    LastIsInTree(world, t);
    CachedByPrefixIff(world, t.lastKnown, req.locator);
    if req.locator in CacheAt(world, t.lastKnown) {
      CachedTriggerIsActedOn(world, t, req, blockCount, net);
    } else {
      AdmittedFacts(world, t, req, blockCount, net);
      UncachedIsWatched(world, t, req, blockCount, net);
    }
  }

  lemma LastIsInTree(world: World, t: Tower)
    requires WorldOk(world) && Inv(world, t)
    ensures WellFormed(world.tree) && t.lastKnown in world.tree
  {
  }

  /** A block without transactions only moves the Watcher on, even when appointments are outdated at it. */
  lemma EmptyBlockMovesOn(world: World, t: Tower, t': Tower, h: Hash, net: Network, entries: seq<Entry>)
    requires WatcherBlock(world, t, t', h, net, entries) && (world.tree[h].txs == [] || t.appointments == map[])
    ensures t' == t.(lastKnown := h, view := t.view.(bw := Some(h)))
  {
    var t1 := t'.(lastKnown := t.lastKnown, view := t'.view.(bw := t.view.bw));
    assert t1 == t;
    assert t' == t1.(lastKnown := h, view := t1.view.(bw := Some(h)));
  }

  /** An accepted request is stored as it was sent, with the height the Watcher had reached. */
  lemma StoredAsSent(world: World, t: Tower, req: Request, blockCount: int, net: Network)
    requires WorldOk(world) && Inv(world, t) && Admitted(world, t, req, blockCount, net)
    ensures req.signer.Some?
    ensures var uuid := world.uuidOf(req.locator, req.signer.value);
            var view := AddAppointment(world, t, req, blockCount, net).0.view;
            req.locator !in CacheAt(world, t.lastKnown) || uuid in view.r ==>
              uuid in view.w && view.w[uuid] == Appointment(
                req.locator, req.blob, req.toSelfDelay, req.signer.value, req.signature, world.tree[t.lastKnown].height)
  {
    hide WorldOk, Inv, AddAppointment, Admitted, CacheAt, Dropped;
    LastIsInTree(world, t);
    if req.locator in CacheAt(world, t.lastKnown) {
      CachedTriggerIsActedOn(world, t, req, blockCount, net);
      DroppedIsGone(AddAppointment(world, t, req, blockCount, net).0,
                    world.uuidOf(req.locator, req.signer.value));
    } else {
      AdmittedFacts(world, t, req, blockCount, net);
      UncachedIsWatched(world, t, req, blockCount, net);
    }
  }

  lemma DroppedIsGone(t: Tower, u: Uuid)
    ensures Dropped(t, u) ==> u !in t.view.w && u !in t.view.r
  {
  }

  /** What memory says about a stored appointment or a tracker is what is stored about it. */
  lemma MemorySummarises(world: World, t: Tower)
    requires WorldOk(world) && Inv(world, t)
    ensures forall u <- t.appointments ::
              u in t.view.w && t.appointments[u] == AppointmentSummary(t.view.w[u].locator, t.view.w[u].userId)
    ensures forall u <- t.responder.trackers ::
              u in t.view.r && t.responder.trackers[u] ==
                TrackerSummary(t.view.r[u].locator, t.view.r[u].userId, t.view.r[u].penaltyTxid)
  {
  }

  // ---------- What bitcoind's reply leads to ----------

  /**
   A breach whose penalty has no receipt is tracked exactly when bitcoind takes the penalty, or says -27 and reports a
   count; it is dropped otherwise. The penalty is followed as unconfirmed exactly when it was taken now or has no
   confirmation yet.
   */
  lemma BreachFollowsReply(world: World, t: Tower, t': Tower, h: Hash, net: Network, entries: seq<Entry>, i: nat)
    requires WorldOk(world) && Inv(world, t) && WatcherBlock(world, t, t', h, net, entries) && Searched(world, t, h)
    requires i < |entries| && Used(world.decrypt, entries, i).Some?
    requires Used(world.decrypt, entries, i).value.txid !in t.issued
    ensures var u, p := entries[i].uuid, Used(world.decrypt, entries, i).value.txid;
            && u !in t'.appointments
            && (u in t'.responder.trackers <==>
                net.reply(p) == Accepted || (net.reply(p) == RpcError(-27) && net.confirmations(p).Some?))
            && (u !in t'.responder.trackers ==> Dropped(t', u))
            && (p !in t.responder.unconfirmed ==>
                  (p in t'.responder.unconfirmed <==>
                   net.reply(p) == Accepted || (net.reply(p) == RpcError(-27) && net.confirmations(p) == Some(0))))
  {
    hide WorldOk, Inv, WatcherBlock, OutdatedHere, LocatorMap, ReceiptFor, Used, Searched;
    var e, p := entries[i], Used(world.decrypt, entries, i).value.txid;
    EntryIsTriggered(world, t, t', h, net, entries, i);
    AnsweredIff(world, t, t', h, net, entries, i);
    FreshFitsReply(t.issued, net, p);
    UnconfirmedByReceipt(world, t, t', h, net, entries, i);
    TriggerIsActedOn(world, t, t', h, net, entries, e.uuid);
  }

  lemma EntryIsTriggered(world: World, t: Tower, t': Tower, h: Hash, net: Network, entries: seq<Entry>, i: nat)
    requires WatcherBlock(world, t, t', h, net, entries) && Searched(world, t, h) && i < |entries|
    ensures var u := entries[i].uuid;
            && u in t.appointments && u !in OutdatedHere(world, t, world.tree[h].height)
            && t.appointments[u].locator in LocatorMap(world.tree[h].txs)
  {
    hide Disposed, OutdatedHere, LocatorMap, Verdicts;
    assert entries[i] in entries;
  }

  lemma UnconfirmedByReceipt(world: World, t: Tower, t': Tower, h: Hash, net: Network, entries: seq<Entry>, i: nat)
    requires WatcherBlock(world, t, t', h, net, entries) && Searched(world, t, h)
    requires i < |entries| && Used(world.decrypt, entries, i).Some?
    ensures var p := Used(world.decrypt, entries, i).value.txid;
            var receipt := ReceiptFor(t.issued, net, p);
            p !in t.responder.unconfirmed ==>
              (p in t'.responder.unconfirmed <==> receipt.delivered && receipt.confirmations == 0)
  {
    VerdictOf(world.decrypt, entries, i);
    hide ReceiptFor, OutdatedHere, LocatorMap, Verdicts, Used, Refund, Sent, NewTrackers, Searched;
    var verdicts := Verdicts(world.decrypt, entries);
    var p := Used(world.decrypt, entries, i).value.txid;
    var u := entries[i].uuid;
    var valid := ValidPart(verdicts);
    assert u in valid && valid[u].penalty.txid == p;
    var delivered := Delivered(valid, valid.Keys, t.issued, net);
    assert p in t'.responder.unconfirmed <==> p in Elems(t'.responder.unconfirmed);
    assert p in t.responder.unconfirmed <==> p in Elems(t.responder.unconfirmed);
  }

  /** The same for an admitted request whose trigger is cached. */
  lemma RequestFollowsReply(world: World, t: Tower, req: Request, blockCount: int, net: Network)
    requires WorldOk(world) && Inv(world, t) && Admitted(world, t, req, blockCount, net)
    requires req.locator in CacheAt(world, t.lastKnown)
    requires var penalty := world.decrypt(req.blob, CacheAt(world, t.lastKnown)[req.locator]);
             penalty.Some? && penalty.value.txid !in t.issued
    ensures req.signer.Some?
    ensures var uuid := world.uuidOf(req.locator, req.signer.value);
            var p := world.decrypt(req.blob, CacheAt(world, t.lastKnown)[req.locator]).value.txid;
            var t' := AddAppointment(world, t, req, blockCount, net).0;
            && uuid !in t'.appointments
            && (uuid in t'.responder.trackers <==>
                net.reply(p) == Accepted || (net.reply(p) == RpcError(-27) && net.confirmations(p).Some?))
            && (uuid !in t'.responder.trackers ==> Dropped(t', uuid))
            && (p !in t.responder.unconfirmed ==>
                  (p in t'.responder.unconfirmed <==>
                   net.reply(p) == Accepted || (net.reply(p) == RpcError(-27) && net.confirmations(p) == Some(0))))
  {
    var p := world.decrypt(req.blob, CacheAt(world, t.lastKnown)[req.locator]).value.txid;
    FreshFitsReply(t.issued, net, p);
    RequestUnconfirmed(world, t, req, blockCount, net);
    hide WorldOk, Inv, AddAppointment, Admitted, CacheAt, ReceiptFor;
    CachedTriggerIsActedOn(world, t, req, blockCount, net);
  }

  lemma RequestUnconfirmed(world: World, t: Tower, req: Request, blockCount: int, net: Network)
    requires WorldOk(world) && t.lastKnown in world.tree && Admitted(world, t, req, blockCount, net)
    requires req.locator in CacheAt(world, t.lastKnown)
    requires world.decrypt(req.blob, CacheAt(world, t.lastKnown)[req.locator]).Some?
    ensures var p := world.decrypt(req.blob, CacheAt(world, t.lastKnown)[req.locator]).value.txid;
            var receipt := ReceiptFor(t.issued, net, p);
            var t' := AddAppointment(world, t, req, blockCount, net).0;
            p !in t.responder.unconfirmed ==>
              (p in t'.responder.unconfirmed <==> receipt.delivered && receipt.confirmations == 0)
  {
    AdmittedFacts(world, t, req, blockCount, net);
    hide WellFormed, DistinctLocators, Injective, CacheAt, Admitted, AddAppointment, ReceiptFor, Charge;
  }

  // ---------- Why a request is refused ----------

  /** Each exception of a request, by its condition; the earlier check wins. */
  lemma RefusedBecause(world: World, t: Tower, req: Request, blockCount: int, net: Network)
    requires WorldOk(world) && t.lastKnown in world.tree
    ensures var r := AddAppointment(world, t, req, blockCount, net).1;
            var full := |t.appointments| >= world.maxAppointments;
            var known := req.signer.Some? && req.signer.value in t.gk.users;
            && (r == Raised(AppointmentLimitReached) <==> full)
            && (r == Raised(AuthenticationFailure) <==> !full && !known)
            && (known ==>
                  var user := t.gk.users[req.signer.value];
                  var uuid := world.uuidOf(req.locator, req.signer.value);
                  var expired := blockCount >= user.subscriptionExpiry;
                  var tracked := uuid in t.responder.trackers;
                  var free := user.availableSlots + if uuid in user.appointments then user.appointments[uuid] else 0;
                  && (r == Raised(SubscriptionExpired) <==> !full && expired)
                  && (r == Raised(AppointmentAlreadyTriggered) <==> !full && !expired && tracked)
                  && (r == Raised(NotEnoughSlots) <==>
                      !full && !expired && !tracked && 4096 * free < |req.blob|)
                  && (r.Ok? <==> !full && !expired && !tracked && 4096 * free >= |req.blob|))
  {
    hide WellFormed, DistinctLocators, Injective, Place, RequiredSlots;
    if req.signer.Some? && req.signer.value in t.gk.users {
      var user := t.gk.users[req.signer.value];
      var uuid := world.uuidOf(req.locator, req.signer.value);
      SlotsCover(|req.blob|, user.availableSlots + UsedSlots(user, uuid));
    }
  }

  lemma SlotsCover(length: nat, free: int)
    ensures RequiredSlots(length) <= free <==> 4096 * free >= length
  {
  }

  // ---------- When a tracker is resolved ----------

  /** The trackers that leave at a block, said without the list of completed ones. */
  lemma FinishedAtHundred(world: World, t: Tower, e: Event, u: Uuid)
    requires u in t.responder.trackers && e.ResponderSaw? && e.h in world.tree
    ensures var p := t.responder.trackers[u].penaltyTxid;
            Finished(world, t, e, u) <==>
            if p in t.responder.unconfirmed
            then u in Flatten(Expiry.GetOutdated(world.config, t.gk, world.tree[e.h].height))
            else e.getTx(p).OnChain? && e.getTx(p).confirmations >= 100
  {
    hide Flatten, Expiry.GetOutdated;
  }

  /** bitcoind counts the blocks from a transaction of the best chain up to its tip, both included. */
  ghost predicate CountsBlocks(tree: Tree, tip: Hash, getTx: Txid -> TxInfo)
    requires WellFormed(tree) && tip in tree
  {
    forall k: nat :: k <= tree[tip].height ==> CountsFrom(tree, tip, getTx, k)
  }

  ghost predicate CountsFrom(tree: Tree, tip: Hash, getTx: Txid -> TxInfo, k: nat)
    requires WellFormed(tree) && tip in tree && k <= tree[tip].height
  {
    forall p <- tree[RootPath(tree, tip)[k]].txs :: getTx(p) == OnChain(tree[tip].height - k + 1)
  }

  /** Whatever the Responder sees in this move, the penalty is confirmed by block `b` of the chain it stands on. */
  ghost predicate ConfirmedIn(world: World, t: Tower, e: Event, p: Txid, b: Hash)
    requires WorldOk(world)
  {
    e.ResponderSaw? && e.h in world.tree ==>
      && CountsBlocks(world.tree, e.h, e.getTx) && b in RootPath(world.tree, e.h)
      && b in world.tree && p in world.tree[b].txs && p !in t.responder.unconfirmed
  }

  lemma ConfirmedCounts(world: World, t: Tower, e: Event, p: Txid, b: Hash)
    requires WorldOk(world) && e.ResponderSaw? && e.h in world.tree && ConfirmedIn(world, t, e, p, b)
    ensures b in world.tree && e.getTx(p) == OnChain(world.tree[e.h].height - world.tree[b].height + 1)
  {
    hide DistinctLocators, Injective, WellFormed;
    AncestorPosition(world.tree, e.h, b);
    assert CountsFrom(world.tree, e.h, e.getTx, world.tree[b].height);
  }

  /** The block has fewer than a hundred blocks from `b` on. */
  predicate Shallow(world: World, e: Event, b: Hash) {
    e.ResponderSaw? && e.h in world.tree && b in world.tree ==>
      world.tree[e.h].height - world.tree[b].height + 1 < 100
  }

  lemma ShallowIff(world: World, t: Tower, e: Event, u: Uuid, b: Hash)
    requires WorldOk(world) && u in t.responder.trackers
    requires ConfirmedIn(world, t, e, t.responder.trackers[u].penaltyTxid, b)
    ensures Finished(world, t, e, u) <==> e.ResponderSaw? && e.h in world.tree && !Shallow(world, e, b)
  {
    hide WorldOk, ConfirmedIn, Finished;
    if e.ResponderSaw? && e.h in world.tree {
      ConfirmedCounts(world, t, e, t.responder.trackers[u].penaltyTxid, b);
      FinishedAtHundred(world, t, e, u);
      ConfirmedIsListed(world, t, e, t.responder.trackers[u].penaltyTxid, b);
    } else {
      NotFinished(world, t, e, u);
    }
  }

  lemma ConfirmedIsListed(world: World, t: Tower, e: Event, p: Txid, b: Hash)
    requires WorldOk(world) && e.ResponderSaw? && e.h in world.tree && ConfirmedIn(world, t, e, p, b)
    ensures p !in t.responder.unconfirmed
  {
  }

  lemma NotFinished(world: World, t: Tower, e: Event, u: Uuid)
    requires !e.ResponderSaw? || e.h !in world.tree
    ensures !Finished(world, t, e, u)
  {
  }

  /** A tracked appointment stays charged as it is, as long as it is not finished and its owner is registered. */
  lemma ChargeStays(world: World, t: Tower, e: Event, t': Tower, u: Uuid, id: UserId)
    requires WorldOk(world) && Inv(world, t) && Move(world, t, e, t') && u in t.responder.trackers
    requires !Finished(world, t, e, u)
    requires id in t.gk.users && id in t'.gk.users && u in t.gk.users[id].appointments
    ensures u in t'.gk.users[id].appointments
    ensures t'.gk.users[id].appointments[u] == t.gk.users[id].appointments[u]
  {
    hide WorldOk, WatcherBlock, ResponderBlock, AddAppointment, Finished, OnDisk, Sourced, Quiet, Charged, OwnCharges;
    match e
    case Requested(req, blockCount, net) => RequestKeepsCharge(world, t, req, blockCount, net, u, id);
    case WatcherSaw(h, net, entries) => SearchKeepsCharge(world, t, t', h, net, entries, u, id);
    case ResponderSaw(h, getTx) => ResponderKeepsCharge(world, t, t', h, getTx, u, id);
    case _ => OthersKeepCharge(world, t, e, t', u, id);
  }

  lemma OthersKeepCharge(world: World, t: Tower, e: Event, t': Tower, u: Uuid, id: UserId)
    requires WorldOk(world) && Move(world, t, e, t') && (e.Registered? || e.GatekeeperSaw? || e.Restarted?)
    requires id in t.gk.users && id in t'.gk.users && u in t.gk.users[id].appointments
    ensures u in t'.gk.users[id].appointments
    ensures t'.gk.users[id].appointments[u] == t.gk.users[id].appointments[u]
  {
    hide WorldOk, WatcherBlock, ResponderBlock, AddAppointment, Expiry.GetOutdated;
  }

  lemma RequestKeepsCharge(
    world: World, t: Tower, req: Request, blockCount: int, net: Network, u: Uuid, id: UserId)
    requires WorldOk(world) && t.lastKnown in world.tree && u in t.responder.trackers
    requires id in t.gk.users && u in t.gk.users[id].appointments
    ensures var users := AddAppointment(world, t, req, blockCount, net).0.gk.users;
            id in users && u in users[id].appointments
            && users[id].appointments[u] == t.gk.users[id].appointments[u]
  {
    hide WellFormed, DistinctLocators, Injective, CacheAt, Admitted, AddAppointment, Place, RequiredSlots;
    if Admitted(world, t, req, blockCount, net) {
      AdmittedFacts(world, t, req, blockCount, net);
      var uuid := world.uuidOf(req.locator, req.signer.value);
      var charged := t.(gk := t.gk.(users := Charge(t.gk.users, req.signer.value, uuid, |req.blob|).value));
      PlaceKeepsUsers(world, charged, uuid, Extended(world, t, req), net);
    } else {
      RefusedChangesNothing(world, t, req, blockCount, net);
    }
  }

  lemma PlaceKeepsUsers(world: World, t: Tower, uuid: Uuid, a: Appointment, net: Network)
    requires WellFormed(world.tree) && t.lastKnown in world.tree
    ensures Place(world, t, uuid, a, net).gk == t.gk
  {
    hide WellFormed, CacheAt;
  }

  lemma SearchKeepsCharge(
    world: World, t: Tower, t': Tower, h: Hash, net: Network, entries: seq<Entry>, u: Uuid, id: UserId)
    requires WatcherBlock(world, t, t', h, net, entries) && MemoryOk(t) && u in t.responder.trackers
    requires id in t.gk.users && u in t.gk.users[id].appointments
    ensures id in t'.gk.users && u in t'.gk.users[id].appointments
    ensures t'.gk.users[id].appointments[u] == t.gk.users[id].appointments[u]
  {
    hide ListsBreached, OutdatedHere, Verdicts, Sent, NewTrackers, NewlyUnconfirmed, Delivered, LocatorMap;
  }

  lemma ResponderKeepsCharge(
    world: World, t: Tower, t': Tower, h: Hash, getTx: Txid -> TxInfo, u: Uuid, id: UserId)
    requires ResponderBlock(world, t, t', h, getTx) && u in t.responder.trackers
    requires !Finished(world, t, ResponderSaw(h, getTx), u)
    requires id in t.gk.users && u in t.gk.users[id].appointments
    ensures id in t'.gk.users && u in t'.gk.users[id].appointments
    ensures t'.gk.users[id].appointments[u] == t.gk.users[id].appointments[u]
  {
    hide Due, Penalties, Flatten, Expiry.GetOutdated, IsCompleted;
  }

  ghost predicate ChargedAt(ts: seq<Tower>, k: nat, u: Uuid, id: UserId)
    requires k < |ts|
  {
    id in ts[k].gk.users && u in ts[k].gk.users[id].appointments
  }

  lemma ChargeStaysAt(world: World, ts: seq<Tower>, es: seq<Event>, k: nat, u: Uuid, id: UserId)
    requires WorldOk(world) && |ts| == |es| + 1 && k < |es| && StepAt(world, ts, es, k) && Inv(world, ts[k])
    requires u in ts[k].responder.trackers && !Finished(world, ts[k], es[k], u)
    requires ChargedAt(ts, k, u, id) && id in ts[k + 1].gk.users
    ensures ChargedAt(ts, k + 1, u, id)
    ensures ts[k + 1].gk.users[id].appointments[u] == ts[k].gk.users[id].appointments[u]
  {
    hide WorldOk, Inv, Move, OverlooksNothing, Finished;
    ChargeStays(world, ts[k], es[k], ts[k + 1], u, id);
  }

  /** From `i` to `j`, whenever the Responder sees a block, `p` is confirmed by block `b` of its chain. */
  ghost predicate StaysConfirmed(world: World, ts: seq<Tower>, es: seq<Event>, p: Txid, b: Hash, i: nat, j: nat)
    requires WorldOk(world) && i <= j <= |es| < |ts|
  {
    forall k :: i <= k < j ==> ConfirmedIn(world, ts[k], es[k], p, b)
  }

  ghost predicate AllShallow(world: World, es: seq<Event>, b: Hash, i: nat, j: nat)
    requires i <= j <= |es|
  {
    forall k :: i <= k < j ==> Shallow(world, es[k], b)
  }

  /**
   A tracker whose penalty is confirmed by a block stays through every block processed less than a hundred blocks deep,
   with its appointment and, while its owner is registered, its charge.
   */
  lemma {:induction false} KeptBelowHundred(
    world: World, ts: seq<Tower>, es: seq<Event>, u: Uuid, b: Hash, i: nat, j: nat)
    requires WorldOk(world) && IsRun(world, ts, es) && Inv(world, ts[0]) && i <= j <= |es|
    requires u in ts[i].responder.trackers
    requires StaysConfirmed(world, ts, es, ts[i].responder.trackers[u].penaltyTxid, b, i, j)
    requires AllShallow(world, es, b, i, j)
    ensures u in ts[j].responder.trackers && u in ts[i].view.w && u in ts[j].view.w
    ensures ts[j].responder.trackers[u] == ts[i].responder.trackers[u] && ts[j].view.w[u] == ts[i].view.w[u]
    ensures forall id :: (forall k :: i <= k <= j ==> id in ts[k].gk.users) && ChargedAt(ts, i, u, id) ==>
              ChargedAt(ts, j, u, id)
              && ts[j].gk.users[id].appointments[u] == ts[i].gk.users[id].appointments[u]
    decreases j - i
  {
    hide WorldOk, Inv, StepAt, ConfirmedIn, Shallow, Finished;
    RunKeepsInv(world, ts, es, i);
    TrackedIsStored(world, ts[i], u);
    if i < j {
      ShallowIff(world, ts[i], es[i], u, b);
      TrackedStepAt(world, ts, es, i, u);
      RunKeepsInv(world, ts, es, i + 1);
      SameTracker(world, ts[i], ts[i + 1], u);
      KeptBelowHundred(world, ts, es, u, b, i + 1, j);
      forall id | (forall k :: i <= k <= j ==> id in ts[k].gk.users) && ChargedAt(ts, i, u, id)
        ensures ChargedAt(ts, j, u, id)
                && ts[j].gk.users[id].appointments[u] == ts[i].gk.users[id].appointments[u]
      {
        ChargeStaysAt(world, ts, es, i, u, id);
      }
    }
  }

  lemma SameTracker(world: World, t: Tower, t': Tower, u: Uuid)
    requires WorldOk(world) && Inv(world, t) && Inv(world, t') && u in t.responder.trackers
    requires u in t.view.r && u in t.view.w && KeepsTracked(t, t', u)
    ensures u in t'.responder.trackers
    ensures t'.responder.trackers[u] == t.responder.trackers[u]
  {
    hide WellFormed, DistinctLocators, Injective, Sourced, Quiet, Charged, OwnCharges;
  }

  /** It leaves, with everything stored about it, at the first block processed a hundred blocks deep. */
  lemma ResolvedAtHundred(world: World, ts: seq<Tower>, es: seq<Event>, u: Uuid, b: Hash, i: nat, j: nat)
    requires WorldOk(world) && IsRun(world, ts, es) && Inv(world, ts[0]) && i <= j < |es|
    requires u in ts[i].responder.trackers
    requires StaysConfirmed(world, ts, es, ts[i].responder.trackers[u].penaltyTxid, b, i, j + 1)
    requires AllShallow(world, es, b, i, j)
    requires es[j].ResponderSaw? && es[j].h in world.tree && b in world.tree
    requires world.tree[es[j].h].height - world.tree[b].height + 1 >= 100
    ensures u in ts[j].responder.trackers && Dropped(ts[j + 1], u)
  {
    hide WorldOk, Inv, StepAt, ConfirmedIn, Finished, Dropped;
    KeptBelowHundred(world, ts, es, u, b, i, j);
    RunKeepsInv(world, ts, es, j);
    ShallowIff(world, ts[j], es[j], u, b);
    TrackedStepAt(world, ts, es, j, u);
  }
}
