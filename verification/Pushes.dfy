/**
 Sending is not pushing: a penalty with a receipt that nothing has cleared since is not passed on to bitcoind, whether
 it is due again or a breach asks for it.
 */
module Pushes {
  import opened Basics
  import opened BlockTree
  import opened Carrier
  import opened LocatorCache
  import opened Responder
  import opened Gatekeeper
  import opened Slots
  import opened Breaches
  import opened TowerModel
  import opened Runs
  import opened Rebroadcasts
  import Expiry

  /** The Responder sends the penalty again and the Carrier, having no receipt for it, pushes it. */
  ghost predicate PushedBy(world: World, t: Tower, e: Event, p: Txid) {
    SentBy(world, t, e, p) && p !in t.issued
  }

  /** The penalties that get a receipt for a breach in this step, delivered or not. */
  ghost function IssuedBy(world: World, t: Tower, e: Event): set<Txid>
    requires WorldOk(world)
  {
    match e
    case WatcherSaw(h, _, entries) =>
      var valid := ValidPart(Verdicts(world.decrypt, entries));
      if h in world.tree && Searched(world, t, h) then PenaltyTxids(valid, valid.Keys) else {}
    case Requested(req, blockCount, net) =>
      if t.lastKnown !in world.tree then {}
      else
        var p := RequestPenalty(world, t, req, blockCount, net);
        if p.Some? then {p.value} else {}
    case _ => {}
  }

  /** The receipts are cleared: by a block the Responder does not skip, and by a restart. */
  ghost predicate Clears(t: Tower, e: Event) {
    Counted(t, e) || e.Restarted?
  }

  ghost function TimesPushed(world: World, ts: seq<Tower>, es: seq<Event>, p: Txid, i: nat, j: nat): nat
    requires i <= j <= |es| < |ts|
  {
    if i == j then 0
    else TimesPushed(world, ts, es, p, i, j - 1) + if PushedBy(world, ts[j - 1], es[j - 1], p) then 1 else 0
  }

  lemma WatcherIssues(world: World, t: Tower, t': Tower, h: Hash, net: Network, entries: seq<Entry>, p: Txid)
    requires WorldOk(world) && WatcherBlock(world, t, t', h, net, entries)
    ensures p in t'.issued <==> p in t.issued || p in IssuedBy(world, t, WatcherSaw(h, net, entries))
  {
    hide WellFormed, DistinctLocators, Injective, ListsBreached, Refund, Verdicts, OutdatedHere, NewTrackers, Delivered;
    hide PenaltyTxids, NewlyUnconfirmed;
  }

  lemma RequestIssues(world: World, t: Tower, req: Request, blockCount: int, net: Network, p: Txid)
    requires WorldOk(world) && t.lastKnown in world.tree
    ensures p in AddAppointment(world, t, req, blockCount, net).0.issued <==>
            p in t.issued || p in IssuedBy(world, t, Requested(req, blockCount, net))
  {
    hide WellFormed, DistinctLocators, Injective, CacheAt, Refusal, Charge, ReceiptFor;
  }

  /**
   A penalty has a receipt after a step exactly when it had one or the step handles a breach with it, and nothing
   clears them.
   */
  lemma IssuedStepIff(world: World, t: Tower, e: Event, t': Tower, p: Txid)
    requires WorldOk(world) && Move(world, t, e, t')
    ensures p in t'.issued <==> !Clears(t, e) && (p in t.issued || p in IssuedBy(world, t, e))
  {
    hide WorldOk, WatcherBlock, AddAppointment, IssuedBy;
    match e
    case WatcherSaw(h, net, entries) => WatcherIssues(world, t, t', h, net, entries, p);
    case Requested(req, blockCount, net) => RequestIssues(world, t, req, blockCount, net, p);
    case _ => OthersIssueNothing(world, t, e, t', p);
  }

  lemma OthersIssueNothing(world: World, t: Tower, e: Event, t': Tower, p: Txid)
    requires WorldOk(world) && Move(world, t, e, t') && !e.WatcherSaw? && !e.Requested?
    ensures p in t'.issued <==> !Clears(t, e) && (p in t.issued || p in IssuedBy(world, t, e))
  {
    hide WellFormed, DistinctLocators, Injective, Completed, Stuck, Due, Refund, Flatten, Expiry.GetOutdated;
  }

  /** How bitcoind behaves during the move. */
  function NetOf(e: Event): Network
    requires e.WatcherSaw? || e.Requested?
  {
    e.net
  }

  /** What bitcoind answers when a breach in this move asks it. */
  function AnswerTo(e: Event, p: Txid): Receipt
    requires e.WatcherSaw? || e.Requested?
  {
    ReceiptOf(NetOf(e).reply(p), NetOf(e).confirmations(p))
  }

  lemma IssuedNeedsNet(world: World, t: Tower, e: Event, p: Txid)
    requires WorldOk(world) && p in IssuedBy(world, t, e)
    ensures e.WatcherSaw? || e.Requested?
  {
  }

  /** The receipt a penalty is left with before the j-th move: the first answer since the receipts were last cleared. */
  ghost function ReceiptLeft(world: World, ts: seq<Tower>, es: seq<Event>, p: Txid, i: nat, j: nat): Option<Receipt>
    requires WorldOk(world) && i <= j <= |es| < |ts|
  {
    if i == j then if p in ts[i].issued then Some(ts[i].issued[p]) else None
    else if Clears(ts[j - 1], es[j - 1]) then None
    else
      var before := ReceiptLeft(world, ts, es, p, i, j - 1);
      if before.Some? then before
      else if p in IssuedBy(world, ts[j - 1], es[j - 1]) then
        (IssuedNeedsNet(world, ts[j - 1], es[j - 1], p); Some(AnswerTo(es[j - 1], p)))
      else None
  }

  ghost function Issued(t: Tower, p: Txid): Option<Receipt> {
    if p in t.issued then Some(t.issued[p]) else None
  }

  /** A move keeps a receipt, or notes what bitcoind answers, or clears it. */
  lemma IssuedStep(world: World, t: Tower, e: Event, t': Tower, p: Txid)
    requires WorldOk(world) && Move(world, t, e, t')
    ensures p in IssuedBy(world, t, e) ==> e.WatcherSaw? || e.Requested?
    ensures Issued(t', p) ==
            if Clears(t, e) then None
            else if Issued(t, p).Some? then Issued(t, p)
            else if p in IssuedBy(world, t, e) then Some(AnswerTo(e, p)) else None
  {
    hide WorldOk, WatcherBlock, AddAppointment, IssuedBy;
    IssuedStepIff(world, t, e, t', p);
    match e
    case WatcherSaw(h, net, entries) => WatcherReceipts(world, t, t', h, net, entries, p);
    case Requested(req, blockCount, net) => RequestReceipts(world, t, req, blockCount, net, p);
    case _ => OtherReceipts(world, t, e, t', p);
  }

  lemma WatcherReceipts(world: World, t: Tower, t': Tower, h: Hash, net: Network, entries: seq<Entry>, p: Txid)
    requires WatcherBlock(world, t, t', h, net, entries)
    ensures p in t'.issued ==> t'.issued[p] == ReceiptFor(t.issued, net, p)
  {
    hide ListsBreached, Refund, Verdicts, OutdatedHere, NewTrackers, Delivered, PenaltyTxids, NewlyUnconfirmed;
    hide LocatorMap;
  }

  lemma RequestReceipts(world: World, t: Tower, req: Request, blockCount: int, net: Network, p: Txid)
    requires WorldOk(world) && t.lastKnown in world.tree
    ensures var issued := AddAppointment(world, t, req, blockCount, net).0.issued;
            p in issued ==> issued[p] == ReceiptFor(t.issued, net, p)
  {
    hide WellFormed, DistinctLocators, Injective, CacheAt, Refusal, Charge;
  }

  lemma OtherReceipts(world: World, t: Tower, e: Event, t': Tower, p: Txid)
    requires WorldOk(world) && Move(world, t, e, t') && !e.WatcherSaw? && !e.Requested?
    ensures p in t'.issued ==> p in t.issued && t'.issued[p] == t.issued[p]
    ensures p !in IssuedBy(world, t, e)
  {
    hide WellFormed, DistinctLocators, Injective, Completed, Stuck, Due, Refund, Flatten, Expiry.GetOutdated;
  }

  lemma IssuedStepAt(world: World, ts: seq<Tower>, es: seq<Event>, k: nat, p: Txid)
    requires WorldOk(world) && |ts| == |es| + 1 && k < |es| && MoveAt(world, ts, es, k)
    ensures p in IssuedBy(world, ts[k], es[k]) ==> es[k].WatcherSaw? || es[k].Requested?
    ensures Issued(ts[k + 1], p) ==
            if Clears(ts[k], es[k]) then None
            else if Issued(ts[k], p).Some? then Issued(ts[k], p)
            else if p in IssuedBy(world, ts[k], es[k]) then Some(AnswerTo(es[k], p)) else None
  {
    hide WorldOk, Move, Clears, IssuedBy, Issued, AnswerTo;
    IssuedStep(world, ts[k], es[k], ts[k + 1], p);
  }

  lemma {:induction false} ReceiptIsLeft(world: World, ts: seq<Tower>, es: seq<Event>, p: Txid, i: nat, j: nat)
    requires WorldOk(world) && AreMoves(world, ts, es) && i <= j <= |es|
    ensures Issued(ts[j], p) == ReceiptLeft(world, ts, es, p, i, j)
    decreases j - i
  {
    hide WorldOk, MoveAt, Clears, IssuedBy, AnswerTo;
    if i < j {
      ReceiptIsLeft(world, ts, es, p, i, j - 1);
      IssuedStepAt(world, ts, es, j - 1, p);
    }
  }

  // ---------- Breaches ----------

  lemma DeliveredStepIff(world: World, t: Tower, e: Event, p: Txid)
    requires WorldOk(world)
    ensures p in DeliveredBy(world, t, e) <==>
            p in IssuedBy(world, t, e) && (e.WatcherSaw? || e.Requested?) && ReceiptFor(t.issued, NetOf(e), p).delivered
  {
    hide WorldOk, Verdicts, RequestPenalty, ReceiptFor, LocatorMap;
  }

  /**
   Over any moves, a breach has its penalty delivered exactly when bitcoind accepts it now or, while a receipt is left,
   when that first answer was an acceptance, whatever bitcoind would say now.
   */
  lemma DeliveredIff(world: World, ts: seq<Tower>, es: seq<Event>, p: Txid, i: nat, j: nat)
    requires WorldOk(world) && AreMoves(world, ts, es) && i <= j < |es| && p in IssuedBy(world, ts[j], es[j])
    ensures es[j].WatcherSaw? || es[j].Requested?
    ensures p in DeliveredBy(world, ts[j], es[j]) <==>
            match ReceiptLeft(world, ts, es, p, i, j)
            case Some(receipt) => receipt.delivered
            case None => AnswerTo(es[j], p).delivered
  {
    hide WorldOk, MoveAt, IssuedBy, DeliveredBy, ReceiptLeft;
    IssuedNeedsNet(world, ts[j], es[j], p);
    ReceiptIsLeft(world, ts, es, p, i, j);
    DeliveredStepIff(world, ts[j], es[j], p);
  }

  ghost predicate NeverCleared(ts: seq<Tower>, es: seq<Event>, i: nat, j: nat)
    requires i <= j <= |es| < |ts|
  {
    forall k :: i <= k < j ==> !Clears(ts[k], es[k])
  }

  /**
   A receipt is left, and the same, exactly until the Responder processes a block with trackers or the tower restarts.
   */
  lemma {:induction false} ReceiptSticksIff(world: World, ts: seq<Tower>, es: seq<Event>, p: Txid, i: nat, j: nat)
    requires WorldOk(world) && AreMoves(world, ts, es) && i <= j <= |es| && p in ts[i].issued
    ensures (forall k :: i <= k <= j ==> Issued(ts[k], p) == Issued(ts[i], p)) <==> NeverCleared(ts, es, i, j)
    decreases j - i
  {
    hide WorldOk, MoveAt, Clears, IssuedBy, AnswerTo;
    if i < j {
      ReceiptSticksIff(world, ts, es, p, i, j - 1);
      IssuedStepAt(world, ts, es, j - 1, p);
    }
  }

  /** While nothing is tracked and nothing restarts, a penalty refused once is refused to every breach. */
  lemma RefusalSticks(world: World, ts: seq<Tower>, es: seq<Event>, p: Txid, i: nat, j: nat)
    requires WorldOk(world) && AreMoves(world, ts, es) && i <= j < |es|
    requires p in ts[i].issued && !ts[i].issued[p].delivered && NeverCleared(ts, es, i, j)
    ensures p !in DeliveredBy(world, ts[j], es[j])
  {
    hide WorldOk, MoveAt, Clears, IssuedBy, DeliveredBy;
    ReceiptSticksIff(world, ts, es, p, i, j);
    assert Issued(ts[j], p) == Issued(ts[i], p);
    DeliveredStepIff(world, ts[j], es[j], p);
  }

  // ---------- Rebroadcasts ----------

  /**
   Over any moves, bitcoind gets a penalty every time it is sent again exactly when at none of these blocks a receipt is
   left from a breach since the receipts were last cleared.
   */
  lemma {:induction false} PushedWhenSentIff(world: World, ts: seq<Tower>, es: seq<Event>, p: Txid, i: nat, j: nat)
    requires WorldOk(world) && AreMoves(world, ts, es) && i <= j <= |es|
    ensures TimesPushed(world, ts, es, p, i, j) <= TimesSent(world, ts, es, p, i, j)
    ensures TimesPushed(world, ts, es, p, i, j) == TimesSent(world, ts, es, p, i, j) <==>
            forall k :: i <= k < j && SentBy(world, ts[k], es[k], p) ==> ReceiptLeft(world, ts, es, p, i, k).None?
    decreases j - i
  {
    hide WorldOk, MoveAt, SentBy, ReceiptLeft;
    if i < j {
      PushedWhenSentIff(world, ts, es, p, i, j - 1);
      ReceiptIsLeft(world, ts, es, p, i, j - 1);
    }
  }
}
