/** The tower as one value, and what each of its steps does to that value. */
module TowerModel {
  import opened Basics
  import opened Records
  import opened BlockTree
  import opened LocatorCache
  import opened AppointmentsDb
  import opened Carrier
  import opened Responder
  import opened Gatekeeper
  import opened Slots
  import opened Breaches
  import Cleaner
  import Expiry

  /** What the tower is configured with and what it relies on: the chain, hashing and decryption. */
  datatype World = World(
    tree: Tree, cacheSize: nat, maxAppointments: nat, config: Config,
    uuidOf: (Locator, UserId) -> Uuid, decrypt: Decrypt)

  /** Hashing a locator with a user id never collides. */
  ghost predicate Injective(uuidOf: (Locator, UserId) -> Uuid) {
    forall l1, u1, l2, u2 :: uuidOf(l1, u1) == uuidOf(l2, u2) ==> l1 == l2 && u1 == u2
  }

  ghost predicate WorldOk(world: World) {
    WellFormed(world.tree) && DistinctLocators(world.tree) && Injective(world.uuidOf)
  }

  /**
   Memory and disk together. The indexes and the locator cache are left out: they are determined by what is here.
   */
  datatype Tower = TowerState(
    appointments: map<Uuid, AppointmentSummary>, lastKnown: Hash,
    responder: ResponderState, issued: map<Txid, Receipt>, gk: Expiry.State, view: View)

  /** The locators of the last blocks the Watcher has processed. */
  ghost function CacheAt(world: World, h: Hash): map<Locator, Txid>
    requires WellFormed(world.tree) && h in world.tree
  {
    WindowFacts(world.tree, h, world.cacheSize);
    CacheOf(world.tree, Window(world.tree, h, world.cacheSize))
  }

  function TrackerFor(b: Breach, userId: UserId): Tracker {
    Tracker(b.locator, b.disputeTxid, b.penalty.txid, b.penalty.rawtx, userId)
  }

  // ---------- A block at the Watcher ----------

  /** The breaches among `uuids` whose penalty bitcoind accepts. */
  function Delivered(valid: map<Uuid, Breach>, uuids: set<Uuid>, issued: map<Txid, Receipt>, net: Network): set<Uuid> {
    set u | u in uuids && u in valid && ReceiptFor(issued, net, valid[u].penalty.txid).delivered
  }

  function NewTrackers(
    valid: map<Uuid, Breach>, appointments: map<Uuid, AppointmentSummary>, delivered: set<Uuid>): map<Uuid, Tracker>
  {
    map u | u in delivered && u in valid && u in appointments :: TrackerFor(valid[u], appointments[u].userId)
  }

  function Summaries(trackers: map<Uuid, Tracker>): map<Uuid, TrackerSummary> {
    map u | u in trackers :: trackers[u].Summary()
  }

  function PenaltyTxids(valid: map<Uuid, Breach>, uuids: set<Uuid>): set<Txid> {
    set u | u in uuids && u in valid :: valid[u].penalty.txid
  }

  /** Penalties that were accepted without being on the chain yet. */
  function NewlyUnconfirmed(
    valid: map<Uuid, Breach>, delivered: set<Uuid>, issued: map<Txid, Receipt>, net: Network): set<Txid>
  {
    set u | u in delivered && u in valid && ReceiptFor(issued, net, valid[u].penalty.txid).confirmations == 0
      :: valid[u].penalty.txid
  }

  function ValidPart(verdicts: map<Uuid, Option<Breach>>): map<Uuid, Breach> {
    map u | u in verdicts && verdicts[u].Some? :: verdicts[u].value
  }

  function InvalidPart(verdicts: map<Uuid, Option<Breach>>): set<Uuid> {
    set u | u in verdicts && verdicts[u].None?
  }

  function EntryFor(view: View, lmap: map<Locator, Txid>, u: Uuid, l: Locator): Entry
    requires u in view.w && l in lmap
  {
    Entry(u, l, view.w[u].blob, lmap[l])
  }

  /** `entries` lists the breached appointments, each once. */
  ghost predicate ListsBreached(
    entries: seq<Entry>, appointments: map<Uuid, AppointmentSummary>, view: View, lmap: map<Locator, Txid>)
  {
    && DistinctUuids(entries)
    && (forall e <- entries ::
          && e.uuid in appointments && e.uuid in view.w && appointments[e.uuid].locator in lmap
          && e == EntryFor(view, lmap, e.uuid, appointments[e.uuid].locator))
    && Uuids(entries) == set u | u in appointments && appointments[u].locator in lmap
  }

  /** Users of the dropped appointments, to be refunded. */
  function AppointmentOwners(appointments: map<Uuid, AppointmentSummary>, uuids: set<Uuid>): map<Uuid, UserId> {
    map u | u in appointments && u in uuids :: appointments[u].userId
  }

  function OutdatedHere(world: World, t: Tower, height: int): set<Uuid> {
    Flatten(Expiry.GetOutdated(world.config, t.gk, height)) * t.appointments.Keys
  }

  /** A block is searched when something is watched and the block has transactions. */
  predicate Searched(world: World, t: Tower, h: Hash)
    requires h in world.tree
  {
    t.appointments != map[] && LocatorMap(world.tree[h].txs) != map[]
  }

  /** What the Watcher does with the verdicts on the breached appointments, after `gone` was deleted. */
  ghost predicate Disposed(t: Tower, t': Tower, gone: set<Uuid>, verdicts: map<Uuid, Option<Breach>>, net: Network) {
    var valid := ValidPart(verdicts);
    var delivered := Delivered(valid, valid.Keys, t.issued, net);
    var dropped := verdicts.Keys - delivered;
    var newTrackers := NewTrackers(valid, t.appointments, delivered);
    && t'.appointments == t.appointments - gone - verdicts.Keys
    && t'.lastKnown == t.lastKnown
    && t'.responder.trackers == t.responder.trackers + Summaries(newTrackers)
    && t'.responder.missed == t.responder.missed && t'.responder.lastKnown == t.responder.lastKnown
    && NoDup(t'.responder.unconfirmed)
    && Elems(t'.responder.unconfirmed) ==
         Elems(t.responder.unconfirmed) + NewlyUnconfirmed(valid, delivered, t.issued, net)
    && t'.issued == Sent(t.issued, net, PenaltyTxids(valid, valid.Keys))
    && t'.gk == t.gk.(users := Refund(t.gk.users, AppointmentOwners(t.appointments, dropped)))
    && t'.view == t.view.(w := t.view.w - gone - dropped, r := t.view.r + newTrackers, ta := t.view.ta + delivered)
  }

  /** One iteration of the delivery loop: a delivered appointment leaves the Watcher. */
  ghost predicate HandedOne(t: Tower, t': Tower, u: Uuid, breach: Breach, net: Network)
    requires u in t.appointments
  {
    && HandledByResponder(t, t', u, breach, net)
    && t'.appointments ==
         if ReceiptFor(t.issued, net, breach.penalty.txid).delivered then t.appointments - {u} else t.appointments
  }

  /** The Responder's part of an iteration. */
  ghost predicate HandledByResponder(t: Tower, t': Tower, u: Uuid, breach: Breach, net: Network)
    requires u in t.appointments
  {
    var receipt := ReceiptFor(t.issued, net, breach.penalty.txid);
    var tracker := TrackerFor(breach, t.appointments[u].userId);
    && t'.lastKnown == t.lastKnown && t'.gk == t.gk
    && t'.issued == t.issued[breach.penalty.txid := receipt]
    && t'.responder.missed == t.responder.missed && t'.responder.lastKnown == t.responder.lastKnown
    && NoDup(t'.responder.unconfirmed)
    && if receipt.delivered then
         && t'.responder.trackers == t.responder.trackers[u := tracker.Summary()]
         && t'.view == t.view.(r := t.view.r[u := tracker])
         && Elems(t'.responder.unconfirmed) ==
              Elems(t.responder.unconfirmed) + (if receipt.confirmations == 0 then {breach.penalty.txid} else {})
       else
         t'.responder == t.responder && t'.view == t.view
  }

  /** The trackers of the delivered breaches are added, in memory and on disk. */
  ghost predicate TrackersAdded(t: Tower, t': Tower, valid: map<Uuid, Breach>, delivered: set<Uuid>) {
    var newTrackers := NewTrackers(valid, t.appointments, delivered);
    && t'.responder.trackers == t.responder.trackers + Summaries(newTrackers)
    && t'.view == t.view.(r := t.view.r + newTrackers)
  }

  /** The delivered breaches leave the Watcher; those not yet on the chain are unconfirmed. */
  ghost predicate BreachesLeft(t: Tower, t': Tower, valid: map<Uuid, Breach>, delivered: set<Uuid>, net: Network) {
    && t'.lastKnown == t.lastKnown && t'.gk == t.gk
    && t'.responder.missed == t.responder.missed && t'.responder.lastKnown == t.responder.lastKnown
    && t'.appointments == t.appointments - delivered
    && NoDup(t'.responder.unconfirmed)
    && Elems(t'.responder.unconfirmed) ==
         Elems(t.responder.unconfirmed) + NewlyUnconfirmed(valid, delivered, t.issued, net)
  }

  /** The delivery loop after the breaches in `done`. */
  ghost predicate Handed(t: Tower, t': Tower, valid: map<Uuid, Breach>, done: set<Uuid>, net: Network) {
    var delivered := Delivered(valid, done, t.issued, net);
    && t'.issued == Sent(t.issued, net, PenaltyTxids(valid, done))
    && TrackersAdded(t, t', valid, delivered)
    && BreachesLeft(t, t', valid, delivered, net)
  }

  lemma DeliveredOneMore(valid: map<Uuid, Breach>, done: set<Uuid>, u: Uuid, issued: map<Txid, Receipt>, net: Network)
    requires u in valid && u !in done
    ensures var receipt := ReceiptFor(issued, net, valid[u].penalty.txid);
            && Delivered(valid, done + {u}, issued, net) ==
                 Delivered(valid, done, issued, net) + (if receipt.delivered then {u} else {})
            && u !in Delivered(valid, done, issued, net)
            && PenaltyTxids(valid, done + {u}) == PenaltyTxids(valid, done) + {valid[u].penalty.txid}
  {
  }

  lemma NewTrackersOneMore(
    valid: map<Uuid, Breach>, appointments: map<Uuid, AppointmentSummary>, delivered: set<Uuid>, u: Uuid)
    requires u in valid && u in appointments && u !in delivered
    ensures var tracker := TrackerFor(valid[u], appointments[u].userId);
            && NewTrackers(valid, appointments, delivered + {u}) ==
                 NewTrackers(valid, appointments, delivered)[u := tracker]
            && Summaries(NewTrackers(valid, appointments, delivered + {u})) ==
                 Summaries(NewTrackers(valid, appointments, delivered))[u := tracker.Summary()]
  {
  }

  lemma NewlyUnconfirmedOneMore(
    valid: map<Uuid, Breach>, delivered: set<Uuid>, u: Uuid, issued: map<Txid, Receipt>, net: Network)
    requires u in valid && u !in delivered
    ensures NewlyUnconfirmed(valid, delivered + {u}, issued, net) ==
            NewlyUnconfirmed(valid, delivered, issued, net) +
            if ReceiptFor(issued, net, valid[u].penalty.txid).confirmations == 0 then {valid[u].penalty.txid} else {}
  {
  }

  lemma TrackersOneMore(t0: Tower, t: Tower, t': Tower, valid: map<Uuid, Breach>, delivered: set<Uuid>, u: Uuid)
    requires u in valid && u in t0.appointments && u !in delivered
    requires TrackersAdded(t0, t, valid, delivered)
    requires var tracker := TrackerFor(valid[u], t0.appointments[u].userId);
             && t'.responder.trackers == t.responder.trackers[u := tracker.Summary()]
             && t'.view == t.view.(r := t.view.r[u := tracker])
    ensures TrackersAdded(t0, t', valid, delivered + {u})
  {
    NewTrackersOneMore(valid, t0.appointments, delivered, u);
    var tracker := TrackerFor(valid[u], t0.appointments[u].userId);
    UnionUpdate(t0.responder.trackers, Summaries(NewTrackers(valid, t0.appointments, delivered)), u, tracker.Summary());
    UnionUpdate(t0.view.r, NewTrackers(valid, t0.appointments, delivered), u, tracker);
  }

  lemma LeftOneMore(
    t0: Tower, t: Tower, t': Tower, valid: map<Uuid, Breach>, delivered: set<Uuid>, u: Uuid, net: Network)
    requires u in valid && u in t.appointments && u !in delivered
    requires BreachesLeft(t0, t, valid, delivered, net) && HandedOne(t, t', u, valid[u], net)
    requires ReceiptFor(t.issued, net, valid[u].penalty.txid) == ReceiptFor(t0.issued, net, valid[u].penalty.txid)
    requires ReceiptFor(t.issued, net, valid[u].penalty.txid).delivered
    ensures BreachesLeft(t0, t', valid, delivered + {u}, net)
  {
    NewlyUnconfirmedOneMore(valid, delivered, u, t0.issued, net);
    assert t0.appointments - delivered - {u} == t0.appointments - (delivered + {u});
  }

  lemma HandedOneMore(t0: Tower, t: Tower, t': Tower, valid: map<Uuid, Breach>, done: set<Uuid>, u: Uuid, net: Network)
    requires valid.Keys <= t0.appointments.Keys && u in valid && u !in done
    requires Handed(t0, t, valid, done, net) && u in t.appointments && HandedOne(t, t', u, valid[u], net)
    ensures Handed(t0, t', valid, done + {u}, net)
  {
    var delivered := Delivered(valid, done, t0.issued, net);
    DeliveredOneMore(valid, done, u, t0.issued, net);
    SentOneMore(t0.issued, net, PenaltyTxids(valid, done), valid[u].penalty.txid);
    assert t.appointments[u] == t0.appointments[u];
    if ReceiptFor(t0.issued, net, valid[u].penalty.txid).delivered {
      TrackersOneMore(t0, t, t', valid, delivered, u);
      LeftOneMore(t0, t, t', valid, delivered, u, net);
    } else {
      assert Delivered(valid, done + {u}, t0.issued, net) == delivered;
    }
  }

  /** No appointment is both watched and tracked, and watched ones are stored. */
  ghost predicate MemoryOk(t: Tower) {
    && t.appointments.Keys !! t.responder.trackers.Keys
    && forall u <- t.appointments :: u in t.view.w && t.appointments[u] == t.view.w[u].Summary()
  }

  lemma HandedOneKeepsMemory(t: Tower, t': Tower, u: Uuid, breach: Breach, net: Network)
    requires MemoryOk(t) && u in t.appointments && HandedOne(t, t', u, breach, net)
    ensures MemoryOk(t')
  {
  }

  lemma UnionUpdate<K, V>(a: map<K, V>, b: map<K, V>, k: K, v: V)
    ensures (a + b)[k := v] == a + b[k := v]
  {
  }

  lemma HandedNothing(t: Tower, valid: map<Uuid, Breach>, net: Network)
    requires NoDup(t.responder.unconfirmed)
    ensures Handed(t, t, valid, {}, net)
  {
    SentNothing(t.issued, net);
    assert PenaltyTxids(valid, {}) == {};
    assert t.responder.trackers + Summaries(NewTrackers(valid, t.appointments, {})) == t.responder.trackers;
  }

  /** Outdated appointments leave first. */
  function WithoutOutdated(t: Tower, gone: set<Uuid>): Tower {
    t.(appointments := t.appointments - gone, view := t.view.(w := t.view.w - gone))
  }

  /** After the delivery loop: flags are set, and what was invalid or refused is deleted and refunded. */
  ghost function Settle(t: Tower, delivered: set<Uuid>, dropped: set<Uuid>): Tower {
    t.(
      appointments := t.appointments - dropped,
      gk := t.gk.(users := Refund(t.gk.users, AppointmentOwners(t.appointments, dropped))),
      view := t.view.(w := t.view.w - dropped, ta := t.view.ta + delivered))
  }

  /** The three parts of a search dispose of every verdict. */
  lemma DisposedInParts(
    t0: Tower, t2: Tower, gone: set<Uuid>, verdicts: map<Uuid, Option<Breach>>, net: Network)
    requires verdicts.Keys <= t0.appointments.Keys - gone
    requires var valid := ValidPart(verdicts);
             Handed(WithoutOutdated(t0, gone), t2, valid, valid.Keys, net)
    ensures var valid := ValidPart(verdicts);
            var delivered := Delivered(valid, valid.Keys, t0.issued, net);
            Disposed(t0, Settle(t2, delivered, verdicts.Keys - delivered), gone, verdicts, net)
  {
    hide Refund, ReceiptFor, NewlyUnconfirmed, Sent;
    var t1 := WithoutOutdated(t0, gone);
    var valid := ValidPart(verdicts);
    var delivered := Delivered(valid, valid.Keys, t0.issued, net);
    var dropped := verdicts.Keys - delivered;
    assert NewTrackers(valid, t1.appointments, delivered) == NewTrackers(valid, t0.appointments, delivered);
    assert AppointmentOwners(t2.appointments, dropped) == AppointmentOwners(t0.appointments, dropped);
    assert t0.appointments - gone - delivered - dropped == t0.appointments - gone - verdicts.Keys;
  }

  ghost predicate WatcherBlock(world: World, t: Tower, t': Tower, h: Hash, net: Network, entries: seq<Entry>) {
    && h in world.tree && t'.lastKnown == h && t'.view.bw == Some(h)
    && var t1 := t'.(lastKnown := t.lastKnown, view := t'.view.(bw := t.view.bw));
    if !Searched(world, t, h) then t1 == t
    else
      var gone := OutdatedHere(world, t, world.tree[h].height);
      && ListsBreached(entries, t.appointments - gone, t.view, LocatorMap(world.tree[h].txs))
      && Disposed(t, t1, gone, Verdicts(world.decrypt, entries), net)
  }

  // ---------- A block at the Responder and at the Gatekeeper ----------

  ghost predicate ResponderBlock(world: World, t: Tower, t': Tower, h: Hash, getTx: Txid -> TxInfo) {
    && h in world.tree
    && var block := world.tree[h];
    if t.responder.trackers == map[] then
      t' == t.(responder := t.responder.(lastKnown := h), view := t.view.(br := Some(h)))
    else
      var outdated := Flatten(Expiry.GetOutdated(world.config, t.gk, block.height));
      var completed := Completed(t.responder.trackers, t.responder.unconfirmed, getTx);
      var gone := completed + Stuck(outdated, t.responder.trackers, t.responder.unconfirmed);
      && block.prev == Some(t.responder.lastKnown)
      && outdated <= t.responder.trackers.Keys
      && Due(t.responder, block.txs) <= Penalties(t.responder.trackers - gone)
      && t' == t.(
           responder := NextState(t.responder, block.txs, gone, h),
           issued := map[],
           gk := t.gk.(users := Refund(t.gk.users, Owners(t.responder.trackers, completed))),
           view := Cleaner.WithoutTrackers(t.view, gone).(br := Some(h)))
  }

  /**
   What a block leaves behind at which the Responder raises: nothing, when an outdated appointment is untracked; else
   everything but the last known block, with the counters and the receipts in any state.
   */
  ghost predicate FailedBlock(world: World, t: Tower, t': Tower, h: Hash, getTx: Txid -> TxInfo) {
    && h in world.tree && t.responder.trackers != map[] && world.tree[h].prev == Some(t.responder.lastKnown)
    && var block := world.tree[h];
    var outdated := Flatten(Expiry.GetOutdated(world.config, t.gk, block.height));
    var completed := Completed(t.responder.trackers, t.responder.unconfirmed, getTx);
    var gone := completed + Stuck(outdated, t.responder.trackers, t.responder.unconfirmed);
    if !(outdated <= t.responder.trackers.Keys) then t' == t
    else
      && !(Due(t.responder, block.txs) <= Penalties(t.responder.trackers - gone))
      && t' == t.(
           responder := NextState(t.responder, block.txs, gone, t.responder.lastKnown).(missed := t'.responder.missed),
           issued := t'.issued,
           gk := t.gk.(users := Refund(t.gk.users, Owners(t.responder.trackers, completed))),
           view := Cleaner.WithoutTrackers(t.view, gone))
  }

  ghost predicate GatekeeperBlock(world: World, t: Tower, t': Tower, height: int) {
    match Expiry.Block(world.config, t.gk, height)
    case Ok(g) => t' == t.(gk := g)
    case Raised(_) => false
  }

  // ---------- Requests ----------

  /** An appointment as received; `signer` is the user its signature recovers to, if any. */
  datatype Request = Request(locator: Locator, blob: Blob, toSelfDelay: int, signature: string, signer: Option<UserId>)

  /** The answer to an accepted appointment. */
  datatype Answer = Answer(locator: Locator, startBlock: int, availableSlots: int, subscriptionExpiry: int)

  function RegisterUser(world: World, t: Tower, userId: UserId, blockCount: int): (Tower, Result<(int, int)>) {
    match Register(world.config, t.gk.users, userId, blockCount)
    case Ok(users) =>
      (t.(gk := t.gk.(users := users)), Ok((users[userId].availableSlots, users[userId].subscriptionExpiry)))
    case Raised(e) => (t, Raised(e))
  }

  /** The exception that refuses a request before any slot is charged. */
  function Refusal(world: World, t: Tower, req: Request, blockCount: int): Option<Exception> {
    if |t.appointments| >= world.maxAppointments then Some(AppointmentLimitReached)
    else if req.signer.None? || req.signer.value !in t.gk.users then Some(AuthenticationFailure)
    else if blockCount >= t.gk.users[req.signer.value].subscriptionExpiry then Some(SubscriptionExpired)
    else if world.uuidOf(req.locator, req.signer.value) in t.responder.trackers then Some(AppointmentAlreadyTriggered)
    else None
  }

  function Extended(world: World, t: Tower, req: Request): Appointment
    requires req.signer.Some? && t.lastKnown in world.tree
  {
    Appointment(req.locator, req.blob, req.toSelfDelay, req.signer.value, req.signature, world.tree[t.lastKnown].height)
  }

  /** The appointment waits for its trigger. */
  function Watch(t: Tower, uuid: Uuid, a: Appointment): Tower {
    t.(appointments := t.appointments[uuid := a.Summary()], view := t.view.(w := t.view.w[uuid := a]))
  }

  /** The trigger is in the cache and the penalty decrypts: it is sent, and kept only if it is delivered. */
  function Respond(t: Tower, uuid: Uuid, a: Appointment, tracker: Tracker, receipt: Receipt): Tower {
    var sent := t.(issued := t.issued[tracker.penaltyTxid := receipt]);
    if !receipt.delivered then sent
    else
      sent.(
        responder := t.responder.(
          trackers := t.responder.trackers[uuid := tracker.Summary()],
          unconfirmed := if tracker.penaltyTxid !in t.responder.unconfirmed && receipt.confirmations == 0
                         then t.responder.unconfirmed + [tracker.penaltyTxid] else t.responder.unconfirmed),
        view := t.view.(w := t.view.w[uuid := a], r := t.view.r[uuid := tracker], ta := t.view.ta + {uuid}))
  }

  /** What happens to an appointment once its slots are paid. */
  ghost function Place(world: World, t: Tower, uuid: Uuid, a: Appointment, net: Network): Tower
    requires WellFormed(world.tree) && t.lastKnown in world.tree
  {
    var cache := CacheAt(world, t.lastKnown);
    if a.locator !in cache then Watch(t, uuid, a)
    else
      match world.decrypt(a.blob, cache[a.locator])
      case None => t
      case Some(p) =>
        var tracker := TrackerFor(Breach(a.locator, cache[a.locator], p), a.userId);
        Respond(t, uuid, a, tracker, ReceiptFor(t.issued, net, p.txid))
  }

  /** A request that passed every check: its slots are charged, if there are enough. */
  ghost function Paid(world: World, t: Tower, req: Request, net: Network): (Tower, Result<Answer>)
    requires WellFormed(world.tree) && t.lastKnown in world.tree && req.signer.Some? && req.signer.value in t.gk.users
  {
    var userId := req.signer.value;
    var uuid := world.uuidOf(req.locator, userId);
    var a := Extended(world, t, req);
    match Charge(t.gk.users, userId, uuid, |req.blob|)
    case Raised(e) => (t, Raised(e))
    case Ok(users) =>
      (Place(world, t.(gk := t.gk.(users := users)), uuid, a, net),
       Ok(Answer(a.locator, a.startBlock, users[userId].availableSlots, users[userId].subscriptionExpiry)))
  }

  ghost function AddAppointment(world: World, t: Tower, req: Request, blockCount: int, net: Network)
    : (Tower, Result<Answer>)
    requires WellFormed(world.tree) && t.lastKnown in world.tree
  {
    var refusal := Refusal(world, t, req, blockCount);
    if refusal.Some? then (t, Raised(refusal.value)) else Paid(world, t, req, net)
  }

  // ---------- Restart ----------

  /** Everything is rebuilt from the two databases; the confirmation counters and both caches start empty. */
  function Restart(t: Tower): Tower {
    t.(
      appointments := map u | u in t.view.w && u !in t.view.ta :: t.view.w[u].Summary(),
      lastKnown := if t.view.bw.Some? then t.view.bw.value else t.lastKnown,
      responder := ResponderState(Summaries(t.view.r), [], map[],
                                  if t.view.br.Some? then t.view.br.value else t.responder.lastKnown),
      issued := map[],
      gk := Expiry.State.State(t.gk.users, [], map[]))
  }
}
