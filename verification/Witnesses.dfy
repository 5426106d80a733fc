/** Short runs from a fresh tower that reach the failures proved elsewhere, in a world of three blocks. */
module Witnesses {
  import opened Basics
  import opened Records
  import opened BlockTree
  import opened LocatorCache
  import opened AppointmentsDb
  import opened Carrier
  import opened Responder
  import opened Gatekeeper
  import opened Slots
  import opened Breaches
  import opened TowerModel
  import opened Invariants
  import opened BlockSteps
  import opened Runs
  import opened Lifecycle
  import opened Orphans
  import opened Jumps
  import opened Teosd
  import Expiry

  // ---------- The world ----------

  /** The length of the locator in unary, so that no two pairs share a uuid. */
  function Unary(n: nat): string {
    seq(n, _ => '1') + "0"
  }

  function UuidOf(l: Locator, id: UserId): Uuid {
    Unary(|l|) + l + id
  }

  lemma UuidsAreInjective(l1: Locator, id1: UserId, l2: Locator, id2: UserId)
    requires UuidOf(l1, id1) == UuidOf(l2, id2)
    ensures l1 == l2 && id1 == id2
  {
    var a, b := UuidOf(l1, id1), UuidOf(l2, id2);
    assert a[|l1|] == '0' && b[|l2|] == '0';
    assert forall i :: 0 <= i < |l1| ==> a[i] == '1';
    assert forall i :: 0 <= i < |l2| ==> b[i] == '1';
    assert |l1| == |l2|;
    var n := |l1| + 1;
    assert a[n..n + |l1|] == l1 && b[n..n + |l2|] == l2;
    assert a[n + |l1|..] == id1 && b[n + |l2|..] == id2;
  }

  function Chain(): Tree {
    map["g" := Block(None, 0, []), "b1" := Block(Some("g"), 1, ["d", "e"]), "b2" := Block(Some("b1"), 2, ["x"])]
  }

  function W(): World {
    World(Chain(), 2, 10, Config(10, 2, 0), UuidOf,
          (blob, txid) => Some(Penalty(if txid == "e" then "q" else "p", "raw")))
  }

  /** bitcoind accepts everything. */
  function Net(): Network {
    Network(txid => 0, txid => Reply.Accepted, txid => None)
  }

  lemma Locators()
    ensures LocatorMap([]) == map[]
    ensures LocatorMap(["d", "e"]) == map["d" := "d", "e" := "e"] && LocatorMap(["x"]) == map["x" := "x"]
  {
    assert ["d"][..0] == [] && ["x"][..0] == [] && ["d", "e"][..1] == ["d"];
    assert LocatorMap(["d"]) == map["d" := "d"];
  }

  lemma ChainIsWellFormed()
    ensures WellFormed(Chain())
  {
  }

  lemma Paths()
    ensures WellFormed(Chain())
    ensures RootPath(Chain(), "g") == ["g"] && RootPath(Chain(), "b1") == ["g", "b1"]
    ensures RootPath(Chain(), "b2") == ["g", "b1", "b2"]
  {
    ChainIsWellFormed();
    hide WellFormed;
    assert RootPath(Chain(), "g") == ["g"];
    assert RootPath(Chain(), "b1") == RootPath(Chain(), "g") + ["b1"];
    assert RootPath(Chain(), "b2") == RootPath(Chain(), "b1") + ["b2"];
  }

  lemma BlocksAreDisjoint()
    ensures WellFormed(Chain()) && DistinctLocators(Chain())
  {
    Paths();
    Locators();
    hide WellFormed, RootPath, LocatorMap;
    forall h | h in Chain()
      ensures forall i, j :: 0 <= i < j < |RootPath(Chain(), h)| ==>
                DisjointBlocks(Chain(), RootPath(Chain(), h)[i], RootPath(Chain(), h)[j])
    {
      assert h == "g" || h == "b1" || h == "b2";
    }
  }

  lemma WorldIsOk()
    ensures WorldOk(W())
  {
    BlocksAreDisjoint();
    forall l1, u1, l2, u2 | UuidOf(l1, u1) == UuidOf(l2, u2) ensures l1 == l2 && u1 == u2 {
      UuidsAreInjective(l1, u1, l2, u2);
    }
  }

  /** The windows of the blocks: only the middle block holds the triggers "d" and "e". */
  lemma Caches()
    ensures WellFormed(Chain())
    ensures CacheAt(W(), "g") == map[]
    ensures CacheAt(W(), "b1") == map["d" := "d", "e" := "e"]
    ensures CacheAt(W(), "b2") == map["d" := "d", "e" := "e", "x" := "x"]
  {
    Paths();
    Locators();
    hide WellFormed, RootPath, LocatorMap;
    var tree := Chain();
    assert Window(tree, "g", 2) == ["g"] && Window(tree, "b1", 2) == ["g", "b1"];
    assert Window(tree, "b2", 2) == ["b1", "b2"];
    assert ["g"][..0] == [] && ["g", "b1"][..1] == ["g"] && ["b1", "b2"][..1] == ["b1"] && ["b1"][..0] == [];
    assert CacheOf(tree, []) == map[];
    assert CacheOf(tree, ["g"]) == map[];
    assert CacheOf(tree, ["b1"]) == map["d" := "d", "e" := "e"];
    assert CacheOf(tree, ["g", "b1"]) == map["d" := "d", "e" := "e"];
    assert CacheOf(tree, ["b1", "b2"]) == map["d" := "d", "e" := "e", "x" := "x"];
  }

  // ---------- Steps ----------

  function Zeros(): string {
    seq(64, _ => '0')
  }

  function Alice(): UserId {
    "02" + Zeros()
  }

  function Bob(): UserId {
    "03" + Zeros()
  }

  lemma Keys()
    ensures IsCompressedPk(Alice()) && IsCompressedPk(Bob()) && Alice() != Bob()
  {
    assert Alice()[1] == '2' && Bob()[1] == '3';
    assert forall i :: 2 <= i < 66 ==> Alice()[i] == '0' && Bob()[i] == '0';
  }

  function Send(l: Locator, id: UserId): Request {
    Request(l, "", 20, "signature", Some(id))
  }

  /** What registering at a block count leads to. */
  lemma Registering(t: Tower, id: UserId, blockCount: int)
    requires IsCompressedPk(id) && id !in t.gk.users && WorldOk(W())
    ensures var t' := t.(gk := t.gk.(users := t.gk.users[id := UserInfo(10, blockCount + 2, map[])]));
            Step(W(), t, Registered(id, blockCount), t')
  {
  }

  lemma Admissible(t: Tower, l: Locator, id: UserId, blockCount: int, net: Network)
    requires WorldOk(W()) && t.lastKnown in Chain() && |t.appointments| < 10
    requires id in t.gk.users && blockCount < t.gk.users[id].subscriptionExpiry && t.gk.users[id].availableSlots >= 0
    requires UuidOf(l, id) !in t.responder.trackers
    ensures Admitted(W(), t, Send(l, id), blockCount, net)
  {
    hide WorldOk, Admitted;
    assert RequiredSlots(0) == 0;
    AdmittedIff(W(), t, Send(l, id), blockCount, net);
  }

  /** The charge for an empty blob. */
  function ChargedFor(users: Users, id: UserId, l: Locator): Users
    requires id in users
  {
    users[id := users[id].(appointments := users[id].appointments[UuidOf(l, id) := 0])]
  }

  lemma ChargeIsEmpty(users: Users, id: UserId, l: Locator)
    requires id in users && users[id].availableSlots >= 0 && UuidOf(l, id) !in users[id].appointments
    ensures Charge(users, id, UuidOf(l, id), 0) == Ok(ChargedFor(users, id, l))
  {
    assert RequiredSlots(0) == 0;
  }

  function StoredAs(t: Tower, l: Locator, id: UserId): Appointment
    requires t.lastKnown in Chain()
  {
    Appointment(l, "", 20, id, "signature", Chain()[t.lastKnown].height)
  }

  function TrackerOf(l: Locator, id: UserId): Tracker {
    Tracker(l, "d", "p", "raw", id)
  }

  /** A new appointment without a cached trigger is watched. */
  lemma Watching(t: Tower, l: Locator, id: UserId, blockCount: int)
    requires WorldOk(W()) && t.lastKnown in Chain() && |t.appointments| < 10
    requires id in t.gk.users && blockCount < t.gk.users[id].subscriptionExpiry && t.gk.users[id].availableSlots >= 0
    requires UuidOf(l, id) !in t.responder.trackers && UuidOf(l, id) !in t.gk.users[id].appointments
    requires l !in CacheAt(W(), t.lastKnown)
    ensures var t' := Watch(t.(gk := t.gk.(users := ChargedFor(t.gk.users, id, l))), UuidOf(l, id), StoredAs(t, l, id));
            AddAppointment(W(), t, Send(l, id), blockCount, Net()).0 == t'
  {
    Admissible(t, l, id, blockCount, Net());
    AdmittedFacts(W(), t, Send(l, id), blockCount, Net());
    ChargeIsEmpty(t.gk.users, id, l);
    hide WorldOk, Admitted, AddAppointment, CacheAt, Charge;
  }

  /** A new appointment for the cached trigger is answered at once. */
  lemma Answering(t: Tower, id: UserId, blockCount: int, net: Network)
    requires WorldOk(W()) && t.lastKnown in Chain() && |t.appointments| < 10
    requires id in t.gk.users && blockCount < t.gk.users[id].subscriptionExpiry && t.gk.users[id].availableSlots >= 0
    requires UuidOf("d", id) !in t.responder.trackers && UuidOf("d", id) !in t.gk.users[id].appointments
    requires "d" in CacheAt(W(), t.lastKnown) && CacheAt(W(), t.lastKnown)["d"] == "d"
    ensures var t' := Respond(t.(gk := t.gk.(users := ChargedFor(t.gk.users, id, "d"))), UuidOf("d", id),
                              StoredAs(t, "d", id), TrackerOf("d", id), ReceiptFor(t.issued, net, "p"));
            AddAppointment(W(), t, Send("d", id), blockCount, net).0 == t'
  {
    Admissible(t, "d", id, blockCount, net);
    AdmittedFacts(W(), t, Send("d", id), blockCount, net);
    ChargeIsEmpty(t.gk.users, id, "d");
    hide WorldOk, Admitted, AddAppointment, CacheAt, Charge, Respond;
  }

  // ---------- Two users, one of them answered ----------

  /**
   Alice's appointment was answered at block "b1"; her penalty "p" is unconfirmed. Her subscription ends at height 2.
   */
  function AliceTracked(): Tower {
    var uuid := UuidOf("d", Alice());
    TowerState(
      map[], "b1", ResponderState(map[uuid := TrackerOf("d", Alice()).Summary()], ["p"], map[], "b1"),
      map["p" := Receipt(true, 0, None)],
      Expiry.State.State(map[Alice() := UserInfo(10, 2, map[uuid := 0])], [], map[]),
      View(map[uuid := Appointment("d", "", 20, Alice(), "signature", 1)], map[uuid := TrackerOf("d", Alice())], {uuid},
           Some("b1"), Some("b1")))
  }

  /** A fresh tower at which a user has registered. */
  function WithUser(h: Hash, id: UserId, blockCount: int): Tower {
    var t := FreshTower(h);
    t.(gk := t.gk.(users := map[id := UserInfo(10, blockCount + 2, map[])]))
  }

  lemma FirstRegistration(h: Hash, id: UserId, blockCount: int)
    requires WorldOk(W()) && IsCompressedPk(id)
    ensures Step(W(), FreshTower(h), Registered(id, blockCount), WithUser(h, id, blockCount))
  {
    hide WorldOk, Step;
    Registering(FreshTower(h), id, blockCount);
    assert FreshTower(h).gk.users[id := UserInfo(10, blockCount + 2, map[])] ==
           map[id := UserInfo(10, blockCount + 2, map[])];
  }

  lemma UserIsReady(h: Hash, id: UserId, blockCount: int)
    ensures var t := WithUser(h, id, blockCount);
            && t.lastKnown == h && t.appointments == map[] && t.responder.trackers == map[] && t.issued == map[]
            && id in t.gk.users && t.gk.users[id] == UserInfo(10, blockCount + 2, map[])
  {
  }

  lemma AliceIsAnswered()
    requires WorldOk(W())
    ensures AddAppointment(W(), WithUser("b1", Alice(), 0), Send("d", Alice()), 0, Net()).0 == AliceTracked()
  {
    hide WorldOk, CacheAt, Alice, UuidOf, AddAppointment, WithUser, Respond, AliceTracked, ReceiptFor, StoredAs;
    hide ChargedFor, Send;
    Caches();
    UserIsReady("b1", Alice(), 0);
    Answering(WithUser("b1", Alice(), 0), Alice(), 0, Net());
    AliceResponded();
  }

  lemma AliceResponded()
    ensures var t, uuid := WithUser("b1", Alice(), 0), UuidOf("d", Alice());
            Respond(t.(gk := t.gk.(users := ChargedFor(t.gk.users, Alice(), "d"))), uuid, StoredAs(t, "d", Alice()),
                    TrackerOf("d", Alice()), ReceiptFor(t.issued, Net(), "p")) == AliceTracked()
  {
    hide Alice, UuidOf;
    assert ChargedFor(WithUser("b1", Alice(), 0).gk.users, Alice(), "d") == AliceTracked().gk.users;
    assert [] + ["p"] == ["p"] && {} + {UuidOf("d", Alice())} == {UuidOf("d", Alice())};
    assert ReceiptFor(map[], Net(), "p") == Receipt(true, 0, None);
  }

  /** The tower above is two steps away from a fresh one. */
  lemma AliceIsTracked() returns (ts: seq<Tower>, es: seq<Event>)
    ensures WorldOk(W()) && IsRun(W(), ts, es) && Inv(W(), ts[0]) && ts[0] == FreshTower("b1")
    ensures |es| == 2 && ts[2] == AliceTracked()
  {
    WorldIsOk();
    Keys();
    FreshTowerInv(W(), "b1");
    FirstRegistration("b1", Alice(), 0);
    AliceSteps();
    hide WorldOk, Inv, Step, AliceTracked, WithUser, FreshTower;
    ts := [FreshTower("b1"), WithUser("b1", Alice(), 0), AliceTracked()];
    es := [Registered(Alice(), 0), Requested(Send("d", Alice()), 0, Net())];
    TwoSteps(ts, es);
  }

  lemma AliceSteps()
    requires WorldOk(W())
    ensures Step(W(), WithUser("b1", Alice(), 0), Requested(Send("d", Alice()), 0, Net()), AliceTracked())
  {
    AliceIsAnswered();
    assert WithUser("b1", Alice(), 0).lastKnown == "b1";
    hide WorldOk, AddAppointment, AliceTracked, WithUser;
    Requesting(WithUser("b1", Alice(), 0), Send("d", Alice()), 0, Net(), AliceTracked());
    hide Step;
  }

  lemma TwoSteps(ts: seq<Tower>, es: seq<Event>)
    requires WorldOk(W()) && |ts| == 3 && |es| == 2
    requires Step(W(), ts[0], es[0], ts[1]) && Step(W(), ts[1], es[1], ts[2])
    ensures IsRun(W(), ts, es)
  {
    hide WorldOk, Step;
    assert StepAt(W(), ts, es, 0) && StepAt(W(), ts, es, 1);
  }

  // ---------- A penalty loses its last tracker ----------

  /** No transaction is on the chain yet. */
  function NoTx(): Txid -> TxInfo {
    txid => NotFound
  }

  lemma AliceIsOutdated()
    ensures OutdatedAt(W(), AliceTracked(), "b2") == {UuidOf("d", Alice())}
  {
    hide UuidOf, Alice;
    var t := AliceTracked();
    var outdated := Expiry.GetOutdated(W().config, t.gk, 2);
    assert outdated.Keys == {Alice()};
    assert outdated[Alice()] == {UuidOf("d", Alice())};
  }

  /** At block "b2" Alice's subscription ends: the block is processed, and "p" stays unconfirmed without a tracker. */
  lemma OrphanIsReached() returns (t': Tower)
    ensures WorldOk(W()) && ResponderBlock(W(), AliceTracked(), t', "b2", NoTx())
    ensures Orphaned(W(), AliceTracked(), ResponderSaw("b2", NoTx()), "p")
    ensures "p" in t'.responder.unconfirmed && "p" !in Penalties(t'.responder.trackers)
  {
    WorldIsOk();
    AliceIsOutdated();
    hide WorldOk, OutdatedAt, UuidOf, Alice, ResponderBlock;
    var t, uuid := AliceTracked(), UuidOf("d", Alice());
    assert t.responder.trackers[uuid].penaltyTxid == "p" && "p" in Penalties(t.responder.trackers);
    assert InMemory(t);
    CanProcessIff(W(), t, "b2", NoTx());
    t' :| ResponderBlock(W(), t, t', "b2", NoTx());
    OrphanedIff(W(), t, "b2", NoTx(), t', "p");
  }

  // ---------- Another user waits ----------

  function BobRegistered(): Tower {
    var t := AliceTracked();
    t.(gk := t.gk.(users := t.gk.users[Bob() := UserInfo(10, 2, map[])]))
  }

  function BobWaits(): Tower {
    var t := BobRegistered();
    var charged := t.(gk := t.gk.(users := ChargedFor(t.gk.users, Bob(), "other")));
    Watch(charged, UuidOf("other", Bob()), StoredAs(t, "other", Bob()))
  }

  lemma BobSteps()
    requires WorldOk(W())
    ensures Step(W(), AliceTracked(), Registered(Bob(), 0), BobRegistered())
    ensures Step(W(), BobRegistered(), Requested(Send("other", Bob()), 0, Net()), BobWaits())
  {
    Keys();
    Caches();
    UuidsDiffer();
    hide WorldOk, CacheAt, Alice, Bob, UuidOf, AddAppointment;
    Registering(AliceTracked(), Bob(), 0);
    hide Step;
    Watching(BobRegistered(), "other", Bob(), 0);
    assert BobRegistered().lastKnown == "b1";
    hide BobRegistered, Watch;
    Requesting(BobRegistered(), Send("other", Bob()), 0, Net(), BobWaits());
  }

  lemma UuidsDiffer()
    ensures UuidOf("other", Bob()) != UuidOf("d", Alice())
  {
    if UuidOf("other", Bob()) == UuidOf("d", Alice()) {
      UuidsAreInjective("other", Bob(), "d", Alice());
    }
  }

  /**
   From a fresh tower: Alice is answered, Bob waits; at block "b2" both subscriptions end and the Responder cannot go
   on.
   */
  lemma ResponderIsStopped() returns (ts: seq<Tower>, es: seq<Event>)
    ensures WorldOk(W()) && IsRun(W(), ts, es) && Inv(W(), ts[0]) && ts[0] == FreshTower("b1")
    ensures |es| == 4 && ts[4] == BobWaits() && Inv(W(), ts[4])
    ensures forall getTx, t' :: !ResponderBlock(W(), ts[4], t', "b2", getTx)
  {
    ts, es := AliceIsTracked();
    BobSteps();
    hide WorldOk, Inv, Step, AliceTracked, BobRegistered, BobWaits, FreshTower;
    var more := [Registered(Bob(), 0), Requested(Send("other", Bob()), 0, Net())];
    ts, es := TwoMore(ts, es, more, [BobRegistered(), BobWaits()]);
    RunKeepsInv(W(), ts, es, 4);
    forall getTx, t' ensures !ResponderBlock(W(), ts[4], t', "b2", getTx) {
      BobStopsResponder(getTx, t');
    }
  }

  lemma TwoMore(
    ts: seq<Tower>, es: seq<Event>, es2: seq<Event>, ts2: seq<Tower>)
    returns (ts': seq<Tower>, es': seq<Event>)
    requires WorldOk(W()) && IsRun(W(), ts, es) && |es| == 2 && |es2| == |ts2| == 2
    requires Step(W(), ts[2], es2[0], ts2[0]) && Step(W(), ts2[0], es2[1], ts2[1])
    ensures IsRun(W(), ts', es') && |es'| == 4 && ts'[0] == ts[0] && ts'[4] == ts2[1]
  {
    hide WorldOk, Step;
    ts', es' := ts + ts2, es + es2;
    assert StepAt(W(), ts, es, 0) && StepAt(W(), ts, es, 1);
    forall i | 0 <= i < 4 ensures StepAt(W(), ts', es', i) {
    }
  }

  lemma BobStopsResponder(getTx: Txid -> TxInfo, t': Tower)
    ensures !ResponderBlock(W(), BobWaits(), t', "b2", getTx)
  {
    UuidsDiffer();
    hide UuidOf, Alice, Bob, ResponderBlock;
    var t, uuid := BobWaits(), UuidOf("other", Bob());
    assert UuidOf("d", Alice()) in t.responder.trackers;
    assert uuid in t.gk.users[Bob()].appointments && t.gk.users[Bob()].subscriptionExpiry == 2;
    ExpiringIsOutdated(W(), t, "b2", Bob(), uuid);
    UntrackedWhenExpiring(W(), t, "b2", uuid, getTx, t');
  }

  // ---------- A jump over the trigger ----------

  /** Alice's appointment for "d" waits at block "g". */
  function AliceWaits(): Tower {
    var t := WithUser("g", Alice(), 1);
    var charged := t.(gk := t.gk.(users := ChargedFor(t.gk.users, Alice(), "d")));
    Watch(charged, UuidOf("d", Alice()), StoredAs(t, "d", Alice()))
  }

  lemma AliceWaitsStep()
    requires WorldOk(W())
    ensures Step(W(), WithUser("g", Alice(), 1), Requested(Send("d", Alice()), 1, Net()), AliceWaits())
  {
    Caches();
    hide WorldOk, CacheAt, Alice, UuidOf, AddAppointment, Watch;
    Watching(WithUser("g", Alice(), 1), "d", Alice(), 1);
  }

  /** It is two steps away from a fresh tower. */
  lemma AliceWaitsRun() returns (ts: seq<Tower>, es: seq<Event>)
    ensures WorldOk(W()) && IsRun(W(), ts, es) && Inv(W(), ts[0]) && ts[0] == FreshTower("g")
    ensures |es| == 2 && ts[2] == AliceWaits()
  {
    WorldIsOk();
    Keys();
    FreshTowerInv(W(), "g");
    FirstRegistration("g", Alice(), 1);
    AliceWaitsStep();
    hide WorldOk, Inv, Step, AliceWaits, WithUser, FreshTower;
    ts := [FreshTower("g"), WithUser("g", Alice(), 1), AliceWaits()];
    es := [Registered(Alice(), 1), Requested(Send("d", Alice()), 1, Net())];
    TwoSteps(ts, es);
  }

  /** A block in which nothing is outdated or triggered only moves the Watcher on. */
  lemma NothingFound(world: World, t: Tower, h: Hash, net: Network)
    requires h in world.tree && NoDup(t.responder.unconfirmed) && OutdatedHere(world, t, world.tree[h].height) == {}
    requires forall u <- t.appointments :: t.appointments[u].locator !in LocatorMap(world.tree[h].txs)
    ensures WatcherBlock(world, t, t.(lastKnown := h, view := t.view.(bw := Some(h))), h, net, [])
  {
    NothingDisposed(t, net);
    hide OutdatedHere, Disposed;
    var t' := t.(lastKnown := h, view := t.view.(bw := Some(h)));
    assert t'.(lastKnown := t.lastKnown, view := t'.view.(bw := t.view.bw)) == t;
    assert t.appointments - {} == t.appointments;
  }

  lemma WithoutNothing<K, V>(m: map<K, V>)
    ensures m - {} == m && m - {} - {} == m && m + map[] == m
  {
  }

  lemma NothingRefunded(users: Users, appointments: map<Uuid, AppointmentSummary>)
    ensures Refund(users, AppointmentOwners(appointments, {})) == users
  {
    RefundNothing(users, map[]);
    assert Owned(map[], {}) == map[] && AppointmentOwners(appointments, {}) == map[];
  }

  lemma NothingDelivered(t: Tower, net: Network)
    ensures var valid := ValidPart(map[]);
            && valid == map[] && Delivered(valid, valid.Keys, t.issued, net) == {}
            && NewTrackers(valid, t.appointments, {}) == map[] && Summaries(map[]) == map[]
            && NewlyUnconfirmed(valid, {}, t.issued, net) == {} && PenaltyTxids(valid, valid.Keys) == {}
  {
  }

  lemma NothingDisposed(t: Tower, net: Network)
    requires NoDup(t.responder.unconfirmed)
    ensures Disposed(t, t, {}, map[], net)
  {
    SentNothing(t.issued, net);
    NothingRefunded(t.gk.users, t.appointments);
    NothingDelivered(t, net);
    WithoutNothing(t.appointments);
    WithoutNothing(t.view.w);
    WithoutNothing(t.view.r);
    WithoutNothing(t.responder.trackers);
    hide ValidPart, Delivered, NewTrackers, Summaries, NewlyUnconfirmed, PenaltyTxids, Refund, AppointmentOwners, Sent;
    var verdicts: map<Uuid, Option<Breach>> := map[];
    assert verdicts.Keys == {} && verdicts.Keys - {} == {};
    assert t.view.ta + {} == t.view.ta && Elems(t.responder.unconfirmed) + {} == Elems(t.responder.unconfirmed);
    assert t.appointments - {} - verdicts.Keys == t.appointments;
    assert t.view.w - {} - {} == t.view.w;
  }

  function AliceJumped(): Tower {
    var t := AliceWaits();
    t.(lastKnown := "b2", view := t.view.(bw := Some("b2")))
  }

  /**
   The Watcher goes from "g" straight to "b2": the trigger in "b1" enters the cache without being searched. Alice sends
   her appointment again, and it is both watched and tracked.
   */
  lemma JumpBreaksExclusive()
    ensures WorldOk(W()) && WatcherBlock(W(), AliceWaits(), AliceJumped(), "b2", Net(), [])
    ensures Overlooked(W(), AliceWaits(), "b2") == {UuidOf("d", Alice())}
    ensures Exclusive(AliceJumped())
    ensures !Exclusive(AddAppointment(W(), AliceJumped(), Send("d", Alice()), 1, Net()).0)
  {
    WorldIsOk();
    JumpFindsNothing();
    JumpOverlooks();
    Caches();
    hide WorldOk, CacheAt, Alice, UuidOf, AddAppointment, WatcherBlock, Overlooked;
    Admissible(AliceJumped(), "d", Alice(), 1, Net());
    Jumps.JumpBreaksExclusive(
      W(), AliceWaits(), AliceJumped(), "b2", Net(), [], UuidOf("d", Alice()), Send("d", Alice()), 1, Net());
  }

  lemma RestartIsEmpty()
    ensures Restart(FreshTower("g")) == FreshTower("g") && NothingStored(FreshTower("g").view)
  {
  }

  /** The chain has no fork, and at block "b1" the Watcher does not stand at the tip. */
  lemma OneBranch()
    ensures WellFormed(Chain()) && forall h <- Chain() :: RootPath(Chain(), h) <= RootPath(Chain(), "b2")
    ensures !AtTip(Chain(), "b1", "g")
  {
    Paths();
    hide WellFormed, RootPath;
    forall h | h in Chain() ensures RootPath(Chain(), h) <= RootPath(Chain(), "b2") {
      assert h == "g" || h == "b1" || h == "b2";
    }
  }

  lemma Requesting(t: Tower, req: Request, blockCount: int, net: Network, t': Tower)
    requires WorldOk(W()) && t.lastKnown in W().tree && AddAppointment(W(), t, req, blockCount, net).0 == t'
    ensures Step(W(), t, Requested(req, blockCount, net), t')
  {
    hide WorldOk, AddAppointment;
  }

  lemma AliceAgain() returns (t: Tower)
    requires WorldOk(W())
    ensures Move(W(), AliceJumped(), Requested(Send("d", Alice()), 1, Net()), t) && !Exclusive(t)
  {
    JumpBreaksExclusive();
    assert AliceJumped().lastKnown == "b2";
    hide WorldOk, Alice, AddAppointment, Exclusive, AliceJumped;
    t := AddAppointment(W(), AliceJumped(), Send("d", Alice()), 1, Net()).0;
    Requesting(AliceJumped(), Send("d", Alice()), 1, Net(), t);
    hide Move;
  }

  lemma JumpIsMove()
    requires WorldOk(W())
    ensures Move(W(), AliceWaits(), WatcherSaw("b2", Net(), []), AliceJumped())
    ensures !OverlooksNothing(W(), AliceWaits(), WatcherSaw("b2", Net(), []))
  {
    JumpBreaksExclusive();
    hide WorldOk, WatcherBlock, Overlooked, AliceWaits, AliceJumped, AddAppointment, Exclusive, UuidOf, Alice;
    assert UuidOf("d", Alice()) in Overlooked(W(), AliceWaits(), "b2");
  }

  /**
   No fork is needed: a tower that stopped at "g" with nothing stored restarts when the tip is "b1" and is fed nothing.
   Alice sends an appointment whose trigger is in "b1". Block "b2" overlooks it, and sent again it is both watched and
   tracked.
   */
  lemma RestartOverlooks() returns (ts: seq<Tower>, es: seq<Event>)
    ensures WorldOk(W()) && AreMoves(W(), ts, es) && |es| == 5 && ts[0] == FreshTower("g") && Inv(W(), ts[0])
    ensures es[0] == Restarted && NothingStored(ts[0].view) && ts[1] == ts[0] && !AtTip(W().tree, "b1", ts[1].lastKnown)
    ensures es[3].WatcherSaw? && es[3].h == "b2" && W().tree["b2"].prev == Some("b1")
    ensures Inv(W(), ts[3]) && !OverlooksNothing(W(), ts[3], es[3]) && !Inv(W(), ts[4]) && !Exclusive(ts[5])
  {
    hide WorldOk, Inv, OverlooksNothing, Exclusive, AliceWaits, AliceJumped, FreshTower, Send, Alice, Net, AtTip;
    hide WellFormed, RootPath, Restart;
    RestartIsEmpty();
    OneBranch();
    var run, events := AliceWaitsRun();
    JumpIsMove();
    var last := AliceAgain();
    RunKeepsInv(W(), run, events, 2);
    RunIsMoves(W(), run, events);
    assert Move(W(), run[0], Restarted, run[0]);
    hide Move;
    OneMoveBefore(W(), run[0], Restarted, run, events);
    ts, es := [run[0]] + run, [Restarted] + events;
    OneMoreMove(W(), ts, es, WatcherSaw("b2", Net(), []), AliceJumped());
    ts, es := ts + [AliceJumped()], es + [WatcherSaw("b2", Net(), [])];
    OneMoreMove(W(), ts, es, Requested(Send("d", Alice()), 1, Net()), last);
    ts, es := ts + [last], es + [Requested(Send("d", Alice()), 1, Net())];
    assert ts[3] == run[2] && ts[4] == AliceJumped() && FreshTower("g").lastKnown == "g" by { FreshAt("g"); }
    hide AreMoves;
    JumpLosesInv();
  }

  lemma FreshAt(h: Hash)
    ensures FreshTower(h).lastKnown == h
  {
  }

  lemma JumpLosesInv()
    requires WorldOk(W()) && Inv(W(), AliceWaits())
    ensures !Inv(W(), AliceJumped())
  {
    JumpIsMove();
    hide WorldOk, Inv, OverlooksNothing, Move, AliceWaits, AliceJumped;
    MoveKeepsInvIff(W(), AliceWaits(), WatcherSaw("b2", Net(), []), AliceJumped());
  }

  lemma NobodyIsOutdated()
    ensures OutdatedHere(W(), AliceWaits(), 2) == {}
  {
    hide Alice, UuidOf;
    assert Expiry.GetOutdated(W().config, AliceWaits().gk, 2) == map[];
  }

  lemma JumpFindsNothing()
    ensures WatcherBlock(W(), AliceWaits(), AliceJumped(), "b2", Net(), [])
    ensures Searched(W(), AliceWaits(), "b2")
  {
    NobodyIsOutdated();
    Locators();
    hide Alice, UuidOf, OutdatedHere, WatcherBlock, LocatorMap;
    var t, uuid := AliceWaits(), UuidOf("d", Alice());
    assert uuid in t.appointments && t.appointments[uuid].locator == "d";
    assert "x" in LocatorMap(["x"]);
    NothingFound(W(), t, "b2", Net());
  }

  lemma JumpOverlooks()
    requires WorldOk(W())
    ensures Overlooked(W(), AliceWaits(), "b2") == {UuidOf("d", Alice())}
  {
    NobodyIsOutdated();
    Locators();
    Caches();
    hide WorldOk, CacheAt, Alice, UuidOf, OutdatedHere, LocatorMap;
    assert AliceWaits().appointments == map[UuidOf("d", Alice()) := AppointmentSummary("d", Alice())];
  }
}
