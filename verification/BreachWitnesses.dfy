/** Runs in which a breach is answered with the wrong penalty, or not at all although bitcoind would accept it. */
module BreachWitnesses {
  import opened Basics
  import opened Records
  import opened LocatorCache
  import opened Carrier
  import opened Responder
  import opened Slots
  import opened Breaches
  import opened TowerModel
  import opened Invariants
  import opened BlockSteps
  import opened Runs
  import opened Lifecycle
  import opened Pushes
  import opened Witnesses
  import opened BlockTree
  import Expiry

  // ---------- A refusal outlives blocks ----------

  /** bitcoind refuses every transaction. */
  function Refusing(): Network {
    Network(txid => 0, txid => Reply.RpcError(RPC_VERIFY_REJECTED), txid => None)
  }

  /** Alice's trigger was cached, but bitcoind refused her penalty "p": only the charge and the receipt are left. */
  function AliceRefused(): Tower {
    var t := WithUser("b1", Alice(), 0);
    t.(gk := t.gk.(users := ChargedFor(t.gk.users, Alice(), "d")),
       issued := map["p" := Receipt(false, 0, Some(RPC_VERIFY_REJECTED))])
  }

  lemma AliceIsRefused()
    requires WorldOk(W())
    ensures AddAppointment(W(), WithUser("b1", Alice(), 0), Send("d", Alice()), 0, Refusing()).0 == AliceRefused()
  {
    hide WorldOk, CacheAt, Alice, UuidOf, AddAppointment, WithUser, Respond, AliceRefused, ReceiptFor, StoredAs;
    hide ChargedFor, Send, Refusing;
    Caches();
    UserIsReady("b1", Alice(), 0);
    Answering(WithUser("b1", Alice(), 0), Alice(), 0, Refusing());
    RefusalLeavesReceipt();
  }

  lemma RefusalLeavesReceipt()
    ensures var t, uuid := WithUser("b1", Alice(), 0), UuidOf("d", Alice());
            Respond(t.(gk := t.gk.(users := ChargedFor(t.gk.users, Alice(), "d"))), uuid, StoredAs(t, "d", Alice()),
                    TrackerOf("d", Alice()), ReceiptFor(t.issued, Refusing(), "p")) == AliceRefused()
  {
    hide Alice, UuidOf, ChargedFor;
  }

  lemma RefusalStep()
    requires WorldOk(W())
    ensures Step(W(), WithUser("b1", Alice(), 0), Requested(Send("d", Alice()), 0, Refusing()), AliceRefused())
  {
    AliceIsRefused();
    assert WithUser("b1", Alice(), 0).lastKnown == "b1";
    hide WorldOk, AddAppointment, AliceRefused, WithUser;
    RequestStep(W(), WithUser("b1", Alice(), 0), Send("d", Alice()), 0, Refusing(), AliceRefused());
    hide Step;
  }

  lemma RequestStep(world: World, t: Tower, req: Request, blockCount: int, net: Network, t': Tower)
    requires WorldOk(world) && t.lastKnown in world.tree && AddAppointment(world, t, req, blockCount, net).0 == t'
    ensures Step(world, t, Requested(req, blockCount, net), t')
  {
    hide WorldOk, AddAppointment;
  }

  /** Nothing is watched and nothing is tracked: a block only moves the two components on. */
  lemma IdleBlock(world: World, t: Tower, h: Hash, net: Network, getTx: Txid -> TxInfo)
    requires WorldOk(world) && h in world.tree && t.appointments == map[] && t.responder.trackers == map[]
    ensures var t1 := t.(lastKnown := h, view := t.view.(bw := Some(h)));
            && Step(world, t, WatcherSaw(h, net, []), t1)
            && Step(world, t1, ResponderSaw(h, getTx),
                    t1.(responder := t1.responder.(lastKnown := h), view := t1.view.(br := Some(h))))
  {
    hide WellFormed, DistinctLocators, Injective, CacheAt;
  }

  function AliceRefusedSeen(): Tower {
    var t := AliceRefused();
    t.(lastKnown := "b2", view := t.view.(bw := Some("b2")))
  }

  function AliceRefusedLater(): Tower {
    var t := AliceRefused();
    t.(lastKnown := "b2", responder := t.responder.(lastKnown := "b2"),
       view := t.view.(bw := Some("b2"), br := Some("b2")))
  }

  lemma TwoIdleSteps()
    requires WorldOk(W())
    ensures Step(W(), AliceRefused(), WatcherSaw("b2", Net(), []), AliceRefusedSeen())
    ensures Step(W(), AliceRefusedSeen(), ResponderSaw("b2", NoTx()), AliceRefusedLater())
  {
    hide WorldOk, Step, Alice, ChargedFor;
    IdleBlock(W(), AliceRefused(), "b2", Net(), NoTx());
  }

  lemma StepThen(world: World, ts: seq<Tower>, es: seq<Event>, e: Event, t': Tower)
    requires WorldOk(world) && IsRun(world, ts, es) && Step(world, ts[|es|], e, t')
    ensures IsRun(world, ts + [t'], es + [e])
  {
    hide WorldOk, Step;
    var ts', es' := ts + [t'], es + [e];
    forall i | 0 <= i < |es'| ensures StepAt(world, ts', es', i) {
      assert i < |es| ==> StepAt(world, ts, es, i);
    }
  }

  lemma NoStepYet(world: World, t: Tower)
    requires WorldOk(world)
    ensures IsRun(world, [t], [])
  {
  }

  /** The tower reached after the refusal and one more block. */
  lemma RefusedRun() returns (ts: seq<Tower>, es: seq<Event>)
    ensures WorldOk(W()) && IsRun(W(), ts, es) && |es| == 4 && ts[0] == FreshTower("b1") && Inv(W(), ts[0])
    ensures ts[2] == AliceRefused() && ts[4] == AliceRefusedLater()
    ensures es[1] == Requested(Send("d", Alice()), 0, Refusing()) && es[2].WatcherSaw? && es[3].ResponderSaw?
  {
    hide WorldOk, Inv, Step, AliceRefused, AliceRefusedSeen, AliceRefusedLater, WithUser, FreshTower, Send, Alice, Net;
    hide NoTx, Refusing, IsRun, W;
    WorldIsOk();
    Keys();
    FreshAtB1();
    FirstRegistration("b1", Alice(), 0);
    RefusalStep();
    TwoIdleSteps();
    NoStepYet(W(), FreshTower("b1"));
    ts, es := [FreshTower("b1")], [];
    StepThen(W(), ts, es, Registered(Alice(), 0), WithUser("b1", Alice(), 0));
    ts, es := ts + [WithUser("b1", Alice(), 0)], es + [Registered(Alice(), 0)];
    StepThen(W(), ts, es, Requested(Send("d", Alice()), 0, Refusing()), AliceRefused());
    ts, es := ts + [AliceRefused()], es + [Requested(Send("d", Alice()), 0, Refusing())];
    StepThen(W(), ts, es, WatcherSaw("b2", Net(), []), AliceRefusedSeen());
    ts, es := ts + [AliceRefusedSeen()], es + [WatcherSaw("b2", Net(), [])];
    StepThen(W(), ts, es, ResponderSaw("b2", NoTx()), AliceRefusedLater());
    ts, es := ts + [AliceRefusedLater()], es + [ResponderSaw("b2", NoTx())];
  }

  lemma FreshAtB1()
    requires WorldOk(W())
    ensures Inv(W(), FreshTower("b1"))
  {
    hide WorldOk, Inv;
    FreshTowerInv(W(), "b1");
  }

  /**
   bitcoind refuses Alice's penalty once. One block later she sends the appointment again; it is accepted, bitcoind
   would take the penalty now, and yet it is not even asked: the appointment is dropped.
   */
  lemma RefusalOutlivesBlocks() returns (ts: seq<Tower>, es: seq<Event>)
    ensures WorldOk(W()) && IsRun(W(), ts, es) && |es| == 4 && ts[0] == FreshTower("b1") && Inv(W(), ts[0])
    ensures es[2].WatcherSaw? && es[3].ResponderSaw? && ts[4].lastKnown in W().tree
    ensures Net().reply("p") == Accepted && Admitted(W(), ts[4], Send("d", Alice()), 1, Net())
    ensures "p" in IssuedBy(W(), ts[4], Requested(Send("d", Alice()), 1, Net()))
    ensures Dropped(AddAppointment(W(), ts[4], Send("d", Alice()), 1, Net()).0, UuidOf("d", Alice()))
  {
    hide WorldOk, Inv, Admitted, IssuedBy, Dropped, AddAppointment, IsRun, Send, Alice, UuidOf;
    ts, es := RefusedRun();
    LaterIsAdmitted();
    LaterIsRefused();
    hide AliceRefusedLater;
    InvAt(W(), ts, es, 4);
    RefusedIsDropped(ts[4]);
    RefusedAsks(ts[4]);
  }

  lemma InvAt(world: World, ts: seq<Tower>, es: seq<Event>, n: nat)
    requires WorldOk(world) && IsRun(world, ts, es) && Inv(world, ts[0]) && n == |es|
    ensures n < |ts| && Inv(world, ts[n])
  {
    hide WorldOk, Inv, StepAt;
    RunKeepsInv(world, ts, es, n);
  }

  lemma LaterIsRefused()
    ensures var t := AliceRefusedLater(); t.lastKnown == "b2" && "p" in t.issued && !t.issued["p"].delivered
  {
    hide Alice, ChargedFor;
  }

  /** Whoever sends an appointment for "d" while the refusal is left: it is dropped. */
  lemma RefusedIsDropped(t: Tower)
    requires WorldOk(W()) && Inv(W(), t) && t.lastKnown == "b2" && "p" in t.issued && !t.issued["p"].delivered
    requires Admitted(W(), t, Send("d", Alice()), 1, Net())
    ensures Dropped(AddAppointment(W(), t, Send("d", Alice()), 1, Net()).0, UuidOf("d", Alice()))
  {
    hide WorldOk, Inv, AddAppointment, Admitted, CacheAt, Dropped, Answered, Alice, UuidOf;
    Caches();
    CachedTriggerIsActedOn(W(), t, Send("d", Alice()), 1, Net());
  }

  lemma RefusedAsks(t: Tower)
    requires WorldOk(W()) && t.lastKnown == "b2" && Admitted(W(), t, Send("d", Alice()), 1, Net())
    ensures "p" in IssuedBy(W(), t, Requested(Send("d", Alice()), 1, Net()))
  {
    hide WorldOk, Admitted, CacheAt, Alice;
    Caches();
  }

  lemma LaterIsAdmitted()
    requires WorldOk(W())
    ensures Admitted(W(), AliceRefusedLater(), Send("d", Alice()), 1, Net())
  {
    hide WorldOk, Admitted, Alice, UuidOf;
    Admissible(AliceRefusedLater(), "d", Alice(), 1, Net());
  }

  // ---------- A blob under two locators ----------

  /** Alice waits for "d" and for "e" with one and the same blob, which decrypts to "p" with "d" and to "q" with "e". */
  function AliceWaitsTwice(): Tower {
    var t := AliceWaits();
    var charged := t.(gk := t.gk.(users := ChargedFor(t.gk.users, Alice(), "e")));
    Watch(charged, UuidOf("e", Alice()), StoredAs(t, "e", Alice()))
  }

  lemma TwoUuids()
    ensures UuidOf("d", Alice()) != UuidOf("e", Alice())
  {
    if UuidOf("d", Alice()) == UuidOf("e", Alice()) {
      UuidsAreInjective("d", Alice(), "e", Alice());
    }
  }

  lemma TwiceStep()
    requires WorldOk(W())
    ensures Step(W(), AliceWaits(), Requested(Send("e", Alice()), 1, Net()), AliceWaitsTwice())
  {
    Caches();
    TwoUuids();
    hide WorldOk, CacheAt, Alice, UuidOf, AddAppointment, Watch, Step;
    AliceIsWaiting();
    hide AliceWaits;
    Watching(AliceWaits(), "e", Alice(), 1);
    RequestStep(W(), AliceWaits(), Send("e", Alice()), 1, Net(), AliceWaitsTwice());
  }

  lemma AliceIsWaiting()
    ensures var t, uuid := AliceWaits(), UuidOf("d", Alice());
            && t.lastKnown == "g" && t.appointments == map[uuid := AppointmentSummary("d", Alice())]
            && t.view.w == map[uuid := Appointment("d", "", 20, Alice(), "signature", 0)]
            && t.gk.users == map[Alice() := UserInfo(10, 3, map[uuid := 0])] && t.gk.entries == map[]
            && t.issued == map[] && t.responder.trackers == map[] && t.responder.unconfirmed == []
  {
    hide Alice, UuidOf;
  }

  function TwoEntries(): seq<Entry> {
    [Entry(UuidOf("d", Alice()), "d", "", "d"), Entry(UuidOf("e", Alice()), "e", "", "e")]
  }

  lemma TwiceFields()
    ensures var t, ud, ue := AliceWaitsTwice(), UuidOf("d", Alice()), UuidOf("e", Alice());
            && t.appointments == map[ud := AppointmentSummary("d", Alice()), ue := AppointmentSummary("e", Alice())]
            && t.view.w == map[ud := Appointment("d", "", 20, Alice(), "signature", 0),
                               ue := Appointment("e", "", 20, Alice(), "signature", 0)]
            && t.gk.users == map[Alice() := UserInfo(10, 3, map[ud := 0, ue := 0])] && t.gk.entries == map[]
            && t.issued == map[] && t.responder.unconfirmed == []
  {
    AliceIsWaiting();
    TwoUuids();
    hide AliceWaits, Alice, UuidOf;
  }

  lemma ListsTwo(t: Tower, ud: Uuid, ue: Uuid, id: UserId)
    requires ud != ue
    requires t.appointments == map[ud := AppointmentSummary("d", id), ue := AppointmentSummary("e", id)]
    requires t.view.w == map[ud := Appointment("d", "", 20, id, "signature", 0),
                             ue := Appointment("e", "", 20, id, "signature", 0)]
    ensures ListsBreached([Entry(ud, "d", "", "d"), Entry(ue, "e", "", "e")], t.appointments, t.view,
                          map["d" := "d", "e" := "e"])
  {
    var entries := [Entry(ud, "d", "", "d"), Entry(ue, "e", "", "e")];
    assert entries[0] in entries && entries[1] in entries;
    assert Uuids(entries) == {ud, ue};
  }

  lemma TwiceIsListed()
    ensures var t := AliceWaitsTwice();
            && OutdatedHere(W(), t, 1) == {} && NoDup(t.responder.unconfirmed) && t.issued == map[]
            && Searched(W(), t, "b1")
            && ListsBreached(TwoEntries(), t.appointments - {}, t.view, LocatorMap(["d", "e"]))
  {
    hide AliceWaits, AliceWaitsTwice, Alice, UuidOf, LocatorMap, ListsBreached;
    TwiceFields();
    TwoUuids();
    Locators();
    var t, ud, ue := AliceWaitsTwice(), UuidOf("d", Alice()), UuidOf("e", Alice());
    ListsTwo(t, ud, ue, Alice());
    assert t.appointments - {} == t.appointments;
    assert "d" in LocatorMap(["d", "e"]) && ud in t.appointments;
    assert Expiry.GetOutdated(W().config, t.gk, 1) == map[];
  }

  lemma SecondIsStale()
    ensures Stale(W().decrypt, TwoEntries(), 1)
    ensures Used(W().decrypt, TwoEntries(), 1) == Some(Penalty("p", "raw"))
  {
    hide Alice, UuidOf;
    var decrypt, entries := W().decrypt, TwoEntries();
    assert FirstSuccess(decrypt, entries, "", 0);
    UsedIsOwnIff(decrypt, entries, 1);
    var j :| 0 <= j < 1 && FirstSuccess(decrypt, entries, "", j)
             && Used(decrypt, entries, 1) == Decrypted(decrypt, entries[j]);
    assert j == 0;
  }

  /**
   A block with both triggers: the appointment for "e" is tracked with the penalty "p" of the other one, although it
   decrypts to "q".
   */
  lemma WrongPenalty() returns (t': Tower)
    ensures WorldOk(W()) && Inv(W(), AliceWaitsTwice())
    ensures Step(W(), AliceWaitsTwice(), WatcherSaw("b1", Net(), TwoEntries()), t')
    ensures var ue := UuidOf("e", Alice());
            && ue in t'.responder.trackers && ue in t'.view.r && t'.view.r[ue].penaltyTxid == "p"
            && ue in AliceWaitsTwice().view.w
            && W().decrypt(AliceWaitsTwice().view.w[ue].blob, "e") == Some(Penalty("q", "raw"))
  {
    TwiceHasInv();
    TwiceIsListed();
    SecondIsStale();
    StandsAtG();
    hide WorldOk, Inv, AliceWaitsTwice, Alice, UuidOf, LocatorMap, OutdatedHere, Searched, ListsBreached, Used, Stale;
    var t := AliceWaitsTwice();
    t' := WatcherEnds(W(), t, "b1", Net(), TwoEntries());
    hide WatcherBlock;
    BlockOnTop(W(), t, "b1", Net(), TwoEntries(), t');
    AnsweredIff(W(), t, t', "b1", Net(), TwoEntries(), 1);
  }

  lemma StandsAtG()
    ensures AliceWaitsTwice().lastKnown == "g"
  {
    hide Alice, UuidOf;
  }

  lemma BlockOnTop(world: World, t: Tower, h: Hash, net: Network, entries: seq<Entry>, t': Tower)
    requires WorldOk(world) && Inv(world, t) && h in world.tree && WatcherBlock(world, t, t', h, net, entries)
    requires world.tree[h].prev == Some(t.lastKnown)
    ensures Step(world, t, WatcherSaw(h, net, entries), t')
  {
    hide WellFormed, DistinctLocators, Injective, WatcherBlock, Overlooked, InMemory, OnDisk, Sourced, Charged;
    hide OwnCharges;
    OnTopOverlooksNothing(world, t, h);
  }

  lemma TwiceHasInv()
    ensures WorldOk(W()) && Inv(W(), AliceWaitsTwice())
  {
    var ts, es := AliceWaitsRun();
    RunKeepsInv(W(), ts, es, 2);
    TwiceStep();
    hide WorldOk, Inv, Step, AliceWaits, AliceWaitsTwice;
    StepKeepsInv(W(), AliceWaits(), Requested(Send("e", Alice()), 1, Net()), AliceWaitsTwice());
  }
}
