/** The Watcher: it accepts appointments and looks for their triggers in every block. */
module Watcher {
  import opened Basics
  import opened Records
  import opened BlockTree
  import opened InverseIndex
  import opened LocatorCache
  import opened AppointmentsDb
  import opened Carrier
  import opened Responder
  import opened Gatekeeper
  import opened Slots
  import opened Breaches
  import opened TowerModel
  import opened Invariants
  import opened BlockSteps
  import opened Jumps
  import Cleaner
  import Expiry

  // ---------- Filtering, one breached appointment at a time ----------

  /** The dictionaries of `filter_breaches` after some entries. */
  ghost predicate Filtered(
    decrypt: Decrypt, entries: seq<Entry>, valid: map<Uuid, Breach>, invalid: seq<Uuid>, memo: map<Blob, Penalty>)
  {
    && DistinctUuids(entries)
    && memo == Memo(decrypt, entries)
    && Verdicts(decrypt, entries).Keys == Uuids(entries)
    && valid == ValidPart(Verdicts(decrypt, entries))
    && NoDup(invalid) && Elems(invalid) == InvalidPart(Verdicts(decrypt, entries))
  }

  lemma EntriesOneMore(decrypt: Decrypt, entries: seq<Entry>, e: Entry)
    requires DistinctUuids(entries) && e.uuid !in Uuids(entries)
    ensures var after := entries + [e];
            && DistinctUuids(after) && Uuids(after) == Uuids(entries) + {e.uuid}
            && Memo(decrypt, after) ==
                 (if e.blob !in Memo(decrypt, entries) && Decrypted(decrypt, e).Some?
                  then Memo(decrypt, entries)[e.blob := Decrypted(decrypt, e).value] else Memo(decrypt, entries))
            && Verdicts(decrypt, after) == Verdicts(decrypt, entries)[e.uuid :=
                 match Judge(decrypt, Memo(decrypt, entries), e)
                 case Some(p) => Some(Breach(e.locator, e.disputeTxid, p))
                 case None => None]
  {
    var after := entries + [e];
    assert after[..|entries|] == entries && after[|entries|] == e;
    forall i | 0 <= i < |entries| ensures entries[i].uuid != e.uuid {
      assert entries[i] in entries;
    }
  }

  lemma PartsOneMore(verdicts: map<Uuid, Option<Breach>>, u: Uuid, verdict: Option<Breach>)
    requires u !in verdicts
    ensures ValidPart(verdicts[u := verdict]) ==
            if verdict.Some? then ValidPart(verdicts)[u := verdict.value] else ValidPart(verdicts)
    ensures InvalidPart(verdicts[u := verdict]) == InvalidPart(verdicts) + if verdict.Some? then {} else {u}
  {
  }

  /** `check_breach` for one entry, through the memo. */
  method FilterOne(
    decrypt: Decrypt, e: Entry, valid: map<Uuid, Breach>, invalid: seq<Uuid>, memo: map<Blob, Penalty>,
    ghost entries: seq<Entry>)
    returns (valid': map<Uuid, Breach>, invalid': seq<Uuid>, memo': map<Blob, Penalty>)
    requires Filtered(decrypt, entries, valid, invalid, memo) && e.uuid !in Uuids(entries)
    ensures Filtered(decrypt, entries + [e], valid', invalid', memo')
  {
    valid', invalid', memo' := valid, invalid, memo;
    EntriesOneMore(decrypt, entries, e);
    PartsOneMore(Verdicts(decrypt, entries), e.uuid, Verdicts(decrypt, entries + [e])[e.uuid]);
    if e.blob in memo {
      valid' := valid[e.uuid := Breach(e.locator, e.disputeTxid, memo[e.blob])];
    } else {
      var penalty := decrypt(e.blob, e.disputeTxid);
      if penalty.Some? {
        valid' := valid[e.uuid := Breach(e.locator, e.disputeTxid, penalty.value)];
        memo' := memo[e.blob := penalty.value];
      } else {
        assert e.uuid !in invalid by { assert e.uuid !in Elems(invalid); }
        NoDupAppend(invalid, e.uuid);
        assert Elems(invalid + [e.uuid]) == Elems(invalid) + {e.uuid};
        invalid' := invalid + [e.uuid];
      }
    }
  }

  /** The two lists of the delivery loop after the breaches in `done`. */
  ghost predicate Classified(
    flags: seq<Uuid>, refused: seq<Uuid>, valid: map<Uuid, Breach>, done: set<Uuid>,
    issued: map<Txid, Receipt>, net: Network)
  {
    && NoDup(flags) && Elems(flags) == Delivered(valid, done, issued, net)
    && NoDup(refused) && Elems(refused) == done - Delivered(valid, done, issued, net)
  }

  lemma ClassifiedNothing(valid: map<Uuid, Breach>, issued: map<Txid, Receipt>, net: Network)
    ensures Classified([], [], valid, {}, issued, net)
  {
  }

  method Classify(
    uuid: Uuid, delivered: bool, flags: seq<Uuid>, refused: seq<Uuid>,
    ghost valid: map<Uuid, Breach>, ghost done: set<Uuid>, ghost issued: map<Txid, Receipt>, ghost net: Network)
    returns (flags': seq<Uuid>, refused': seq<Uuid>)
    requires Classified(flags, refused, valid, done, issued, net) && uuid in valid && uuid !in done
    requires delivered == ReceiptFor(issued, net, valid[uuid].penalty.txid).delivered
    ensures Classified(flags', refused', valid, done + {uuid}, issued, net)
  {
    flags', refused' := flags, refused;
    DeliveredOneMore(valid, done, uuid, issued, net);
    if delivered {
      flags' := AppendNew(flags, uuid);
    } else {
      refused' := AppendNew(refused, uuid);
    }
  }

  lemma OneLess<T>(all: set<T>, pending: set<T>, u: T)
    requires u in pending && pending <= all
    ensures all - (pending - {u}) == all - pending + {u}
  {
  }

  lemma StillWatched(t0: Tower, t: Tower, valid: map<Uuid, Breach>, done: set<Uuid>, u: Uuid, net: Network)
    requires valid.Keys <= t0.appointments.Keys && u in valid && u !in done && Handed(t0, t, valid, done, net)
    ensures u in t.appointments
    ensures ReceiptFor(t.issued, net, valid[u].penalty.txid) == ReceiptFor(t0.issued, net, valid[u].penalty.txid)
  {
    SentOneMore(t0.issued, net, PenaltyTxids(valid, done), valid[u].penalty.txid);
  }

  lemma ForgottenToo(t: Tower, t': Tower, t'': Tower, u: Uuid, breach: Breach, net: Network)
    requires u in t.appointments && HandledByResponder(t, t', u, breach, net)
    requires t'' == t'.(appointments :=
               if ReceiptFor(t.issued, net, breach.penalty.txid).delivered then t.appointments - {u}
               else t.appointments)
    ensures HandedOne(t, t'', u, breach, net)
  {
  }

  lemma ElemsAppend(s: seq<Txid>, t: Txid)
    ensures Elems(s + [t]) == Elems(s) + {t}
    ensures t in s ==> Elems(s) + {t} == Elems(s)
  {
  }

  method AppendNew(list: seq<Uuid>, u: Uuid) returns (longer: seq<Uuid>)
    requires NoDup(list) && u !in Elems(list)
    ensures NoDup(longer) && Elems(longer) == Elems(list) + {u}
  {
    assert u !in list by { assert u !in Elems(list); }
    NoDupAppend(list, u);
    longer := list + [u];
  }

  lemma FreshUuid(uuids: seq<Uuid>, i: nat, others: set<Uuid>)
    requires i < |uuids| && NoDup(uuids) && others !! Elems(uuids)
    ensures uuids[i] !in others + Elems(uuids[..i])
    ensures Elems(uuids[..i + 1]) == Elems(uuids[..i]) + {uuids[i]}
  {
    assert uuids[i] in Elems(uuids);
  }

  class Watcher {
    const world: World
    var appointments: map<Uuid, AppointmentSummary>
    var locatorUuidMap: map<Locator, seq<Uuid>>
    var lastKnownBlock: Hash
    const dbManager: AppointmentsDbm
    const gatekeeper: Gatekeeper
    const responder: Responder
    const locatorCache: LocatorCache

    constructor (
      world: World, dbManager: AppointmentsDbm, gatekeeper: Gatekeeper, responder: Responder, lastKnownBlock: Hash)
      ensures appointments == map[] && locatorUuidMap == map[]
      ensures this.world == world && this.dbManager == dbManager && this.gatekeeper == gatekeeper
      ensures this.responder == responder && this.lastKnownBlock == lastKnownBlock
      ensures fresh(locatorCache) && locatorCache.cacheSize == world.cacheSize
      ensures locatorCache.cache == map[] && locatorCache.blocks == []
    {
      this.world, this.dbManager, this.gatekeeper, this.responder := world, dbManager, gatekeeper, responder;
      this.appointments, this.locatorUuidMap, this.lastKnownBlock := map[], map[], lastKnownBlock;
      this.locatorCache := new LocatorCache(world.cacheSize);
    }

    /** The components share their databases, and both indexes are exact. */
    ghost predicate Linked()
      reads this, responder, dbManager, responder.carrier, responder.dbManager
    {
      && responder.dbManager == dbManager && responder.gatekeeper == gatekeeper
      && responder.Valid()
      && Exact(LocatorOf(appointments), locatorUuidMap)
    }

    /** Memory, disk and the other components as one value. */
    ghost function View(): Tower
      reads this, responder, dbManager, gatekeeper, responder.carrier
    {
      TowerState(appointments, lastKnownBlock, responder.State(), responder.carrier.issuedReceipts,
                 gatekeeper.State(), dbManager.view)
    }

    ghost predicate Watching()
      reads this, responder, dbManager, gatekeeper, responder.carrier, responder.dbManager
    {
      Linked() && MemoryOk(View())
    }

    method FilterBreaches(breaches: map<Locator, Txid>)
      returns (valid: map<Uuid, Breach>, invalid: seq<Uuid>, ghost entries: seq<Entry>)
      requires Watching() && breaches.Keys <= locatorUuidMap.Keys
      ensures ListsBreached(entries, appointments, dbManager.view, breaches)
      ensures valid == ValidPart(Verdicts(world.decrypt, entries))
      ensures NoDup(invalid) && Elems(invalid) == InvalidPart(Verdicts(world.decrypt, entries))
      ensures Verdicts(world.decrypt, entries).Keys == Uuids(entries)
    {
      var memo: map<Blob, Penalty> := map[];
      valid, invalid, entries := map[], [], [];
      var pending := breaches.Keys;
      while pending != {}
        invariant pending <= breaches.Keys
        invariant Filtered(world.decrypt, entries, valid, invalid, memo)
        invariant EntriesFit(entries, breaches)
        invariant Uuids(entries) == Breached(breaches.Keys - pending)
        decreases pending
      {
        var locator :| locator in pending;
        valid, invalid, memo, entries := FilterLocator(locator, breaches, pending, valid, invalid, memo, entries);
        assert breaches.Keys - (pending - {locator}) == breaches.Keys - pending + {locator};
        pending := pending - {locator};
      }
      assert Breached(breaches.Keys - {}) == Breached(breaches.Keys);
    }

    /** The watched appointments with one of the locators. */
    ghost function Breached(locators: set<Locator>): set<Uuid>
      reads this
    {
      set u | u in appointments && appointments[u].locator in locators
    }

    ghost predicate EntriesFit(entries: seq<Entry>, breaches: map<Locator, Txid>)
      reads this, dbManager
    {
      forall e <- entries ::
        && e.uuid in appointments && e.uuid in dbManager.view.w && appointments[e.uuid].locator in breaches
        && e == EntryFor(dbManager.view, breaches, e.uuid, appointments[e.uuid].locator)
    }

    method FilterUuid(
      uuid: Uuid, locator: Locator, breaches: map<Locator, Txid>,
      valid: map<Uuid, Breach>, invalid: seq<Uuid>, memo: map<Blob, Penalty>, ghost entries: seq<Entry>)
      returns (valid': map<Uuid, Breach>, invalid': seq<Uuid>, memo': map<Blob, Penalty>, ghost entries': seq<Entry>)
      requires Watching() && locator in breaches
      requires locator in locatorUuidMap && uuid in locatorUuidMap[locator] && uuid !in Uuids(entries)
      requires Filtered(world.decrypt, entries, valid, invalid, memo) && EntriesFit(entries, breaches)
      ensures Filtered(world.decrypt, entries', valid', invalid', memo') && EntriesFit(entries', breaches)
      ensures Uuids(entries') == Uuids(entries) + {uuid}
    {
      ExactLists(LocatorOf(appointments), locatorUuidMap, locator, uuid);
      var appointment := dbManager.LoadWatcherAppointment(uuid);
      var e := Entry(uuid, appointment.value.locator, appointment.value.blob, breaches[locator]);
      valid', invalid', memo' := FilterOne(world.decrypt, e, valid, invalid, memo, entries);
      entries' := entries + [e];
      EntriesOneMore(world.decrypt, entries, e);
      assert e == EntryFor(dbManager.view, breaches, uuid, locator);
    }

    method FilterLocator(
      locator: Locator, breaches: map<Locator, Txid>, ghost pending: set<Locator>,
      valid: map<Uuid, Breach>, invalid: seq<Uuid>, memo: map<Blob, Penalty>, ghost entries: seq<Entry>)
      returns (valid': map<Uuid, Breach>, invalid': seq<Uuid>, memo': map<Blob, Penalty>, ghost entries': seq<Entry>)
      requires Watching() && breaches.Keys <= locatorUuidMap.Keys && locator in pending && pending <= breaches.Keys
      requires Filtered(world.decrypt, entries, valid, invalid, memo) && EntriesFit(entries, breaches)
      requires Uuids(entries) == Breached(breaches.Keys - pending)
      ensures Filtered(world.decrypt, entries', valid', invalid', memo') && EntriesFit(entries', breaches)
      ensures Uuids(entries') == Breached(breaches.Keys - pending + {locator})
    {
      valid', invalid', memo', entries' := valid, invalid, memo, entries;
      var uuids := locatorUuidMap[locator];
      BreachedOneMore(breaches.Keys - pending, locator);
      for i := 0 to |uuids|
        invariant Filtered(world.decrypt, entries', valid', invalid', memo') && EntriesFit(entries', breaches)
        invariant Uuids(entries') == Uuids(entries) + Elems(uuids[..i])
      {
        FreshUuid(uuids, i, Uuids(entries));
        valid', invalid', memo', entries' := FilterUuid(uuids[i], locator, breaches, valid', invalid', memo', entries');
      }
      assert uuids[..|uuids|] == uuids;
    }

    lemma BreachedOneMore(locators: set<Locator>, locator: Locator)
      requires Exact(LocatorOf(appointments), locatorUuidMap)
      requires locator in locatorUuidMap && locator !in locators
      ensures Breached(locators + {locator}) == Breached(locators) + Elems(locatorUuidMap[locator])
      ensures Breached(locators) !! Elems(locatorUuidMap[locator])
      ensures NoDup(locatorUuidMap[locator])
    {
      forall u ensures u in locatorUuidMap[locator] <==> u in appointments && appointments[u].locator == locator {
        ExactLists(LocatorOf(appointments), locatorUuidMap, locator, u);
      }
    }

    /** Drops the appointments of outdated users that are still watched. */
    method DeleteOutdated(height: int)
      requires Watching()
      modifies this`appointments, this`locatorUuidMap, dbManager
      ensures var outdated := Flatten(Expiry.GetOutdated(gatekeeper.config, gatekeeper.State(), height));
              var gone := outdated * old(appointments).Keys;
              && appointments == old(appointments) - gone
              && dbManager.view == old(dbManager.view).(w := old(dbManager.view).w - gone)
      ensures Watching()
    {
      var outdated := gatekeeper.GetOutdatedAppointments(height);
      var here := ListOf((set u | u in outdated) * appointments.Keys);
      assert (set u | u in outdated) == Elems(outdated);
      appointments, locatorUuidMap := Cleaner.DeleteAppointments(here, appointments, locatorUuidMap, dbManager);
    }

    ghost predicate Watches(locator: Locator)
      reads this`appointments
    {
      exists u <- appointments :: appointments[u].locator == locator
    }

    /** With an exact index, the breaches are the transactions of the block that some watched appointment waits for. */
    method GetBreaches(locatorTxidMap: map<Locator, Txid>) returns (breaches: map<Locator, Txid>)
      requires Exact(LocatorOf(appointments), locatorUuidMap)
      ensures forall l :: l in breaches <==> l in locatorTxidMap && Watches(l)
      ensures forall l <- breaches :: breaches[l] == locatorTxidMap[l]
      ensures breaches.Keys <= locatorUuidMap.Keys
    {
      forall l ensures l in locatorUuidMap <==> Watches(l) {
        if Watches(l) {
          var u :| u in appointments && appointments[u].locator == l;
          ExactLists(LocatorOf(appointments), locatorUuidMap, l, u);
        }
        if l in locatorUuidMap {
          ExactLists(LocatorOf(appointments), locatorUuidMap, l, locatorUuidMap[l][0]);
        }
      }
      breaches := map l | l in locatorTxidMap && l in locatorUuidMap :: locatorTxidMap[l];
    }

    method ForgetOne(uuid: Uuid)
      requires uuid in appointments && Exact(LocatorOf(appointments), locatorUuidMap)
      modifies this`appointments, this`locatorUuidMap
      ensures appointments == old(appointments) - {uuid} && Exact(LocatorOf(appointments), locatorUuidMap)
    {
      appointments, locatorUuidMap := Cleaner.DeleteAppointmentFromMemory(uuid, appointments, locatorUuidMap);
    }

    method HandOver(net: Network, uuid: Uuid, breach: Breach) returns (receipt: Receipt)
      requires Watching() && uuid in appointments
      modifies responder`trackers, responder`txTrackerMap, responder`unconfirmedTxs, dbManager, responder.carrier
      ensures Linked()
      ensures receipt == ReceiptFor(old(responder.carrier.issuedReceipts), net, breach.penalty.txid)
      ensures HandledByResponder(old(View()), View(), uuid, breach, net)
    {
      hide InverseIndex.Exact, Represents, Insert;
      ElemsAppend(responder.unconfirmedTxs, breach.penalty.txid);
      receipt := responder.HandleBreach(net, uuid, TrackerFor(breach, appointments[uuid].userId));
    }

    /** One iteration of the delivery loop: a delivered appointment leaves the memory of the Watcher. */
    method HandleOne(net: Network, uuid: Uuid, breach: Breach) returns (receipt: Receipt)
      requires Watching() && uuid in appointments
      modifies this`appointments, this`locatorUuidMap
      modifies responder`trackers, responder`txTrackerMap, responder`unconfirmedTxs, dbManager, responder.carrier
      ensures Watching()
      ensures receipt == ReceiptFor(old(responder.carrier.issuedReceipts), net, breach.penalty.txid)
      ensures HandedOne(old(View()), View(), uuid, breach, net)
    {
      hide InverseIndex.Exact, Represents, InStep, MemoryOk, HandledByResponder, HandedOne, ReceiptFor;
      ghost var before := View();
      receipt := HandOver(net, uuid, breach);
      ghost var after := View();
      if receipt.delivered {
        ForgetOne(uuid);
      }
      ForgottenToo(before, after, View(), uuid, breach, net);
      HandedOneKeepsMemory(before, View(), uuid, breach, net);
    }

    method HandleNext(
      net: Network, valid: map<Uuid, Breach>, uuid: Uuid, flags: seq<Uuid>, refused: seq<Uuid>,
      ghost t0: Tower, ghost done: set<Uuid>)
      returns (flags': seq<Uuid>, refused': seq<Uuid>)
      requires Watching() && valid.Keys <= t0.appointments.Keys && uuid in valid && uuid !in done
      requires Handed(t0, View(), valid, done, net) && Classified(flags, refused, valid, done, t0.issued, net)
      modifies this`appointments, this`locatorUuidMap
      modifies responder`trackers, responder`txTrackerMap, responder`unconfirmedTxs, dbManager, responder.carrier
      ensures Watching()
      ensures Handed(t0, View(), valid, done + {uuid}, net)
      ensures Classified(flags', refused', valid, done + {uuid}, t0.issued, net)
    {
      hide InverseIndex.Exact, Represents, InStep, MemoryOk, Handed, HandedOne, Classified, ReceiptFor;
      ghost var before := View();
      StillWatched(t0, before, valid, done, uuid, net);
      var receipt := HandleOne(net, uuid, valid[uuid]);
      HandedOneMore(t0, before, View(), valid, done, uuid, net);
      flags', refused' := Classify(uuid, receipt.delivered, flags, refused, valid, done, t0.issued, net);
    }

    /** The delivery loop: which breaches reached the Responder, and which are to be deleted. */
    method HandleValidBreaches(net: Network, valid: map<Uuid, Breach>) returns (flags: seq<Uuid>, refused: seq<Uuid>)
      requires Watching() && valid.Keys <= appointments.Keys
      modifies this`appointments, this`locatorUuidMap
      modifies responder`trackers, responder`txTrackerMap, responder`unconfirmedTxs, dbManager, responder.carrier
      ensures Watching() && Handed(old(View()), View(), valid, valid.Keys, net)
      ensures Classified(flags, refused, valid, valid.Keys, old(View()).issued, net)
    {
      hide InverseIndex.Exact, Represents, InStep, MemoryOk, Handed, Classified;
      flags, refused := [], [];
      var pending := valid.Keys;
      ghost var t0, done := View(), {};
      HandedNothing(t0, valid, net);
      ClassifiedNothing(valid, t0.issued, net);
      while pending != {}
        invariant Watching() && pending <= valid.Keys && done == valid.Keys - pending
        invariant Handed(t0, View(), valid, done, net)
        invariant Classified(flags, refused, valid, done, t0.issued, net)
        decreases pending
      {
        var uuid :| uuid in pending;
        flags, refused := HandleNext(net, valid, uuid, flags, refused, t0, done);
        OneLess(valid.Keys, pending, uuid);
        done := done + {uuid};
        pending := pending - {uuid};
      }
      assert done == valid.Keys;
    }

    /** Flags the delivered appointments; deletes and refunds the others. */
    method SettleBreaches(flags: seq<Uuid>, toDelete: seq<Uuid>)
      requires Linked() && gatekeeper.Valid()
      requires NoDup(toDelete) && Elems(toDelete) <= appointments.Keys
      modifies this`appointments, this`locatorUuidMap, dbManager, gatekeeper`registeredUsers, gatekeeper.userDb
      ensures Linked() && gatekeeper.Valid()
      ensures View() == Settle(old(View()), Elems(flags), Elems(toDelete))
    {
      var owners := map u | u in appointments && u in toDelete :: appointments[u].userId;
      assert owners == AppointmentOwners(appointments, Elems(toDelete));
      dbManager.BatchCreateTriggeredAppointmentFlag(flags);
      appointments, locatorUuidMap := Cleaner.DeleteAppointments(toDelete, appointments, locatorUuidMap, dbManager);
      gatekeeper.DeleteAppointments(owners);
    }

    /** The part of a block handled under the lock. */
    method SearchBlock(
      net: Network, height: int, locatorTxidMap: map<Locator, Txid>)
      returns (ghost entries: seq<Entry>)
      requires Watching() && gatekeeper.Valid()
      modifies this`appointments, this`locatorUuidMap
      modifies responder`trackers, responder`txTrackerMap, responder`unconfirmedTxs, dbManager, responder.carrier
      modifies gatekeeper`registeredUsers, gatekeeper.userDb
      ensures Linked() && gatekeeper.Valid()
      ensures var outdated := Flatten(Expiry.GetOutdated(gatekeeper.config, old(gatekeeper.State()), height));
              var gone := outdated * old(appointments).Keys;
              && ListsBreached(entries, old(appointments) - gone, old(dbManager.view), locatorTxidMap)
              && Disposed(old(View()), View(), gone, Verdicts(world.decrypt, entries), net)
    {
      hide InverseIndex.Exact, Represents, InStep, Disposed, ListsBreached, Verdicts;
      ghost var t0 := View();
      ghost var gone := Flatten(Expiry.GetOutdated(gatekeeper.config, gatekeeper.State(), height)) * appointments.Keys;
      DeleteOutdated(height);
      ghost var t1 := View();
      assert t1 == WithoutOutdated(t0, gone);
      var breaches := GetBreaches(locatorTxidMap);
      var valid, invalid;
      valid, invalid, entries := FilterBreaches(breaches);
      OnlyWatched(entries, t0, gone, locatorTxidMap, breaches);
      Dispose(net, valid, invalid, Verdicts(world.decrypt, entries), t0, gone);
    }

    /** Hands over or drops every breach of a block. */
    method Dispose(
      net: Network, valid: map<Uuid, Breach>, invalid: seq<Uuid>,
      ghost verdicts: map<Uuid, Option<Breach>>, ghost t0: Tower, ghost gone: set<Uuid>)
      requires Watching() && gatekeeper.Valid()
      requires View() == WithoutOutdated(t0, gone) && verdicts.Keys <= appointments.Keys
      requires valid == ValidPart(verdicts) && NoDup(invalid) && Elems(invalid) == InvalidPart(verdicts)
      modifies this`appointments, this`locatorUuidMap
      modifies responder`trackers, responder`txTrackerMap, responder`unconfirmedTxs, dbManager, responder.carrier
      modifies gatekeeper`registeredUsers, gatekeeper.userDb
      ensures Linked() && gatekeeper.Valid()
      ensures Disposed(t0, View(), gone, verdicts, net)
    {
      hide InverseIndex.Exact, Represents, InStep, Disposed;
      var flags, refused := HandleValidBreaches(net, valid);
      ghost var t2 := View();
      ToDelete(verdicts, flags, refused, invalid, t0.issued, net);
      SettleBreaches(flags, refused + invalid);
      DisposedInParts(t0, t2, gone, verdicts, net);
    }

    // ---------- Requests ----------

    /** The components share their state, and the cache is the one recomputed from the last blocks. */
    ghost predicate Attached()
      reads this, responder, dbManager, gatekeeper, responder.carrier, responder.dbManager
      reads gatekeeper.userDb, locatorCache
    {
      && Linked() && gatekeeper.Valid() && gatekeeper.config == world.config
      && WorldOk(world) && lastKnownBlock in world.tree
      && locatorCache.cacheSize == world.cacheSize && locatorCache.Exact(world.tree, lastKnownBlock)
    }

    /** What holds between two steps, whatever blocks came, as long as nothing is both watched and tracked. */
    ghost predicate Ready()
      reads this, responder, dbManager, gatekeeper, responder.carrier, responder.dbManager
      reads gatekeeper.userDb, locatorCache
    {
      Attached() && Consistent(world, View())
    }

    /** What a run keeps in which no block overlooks a trigger. */
    ghost predicate Valid()
      reads this, responder, dbManager, gatekeeper, responder.carrier, responder.dbManager
      reads gatekeeper.userDb, locatorCache
    {
      Attached() && Inv(world, View())
    }

    lemma ValidIsReady()
      requires Valid()
      ensures Ready() && Addressed(world, View())
    {
      ReadyIsAddressed();
    }

    lemma ReadyIsAddressed()
      requires Ready()
      ensures Addressed(world, View())
    {
      ConsistentIsAddressed(world, View());
    }

    lemma CacheIsExact()
      requires Attached()
      ensures WellFormed(world.tree) && lastKnownBlock in world.tree
      ensures locatorCache.cache == CacheAt(world, lastKnownBlock)
    {
    }

    method Register(userId: UserId, blockCount: int) returns (r: Result<(int, int)>)
      requires Linked() && gatekeeper.Valid() && gatekeeper.config == world.config
      modifies gatekeeper`registeredUsers, gatekeeper.userDb
      ensures (View(), r) == RegisterUser(world, old(View()), userId, blockCount)
      ensures r.Ok? ==>
                var users := gatekeeper.registeredUsers;
                && Subscribed(world.config, old(gatekeeper.registeredUsers), users, userId, blockCount)
                && r.value == (users[userId].availableSlots, blockCount + world.config.subscriptionDuration)
      ensures Linked() && gatekeeper.Valid()
    {
      r := gatekeeper.AddUpdateUser(userId, blockCount);
    }

    /** An appointment that was not triggered lately is watched; an update replaces it in place. */
    method WatchAppointment(uuid: Uuid, a: Appointment)
      requires Linked() && (uuid in appointments ==> appointments[uuid].locator == a.locator)
      modifies this`appointments, this`locatorUuidMap, dbManager
      ensures Linked() && View() == Watch(old(View()), uuid, a)
    {
      Cleaner.LocatorOfUpdates(appointments, uuid, a.Summary());
      ExactLists(LocatorOf(appointments), locatorUuidMap, a.locator, uuid);
      if uuid in appointments {
        assert LocatorOf(appointments)[uuid := a.locator] == LocatorOf(appointments);
      } else {
        InsertKeepsExact(LocatorOf(appointments), locatorUuidMap, a.locator, uuid);
      }
      appointments := appointments[uuid := a.Summary()];
      if a.locator in locatorUuidMap {
        if uuid !in locatorUuidMap[a.locator] {
          locatorUuidMap := locatorUuidMap[a.locator := locatorUuidMap[a.locator] + [uuid]];
        }
      } else {
        locatorUuidMap := locatorUuidMap[a.locator := [uuid]];
      }
      dbManager.StoreWatcherAppointment(uuid, a);
    }

    /** An appointment whose trigger is cached is answered at once; it is stored only when the penalty is delivered. */
    method RespondAtOnce(net: Network, uuid: Uuid, a: Appointment, disputeTxid: Txid)
      requires Linked() && uuid !in responder.trackers
      modifies responder`trackers, responder`txTrackerMap, responder`unconfirmedTxs, dbManager, responder.carrier
      ensures Linked()
      ensures View() == match world.decrypt(a.blob, disputeTxid)
                        case None => old(View())
                        case Some(p) =>
                          Respond(old(View()), uuid, a, TrackerFor(Breach(a.locator, disputeTxid, p), a.userId),
                                  ReceiptFor(old(responder.carrier.issuedReceipts), net, p.txid))
    {
      hide InverseIndex.Exact, Represents, InStep, ReceiptFor, FitsReply;
      var penalty := world.decrypt(a.blob, disputeTxid);
      if penalty.Some? {
        var tracker := TrackerFor(Breach(a.locator, disputeTxid, penalty.value), a.userId);
        var receipt := responder.HandleBreach(net, uuid, tracker);
        if receipt.delivered {
          dbManager.StoreWatcherAppointment(uuid, a);
          dbManager.CreateTriggeredAppointmentFlag(uuid);
        }
      }
    }

    /** The part of `add_appointment` after the slots are charged. */
    method PlaceAppointment(net: Network, uuid: Uuid, a: Appointment)
      requires Linked() && uuid !in responder.trackers
      requires (uuid in appointments ==> appointments[uuid].locator == a.locator)
      requires WellFormed(world.tree) && lastKnownBlock in world.tree
      requires locatorCache.cache == CacheAt(world, lastKnownBlock)
      modifies this`appointments, this`locatorUuidMap
      modifies responder`trackers, responder`txTrackerMap, responder`unconfirmedTxs, dbManager, responder.carrier
      ensures Linked() && View() == Place(world, old(View()), uuid, a, net)
    {
      hide WellFormed, CacheAt;
      var disputeTxid := locatorCache.GetTxid(a.locator);
      if disputeTxid.Some? {
        RespondAtOnce(net, uuid, a, disputeTxid.value);
      } else {
        WatchAppointment(uuid, a);
      }
    }

    /** The checks of `add_appointment`, in order, before any slot is charged. */
    method CheckRequest(req: Request, blockCount: int) returns (refusal: Option<Exception>)
      ensures refusal == Refusal(world, View(), req, blockCount)
    {
      if |appointments| >= world.maxAppointments {
        return Some(AppointmentLimitReached);
      }
      if req.signer.None? {
        return Some(AuthenticationFailure);
      }
      var expiry := gatekeeper.HasSubscriptionExpired(req.signer.value, blockCount);
      if expiry.Raised? {
        return Some(expiry.exception);
      }
      if expiry.value.0 {
        return Some(SubscriptionExpired);
      }
      var uuid := world.uuidOf(req.locator, req.signer.value);
      if uuid in responder.trackers {
        return Some(AppointmentAlreadyTriggered);
      }
      refusal := None;
    }

    /** Charges the slots of a request that passed the checks, then places its appointment. */
    method ChargeAndPlace(req: Request, net: Network) returns (r: Result<Answer>)
      requires Linked() && gatekeeper.Valid() && req.signer.Some? && req.signer.value in gatekeeper.registeredUsers
      requires WellFormed(world.tree) && lastKnownBlock in world.tree
      requires locatorCache.cache == CacheAt(world, lastKnownBlock)
      requires var uuid := world.uuidOf(req.locator, req.signer.value);
               uuid !in responder.trackers && (uuid in appointments ==> appointments[uuid].locator == req.locator)
      modifies this`appointments, this`locatorUuidMap
      modifies responder`trackers, responder`txTrackerMap, responder`unconfirmedTxs, dbManager, responder.carrier
      modifies gatekeeper`registeredUsers, gatekeeper.userDb
      ensures Linked() && gatekeeper.Valid()
      ensures (View(), r) == Paid(world, old(View()), req, net)
    {
      hide WellFormed, CacheAt, Charge, Place;
      var userId := req.signer.value;
      var uuid := world.uuidOf(req.locator, userId);
      ChargeKeepsUser(gatekeeper.registeredUsers, userId, uuid, |req.blob|);
      var availableSlots := gatekeeper.AddUpdateAppointment(userId, uuid, |req.blob|);
      if availableSlots.Raised? {
        return Raised(availableSlots.exception);
      }
      var height := world.tree[lastKnownBlock].height;
      var a := Appointment(req.locator, req.blob, req.toSelfDelay, userId, req.signature, height);
      PlaceAppointment(net, uuid, a);
      var expiry := gatekeeper.registeredUsers[userId].subscriptionExpiry;
      r := Ok(Answer(a.locator, a.startBlock, availableSlots.value, expiry));
    }

    /** Any request, even when some appointment is both watched and tracked already. */
    method AddAppointment(req: Request, blockCount: int, net: Network) returns (r: Result<Answer>)
      requires Attached() && Addressed(world, View())
      modifies this`appointments, this`locatorUuidMap
      modifies responder`trackers, responder`txTrackerMap, responder`unconfirmedTxs, dbManager, responder.carrier
      modifies gatekeeper`registeredUsers, gatekeeper.userDb
      ensures (View(), r) == TowerModel.AddAppointment(world, old(View()), req, blockCount, net)
      ensures Attached() && Addressed(world, View())
      ensures old(Ready()) ==> (Ready() <==> Exclusive(View()))
      ensures old(Valid()) ==> Valid()
    {
      hide Inv, Consistent, Addressed, WorldOk, Paid, CacheAt;
      ghost var t := View();
      CacheIsExact();
      AnyRequest(req, blockCount, net);
      var refusal := CheckRequest(req, blockCount);
      if refusal.Some? {
        return Raised(refusal.value);
      }
      UpdateKeepsLocator(world, t, req.locator, req.signer.value);
      r := ChargeAndPlace(req, net);
    }

    /** What the request does to the properties of the whole tower. */
    lemma AnyRequest(req: Request, blockCount: int, net: Network)
      requires Attached() && Addressed(world, View())
      ensures WellFormed(world.tree)
      ensures var t' := TowerModel.AddAppointment(world, View(), req, blockCount, net).0;
              && Addressed(world, t')
              && (Consistent(world, View()) ==> (Consistent(world, t') <==> Exclusive(t')))
              && (Inv(world, View()) ==> Inv(world, t'))
    {
      hide Inv, Consistent, Addressed, WellFormed, DistinctLocators, Injective, TowerModel.AddAppointment, Exclusive;
      RequestKeepsAddressed(world, View(), req, blockCount, net);
      if Consistent(world, View()) {
        RequestKeepsConsistentIff(world, View(), req, blockCount, net);
      }
      if Inv(world, View()) {
        AddKeepsInv(world, View(), req, blockCount, net);
      }
    }

    // ---------- Blocks ----------

    /** The body of `do_watch` for one block, up to the lock: the cache, then the search. */
    method CacheAndSearch(net: Network, h: Hash) returns (ghost entries: seq<Entry>)
      requires Watching() && gatekeeper.Valid() && gatekeeper.config == world.config
      requires WellFormed(world.tree) && DistinctLocators(world.tree) && lastKnownBlock in world.tree && h in world.tree
      requires locatorCache.Exact(world.tree, lastKnownBlock)
      modifies this`appointments, this`locatorUuidMap, locatorCache
      modifies responder`trackers, responder`txTrackerMap, responder`unconfirmedTxs, dbManager, responder.carrier
      modifies gatekeeper`registeredUsers, gatekeeper.userDb
      ensures Linked() && gatekeeper.Valid() && locatorCache.Exact(world.tree, h)
      ensures dbManager.view.bw == old(dbManager.view.bw)
      ensures if !Searched(world, old(View()), h) then View() == old(View())
              else
                var gone := OutdatedHere(world, old(View()), world.tree[h].height);
                && ListsBreached(entries, old(appointments) - gone, old(dbManager.view), LocatorMap(world.tree[h].txs))
                && Disposed(old(View()), View(), gone, Verdicts(world.decrypt, entries), net)
    {
      hide WellFormed, DistinctLocators, ListsBreached, MemoryOk;
      var updated := locatorCache.OnBlock(world.tree, lastKnownBlock, h);
      var locatorTxidMap := LocatorMap(world.tree[h].txs);
      entries := [];
      if |appointments| > 0 && locatorTxidMap != map[] {
        entries := SearchBlock(net, world.tree[h].height, locatorTxidMap);
      }
    }

    method AdvanceTo(net: Network, h: Hash) returns (ghost entries: seq<Entry>)
      requires Attached() && MemoryOk(View()) && h in world.tree
      modifies this`appointments, this`locatorUuidMap, this`lastKnownBlock, locatorCache
      modifies responder`trackers, responder`txTrackerMap, responder`unconfirmedTxs, dbManager, responder.carrier
      modifies gatekeeper`registeredUsers, gatekeeper.userDb
      ensures WatcherBlock(world, old(View()), View(), h, net, entries)
      ensures Attached()
    {
      hide WellFormed, DistinctLocators, Injective, Disposed, ListsBreached, MemoryOk, OutdatedHere, Searched;
      hide Verdicts;
      hide LocatorCache.Exact, InverseIndex.Exact, Represents, InStep;
      entries := CacheAndSearch(net, h);
      dbManager.StoreLastBlockHashWatcher(h);
      lastKnownBlock := h;
    }

    /** The body of `do_watch` for one block, whichever block it is. */
    method OnBlock(net: Network, h: Hash) returns (ghost entries: seq<Entry>)
      requires Ready() && h in world.tree
      modifies this`appointments, this`locatorUuidMap, this`lastKnownBlock, locatorCache
      modifies responder`trackers, responder`txTrackerMap, responder`unconfirmedTxs, dbManager, responder.carrier
      modifies gatekeeper`registeredUsers, gatekeeper.userDb
      ensures WatcherBlock(world, old(View()), View(), h, net, entries)
      ensures Ready()
      ensures old(Valid()) ==> (Valid() <==> old(Overlooked(world, View(), h)) == {})
    {
      hide Consistent, Inv, Overlooked, WatcherBlock, MemoryOk;
      ghost var t := View();
      ConsistentMemory(world, t);
      entries := AdvanceTo(net, h);
      WatcherKeepsConsistent(world, t, View(), h, net, entries);
      if old(Valid()) {
        WatcherBlockKeepsInvIff(world, t, View(), h, net, entries);
      }
    }

    /** The transactions of the block that are no breach concern no watched appointment. */
    lemma OnlyWatched(
      entries: seq<Entry>, t0: Tower, gone: set<Uuid>, lmap: map<Locator, Txid>, breaches: map<Locator, Txid>)
      requires appointments == t0.appointments - gone
      requires forall l :: l in breaches <==> l in lmap && Watches(l)
      requires forall l <- breaches :: breaches[l] == lmap[l]
      requires ListsBreached(entries, t0.appointments - gone, WithoutOutdated(t0, gone).view, breaches)
      ensures ListsBreached(entries, t0.appointments - gone, t0.view, lmap)
    {
    }
  }

  /** An update comes under the same uuid only for the same locator. */
  lemma UpdateKeepsLocator(world: World, t: Tower, l: Locator, userId: UserId)
    requires WorldOk(world) && Addressed(world, t)
    ensures var uuid := world.uuidOf(l, userId); uuid in t.appointments ==> t.appointments[uuid].locator == l
  {
  }

  lemma ConsistentMemory(world: World, t: Tower)
    requires Consistent(world, t)
    ensures MemoryOk(t)
  {
  }

  lemma ChargeKeepsUser(users: Users, userId: UserId, uuid: Uuid, blobLength: nat)
    requires userId in users
    ensures var charged := Charge(users, userId, uuid, blobLength); charged.Ok? ==> userId in charged.value
  {
  }

  /** The list handed to the Cleaner: refused and invalid breaches, each once. */
  lemma ToDelete(
    verdicts: map<Uuid, Option<Breach>>, flags: seq<Uuid>, refused: seq<Uuid>, invalid: seq<Uuid>,
    issued: map<Txid, Receipt>, net: Network)
    requires var valid := ValidPart(verdicts); Classified(flags, refused, valid, valid.Keys, issued, net)
    requires NoDup(invalid) && Elems(invalid) == InvalidPart(verdicts)
    ensures NoDup(refused + invalid)
    ensures Elems(refused + invalid) == verdicts.Keys - Elems(flags)
  {
    forall i, j | 0 <= i < |refused| && 0 <= j < |invalid| ensures refused[i] != invalid[j] {
      assert refused[i] in Elems(refused) && invalid[j] in Elems(invalid);
    }
    assert Elems(refused + invalid) == Elems(refused) + Elems(invalid);
  }
}
