/**
 Deletion routines: they take the dictionaries of the Watcher or the Responder and keep the index and the database in
 step.
 */
module Cleaner {
  import opened Basics
  import opened Records
  import opened InverseIndex
  import opened AppointmentsDb

  lemma LocatorOfUpdates(appointments: map<Uuid, AppointmentSummary>, u: Uuid, s: AppointmentSummary)
    ensures LocatorOf(appointments[u := s]) == LocatorOf(appointments)[u := s.locator]
    ensures LocatorOf(appointments - {u}) == LocatorOf(appointments) - {u}
  {
  }

  lemma PenaltyOfUpdates(trackers: map<Uuid, TrackerSummary>, u: Uuid, s: TrackerSummary)
    ensures PenaltyOf(trackers[u := s]) == PenaltyOf(trackers)[u := s.penaltyTxid]
    ensures PenaltyOf(trackers - {u}) == PenaltyOf(trackers) - {u}
  {
  }

  /** Drops one appointment from memory, and its locator when no other appointment shares it. */
  method DeleteAppointmentFromMemory(
    uuid: Uuid, appointments: map<Uuid, AppointmentSummary>, locatorUuidMap: map<Locator, seq<Uuid>>)
    returns (appointments': map<Uuid, AppointmentSummary>, locatorUuidMap': map<Locator, seq<Uuid>>)
    requires uuid in appointments && Exact(LocatorOf(appointments), locatorUuidMap)
    ensures appointments' == appointments - {uuid}
    ensures Exact(LocatorOf(appointments'), locatorUuidMap')
  {
    var locator := appointments[uuid].locator;
    assert LocatorOf(appointments)[uuid] == locator;
    RemoveKeepsExact(LocatorOf(appointments), locatorUuidMap, uuid);
    LocatorOfUpdates(appointments, uuid, appointments[uuid]);
    appointments' := appointments - {uuid};
    if |locatorUuidMap[locator]| == 1 {
      locatorUuidMap' := locatorUuidMap - {locator};
    } else {
      locatorUuidMap' := locatorUuidMap[locator := RemoveFirst(locatorUuidMap[locator], uuid)];
    }
  }

  /** Drops appointments that are outdated or cannot be completed, from memory and from disk. */
  method DeleteAppointments(
    uuids: seq<Uuid>, appointments: map<Uuid, AppointmentSummary>, locatorUuidMap: map<Locator, seq<Uuid>>,
    dbManager: AppointmentsDbm)
    returns (appointments': map<Uuid, AppointmentSummary>, locatorUuidMap': map<Locator, seq<Uuid>>)
    requires NoDup(uuids) && Elems(uuids) <= appointments.Keys
    requires Exact(LocatorOf(appointments), locatorUuidMap) && dbManager.Valid()
    modifies dbManager
    ensures appointments' == appointments - Elems(uuids)
    ensures Exact(LocatorOf(appointments'), locatorUuidMap')
    ensures dbManager.Valid() && dbManager.view == old(dbManager.view).(w := old(dbManager.view).w - Elems(uuids))
  {
    appointments', locatorUuidMap' := appointments, locatorUuidMap;
    for i := 0 to |uuids|
      invariant appointments' == appointments - Elems(uuids[..i])
      invariant Exact(LocatorOf(appointments'), locatorUuidMap')
      invariant dbManager.Valid() && dbManager.view == old(dbManager.view)
    {
      assert uuids[i] in Elems(uuids) && uuids[i] !in uuids[..i];
      appointments', locatorUuidMap' := DeleteAppointmentFromMemory(uuids[i], appointments', locatorUuidMap');
      assert Elems(uuids[..i + 1]) == Elems(uuids[..i]) + {uuids[i]};
    }
    assert uuids[..|uuids|] == uuids;
    dbManager.BatchDeleteWatcherAppointments(uuids);
  }

  method DeleteTrackerFromMemory(
    uuid: Uuid, trackers: map<Uuid, TrackerSummary>, txTrackerMap: map<Txid, seq<Uuid>>)
    returns (trackers': map<Uuid, TrackerSummary>, txTrackerMap': map<Txid, seq<Uuid>>)
    requires uuid in trackers && Exact(PenaltyOf(trackers), txTrackerMap)
    ensures trackers' == trackers - {uuid}
    ensures Exact(PenaltyOf(trackers'), txTrackerMap')
  {
    var penaltyTxid := trackers[uuid].penaltyTxid;
    assert PenaltyOf(trackers)[uuid] == penaltyTxid;
    RemoveKeepsExact(PenaltyOf(trackers), txTrackerMap, uuid);
    PenaltyOfUpdates(trackers, uuid, trackers[uuid]);
    trackers' := trackers - {uuid};
    if |txTrackerMap[penaltyTxid]| == 1 {
      txTrackerMap' := txTrackerMap - {penaltyTxid};
    } else {
      txTrackerMap' := txTrackerMap[penaltyTxid := RemoveFirst(txTrackerMap[penaltyTxid], uuid)];
    }
  }

  /** The three families an appointment that reached the Responder lives in. */
  function WithoutTrackers(view: View, uuids: set<Uuid>): View {
    view.(w := view.w - uuids, r := view.r - uuids, ta := view.ta - uuids)
  }

  lemma WithoutTwice(view: View, a: set<Uuid>, b: set<Uuid>)
    ensures WithoutTrackers(WithoutTrackers(view, a), b) == WithoutTrackers(view, a + b)
  {
    assert view.w - a - b == view.w - (a + b);
    assert view.r - a - b == view.r - (a + b);
  }

  /** Drops completed or outdated trackers from memory and from all three families on disk. */
  method DeleteTrackers(
    uuids: seq<Uuid>, trackers: map<Uuid, TrackerSummary>, txTrackerMap: map<Txid, seq<Uuid>>,
    dbManager: AppointmentsDbm)
    returns (trackers': map<Uuid, TrackerSummary>, txTrackerMap': map<Txid, seq<Uuid>>)
    requires NoDup(uuids) && Elems(uuids) <= trackers.Keys
    requires Exact(PenaltyOf(trackers), txTrackerMap) && dbManager.Valid()
    modifies dbManager
    ensures trackers' == trackers - Elems(uuids)
    ensures Exact(PenaltyOf(trackers'), txTrackerMap')
    ensures dbManager.Valid() && dbManager.view == WithoutTrackers(old(dbManager.view), Elems(uuids))
  {
    trackers', txTrackerMap' := trackers, txTrackerMap;
    for i := 0 to |uuids|
      invariant trackers' == trackers - Elems(uuids[..i])
      invariant Exact(PenaltyOf(trackers'), txTrackerMap')
      invariant dbManager.Valid() && dbManager.view == old(dbManager.view)
    {
      assert uuids[i] in Elems(uuids) && uuids[i] !in uuids[..i];
      trackers', txTrackerMap' := DeleteTrackerFromMemory(uuids[i], trackers', txTrackerMap');
      assert Elems(uuids[..i + 1]) == Elems(uuids[..i]) + {uuids[i]};
    }
    assert uuids[..|uuids|] == uuids;
    dbManager.BatchDeleteResponderTrackers(uuids);
    dbManager.BatchDeleteWatcherAppointments(uuids);
    dbManager.BatchDeleteTriggeredAppointmentFlag(uuids);
  }
}
