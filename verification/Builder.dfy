/** Rebuilding memory from the database, and feeding the blocks missed while the tower was off. */
module Builder {
  import opened Basics
  import opened Records
  import opened InverseIndex
  import opened TowerModel
  import Cleaner

  // ---------- Dictionaries and indexes ----------

  lemma SummariesGrow(data: map<Uuid, Appointment>, done: set<Uuid>, u: Uuid)
    requires u in data
    ensures SummariesOf(data, done + {u}) == SummariesOf(data, done)[u := data[u].Summary()]
  {
  }

  function SummariesOf(data: map<Uuid, Appointment>, done: set<Uuid>): map<Uuid, AppointmentSummary> {
    map u | u in data && u in done :: data[u].Summary()
  }

  method BuildAppointments(data: map<Uuid, Appointment>)
    returns (appointments: map<Uuid, AppointmentSummary>, locatorUuidMap: map<Locator, seq<Uuid>>)
    ensures appointments == map u | u in data :: data[u].Summary()
    ensures Exact(LocatorOf(appointments), locatorUuidMap)
  {
    appointments, locatorUuidMap := map[], map[];
    var pending := data.Keys;
    while pending != {}
      invariant pending <= data.Keys
      invariant appointments == SummariesOf(data, data.Keys - pending)
      invariant Exact(LocatorOf(appointments), locatorUuidMap)
      decreases pending
    {
      var uuid :| uuid in pending;
      var locator := data[uuid].locator;
      SummariesGrow(data, data.Keys - pending, uuid);
      assert data.Keys - (pending - {uuid}) == data.Keys - pending + {uuid};
      InsertKeepsExact(LocatorOf(appointments), locatorUuidMap, locator, uuid);
      Cleaner.LocatorOfUpdates(appointments, uuid, data[uuid].Summary());
      appointments := appointments[uuid := data[uuid].Summary()];
      if locator in locatorUuidMap {
        locatorUuidMap := locatorUuidMap[locator := locatorUuidMap[locator] + [uuid]];
      } else {
        locatorUuidMap := locatorUuidMap[locator := [uuid]];
      }
      pending := pending - {uuid};
    }
  }

  function TrackersOf(data: map<Uuid, Tracker>, done: set<Uuid>): map<Uuid, TrackerSummary> {
    map u | u in data && u in done :: data[u].Summary()
  }

  lemma TrackersGrow(data: map<Uuid, Tracker>, done: set<Uuid>, u: Uuid)
    requires u in data
    ensures TrackersOf(data, done + {u}) == TrackersOf(data, done)[u := data[u].Summary()]
  {
  }

  method BuildTrackers(data: map<Uuid, Tracker>)
    returns (trackers: map<Uuid, TrackerSummary>, txTrackerMap: map<Txid, seq<Uuid>>)
    ensures trackers == Summaries(data)
    ensures Exact(PenaltyOf(trackers), txTrackerMap)
  {
    trackers, txTrackerMap := map[], map[];
    var pending := data.Keys;
    while pending != {}
      invariant pending <= data.Keys
      invariant trackers == TrackersOf(data, data.Keys - pending)
      invariant Exact(PenaltyOf(trackers), txTrackerMap)
      decreases pending
    {
      var uuid :| uuid in pending;
      var penaltyTxid := data[uuid].penaltyTxid;
      TrackersGrow(data, data.Keys - pending, uuid);
      assert data.Keys - (pending - {uuid}) == data.Keys - pending + {uuid};
      InsertKeepsExact(PenaltyOf(trackers), txTrackerMap, penaltyTxid, uuid);
      Cleaner.PenaltyOfUpdates(trackers, uuid, data[uuid].Summary());
      trackers := trackers[uuid := data[uuid].Summary()];
      if penaltyTxid in txTrackerMap {
        txTrackerMap := txTrackerMap[penaltyTxid := txTrackerMap[penaltyTxid] + [uuid]];
      } else {
        txTrackerMap := txTrackerMap[penaltyTxid := [uuid]];
      }
      pending := pending - {uuid};
    }
  }

  // ---------- Block queues ----------

  datatype Component = TheWatcher | TheResponder

  /** The order in which the components process blocks. */
  class Log {
    var processed: seq<(Component, Hash)>

    constructor ()
      ensures processed == []
    {
      processed := [];
    }
  }

  function Labelled(owner: Component, blocks: seq<Hash>): (l: seq<(Component, Hash)>)
    ensures |l| == |blocks| && forall i :: 0 <= i < |l| ==> l[i] == (owner, blocks[i])
  {
    seq(|blocks|, i requires 0 <= i < |blocks| => (owner, blocks[i]))
  }

  /** The block queue of one component; `Join` returns once the component has processed what is queued, in order. */
  class BlockQueue {
    const owner: Component
    const log: Log
    var pending: seq<Hash>

    constructor (owner: Component, log: Log)
      ensures this.owner == owner && this.log == log && pending == []
    {
      this.owner, this.log, pending := owner, log, [];
    }

    method Put(blockHash: Hash)
      modifies this
      ensures pending == old(pending) + [blockHash]
    {
      pending := pending + [blockHash];
    }

    method Join()
      modifies this, log
      ensures pending == [] && log.processed == old(log.processed) + Labelled(owner, old(pending))
    {
      log.processed := log.processed + Labelled(owner, pending);
      pending := [];
    }
  }

  method PopulateBlockQueue(queue: BlockQueue, missed: seq<Hash>)
    modifies queue
    ensures queue.pending == old(queue.pending) + missed
  {
    for i := 0 to |missed|
      invariant queue.pending == old(queue.pending) + missed[..i]
    {
      queue.Put(missed[i]);
      assert missed[..i + 1] == missed[..i] + [missed[i]];
    }
    assert missed[..|missed|] == missed;
  }

  // ---------- update_states ----------

  /** `sorted(set(a).difference(b), key=a.index)` */
  function SortedDifference(a: seq<Hash>, b: seq<Hash>): seq<Hash> {
    if a == [] then []
    else
      var last := |a| - 1;
      var before := SortedDifference(a[..last], b);
      if a[last] in b || a[last] in a[..last] then before else before + [a[last]]
  }

  /** It has the elements of the difference, each once, in the order of their first occurrence in `a`. */
  lemma {:induction false} SortedDifferenceFacts(a: seq<Hash>, b: seq<Hash>)
    ensures forall x :: x in SortedDifference(a, b) <==> x in a && x !in b
    ensures forall i, j :: 0 <= i < j < |SortedDifference(a, b)| ==>
              FirstBefore(a, SortedDifference(a, b)[i], SortedDifference(a, b)[j])
  {
    if a != [] {
      var last := |a| - 1;
      SortedDifferenceFacts(a[..last], b);
      var before := SortedDifference(a[..last], b);
      assert a == a[..last] + [a[last]];
      forall i, j | 0 <= i < j < |before| ensures FirstBefore(a, before[i], before[j]) {
        assert FirstBefore(a[..last], before[i], before[j]);
        var k :| 0 <= k < last && a[..last][k] == before[i] && before[j] !in a[..last][..k + 1];
        assert a[..last][..k + 1] == a[..k + 1];
      }
      if a[last] !in b && a[last] !in a[..last] {
        forall i | 0 <= i < |before| ensures FirstBefore(a, before[i], a[last]) {
          assert before[i] in a[..last];
          var k :| 0 <= k < last && a[..last][k] == before[i];
          assert a[last] !in a[..k + 1];
        }
      }
    }
  }

  /** `x` occurs before the first `y`. */
  ghost predicate FirstBefore(a: seq<Hash>, x: Hash, y: Hash) {
    exists k :: 0 <= k < |a| && a[k] == x && y !in a[..k + 1]
  }

  /** Every block to the Watcher and then to the Responder, one after the other. */
  function InLockStep(blocks: seq<Hash>): seq<(Component, Hash)> {
    if blocks == [] then []
    else
      var last := |blocks| - 1;
      InLockStep(blocks[..last]) + [(TheWatcher, blocks[last]), (TheResponder, blocks[last])]
  }

  /** The i-th block is the Watcher's and then the Responder's, before either gets the next one. */
  lemma {:induction false} WatcherGoesFirst(blocks: seq<Hash>, i: nat)
    requires i < |blocks|
    ensures |InLockStep(blocks)| == 2 * |blocks|
    ensures InLockStep(blocks)[2 * i] == (TheWatcher, blocks[i])
    ensures InLockStep(blocks)[2 * i + 1] == (TheResponder, blocks[i])
  {
    var last := |blocks| - 1;
    if last > 0 {
      WatcherGoesFirst(blocks[..last], if i < last then i else 0);
    }
  }

  /** What `update_states` makes the components process. */
  function Fed(missedWatcher: seq<Hash>, missedResponder: seq<Hash>): seq<(Component, Hash)> {
    (if |missedResponder| > |missedWatcher| then
       Labelled(TheResponder, SortedDifference(missedResponder, missedWatcher))
     else if |missedWatcher| > |missedResponder| then
       Labelled(TheWatcher, SortedDifference(missedWatcher, missedResponder))
     else [])
    + InLockStep(missedWatcher)
  }

  method UpdateStates(
    watcherQueue: BlockQueue, responderQueue: BlockQueue, missedWatcher: seq<Hash>, missedResponder: seq<Hash>)
    returns (r: Result<()>)
    requires watcherQueue.owner == TheWatcher && responderQueue.owner == TheResponder
    requires watcherQueue.log == responderQueue.log && watcherQueue.pending == [] && responderQueue.pending == []
    modifies watcherQueue, responderQueue, watcherQueue.log
    ensures r == if missedWatcher == [] || missedResponder == [] then Raised(ValueError) else Ok(())
    ensures watcherQueue.log.processed ==
            old(watcherQueue.log.processed) + if r == Ok(()) then Fed(missedWatcher, missedResponder) else []
    ensures watcherQueue.pending == [] && responderQueue.pending == []
  {
    hide SortedDifference, InLockStep, Labelled;
    if |missedResponder| == 0 || |missedWatcher| == 0 {
      return Raised(ValueError);
    }
    if |missedResponder| > |missedWatcher| {
      PopulateBlockQueue(responderQueue, SortedDifference(missedResponder, missedWatcher));
      responderQueue.Join();
    } else if |missedWatcher| > |missedResponder| {
      PopulateBlockQueue(watcherQueue, SortedDifference(missedWatcher, missedResponder));
      watcherQueue.Join();
    }
    UpdateOneByOne(watcherQueue, responderQueue, missedWatcher);
    r := Ok(());
  }

  /** The last loop of `update_states`. */
  method UpdateOneByOne(watcherQueue: BlockQueue, responderQueue: BlockQueue, blocks: seq<Hash>)
    requires watcherQueue.owner == TheWatcher && responderQueue.owner == TheResponder
    requires watcherQueue.log == responderQueue.log && watcherQueue.pending == [] && responderQueue.pending == []
    modifies watcherQueue, responderQueue, watcherQueue.log
    ensures watcherQueue.log.processed == old(watcherQueue.log.processed) + InLockStep(blocks)
    ensures watcherQueue.pending == [] && responderQueue.pending == []
  {
    for i := 0 to |blocks|
      invariant watcherQueue.pending == [] && responderQueue.pending == []
      invariant watcherQueue.log.processed == old(watcherQueue.log.processed) + InLockStep(blocks[..i])
    {
      UpdateWithOne(watcherQueue, responderQueue, blocks[i]);
      assert blocks[..i + 1][..i] == blocks[..i];
    }
    assert blocks[..|blocks|] == blocks;
  }

  method UpdateWithOne(watcherQueue: BlockQueue, responderQueue: BlockQueue, h: Hash)
    requires watcherQueue.owner == TheWatcher && responderQueue.owner == TheResponder
    requires watcherQueue.log == responderQueue.log && watcherQueue.pending == [] && responderQueue.pending == []
    modifies watcherQueue, responderQueue, watcherQueue.log
    ensures watcherQueue.log.processed == old(watcherQueue.log.processed) + [(TheWatcher, h), (TheResponder, h)]
    ensures watcherQueue.pending == [] && responderQueue.pending == []
  {
    watcherQueue.Put(h);
    watcherQueue.Join();
    assert Labelled(TheWatcher, [h]) == [(TheWatcher, h)];
    responderQueue.Put(h);
    responderQueue.Join();
    assert Labelled(TheResponder, [h]) == [(TheResponder, h)];
  }

  // ---------- What each component gets ----------

  /** The blocks one component processes, in order. */
  function Received(owner: Component, log: seq<(Component, Hash)>): seq<Hash> {
    if log == [] then []
    else
      var last := |log| - 1;
      Received(owner, log[..last]) + if log[last].0 == owner then [log[last].1] else []
  }

  lemma {:induction false} ReceivedConcat(owner: Component, a: seq<(Component, Hash)>, b: seq<(Component, Hash)>)
    ensures Received(owner, a + b) == Received(owner, a) + Received(owner, b)
    decreases |b|
  {
    if b == [] {
      assert a + b == a;
    } else {
      var last := |b| - 1;
      ReceivedConcat(owner, a, b[..last]);
      assert (a + b)[..|a + b| - 1] == a + b[..last];
    }
  }

  lemma {:induction false} ReceivedLabelled(owner: Component, of: Component, blocks: seq<Hash>)
    ensures Received(owner, Labelled(of, blocks)) == if owner == of then blocks else []
  {
    if blocks != [] {
      var last := |blocks| - 1;
      ReceivedLabelled(owner, of, blocks[..last]);
      assert Labelled(of, blocks)[..last] == Labelled(of, blocks[..last]);
      assert blocks == blocks[..last] + [blocks[last]];
    }
  }

  lemma {:induction false} ReceivedInLockStep(owner: Component, blocks: seq<Hash>)
    ensures Received(owner, InLockStep(blocks)) == blocks
  {
    if blocks != [] {
      var last := |blocks| - 1;
      var h := blocks[last];
      ReceivedInLockStep(owner, blocks[..last]);
      ReceivedConcat(owner, InLockStep(blocks[..last]), [(TheWatcher, h), (TheResponder, h)]);
      var two := [(TheWatcher, h), (TheResponder, h)];
      assert two[..1] == [(TheWatcher, h)] && two[..1][..0] == [];
      assert Received(owner, two[..1]) == if owner == TheWatcher then [h] else [];
      assert Received(owner, two) == [h];
      assert blocks == blocks[..last] + [h];
    }
  }

  /** The i-th block of the log is the next one its component receives. */
  lemma ReceivedNext(owner: Component, log: seq<(Component, Hash)>, i: nat)
    requires i < |log|
    ensures var before := Received(owner, log[..i]);
            && Received(owner, log[..i + 1]) == before + (if log[i].0 == owner then [log[i].1] else [])
            && |before| <= |Received(owner, log)| && before == Received(owner, log)[..|before|]
            && (log[i].0 == owner ==> |before| < |Received(owner, log)| && Received(owner, log)[|before|] == log[i].1)
  {
    assert log[..i + 1][..i] == log[..i];
    assert log == log[..i + 1] + log[i + 1..];
    ReceivedConcat(owner, log[..i + 1], log[i + 1..]);
  }

  /** The difference of a list and its own suffix is the missing prefix. */
  lemma {:induction false} DifferenceIsPrefix(prefix: seq<Hash>, suffix: seq<Hash>)
    requires NoDup(prefix + suffix)
    ensures SortedDifference(prefix + suffix, suffix) == prefix
  {
    DifferenceSkips(prefix, suffix, suffix);
    DifferenceKeeps(prefix, suffix);
  }

  lemma {:induction false} DifferenceSkips(a: seq<Hash>, tail: seq<Hash>, b: seq<Hash>)
    requires forall x <- tail :: x in b
    ensures SortedDifference(a + tail, b) == SortedDifference(a, b)
    decreases |tail|
  {
    if tail == [] {
      assert a + tail == a;
    } else {
      var last := |tail| - 1;
      DifferenceSkips(a, tail[..last], b);
      assert (a + tail)[..|a + tail| - 1] == a + tail[..last];
    }
  }

  lemma {:induction false} DifferenceKeeps(a: seq<Hash>, b: seq<Hash>)
    requires NoDup(a + b)
    ensures SortedDifference(a, b) == a
    decreases |a|
  {
    if a != [] {
      var last := |a| - 1;
      assert a == a[..last] + [a[last]];
      forall i, j | 0 <= i < j < |a[..last] + b| ensures (a[..last] + b)[i] != (a[..last] + b)[j] {
        var k := if j < last then j else j + 1;
        var m := if i < last then i else i + 1;
        assert (a + b)[m] == (a[..last] + b)[i] && (a + b)[k] == (a[..last] + b)[j];
      }
      DifferenceKeeps(a[..last], b);
      assert forall i :: 0 <= i < |b| ==> (a + b)[|a| + i] == b[i];
      assert (a + b)[last] == a[last];
      assert forall i :: 0 <= i < last ==> (a + b)[i] == a[i];
    }
  }

  /** Both lists are the ends of one chain. */
  ghost predicate SuffixesOf(chain: seq<Hash>, a: seq<Hash>, b: seq<Hash>) {
    && NoDup(chain) && |a| <= |chain| && |b| <= |chain|
    && a == chain[|chain| - |a|..] && b == chain[|chain| - |b|..]
  }

  lemma LongerIsPrefixed(chain: seq<Hash>, short: seq<Hash>, long: seq<Hash>)
    requires |short| <= |long| <= |chain| && NoDup(chain)
    requires short == chain[|chain| - |short|..] && long == chain[|chain| - |long|..]
    ensures long == long[..|long| - |short|] + short && NoDup(long[..|long| - |short|] + short)
  {
  }

  /** The Responder is level or further behind: each component gets exactly its missed blocks, in chain order. */
  lemma ResponderBehindIsFed(chain: seq<Hash>, missedWatcher: seq<Hash>, missedResponder: seq<Hash>)
    requires SuffixesOf(chain, missedWatcher, missedResponder) && |missedWatcher| <= |missedResponder|
    ensures var first := missedResponder[..|missedResponder| - |missedWatcher|];
            && missedResponder == first + missedWatcher
            && Fed(missedWatcher, missedResponder) == Labelled(TheResponder, first) + InLockStep(missedWatcher)
    ensures Received(TheWatcher, Fed(missedWatcher, missedResponder)) == missedWatcher
    ensures Received(TheResponder, Fed(missedWatcher, missedResponder)) == missedResponder
  {
    hide SortedDifference, Received, InLockStep;
    var first := missedResponder[..|missedResponder| - |missedWatcher|];
    LongerIsPrefixed(chain, missedWatcher, missedResponder);
    DifferenceIsPrefix(first, missedWatcher);
    assert |missedResponder| == |missedWatcher| ==> Labelled(TheResponder, first) == [];
    hide SuffixesOf;
    FedBoth(TheResponder, first, missedWatcher);
    assert [] + InLockStep(missedWatcher) == InLockStep(missedWatcher);
  }

  lemma FedBoth(of: Component, first: seq<Hash>, blocks: seq<Hash>)
    ensures var log := Labelled(of, first) + InLockStep(blocks);
            && Received(of, log) == first + blocks
            && forall other :: other != of ==> Received(other, log) == blocks
  {
    forall owner: Component
      ensures Received(owner, Labelled(of, first) + InLockStep(blocks)) == (if owner == of then first else []) + blocks
    {
      ReceivedConcat(owner, Labelled(of, first), InLockStep(blocks));
      ReceivedLabelled(owner, of, first);
      ReceivedInLockStep(owner, blocks);
    }
    assert [] + blocks == blocks;
  }

  /** The Watcher is further behind: the blocks only it missed reach it twice, and reach the Responder too. */
  lemma WatcherBehindIsFedTwice(chain: seq<Hash>, missedWatcher: seq<Hash>, missedResponder: seq<Hash>)
    requires SuffixesOf(chain, missedWatcher, missedResponder) && |missedResponder| < |missedWatcher|
    ensures var first := missedWatcher[..|missedWatcher| - |missedResponder|];
            && Received(TheWatcher, Fed(missedWatcher, missedResponder)) == first + missedWatcher
            && Received(TheResponder, Fed(missedWatcher, missedResponder)) == first + missedResponder
  {
    hide SortedDifference, Received, InLockStep;
    var first := missedWatcher[..|missedWatcher| - |missedResponder|];
    LongerIsPrefixed(chain, missedResponder, missedWatcher);
    DifferenceIsPrefix(first, missedResponder);
    FedBoth(TheWatcher, first, missedWatcher);
  }

  /** Each component gets exactly its missed blocks if and only if the Watcher is not the one further behind. */
  lemma FedExactlyIff(chain: seq<Hash>, missedWatcher: seq<Hash>, missedResponder: seq<Hash>)
    requires SuffixesOf(chain, missedWatcher, missedResponder)
    ensures Received(TheWatcher, Fed(missedWatcher, missedResponder)) == missedWatcher
            && Received(TheResponder, Fed(missedWatcher, missedResponder)) == missedResponder
            <==> |missedWatcher| <= |missedResponder|
  {
    if |missedWatcher| <= |missedResponder| {
      ResponderBehindIsFed(chain, missedWatcher, missedResponder);
    } else {
      WatcherBehindIsFedTwice(chain, missedWatcher, missedResponder);
    }
  }
}
