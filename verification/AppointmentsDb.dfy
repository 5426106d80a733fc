/**
 The appointments database: one flat key space in which five families of entries are told apart by prefix.
 The class works on flat keys; its ghost `view` is the five families kept apart.
 */
module AppointmentsDb {
  import opened Basics
  import opened Records

  const WATCHER_PREFIX := "w"
  const WATCHER_LAST_BLOCK_KEY := "bw"
  const RESPONDER_PREFIX := "r"
  const RESPONDER_LAST_BLOCK_KEY := "br"
  const TRIGGERED_APPOINTMENTS_PREFIX := "ta"

  /** What a stored value decodes to. */
  datatype Value =
    | AppointmentJson(appointment: Appointment)
    | TrackerJson(tracker: Tracker)
    | EmptyValue
    | BlockHash(hash: Hash)

  type Store = map<string, Value>

  datatype View = View(
    w: map<Uuid, Appointment>, r: map<Uuid, Tracker>, ta: set<Uuid>, bw: Option<Hash>, br: Option<Hash>)

  /** A key of the database, before it is flattened. */
  datatype Key = Watched(uuid: Uuid) | Tracked(uuid: Uuid) | Triggered(uuid: Uuid) | LastWatcher | LastResponder

  function Encode(key: Key): string {
    match key
    case Watched(u) => WATCHER_PREFIX + u
    case Tracked(u) => RESPONDER_PREFIX + u
    case Triggered(u) => TRIGGERED_APPOINTMENTS_PREFIX + u
    case LastWatcher => WATCHER_LAST_BLOCK_KEY
    case LastResponder => RESPONDER_LAST_BLOCK_KEY
  }

  /** The keys as they are on disk. */
  lemma KeysOnDisk(u: Uuid)
    ensures Encode(Watched(u)) == "w" + u && Encode(Tracked(u)) == "r" + u && Encode(Triggered(u)) == "ta" + u
    ensures Encode(LastWatcher) == "bw" && Encode(LastResponder) == "br"
  {
  }

  /** Two different keys never share a flat key: the families do not mix and no uuid is confused with another. */
  lemma EncodeIsInjective(a: Key, b: Key)
    ensures Encode(a) == Encode(b) ==> a == b
  {
    if Encode(a) == Encode(b) {
      assert Encode(a)[0] == Encode(b)[0];
      match a
      case Watched(u) =>
        assert Encode(a)[1..] == u;
        assert b.Watched? && Encode(b)[1..] == b.uuid;
      case Tracked(u) =>
        assert Encode(a)[1..] == u;
        assert b.Tracked? && Encode(b)[1..] == b.uuid;
      case Triggered(u) =>
        assert Encode(a)[2..] == u;
        assert b.Triggered? && Encode(b)[2..] == b.uuid;
      case LastWatcher =>
        assert Encode(a)[1] == 'w' && Encode(b)[1] == 'w';
      case LastResponder =>
        assert Encode(a)[1] == 'r' && Encode(b)[1] == 'r';
    }
  }

  /** A flat key starts with the prefix of a family only if it belongs to that family. */
  lemma PrefixSelectsFamily(key: Key)
    ensures WATCHER_PREFIX <= Encode(key) <==> key.Watched?
    ensures RESPONDER_PREFIX <= Encode(key) <==> key.Tracked?
    ensures TRIGGERED_APPOINTMENTS_PREFIX <= Encode(key) <==> key.Triggered?
  {
    assert Encode(key)[0] == match key
      case Watched(_) => 'w'
      case Tracked(_) => 'r'
      case Triggered(_) => 't'
      case LastWatcher => 'b'
      case LastResponder => 'b';
  }

  function Get(store: Store, k: string): Option<Value> {
    if k in store then Some(store[k]) else None
  }

  function Put(store: Store, k: string, v: Option<Value>): Store {
    if v.Some? then store[k := v.value] else store - {k}
  }

  /** What the five families hold under a key. */
  function Lookup(view: View, key: Key): Option<Value> {
    match key
    case Watched(u) => if u in view.w then Some(AppointmentJson(view.w[u])) else None
    case Tracked(u) => if u in view.r then Some(TrackerJson(view.r[u])) else None
    case Triggered(u) => if u in view.ta then Some(EmptyValue) else None
    case LastWatcher => if view.bw.Some? then Some(BlockHash(view.bw.value)) else None
    case LastResponder => if view.br.Some? then Some(BlockHash(view.br.value)) else None
  }

  /** The flat store answers every key as the five families do, and holds nothing else. */
  ghost predicate Represents(store: Store, view: View) {
    && (forall key: Key :: Get(store, Encode(key)) == Lookup(view, key))
    && (forall k <- store :: exists key: Key :: Encode(key) == k)
  }

  /** A write under one flat key changes one entry of one family. */
  lemma WriteKeepsRepresents(store: Store, view: View, key: Key, v: Option<Value>, view': View)
    requires Represents(store, view)
    requires forall key': Key :: Lookup(view', key') == if key' == key then v else Lookup(view, key')
    ensures Represents(Put(store, Encode(key), v), view')
  {
    forall key': Key ensures Get(Put(store, Encode(key), v), Encode(key')) == Lookup(view', key') {
      EncodeIsInjective(key, key');
    }
  }

  lemma NoElems<T>(s: seq<T>)
    ensures Elems(s[..0]) == {}
  {
  }

  /** All entries whose key starts with `prefix`, indexed by the rest of the key. */
  method LoadPrefix(store: Store, prefix: string) returns (data: map<string, Value>)
    ensures forall u :: u in data <==> prefix + u in store
    ensures forall u <- data :: data[u] == store[prefix + u]
  {
    data := map[];
    var pending := set k | k in store && prefix <= k;
    ghost var all := pending;
    while pending != {}
      invariant pending <= all
      invariant forall u :: u in data <==> prefix + u in all - pending
      invariant forall u <- data :: prefix + u in store && data[u] == store[prefix + u]
      decreases pending
    {
      var k :| k in pending;
      var uuid := k[|prefix|..];
      assert prefix + uuid == k;
      assert forall v :: prefix + v == k ==> v == uuid by {
        forall v | prefix + v == k ensures v == uuid { assert v == k[|prefix|..]; }
      }
      data := data[uuid := store[k]];
      pending := pending - {k};
    }
  }

  /** The keys under a prefix are those of one family, with the values of that family. */
  lemma LoadedFamilies(store: Store, view: View)
    requires Represents(store, view)
    ensures forall u {:trigger WATCHER_PREFIX + u} :: Get(store, WATCHER_PREFIX + u) == Lookup(view, Watched(u))
    ensures forall u {:trigger RESPONDER_PREFIX + u} :: Get(store, RESPONDER_PREFIX + u) == Lookup(view, Tracked(u))
    ensures forall u {:trigger TRIGGERED_APPOINTMENTS_PREFIX + u} ::
              Get(store, TRIGGERED_APPOINTMENTS_PREFIX + u) == Lookup(view, Triggered(u))
  {
    forall u ensures Get(store, WATCHER_PREFIX + u) == Lookup(view, Watched(u)) {
      assert Encode(Watched(u)) == WATCHER_PREFIX + u;
    }
    forall u ensures Get(store, RESPONDER_PREFIX + u) == Lookup(view, Tracked(u)) {
      assert Encode(Tracked(u)) == RESPONDER_PREFIX + u;
    }
    forall u ensures Get(store, TRIGGERED_APPOINTMENTS_PREFIX + u) == Lookup(view, Triggered(u)) {
      assert Encode(Triggered(u)) == TRIGGERED_APPOINTMENTS_PREFIX + u;
    }
  }

  class AppointmentsDbm {
    var db: Store
    ghost var view: View

    ghost predicate Valid()
      reads this
    {
      Represents(db, view)
    }

    constructor ()
      ensures Valid() && view == View(map[], map[], {}, None, None)
    {
      db := map[];
      view := View(map[], map[], {}, None, None);
    }

    /** `db.put` or `db.delete` of one key. */
    method Write(ghost key: Key, k: string, v: Option<Value>, ghost view': View)
      requires Valid() && k == Encode(key)
      requires forall key': Key :: Lookup(view', key') == if key' == key then v else Lookup(view, key')
      modifies this
      ensures Valid() && view == view'
    {
      WriteKeepsRepresents(db, view, key, v, view');
      db := if v.Some? then db[k := v.value] else db - {k};
      view := view';
    }

    method StoreWatcherAppointment(uuid: Uuid, appointment: Appointment)
      requires Valid()
      modifies this
      ensures Valid() && view == old(view).(w := old(view).w[uuid := appointment])
    {
      Write(Watched(uuid), WATCHER_PREFIX + uuid, Some(AppointmentJson(appointment)),
            view.(w := view.w[uuid := appointment]));
    }

    method StoreResponderTracker(uuid: Uuid, tracker: Tracker)
      requires Valid()
      modifies this
      ensures Valid() && view == old(view).(r := old(view).r[uuid := tracker])
    {
      Write(Tracked(uuid), RESPONDER_PREFIX + uuid, Some(TrackerJson(tracker)),
            view.(r := view.r[uuid := tracker]));
    }

    method CreateTriggeredAppointmentFlag(uuid: Uuid)
      requires Valid()
      modifies this
      ensures Valid() && view == old(view).(ta := old(view).ta + {uuid})
    {
      Write(Triggered(uuid), TRIGGERED_APPOINTMENTS_PREFIX + uuid, Some(EmptyValue),
            view.(ta := view.ta + {uuid}));
    }

    method StoreLastBlockHashWatcher(blockHash: Hash)
      requires Valid()
      modifies this
      ensures Valid() && view == old(view).(bw := Some(blockHash))
    {
      Write(LastWatcher, WATCHER_LAST_BLOCK_KEY, Some(BlockHash(blockHash)), view.(bw := Some(blockHash)));
    }

    method StoreLastBlockHashResponder(blockHash: Hash)
      requires Valid()
      modifies this
      ensures Valid() && view == old(view).(br := Some(blockHash))
    {
      Write(LastResponder, RESPONDER_LAST_BLOCK_KEY, Some(BlockHash(blockHash)), view.(br := Some(blockHash)));
    }

    method LoadLastBlockHashWatcher() returns (blockHash: Option<Hash>)
      requires Valid()
      ensures blockHash == view.bw
    {
      assert Get(db, Encode(LastWatcher)) == Lookup(view, LastWatcher);
      blockHash := if WATCHER_LAST_BLOCK_KEY in db then Some(db[WATCHER_LAST_BLOCK_KEY].hash) else None;
    }

    method LoadLastBlockHashResponder() returns (blockHash: Option<Hash>)
      requires Valid()
      ensures blockHash == view.br
    {
      assert Get(db, Encode(LastResponder)) == Lookup(view, LastResponder);
      blockHash := if RESPONDER_LAST_BLOCK_KEY in db then Some(db[RESPONDER_LAST_BLOCK_KEY].hash) else None;
    }

    method LoadWatcherAppointment(uuid: Uuid) returns (data: Option<Appointment>)
      requires Valid()
      ensures data == if uuid in view.w then Some(view.w[uuid]) else None
    {
      var k := WATCHER_PREFIX + uuid;
      assert Get(db, Encode(Watched(uuid))) == Lookup(view, Watched(uuid));
      if k in db {
        data := Some(db[k].appointment);
      } else {
        data := None;
      }
    }

    method LoadResponderTracker(uuid: Uuid) returns (data: Option<Tracker>)
      requires Valid()
      ensures data == if uuid in view.r then Some(view.r[uuid]) else None
    {
      var k := RESPONDER_PREFIX + uuid;
      assert Get(db, Encode(Tracked(uuid))) == Lookup(view, Tracked(uuid));
      if k in db {
        data := Some(db[k].tracker);
      } else {
        data := None;
      }
    }

    method BatchDeleteWatcherAppointments(uuids: seq<Uuid>)
      requires Valid()
      modifies this
      ensures Valid() && view == old(view).(w := old(view).w - Elems(uuids))
    {
      hide Represents, Elems;
      NoElems(uuids);
      for i := 0 to |uuids|
        invariant Valid() && view == old(view).(w := old(view).w - Elems(uuids[..i]))
      {
        Write(Watched(uuids[i]), WATCHER_PREFIX + uuids[i], None, view.(w := view.w - {uuids[i]}));
        ElemsOneMore(uuids, i);
      }
      assert uuids[..|uuids|] == uuids;
    }

    method BatchDeleteResponderTrackers(uuids: seq<Uuid>)
      requires Valid()
      modifies this
      ensures Valid() && view == old(view).(r := old(view).r - Elems(uuids))
    {
      hide Represents, Elems;
      NoElems(uuids);
      for i := 0 to |uuids|
        invariant Valid() && view == old(view).(r := old(view).r - Elems(uuids[..i]))
      {
        Write(Tracked(uuids[i]), RESPONDER_PREFIX + uuids[i], None, view.(r := view.r - {uuids[i]}));
        ElemsOneMore(uuids, i);
      }
      assert uuids[..|uuids|] == uuids;
    }

    method BatchCreateTriggeredAppointmentFlag(uuids: seq<Uuid>)
      requires Valid()
      modifies this
      ensures Valid() && view == old(view).(ta := old(view).ta + Elems(uuids))
    {
      hide Represents, Elems;
      NoElems(uuids);
      for i := 0 to |uuids|
        invariant Valid() && view == old(view).(ta := old(view).ta + Elems(uuids[..i]))
      {
        CreateTriggeredAppointmentFlag(uuids[i]);
        ElemsOneMore(uuids, i);
      }
      assert uuids[..|uuids|] == uuids;
    }

    method BatchDeleteTriggeredAppointmentFlag(uuids: seq<Uuid>)
      requires Valid()
      modifies this
      ensures Valid() && view == old(view).(ta := old(view).ta - Elems(uuids))
    {
      hide Represents, Elems;
      NoElems(uuids);
      for i := 0 to |uuids|
        invariant Valid() && view == old(view).(ta := old(view).ta - Elems(uuids[..i]))
      {
        Write(Triggered(uuids[i]), TRIGGERED_APPOINTMENTS_PREFIX + uuids[i], None, view.(ta := view.ta - {uuids[i]}));
        ElemsOneMore(uuids, i);
      }
      assert uuids[..|uuids|] == uuids;
    }

    /** The appointments that were not handed to the Responder. */
    method LoadWatcherAppointments() returns (appointments: map<Uuid, Appointment>)
      requires Valid()
      ensures appointments == view.w - view.ta
    {
      var loaded := LoadPrefix(db, WATCHER_PREFIX);
      var flags := LoadPrefix(db, TRIGGERED_APPOINTMENTS_PREFIX);
      LoadedFamilies(db, view);
      appointments := map u | u in loaded && u !in flags :: loaded[u].appointment;
      assert appointments.Keys == (view.w - view.ta).Keys;
    }

    method LoadResponderTrackers() returns (trackers: map<Uuid, Tracker>)
      requires Valid()
      ensures trackers == view.r
    {
      var loaded := LoadPrefix(db, RESPONDER_PREFIX);
      LoadedFamilies(db, view);
      trackers := map u | u in loaded :: loaded[u].tracker;
      assert trackers.Keys == view.r.Keys;
    }
  }
}
