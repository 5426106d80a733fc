/** The Gatekeeper as a state machine: subscriptions, their expiry, and the cache of outdated users. */
module Expiry {
  import opened Basics
  import opened Slots

  const OUTDATED_USERS_CACHE_SIZE_BLOCKS := 10

  /** Outdated users and the appointments they had. */
  type Outdated = map<UserId, set<Uuid>>

  /** `order` is the insertion order of the dictionary `entries`. */
  datatype State = State(users: Users, order: seq<int>, entries: map<int, Outdated>)

  ghost predicate CacheOk(g: State) {
    && NoDup(g.order) && Elems(g.order) == g.entries.Keys
    && |g.order| <= OUTDATED_USERS_CACHE_SIZE_BLOCKS
  }

  function OutdatedUsers(config: Config, users: Users, height: int): Outdated {
    map id | id in users && height == users[id].subscriptionExpiry + config.expiryDelta
      :: users[id].appointments.Keys
  }

  /** Answers from the cache, unless the entry is missing or empty. */
  function GetOutdated(config: Config, g: State, height: int): Outdated {
    if height in g.entries && g.entries[height] != map[] then g.entries[height]
    else OutdatedUsers(config, g.users, height)
  }

  /** A height that is cached with nobody is looked up again, so a user that came since is found. */
  lemma OutdatedIff(config: Config, g: State, height: int, id: UserId)
    ensures var remembered := height in g.entries && exists other :: other in g.entries[height];
            var outdated := GetOutdated(config, g, height);
            && (id in outdated <==>
                if remembered then id in g.entries[height]
                else id in g.users && height == g.users[id].subscriptionExpiry + config.expiryDelta)
            && (id in outdated ==>
                  outdated[id] == if remembered then g.entries[height][id] else g.users[id].appointments.Keys)
  {
    if height in g.entries && g.entries[height] != map[] {
      var other :| other in g.entries[height];
    }
  }

  /** Adds a key to an ordered dictionary and drops the oldest one when there are more than ten. */
  function Push<V>(order: seq<int>, entries: map<int, V>, k: int, v: V): (seq<int>, map<int, V>) {
    var order1 := order + [k];
    var entries1 := entries[k := v];
    if |entries1| > OUTDATED_USERS_CACHE_SIZE_BLOCKS then (order1[1..], entries1 - {order1[0]}) else (order1, entries1)
  }

  function UpdateCache(config: Config, g: State, height: int): State {
    if height in g.entries then g
    else
      var (order, entries) := Push(g.order, g.entries, height, GetOutdated(config, g, height));
      g.(order := order, entries := entries)
  }

  /** One block: cache the outdated users, then delete them; deleting an absent user raises. */
  function Block(config: Config, g: State, height: int): Result<State> {
    var g1 := UpdateCache(config, g, height);
    var ids := GetOutdated(config, g1, height).Keys;
    if ids <= g1.users.Keys then Ok(g1.(users := g1.users - ids)) else Raised(KeyError)
  }

  /** A block is refused exactly when its height is cached with a user that has left since. */
  lemma BlockRaisesIff(config: Config, g: State, height: int)
    requires CacheOk(g)
    ensures Block(config, g, height).Raised? <==>
            height in g.entries && exists id <- g.entries[height] :: id !in g.users
  {
    CacheSize(g);
    var g1 := UpdateCache(config, g, height);
    if height !in g.entries {
      assert height !in g.order;
      assert GetOutdated(config, g1, height) == OutdatedUsers(config, g.users, height);
    }
  }

  lemma CacheSize(g: State)
    requires NoDup(g.order) && Elems(g.order) == g.entries.Keys
    ensures |g.entries| == |g.order|
  {
    DistinctCount(g.order);
    assert |g.entries| == |g.entries.Keys|;
  }

  lemma {:induction false} DistinctCount<T(!new)>(s: seq<T>)
    requires NoDup(s)
    ensures |Elems(s)| == |s|
  {
    if s != [] {
      var last := |s| - 1;
      DistinctCount(s[..last]);
      assert s == s[..last] + [s[last]];
      assert Elems(s) == Elems(s[..last]) + {s[last]};
    }
  }

  lemma AppendFacts<V>(order: seq<int>, entries: map<int, V>, k: int, v: V)
    requires NoDup(order) && Elems(order) == entries.Keys && k !in entries
    ensures NoDup(order + [k]) && Elems(order + [k]) == entries[k := v].Keys
    ensures |entries[k := v]| == |order| + 1
  {
    assert k !in order by { assert k !in Elems(order); }
    NoDupAppend(order, k);
    assert Elems(order + [k]) == Elems(order) + {k};
    DistinctCount(order + [k]);
    assert |entries[k := v]| == |entries[k := v].Keys|;
  }

  lemma PopFacts<V>(order: seq<int>, entries: map<int, V>)
    requires order != [] && NoDup(order) && Elems(order) == entries.Keys
    ensures NoDup(order[1..]) && Elems(order[1..]) == (entries - {order[0]}).Keys
  {
    assert order == [order[0]] + order[1..];
    forall k ensures k in Elems(order[1..]) <==> k in entries - {order[0]} {
      assert k in Elems(order) <==> k == order[0] || k in order[1..];
    }
  }

  lemma PushFacts<V>(order: seq<int>, entries: map<int, V>, k: int, v: V)
    requires NoDup(order) && Elems(order) == entries.Keys && k !in entries
    requires |order| <= OUTDATED_USERS_CACHE_SIZE_BLOCKS
    ensures var (order', entries') := Push(order, entries, k, v);
            && NoDup(order') && Elems(order') == entries'.Keys && |order'| <= OUTDATED_USERS_CACHE_SIZE_BLOCKS
            && order' == (if |order| == OUTDATED_USERS_CACHE_SIZE_BLOCKS then (order + [k])[1..] else order + [k])
            && (forall h <- entries' :: h == k || h in entries)
            && (forall h <- entries' :: entries'[h] == if h == k then v else entries[h])
  {
    AppendFacts(order, entries, k, v);
    PopFacts(order + [k], entries[k := v]);
  }

  /** A new height goes last; the oldest one goes when there are more than ten. */
  lemma UpdateCacheFacts(config: Config, g: State, height: int)
    requires CacheOk(g) && height !in g.entries
    ensures var g1 := UpdateCache(config, g, height);
            && CacheOk(g1) && g1.users == g.users
            && g1.order == (if |g.order| == OUTDATED_USERS_CACHE_SIZE_BLOCKS then (g.order + [height])[1..]
                            else g.order + [height])
            && (forall h <- g1.entries :: h == height || h in g.entries)
            && (forall h <- g1.entries ::
                  g1.entries[h] == if h == height then OutdatedUsers(config, g.users, height) else g.entries[h])
  {
    PushFacts(g.order, g.entries, height, GetOutdated(config, g, height));
  }

  // ---------- Runs ----------

  datatype Op =
    | RegisterOp(id: UserId, blockCount: int)
    | ChargeOp(id: UserId, uuid: Uuid, blobLength: nat)
    | RefundOp(owners: map<Uuid, UserId>)
    | BlockOp(height: int)

  /** Exceptions of the first two operations go back to the client; one in the third ends the thread. */
  ghost function Step(config: Config, g: State, op: Op): Result<State> {
    match op
    case RegisterOp(id, blockCount) =>
      (match Register(config, g.users, id, blockCount)
       case Ok(users) => Ok(g.(users := users))
       case Raised(_) => Ok(g))
    case ChargeOp(id, uuid, blobLength) =>
      if id !in g.users then Ok(g)
      else
        (match Charge(g.users, id, uuid, blobLength)
         case Ok(users) => Ok(g.(users := users))
         case Raised(_) => Ok(g))
    case RefundOp(owners) => Ok(g.(users := Refund(g.users, owners)))
    case BlockOp(height) => Block(config, g, height)
  }

  ghost function Run(config: Config, g: State, ops: seq<Op>): Result<State>
    decreases |ops|
  {
    if ops == [] then Ok(g)
    else
      match Step(config, g, ops[0])
      case Ok(g') => Run(config, g', ops[1..])
      case Raised(e) => Raised(e)
  }

  // ---------- Conservation over runs ----------

  /** The slots granted to every registered user since it last registered from scratch. */
  ghost function GrantStep(config: Config, g: State, granted: map<UserId, nat>, op: Op): map<UserId, nat> {
    match op
    case RegisterOp(id, blockCount) =>
      if Register(config, g.users, id, blockCount).Raised? then granted
      else if id in g.users && id in granted then granted[id := granted[id] + config.subscriptionSlots]
      else granted[id := config.subscriptionSlots]
    case BlockOp(height) =>
      if Block(config, g, height).Ok? then
        granted - (granted.Keys - Block(config, g, height).value.users.Keys)
      else granted
    case _ => granted
  }

  ghost function GrantRun(config: Config, g: State, granted: map<UserId, nat>, ops: seq<Op>): map<UserId, nat>
    decreases |ops|
  {
    if ops == [] || Step(config, g, ops[0]).Raised? then granted
    else GrantRun(config, Step(config, g, ops[0]).value, GrantStep(config, g, granted, ops[0]), ops[1..])
  }

  lemma RegisterConserves(config: Config, g: State, granted: map<UserId, nat>, id: UserId, blockCount: int)
    requires Conserved(g.users, granted)
    ensures Conserved(Step(config, g, RegisterOp(id, blockCount)).value.users,
                      GrantStep(config, g, granted, RegisterOp(id, blockCount)))
  {
    hide Block, Charge, Refund;
    if id in g.users {
      assert id in granted;
    } else {
      assert id !in granted && Sum(map[]) == 0;
    }
  }

  lemma BlockConserves(config: Config, g: State, granted: map<UserId, nat>, height: int)
    requires Conserved(g.users, granted) && Block(config, g, height).Ok?
    ensures Conserved(Block(config, g, height).value.users, GrantStep(config, g, granted, BlockOp(height)))
  {
    hide Balance, Register, GetOutdated;
    var users := Block(config, g, height).value.users;
    assert users.Keys <= granted.Keys && forall id <- users :: users[id] == g.users[id];
    assert granted.Keys - (granted.Keys - users.Keys) == users.Keys;
  }

  lemma StepConserves(config: Config, g: State, granted: map<UserId, nat>, op: Op)
    requires Conserved(g.users, granted) && Step(config, g, op).Ok?
    ensures Conserved(Step(config, g, op).value.users, GrantStep(config, g, granted, op))
  {
    hide Balance, Register, Block, Refund;
    match op
    case RegisterOp(id, blockCount) => RegisterConserves(config, g, granted, id, blockCount);
    case ChargeOp(id, uuid, blobLength) =>
      if id in g.users && Charge(g.users, id, uuid, blobLength).Ok? {
        ChargeKeepsBalance(g.users, id, uuid, blobLength);
      }
    case RefundOp(owners) => RefundKeepsBalance(g.users, owners);
    case BlockOp(height) => BlockConserves(config, g, granted, height);
  }

  /** Over any run, no slot is lost or invented: available plus charged equals granted, for every user. */
  lemma {:induction false} RunConserves(config: Config, g: State, granted: map<UserId, nat>, ops: seq<Op>)
    requires Conserved(g.users, granted) && Run(config, g, ops).Ok?
    ensures Conserved(Run(config, g, ops).value.users, GrantRun(config, g, granted, ops))
    decreases |ops|
  {
    if ops != [] {
      StepConserves(config, g, granted, ops[0]);
      RunConserves(config, Step(config, g, ops[0]).value, GrantStep(config, g, granted, ops[0]), ops[1..]);
    }
  }

  // ---------- Expiry over runs ----------

  /** Heights follow each other and the block count of bitcoind is never behind the Gatekeeper. */
  ghost predicate Contiguous(ops: seq<Op>, last: int) {
    ops == [] ||
    match ops[0]
    case BlockOp(height) => height == last + 1 && Contiguous(ops[1..], height)
    case RegisterOp(_, blockCount) => blockCount >= last && Contiguous(ops[1..], last)
    case _ => Contiguous(ops[1..], last)
  }

  ghost function LastHeight(ops: seq<Op>, last: int): int {
    if ops == [] then last
    else LastHeight(ops[1..], if ops[0].BlockOp? then ops[0].height else last)
  }

  /** No registered user is past its deletion height, and nothing is cached for a block still to come. */
  ghost predicate OnTime(config: Config, g: State, last: int) {
    && CacheOk(g)
    && (forall id <- g.users :: g.users[id].subscriptionExpiry + config.expiryDelta > last)
    && (forall h <- g.entries :: h <= last)
  }

  /** A height that is not cached deletes exactly the users outdated at it. */
  lemma FreshBlock(config: Config, g: State, height: int)
    requires CacheOk(g) && height !in g.entries
    ensures var g1 := UpdateCache(config, g, height);
            var outdated := OutdatedUsers(config, g.users, height);
            && height in g1.entries && g1.entries[height] == outdated
            && GetOutdated(config, g1, height) == outdated
            && Block(config, g, height) == Ok(g1.(users := g.users - outdated.Keys))
  {
    UpdateCacheFacts(config, g, height);
    var g1 := UpdateCache(config, g, height);
    assert g1.order[|g1.order| - 1] == height;
    assert height in Elems(g1.order);
  }

  lemma BlockOnTime(config: Config, g: State, height: int)
    requires OnTime(config, g, height - 1)
    ensures Block(config, g, height).Ok?
    ensures OnTime(config, Block(config, g, height).value, height)
    ensures Block(config, g, height).value.users == g.users - OutdatedUsers(config, g.users, height).Keys
  {
    FreshBlock(config, g, height);
    UpdateCacheFacts(config, g, height);
  }

  lemma StepOnTime(config: Config, g: State, op: Op, last: int)
    requires OnTime(config, g, last) && config.subscriptionDuration + config.expiryDelta > 0
    requires op.BlockOp? ==> op.height == last + 1
    requires op.RegisterOp? ==> op.blockCount >= last
    ensures Step(config, g, op).Ok?
    ensures OnTime(config, Step(config, g, op).value, if op.BlockOp? then op.height else last)
    ensures op.BlockOp? ==> Step(config, g, op).value.users ==
                            g.users - OutdatedUsers(config, g.users, op.height).Keys
  {
    match op
    case BlockOp(height) =>
      BlockOnTime(config, g, height);
    case _ =>
  }

  /** On contiguous heights no deletion ever hits an absent user, and no user outlives its deletion height. */
  lemma {:induction false} RunOnTime(config: Config, g: State, ops: seq<Op>, last: int)
    requires OnTime(config, g, last) && config.subscriptionDuration + config.expiryDelta > 0
    requires Contiguous(ops, last)
    ensures Run(config, g, ops).Ok?
    ensures OnTime(config, Run(config, g, ops).value, LastHeight(ops, last))
    decreases |ops|
  {
    if ops != [] {
      StepOnTime(config, g, ops[0], last);
      RunOnTime(config, Step(config, g, ops[0]).value, ops[1..], if ops[0].BlockOp? then ops[0].height else last);
    }
  }

  lemma {:induction false} LastHeightGrows(ops: seq<Op>, last: int)
    requires Contiguous(ops, last)
    ensures LastHeight(ops, last) >= last
    decreases |ops|
  {
    if ops != [] {
      LastHeightGrows(ops[1..], if ops[0].BlockOp? then ops[0].height else last);
    }
  }

  lemma {:induction false} StaysAbsent(config: Config, g: State, ops: seq<Op>, last: int, id: UserId)
    requires OnTime(config, g, last) && config.subscriptionDuration + config.expiryDelta > 0
    requires Contiguous(ops, last) && id !in g.users
    requires forall op <- ops :: op.RegisterOp? ==> op.id != id
    ensures Run(config, g, ops).Ok? && id !in Run(config, g, ops).value.users
    decreases |ops|
  {
    if ops != [] {
      StepOnTime(config, g, ops[0], last);
      StaysAbsent(config, Step(config, g, ops[0]).value, ops[1..], if ops[0].BlockOp? then ops[0].height else last, id);
    }
  }

  /** A user that does not renew is there exactly until the block at its expiry plus the grace period. */
  lemma {:induction false} SubscriptionLifetime(config: Config, g: State, ops: seq<Op>, last: int, id: UserId)
    requires OnTime(config, g, last) && config.subscriptionDuration + config.expiryDelta > 0
    requires Contiguous(ops, last) && id in g.users
    requires forall op <- ops :: op.RegisterOp? ==> op.id != id
    ensures Run(config, g, ops).Ok?
    ensures id in Run(config, g, ops).value.users <==>
            g.users[id].subscriptionExpiry + config.expiryDelta > LastHeight(ops, last)
    decreases |ops|
  {
    if ops != [] {
      StepOnTime(config, g, ops[0], last);
      var g' := Step(config, g, ops[0]).value;
      var last' := if ops[0].BlockOp? then ops[0].height else last;
      if id in g'.users {
        assert g'.users[id].subscriptionExpiry == g.users[id].subscriptionExpiry;
        SubscriptionLifetime(config, g', ops[1..], last', id);
      } else {
        StaysAbsent(config, g', ops[1..], last', id);
        LastHeightGrows(ops[1..], last');
      }
    }
  }

  lemma {:induction false} RunConcat(config: Config, g: State, ops: seq<Op>, more: seq<Op>)
    requires Run(config, g, ops).Ok?
    ensures Run(config, g, ops + more) == Run(config, Run(config, g, ops).value, more)
    decreases |ops|
  {
    if ops == [] {
      assert ops + more == more;
    } else {
      RunConcat(config, Step(config, g, ops[0]).value, ops[1..], more);
      assert (ops + more)[1..] == ops[1..] + more;
    }
  }

  lemma {:induction false} ContiguousConcat(ops: seq<Op>, more: seq<Op>, last: int)
    ensures Contiguous(ops + more, last) <==> Contiguous(ops, last) && Contiguous(more, LastHeight(ops, last))
    ensures LastHeight(ops + more, last) == LastHeight(more, LastHeight(ops, last))
    decreases |ops|
  {
    if ops == [] {
      assert ops + more == more;
    } else {
      ContiguousConcat(ops[1..], more, if ops[0].BlockOp? then ops[0].height else last);
      assert (ops + more)[1..] == ops[1..] + more;
    }
  }

  /**
   A user is there, from its last successful registration on, exactly until the block a full duration and the grace
   period after the count it registered at, whatever it registered before.
   */
  lemma LastRegistrationCounts(
    config: Config, g: State, before: seq<Op>, id: UserId, start: int, after: seq<Op>, last: int)
    requires OnTime(config, g, last) && config.subscriptionDuration + config.expiryDelta > 0
    requires Contiguous(before + ([RegisterOp(id, start)] + after), last)
    requires forall op <- after :: op.RegisterOp? ==> op.id != id
    requires Run(config, g, before).Ok? ==> Register(config, Run(config, g, before).value.users, id, start).Ok?
    ensures var ops := before + ([RegisterOp(id, start)] + after);
            && Run(config, g, ops).Ok?
            && (id in Run(config, g, ops).value.users <==>
                start + config.subscriptionDuration + config.expiryDelta > LastHeight(ops, last))
  {
    var op, rest := RegisterOp(id, start), [RegisterOp(id, start)] + after;
    ContiguousConcat(before, rest, last);
    RunOnTime(config, g, before, last);
    RunConcat(config, g, before, rest);
    var g1, last1 := Run(config, g, before).value, LastHeight(before, last);
    assert rest[0] == op && rest[1..] == after;
    StepOnTime(config, g1, op, last1);
    RegisterSubscribes(config, g1.users, id, start);
    var g2 := Step(config, g1, op).value;
    assert g2.users[id].subscriptionExpiry == start + config.subscriptionDuration;
    SubscriptionLifetime(config, g2, after, last1, id);
  }

  // ---------- Heights the Gatekeeper never sees ----------

  /** Heights grow, with any gaps: the Gatekeeper is fed none of the blocks missed while the tower was off. */
  ghost predicate Increasing(ops: seq<Op>, last: int) {
    ops == [] ||
    if ops[0].BlockOp? then ops[0].height > last && Increasing(ops[1..], ops[0].height) else Increasing(ops[1..], last)
  }

  ghost predicate CachedUpTo(g: State, last: int) {
    CacheOk(g) && forall h <- g.entries :: h <= last
  }

  lemma StepAtAnyHeight(config: Config, g: State, op: Op, last: int)
    requires CachedUpTo(g, last) && (op.BlockOp? ==> op.height > last)
    ensures Step(config, g, op).Ok?
    ensures CachedUpTo(Step(config, g, op).value, if op.BlockOp? then op.height else last)
    ensures op.BlockOp? ==>
              Step(config, g, op).value.users == g.users - OutdatedUsers(config, g.users, op.height).Keys
  {
    if op.BlockOp? {
      FreshBlock(config, g, op.height);
      UpdateCacheFacts(config, g, op.height);
    }
  }

  lemma {:induction false} StaysAway(config: Config, g: State, ops: seq<Op>, last: int, id: UserId)
    requires CachedUpTo(g, last) && Increasing(ops, last) && id !in g.users
    requires forall op <- ops :: op.RegisterOp? ==> op.id != id
    ensures Run(config, g, ops).Ok? && id !in Run(config, g, ops).value.users
    decreases |ops|
  {
    if ops != [] {
      StepAtAnyHeight(config, g, ops[0], last);
      StaysAway(config, Step(config, g, ops[0]).value, ops[1..], if ops[0].BlockOp? then ops[0].height else last, id);
    }
  }

  /** What one operation does to a user that does not renew. */
  lemma StepDeletesIff(config: Config, g: State, op: Op, last: int, id: UserId)
    requires CachedUpTo(g, last) && (op.BlockOp? ==> op.height > last)
    requires id in g.users && (op.RegisterOp? ==> op.id != id)
    ensures Step(config, g, op).Ok?
    ensures var users := Step(config, g, op).value.users;
            && (id !in users <==> op == BlockOp(g.users[id].subscriptionExpiry + config.expiryDelta))
            && (id in users ==> users[id].subscriptionExpiry == g.users[id].subscriptionExpiry)
  {
    hide CachedUpTo, Step, GetOutdated, UpdateCache;
    StepAtAnyHeight(config, g, op, last);
    if !op.BlockOp? {
      OthersDeleteNobody(config, g, op, id);
    }
  }

  lemma OthersDeleteNobody(config: Config, g: State, op: Op, id: UserId)
    requires !op.BlockOp? && id in g.users && (op.RegisterOp? ==> op.id != id)
    ensures Step(config, g, op).Ok?
    ensures var users := Step(config, g, op).value.users;
            id in users && users[id].subscriptionExpiry == g.users[id].subscriptionExpiry
  {
  }

  /** A user that does not renew is deleted exactly when the Gatekeeper sees the very height of its deletion. */
  lemma {:induction false} DeletedIffHeightSeen(config: Config, g: State, ops: seq<Op>, last: int, id: UserId)
    requires CachedUpTo(g, last) && Increasing(ops, last) && id in g.users
    requires forall op <- ops :: op.RegisterOp? ==> op.id != id
    ensures Run(config, g, ops).Ok?
    ensures id !in Run(config, g, ops).value.users <==>
            BlockOp(g.users[id].subscriptionExpiry + config.expiryDelta) in ops
    decreases |ops|
  {
    hide Step, CachedUpTo, GetOutdated;
    if ops != [] {
      var last' := if ops[0].BlockOp? then ops[0].height else last;
      StepAtAnyHeight(config, g, ops[0], last);
      StepDeletesIff(config, g, ops[0], last, id);
      var g' := Step(config, g, ops[0]).value;
      assert ops == [ops[0]] + ops[1..];
      if id in g'.users {
        DeletedIffHeightSeen(config, g', ops[1..], last', id);
      } else {
        StaysAway(config, g', ops[1..], last', id);
      }
    }
  }

  lemma {:induction false} OnlyLaterHeights(ops: seq<Op>, last: int, height: int)
    requires Increasing(ops, last) && BlockOp(height) in ops
    ensures height > last
    decreases |ops|
  {
    if ops[0] != BlockOp(height) {
      assert BlockOp(height) in ops[1..];
      OnlyLaterHeights(ops[1..], if ops[0].BlockOp? then ops[0].height else last, height);
    }
  }

  /** A user whose deletion height went by while the tower was off stays, with its charges, until it renews. */
  lemma MissedUserStays(config: Config, g: State, ops: seq<Op>, last: int, id: UserId)
    requires CachedUpTo(g, last) && Increasing(ops, last) && id in g.users
    requires g.users[id].subscriptionExpiry + config.expiryDelta <= last
    requires forall op <- ops :: op.RegisterOp? ==> op.id != id
    ensures Run(config, g, ops).Ok? && id in Run(config, g, ops).value.users
  {
    DeletedIffHeightSeen(config, g, ops, last, id);
    if BlockOp(g.users[id].subscriptionExpiry + config.expiryDelta) in ops {
      OnlyLaterHeights(ops, last, g.users[id].subscriptionExpiry + config.expiryDelta);
    }
  }

  // ---------- The cache hides the order of the threads ----------

  /** Heights grow strictly above `last`, with at most `budget` blocks, and nobody is registered to expire at `h`. */
  ghost predicate Later(config: Config, ops: seq<Op>, h: int, last: int, budget: nat) {
    ops == [] ||
    match ops[0]
    case BlockOp(height) => height > last && budget > 0 && Later(config, ops[1..], h, height, budget - 1)
    case RegisterOp(_, blockCount) =>
      blockCount + config.subscriptionDuration + config.expiryDelta != h && Later(config, ops[1..], h, last, budget)
    case _ => Later(config, ops[1..], h, last, budget)
  }

  /** `h` sits far enough from the front of the cache to survive `budget` more blocks. */
  ghost predicate Keeps(order: seq<int>, h: int, budget: nat) {
    exists p :: 0 <= p < |order| && order[p] == h && p + OUTDATED_USERS_CACHE_SIZE_BLOCKS >= |order| + budget
  }

  /** The entry of `h` survives `budget` more blocks, or is empty and still accurate. */
  ghost predicate Remembers(config: Config, g: State, h: int, outdated: Outdated, last: int, budget: nat) {
    && CacheOk(g) && last >= h
    && (forall k <- g.entries :: k <= last)
    && if outdated == map[] then
         && (h in g.entries ==> g.entries[h] == map[])
         && OutdatedUsers(config, g.users, h) == map[]
       else
         && Keeps(g.order, h, budget)
         && h in g.entries && g.entries[h] == outdated
  }

  lemma RemembersAnswers(config: Config, g: State, h: int, outdated: Outdated, last: int, budget: nat)
    requires Remembers(config, g, h, outdated, last, budget)
    ensures GetOutdated(config, g, h) == outdated
  {
  }

  lemma PushKeeps(order: seq<int>, h: int, budget: nat, height: int)
    requires Keeps(order, h, budget) && budget > 0 && |order| <= OUTDATED_USERS_CACHE_SIZE_BLOCKS
    ensures |order| < OUTDATED_USERS_CACHE_SIZE_BLOCKS ==> Keeps(order + [height], h, budget - 1)
    ensures |order| == OUTDATED_USERS_CACHE_SIZE_BLOCKS ==> Keeps((order + [height])[1..], h, budget - 1)
  {
    var p :| 0 <= p < |order| && order[p] == h && p + OUTDATED_USERS_CACHE_SIZE_BLOCKS >= |order| + budget;
    assert (order + [height])[p] == h;
    if |order| == OUTDATED_USERS_CACHE_SIZE_BLOCKS {
      assert (order + [height])[1..][p - 1] == h;
    }
  }

  lemma FewerUsersFewerOutdated(config: Config, users: Users, users': Users, h: int)
    requires OutdatedUsers(config, users, h) == map[]
    requires forall id <- users' :: id in users && users'[id] == users[id]
    ensures OutdatedUsers(config, users', h) == map[]
  {
    forall id <- users' ensures h != users'[id].subscriptionExpiry + config.expiryDelta {
      assert id !in OutdatedUsers(config, users, h);
    }
  }

  lemma BlockRemembers(config: Config, g: State, h: int, outdated: Outdated, last: int, budget: nat, height: int)
    requires Remembers(config, g, h, outdated, last, budget) && budget > 0 && height > last
    ensures Block(config, g, height).Ok?
    ensures Remembers(config, Block(config, g, height).value, h, outdated, height, budget - 1)
  {
    FreshBlock(config, g, height);
    UpdateCacheFacts(config, g, height);
    var g2 := Block(config, g, height).value;
    if outdated == map[] {
      FewerUsersFewerOutdated(config, g.users, g2.users, h);
    } else {
      PushKeeps(g.order, h, budget, height);
      assert h in Elems(g2.order);
    }
  }

  /** Processing `h` itself: the users it deletes are remembered for nine more blocks. */
  lemma BlockStartsRemembering(config: Config, g: State, h: int)
    requires CacheOk(g) && forall k <- g.entries :: k < h
    ensures Block(config, g, h).Ok?
    ensures Remembers(config, Block(config, g, h).value, h, GetOutdated(config, g, h), h, 9)
    ensures forall id <- GetOutdated(config, g, h) :: id !in Block(config, g, h).value.users
  {
    FreshBlock(config, g, h);
    UpdateCacheFacts(config, g, h);
    var g2 := Block(config, g, h).value;
    if OutdatedUsers(config, g.users, h) == map[] {
      FewerUsersFewerOutdated(config, g.users, g2.users, h);
    } else {
      assert g2.order[|g2.order| - 1] == h;
    }
  }

  lemma {:induction false} RunRemembers(
    config: Config, g: State, ops: seq<Op>, h: int, outdated: Outdated, last: int, budget: nat)
    requires Remembers(config, g, h, outdated, last, budget)
    requires Later(config, ops, h, last, budget)
    ensures Run(config, g, ops).Ok?
    ensures GetOutdated(config, Run(config, g, ops).value, h) == outdated
    decreases |ops|
  {
    if ops == [] {
      RemembersAnswers(config, g, h, outdated, last, budget);
    } else {
      match ops[0]
      case BlockOp(height) =>
        BlockRemembers(config, g, h, outdated, last, budget, height);
        RunRemembers(config, Step(config, g, ops[0]).value, ops[1..], h, outdated, height, budget - 1);
      case _ =>
        NonBlockRemembers(config, g, ops[0], h, outdated, last, budget);
        RunRemembers(config, Step(config, g, ops[0]).value, ops[1..], h, outdated, last, budget);
    }
  }

  lemma NonBlockRemembers(config: Config, g: State, op: Op, h: int, outdated: Outdated, last: int, budget: nat)
    requires Remembers(config, g, h, outdated, last, budget) && !op.BlockOp?
    requires op.RegisterOp? ==> op.blockCount + config.subscriptionDuration + config.expiryDelta != h
    ensures Step(config, g, op).Ok?
    ensures Remembers(config, Step(config, g, op).value, h, outdated, last, budget)
  {
    var g' := Step(config, g, op).value;
    if outdated == map[] {
      forall id <- g'.users ensures h != g'.users[id].subscriptionExpiry + config.expiryDelta {
        if id in g.users {
          assert id !in OutdatedUsers(config, g.users, h);
        }
      }
    }
  }

  /**
   The users outdated at `h` look the same just before the Gatekeeper processes `h`, and at any moment
   until it has processed nine more heights, although it deletes them at `h`.
   */
  lemma CacheHidesThreadOrder(config: Config, g: State, h: int, later: seq<Op>)
    requires CacheOk(g) && (forall k <- g.entries :: k < h)
    requires Later(config, later, h, h, 9)
    ensures Block(config, g, h).Ok?
    ensures Run(config, Block(config, g, h).value, later).Ok?
    ensures GetOutdated(config, Run(config, Block(config, g, h).value, later).value, h) == GetOutdated(config, g, h)
    ensures forall id <- GetOutdated(config, g, h) :: id !in Block(config, g, h).value.users
  {
    BlockStartsRemembering(config, g, h);
    RunRemembers(config, Block(config, g, h).value, later, h, GetOutdated(config, g, h), h, 9);
  }

  // ---------- 32 bits ----------

  /**
   With half of 32 bits per subscription: a user spends one slot, registers again, which the guard allows, and gets the
   slot back.
   */
  lemma SlotsLeave32Bits(config: Config, id: UserId, uuid: Uuid)
    requires IsCompressedPk(id) && config.subscriptionSlots == 0x8000_0000
    ensures var ops := [RegisterOp(id, 0), ChargeOp(id, uuid, 1), RegisterOp(id, 0), RefundOp(map[uuid := id])];
            var end := Run(config, State(map[], [], map[]), ops);
            end.Ok? && id in end.value.users && end.value.users[id].availableSlots == 0x1_0000_0000
  {
    var g0 := State(map[], [], map[]);
    var ops := [RegisterOp(id, 0), ChargeOp(id, uuid, 1), RegisterOp(id, 0), RefundOp(map[uuid := id])];
    var g1 := Step(config, g0, ops[0]).value;
    var g2 := Step(config, g1, ops[1]).value;
    var g3 := Step(config, g2, ops[2]).value;
    var g4 := Step(config, g3, ops[3]).value;
    assert RequiredSlots(1) == 1;
    assert g3.users[id].availableSlots == U4_MAX && g3.users[id].appointments == map[uuid := 1];
    OneCharge(uuid, id);
    hide Step;
    assert Run(config, g4, []) == Ok(g4);
    assert ops[1..][1..][1..] == [ops[3]] && ops[1..][1..] == [ops[2], ops[3]];
    assert Run(config, g3, [ops[3]]) == Ok(g4);
    assert Run(config, g2, [ops[2], ops[3]]) == Run(config, g3, [ops[3]]);
    assert Run(config, g1, ops[1..]) == Run(config, g2, ops[1..][1..]);
  }

  lemma OneCharge(uuid: Uuid, id: UserId)
    ensures UuidsOf(map[uuid := id], id) == {uuid}
    ensures Sum(Restrict(map[uuid := 1], {uuid})) == 1
  {
    var one: map<Uuid, nat> := map[uuid := 1];
    assert Restrict(one, {uuid}) == one;
    SumRemove(one, uuid);
    assert one - {uuid} == map[];
  }

  // ---------- The size of the cache ----------

  /** At most ten heights are remembered. */
  lemma RemembersTen(g: State)
    requires CacheOk(g)
    ensures |g.entries| <= 10
  {
    CacheSize(g);
  }
}
