/** The cache of locators seen in the last `cacheSize` blocks, kept up to date incrementally. */
module LocatorCache {
  import opened Basics
  import opened BlockTree

  /** `{compute_locator(txid): txid for txid in txs}`: the last transaction with a locator wins. */
  function LocatorMap(txs: seq<Txid>): (m: map<Locator, Txid>)
    ensures forall l <- m :: m[l] in txs && ComputeLocator(m[l]) == l
    ensures forall t <- txs :: ComputeLocator(t) in m
  {
    if txs == [] then map[]
    else
      var last := |txs| - 1;
      LocatorMap(txs[..last])[ComputeLocator(txs[last]) := txs[last]]
  }

  /** The keys of that dictionary, in insertion order. */
  function LocatorKeys(txs: seq<Txid>): (keys: seq<Locator>)
    ensures NoDup(keys) && Elems(keys) == LocatorMap(txs).Keys
  {
    if txs == [] then []
    else
      var last := |txs| - 1;
      var keys := LocatorKeys(txs[..last]);
      var l := ComputeLocator(txs[last]);
      if l in keys then keys else keys + [l]
  }

  /** The blocks held by the cache, oldest first, each with its locators. */
  type Blocks = seq<(Hash, seq<Locator>)>

  /** `blocks[h] = keys` on an ordered dictionary: a known key keeps its place. */
  function OrderedPut(blocks: Blocks, h: Hash, keys: seq<Locator>): Blocks {
    if blocks == [] then [(h, keys)]
    else if blocks[0].0 == h then [(h, keys)] + blocks[1..]
    else [blocks[0]] + OrderedPut(blocks[1..], h, keys)
  }

  lemma {:induction false} OrderedPutNew(blocks: Blocks, h: Hash, keys: seq<Locator>)
    requires forall b <- blocks :: b.0 != h
    ensures OrderedPut(blocks, h, keys) == blocks + [(h, keys)]
  {
    if blocks != [] {
      OrderedPutNew(blocks[1..], h, keys);
    }
  }

  lemma {:induction false} OrderedPutLast(blocks: Blocks, h: Hash, keys: seq<Locator>)
    requires blocks != [] && blocks[|blocks| - 1] == (h, keys)
    requires forall i :: 0 <= i < |blocks| - 1 ==> blocks[i].0 != h
    ensures OrderedPut(blocks, h, keys) == blocks
  {
    if |blocks| > 1 {
      OrderedPutLast(blocks[1..], h, keys);
    }
  }

  // ---------- What the cache should hold, computed from scratch ----------

  lemma LastNIndex<T>(s: seq<T>, n: nat, x: T)
    ensures |LastN(s, n)| <= |s|
    ensures var wider := LastN(s, n) + [x];
            forall j :: 0 <= j < |wider| ==> wider[j] == (s + [x])[|s| + 1 - |wider| + j]
  {
  }

  lemma LastNWider<T>(s: seq<T>, n: nat)
    requires n < |s|
    ensures LastN(s, n + 1) == [s[|s| - 1 - n]] + LastN(s, n)
  {
  }

  /** The last `n` blocks up to `h`, or all of them when there are fewer, oldest first. */
  ghost function Window(tree: Tree, h: Hash, n: nat): seq<Hash>
    requires WellFormed(tree) && h in tree
  {
    LastN(RootPath(tree, h), n)
  }

  ghost predicate Known(tree: Tree, hashes: seq<Hash>) {
    forall h <- hashes :: h in tree
  }

  /** All locators of some blocks, given oldest first; a newer block wins. */
  ghost function CacheOf(tree: Tree, hashes: seq<Hash>): map<Locator, Txid>
    requires Known(tree, hashes)
  {
    if hashes == [] then map[]
    else
      var last := |hashes| - 1;
      CacheOf(tree, hashes[..last]) + LocatorMap(tree[hashes[last]].txs)
  }

  ghost function BlocksOf(tree: Tree, hashes: seq<Hash>): Blocks
    requires Known(tree, hashes)
  {
    seq(|hashes|, i requires 0 <= i < |hashes| => (hashes[i], LocatorKeys(tree[hashes[i]].txs)))
  }

  ghost predicate DisjointBlocks(tree: Tree, a: Hash, b: Hash)
    requires a in tree && b in tree
  {
    LocatorMap(tree[a].txs).Keys !! LocatorMap(tree[b].txs).Keys
  }

  /** The standing assumption: different blocks of one chain share no locator. */
  ghost predicate DistinctLocators(tree: Tree)
    requires WellFormed(tree)
  {
    forall h <- tree :: forall i, j :: 0 <= i < j < |RootPath(tree, h)| ==>
      DisjointBlocks(tree, RootPath(tree, h)[i], RootPath(tree, h)[j])
  }

  lemma {:induction false} CacheOfMember(tree: Tree, hashes: seq<Hash>, l: Locator)
    requires Known(tree, hashes)
    ensures l in CacheOf(tree, hashes) <==> exists h <- hashes :: l in LocatorMap(tree[h].txs)
  {
    if hashes != [] {
      var last := |hashes| - 1;
      CacheOfMember(tree, hashes[..last], l);
      assert hashes == hashes[..last] + [hashes[last]];
    }
  }

  /** An older block adds its locators below everything newer. */
  lemma {:induction false} CacheOfOlder(tree: Tree, h: Hash, hashes: seq<Hash>)
    requires h in tree && Known(tree, hashes)
    ensures Known(tree, [h] + hashes)
    ensures CacheOf(tree, [h] + hashes) == LocatorMap(tree[h].txs) + CacheOf(tree, hashes)
  {
    var wider := [h] + hashes;
    if hashes == [] {
      assert wider[..0] == [];
    } else {
      var last := |hashes| - 1;
      CacheOfOlder(tree, h, hashes[..last]);
      assert wider[..|wider| - 1] == [h] + hashes[..last];
      UnionAssociative(LocatorMap(tree[h].txs), CacheOf(tree, hashes[..last]), LocatorMap(tree[hashes[last]].txs));
    }
  }

  lemma UnionAssociative<K, V>(a: map<K, V>, b: map<K, V>, c: map<K, V>)
    ensures (a + b) + c == a + (b + c)
  {
  }

  /** When an older block shares no locator with newer ones, it can be added last and removed by key. */
  lemma OldestBlock(tree: Tree, h: Hash, hashes: seq<Hash>)
    requires h in tree && Known(tree, hashes)
    requires forall x <- hashes :: DisjointBlocks(tree, h, x)
    ensures Known(tree, [h] + hashes)
    ensures CacheOf(tree, [h] + hashes) == CacheOf(tree, hashes) + LocatorMap(tree[h].txs)
    ensures CacheOf(tree, [h] + hashes) - LocatorMap(tree[h].txs).Keys == CacheOf(tree, hashes)
  {
    CacheOfOlder(tree, h, hashes);
    forall l | l in LocatorMap(tree[h].txs) ensures l !in CacheOf(tree, hashes) {
      CacheOfMember(tree, hashes, l);
    }
  }

  /**
   Evicting the oldest block by deleting its locators is right exactly when none of them recurs in a
   block that stays.
   */
  lemma EvictionIsExactIff(tree: Tree, h: Hash, hashes: seq<Hash>)
    requires h in tree && Known(tree, hashes)
    ensures Known(tree, [h] + hashes)
    ensures CacheOf(tree, [h] + hashes) - LocatorMap(tree[h].txs).Keys == CacheOf(tree, hashes)
            <==> forall x <- hashes :: DisjointBlocks(tree, h, x)
  {
    CacheOfOlder(tree, h, hashes);
    if forall x <- hashes :: DisjointBlocks(tree, h, x) {
      OldestBlock(tree, h, hashes);
    } else {
      var x :| x in hashes && !DisjointBlocks(tree, h, x);
      var l :| l in LocatorMap(tree[h].txs) && l in LocatorMap(tree[x].txs);
      CacheOfMember(tree, hashes, l);
    }
  }

  lemma WindowFacts(tree: Tree, h: Hash, n: nat)
    requires WellFormed(tree) && h in tree
    ensures Known(tree, Window(tree, h, n))
    ensures |Window(tree, h, n)| == if tree[h].height + 1 <= n then tree[h].height + 1 else n
    ensures forall i :: 0 <= i < |Window(tree, h, n)| ==>
              tree[Window(tree, h, n)[i]].height == tree[h].height + 1 - |Window(tree, h, n)| + i
    ensures n > 0 ==> Window(tree, h, n)[|Window(tree, h, n)| - 1] == h
  {
  }

  /** A child extends the window on the right and pushes the oldest block out when it is full. */
  lemma WindowOfChild(tree: Tree, h: Hash, n: nat)
    requires WellFormed(tree) && h in tree && tree[h].prev.Some?
    ensures var parent := Window(tree, tree[h].prev.value, n);
            Window(tree, h, n) == if |parent| < n then parent + [h] else (parent + [h])[1..]
  {
    LastNAppend(RootPath(tree, tree[h].prev.value), h, n);
  }

  /** A wider window adds one older block on the left. */
  lemma WindowOneWider(tree: Tree, h: Hash, n: nat)
    requires WellFormed(tree) && h in tree && n <= tree[h].height
    ensures var older := RootPath(tree, h)[tree[h].height - n];
            Window(tree, h, n + 1) == [older] + Window(tree, h, n)
  {
    LastNWider(RootPath(tree, h), n);
  }

  class LocatorCache {
    const cacheSize: nat
    var cache: map<Locator, Txid>
    var blocks: Blocks

    /** The cache agrees with the one recomputed from the last `cacheSize` blocks up to `h`. */
    ghost predicate Exact(tree: Tree, h: Hash)
      requires WellFormed(tree) && h in tree
      reads this
    {
      WindowFacts(tree, h, cacheSize);
      && blocks == BlocksOf(tree, Window(tree, h, cacheSize))
      && cache == CacheOf(tree, Window(tree, h, cacheSize))
    }

    constructor (cacheSize: nat)
      ensures this.cacheSize == cacheSize && cache == map[] && blocks == []
    {
      this.cacheSize, cache, blocks := cacheSize, map[], [];
    }

    /** Collects the most recent `cacheSize` blocks walking back from `h`; older blocks are added last. */
    method Collect(tree: Tree, h: Hash) returns (cache': map<Locator, Txid>, blocks': Blocks)
      requires WellFormed(tree) && h in tree && DistinctLocators(tree)
      ensures Known(tree, Window(tree, h, cacheSize))
      ensures blocks' == BlocksOf(tree, Window(tree, h, cacheSize))
      ensures cache' == CacheOf(tree, Window(tree, h, cacheSize))
    {
      hide WellFormed, DistinctLocators, Known, RootPath, Window, CacheOf, BlocksOf, LocatorMap, LocatorKeys,
           OrderedPut;
      NothingCollected(tree, h);
      cache' := map[];
      var newestFirst: Blocks := [];
      var target := Some(h);
      ghost var path := RootPath(tree, h);
      ghost var w: seq<Hash> := [];
      for i := 0 to cacheSize
        invariant w == Window(tree, h, i) && Known(tree, w)
        invariant target == if i < |path| then Some(path[|path| - 1 - i]) else None
        invariant cache' == CacheOf(tree, w)
        invariant Reverse(newestFirst) == BlocksOf(tree, w)
      {
        if target.Some? && target.value in tree {
          var block := tree[target.value];
          var locatorTxidMap := LocatorMap(block.txs);
          AddOlder(tree, h, i);
          var keys := LocatorKeys(block.txs);
          BlocksOfOlder(tree, target.value, w, newestFirst);
          cache' := cache' + locatorTxidMap;
          newestFirst := OrderedPut(newestFirst, target.value, keys);
          PrevOnPath(tree, h, |path| - 1 - i);
          w := [target.value] + w;
          target := block.prev;
        } else {
          WindowIsWhole(tree, h, i);
        }
      }
      blocks' := Reverse(newestFirst);
    }

    /** `init`: the state before watching starts. */
    method Init(lastKnown: Hash, tree: Tree)
      requires WellFormed(tree) && lastKnown in tree && DistinctLocators(tree)
      requires cache == map[] && blocks == []
      modifies this
      ensures Exact(tree, lastKnown)
    {
      cache, blocks := Collect(tree, lastKnown);
    }

    /** `fix`: rebuilds the cache after a reorg. */
    method Fix(lastKnown: Hash, tree: Tree)
      requires WellFormed(tree) && lastKnown in tree && DistinctLocators(tree)
      modifies this
      ensures Exact(tree, lastKnown)
    {
      cache, blocks := Collect(tree, lastKnown);
    }

    method GetTxid(locator: Locator) returns (txid: Option<Txid>)
      ensures txid == if locator in cache then Some(cache[locator]) else None
    {
      txid := if locator in cache then Some(cache[locator]) else None;
    }

    /** Pops the oldest block and deletes its locators; deleting a missing locator raises. */
    method RemoveOldestBlock() returns (r: Result<()>)
      requires blocks != [] && NoDup(blocks[0].1)
      modifies this
      ensures r.Ok? <==> Elems(old(blocks)[0].1) <= old(cache).Keys
      ensures blocks == old(blocks)[1..]
      ensures r.Ok? ==> cache == old(cache) - Elems(old(blocks)[0].1)
    {
      var locators := blocks[0].1;
      blocks := blocks[1..];
      for i := 0 to |locators|
        invariant blocks == old(blocks)[1..]
        invariant cache == old(cache) - Elems(locators[..i])
        invariant Elems(locators[..i]) <= old(cache).Keys
      {
        if locators[i] !in cache {
          assert locators[i] in Elems(locators) && locators[i] !in locators[..i];
          return Raised(KeyError);
        }
        cache := cache - {locators[i]};
        assert Elems(locators[..i + 1]) == Elems(locators[..i]) + {locators[i]};
      }
      assert locators[..|locators|] == locators;
      r := Ok(());
    }

    method Update(blockHash: Hash, locatorTxidMap: map<Locator, Txid>, keys: seq<Locator>) returns (r: Result<()>)
      requires forall b <- OrderedPut(blocks, blockHash, keys) :: NoDup(b.1)
      modifies this
      ensures var blocks1 := OrderedPut(old(blocks), blockHash, keys);
              var cache1 := old(cache) + locatorTxidMap;
              if |blocks1| <= cacheSize then
                r.Ok? && blocks == blocks1 && cache == cache1
              else
                && (r.Ok? <==> Elems(blocks1[0].1) <= cache1.Keys)
                && blocks == blocks1[1..]
                && (r.Ok? ==> cache == cache1 - Elems(blocks1[0].1))
    {
      cache := cache + locatorTxidMap;
      blocks := OrderedPut(blocks, blockHash, keys);
      r := Ok(());
      if |blocks| > cacheSize {
        r := RemoveOldestBlock();
      }
    }

    /**
     What the Watcher does to the cache for a received block: extensions, forks, repeated blocks and jumps
     over several blocks all leave the cache equal to the one recomputed from scratch.
     */
    method OnBlock(tree: Tree, lastKnown: Hash, blockHash: Hash) returns (r: Result<()>)
      requires WellFormed(tree) && DistinctLocators(tree) && lastKnown in tree && blockHash in tree
      requires Exact(tree, lastKnown)
      modifies this
      ensures r.Ok? && Exact(tree, blockHash)
    {
      var block := tree[blockHash];
      if Some(lastKnown) != block.prev {
        Fix(blockHash, tree);
        FixThenUpdate(tree, blockHash, cacheSize);
      } else {
        UpdateExtends(tree, blockHash, cacheSize);
      }
      WindowFacts(tree, blockHash, cacheSize);
      r := Update(blockHash, LocatorMap(block.txs), LocatorKeys(block.txs));
    }

    /** Any sequence of blocks, in any order. */
    method OnBlocks(tree: Tree, lastKnown: Hash, hashes: seq<Hash>)
      requires WellFormed(tree) && DistinctLocators(tree) && lastKnown in tree && Known(tree, hashes)
      requires Exact(tree, lastKnown)
      modifies this
      ensures Exact(tree, if hashes == [] then lastKnown else hashes[|hashes| - 1])
    {
      var known := lastKnown;
      for i := 0 to |hashes|
        invariant known == (if i == 0 then lastKnown else hashes[i - 1]) && known in tree
        invariant Exact(tree, known)
      {
        var r := OnBlock(tree, known, hashes[i]);
        known := hashes[i];
      }
    }
  }

  lemma PrevOnPath(tree: Tree, h: Hash, i: nat)
    requires WellFormed(tree) && h in tree && i <= tree[h].height
    ensures var path := RootPath(tree, h);
            path[i] in tree && tree[path[i]].prev == if i == 0 then None else Some(path[i - 1])
  {
    var path := RootPath(tree, h);
    PathOfAncestor(tree, h, i);
    if i > 0 {
      var p := tree[path[i]].prev.value;
      assert path[..i + 1] == RootPath(tree, p) + [path[i]];
      assert path[i - 1] == RootPath(tree, p)[i - 1] == p;
    }
  }

  lemma NothingCollected(tree: Tree, h: Hash)
    requires WellFormed(tree) && h in tree
    ensures Window(tree, h, 0) == [] && Known(tree, [])
    ensures CacheOf(tree, []) == map[] && BlocksOf(tree, []) == []
  {
  }

  lemma WindowIsWhole(tree: Tree, h: Hash, n: nat)
    requires WellFormed(tree) && h in tree && n > tree[h].height
    ensures Window(tree, h, n + 1) == Window(tree, h, n)
  {
  }

  /** One more step back in `Collect`. */
  lemma AddOlder(tree: Tree, h: Hash, n: nat)
    requires WellFormed(tree) && h in tree && DistinctLocators(tree) && n <= tree[h].height
    ensures var older := RootPath(tree, h)[tree[h].height - n];
            && older in tree
            && Known(tree, Window(tree, h, n)) && Known(tree, Window(tree, h, n + 1))
            && Window(tree, h, n + 1) == [older] + Window(tree, h, n)
            && older !in Window(tree, h, n)
            && CacheOf(tree, Window(tree, h, n + 1)) == CacheOf(tree, Window(tree, h, n)) + LocatorMap(tree[older].txs)
  {
    var path := RootPath(tree, h);
    var k := tree[h].height - n;
    WindowOneWider(tree, h, n);
    WindowFacts(tree, h, n);
    forall x | x in Window(tree, h, n) ensures DisjointBlocks(tree, path[k], x) {
      var j :| 0 <= j < |Window(tree, h, n)| && Window(tree, h, n)[j] == x;
      assert x == path[k + 1 + j];
    }
    OldestBlock(tree, path[k], Window(tree, h, n));
  }

  lemma BlocksOfOlder(tree: Tree, older: Hash, w: seq<Hash>, newestFirst: Blocks)
    requires older in tree && Known(tree, w) && older !in w
    requires Reverse(newestFirst) == BlocksOf(tree, w)
    ensures Known(tree, [older] + w)
    ensures Reverse(OrderedPut(newestFirst, older, LocatorKeys(tree[older].txs))) == BlocksOf(tree, [older] + w)
  {
    hide LocatorKeys, LocatorMap;
    var keys := LocatorKeys(tree[older].txs);
    forall b | b in newestFirst ensures b.0 != older {
      var i :| 0 <= i < |newestFirst| && newestFirst[i] == b;
      assert b == Reverse(newestFirst)[|newestFirst| - 1 - i];
      assert b.0 in w;
    }
    OrderedPutNew(newestFirst, older, keys);
    var wider := [older] + w;
    var result := Reverse(newestFirst + [(older, keys)]);
    forall i | 0 <= i < |wider| ensures result[i] == BlocksOf(tree, wider)[i] {
      if i > 0 {
        assert result[i] == Reverse(newestFirst)[i - 1];
      }
    }
  }

  /** Updating `cache` and `blocks` with block `h` leaves what the window `w` should hold. */
  ghost predicate UpdateGives(tree: Tree, h: Hash, n: nat, cache: map<Locator, Txid>, blocks: Blocks, w: seq<Hash>)
    requires h in tree && Known(tree, w)
  {
    var txs := tree[h].txs;
    var blocks1 := OrderedPut(blocks, h, LocatorKeys(txs));
    var cache1 := cache + LocatorMap(txs);
    && (forall b <- blocks1 :: NoDup(b.1))
    && if |blocks1| <= n then
         blocks1 == BlocksOf(tree, w) && cache1 == CacheOf(tree, w)
       else
         && Elems(blocks1[0].1) <= cache1.Keys
         && blocks1[1..] == BlocksOf(tree, w)
         && cache1 - Elems(blocks1[0].1) == CacheOf(tree, w)
  }

  /** Updating an exact cache with a child of its last block gives the child's window. */
  lemma UpdateExtends(tree: Tree, h: Hash, n: nat)
    requires WellFormed(tree) && DistinctLocators(tree) && h in tree && tree[h].prev.Some?
    ensures var parent := tree[h].prev.value;
            var w := Window(tree, parent, n);
            && Known(tree, Window(tree, h, n)) && Known(tree, w)
            && UpdateGives(tree, h, n, CacheOf(tree, w), BlocksOf(tree, w), Window(tree, h, n))
  {
    var w := Window(tree, tree[h].prev.value, n);
    WindowFacts(tree, tree[h].prev.value, n);
    WindowFacts(tree, h, n);
    WindowOfChild(tree, h, n);
    WiderWindowIsDisjoint(tree, h, n);
    UpdateSlides(tree, h, n, w);
  }

  lemma UpdateSlides(tree: Tree, h: Hash, n: nat, w: seq<Hash>)
    requires h in tree && Known(tree, w) && h !in w && |w| <= n
    requires forall x <- (w + [h])[1..] :: x in tree && DisjointBlocks(tree, (w + [h])[0], x)
    ensures var w' := if |w| < n then w + [h] else (w + [h])[1..];
            Known(tree, w') && UpdateGives(tree, h, n, CacheOf(tree, w), BlocksOf(tree, w), w')
  {
    var wider := w + [h];
    BlocksOfNewer(tree, h, w);
    assert wider[..|w|] == w;
    if |w| == n {
      OldestBlock(tree, wider[0], wider[1..]);
      assert wider == [wider[0]] + wider[1..];
      assert BlocksOf(tree, wider)[1..] == BlocksOf(tree, wider[1..]);
    }
  }

  lemma BlocksOfNewer(tree: Tree, h: Hash, w: seq<Hash>)
    requires h in tree && Known(tree, w) && h !in w
    ensures Known(tree, w + [h])
    ensures OrderedPut(BlocksOf(tree, w), h, LocatorKeys(tree[h].txs)) == BlocksOf(tree, w + [h])
  {
    OrderedPutNew(BlocksOf(tree, w), h, LocatorKeys(tree[h].txs));
  }

  lemma WiderWindowIsDisjoint(tree: Tree, h: Hash, n: nat)
    requires WellFormed(tree) && DistinctLocators(tree) && h in tree && tree[h].prev.Some?
    ensures var wider := Window(tree, tree[h].prev.value, n) + [h];
            Known(tree, wider) && forall x <- wider[1..] :: DisjointBlocks(tree, wider[0], x)
  {
    hide WellFormed, RootPath, Window, DistinctLocators, DisjointBlocks;
    ParentPath(tree, h);
    var wider := Window(tree, tree[h].prev.value, n) + [h];
    var path := RootPath(tree, h);
    WiderOnPath(tree, h, n);
    forall x | x in wider[1..] ensures x in tree && DisjointBlocks(tree, wider[0], x) {
      var j :| 0 <= j < |wider[1..]| && wider[1..][j] == x;
      var k := |path| - |wider|;
      assert wider[0] == path[k];
      assert x == wider[j + 1] == path[k + j + 1];
      DisjointOnPath(tree, h, k, k + j + 1);
    }
  }

  lemma ParentPath(tree: Tree, h: Hash)
    requires WellFormed(tree) && h in tree && tree[h].prev.Some?
    ensures tree[h].prev.value in tree
    ensures RootPath(tree, h) == RootPath(tree, tree[h].prev.value) + [h]
  {
  }

  lemma WiderOnPath(tree: Tree, h: Hash, n: nat)
    requires WellFormed(tree) && h in tree && tree[h].prev.Some?
    ensures var wider := Window(tree, tree[h].prev.value, n) + [h];
            var path := RootPath(tree, h);
            |wider| <= |path| && forall j :: 0 <= j < |wider| ==> wider[j] == path[|path| - |wider| + j]
  {
    hide WellFormed, RootPath, LastN;
    ParentPath(tree, h);
    LastNIndex(RootPath(tree, tree[h].prev.value), n, h);
  }

  lemma DisjointOnPath(tree: Tree, h: Hash, i: nat, j: nat)
    requires WellFormed(tree) && DistinctLocators(tree) && h in tree && i < j < |RootPath(tree, h)|
    ensures var path := RootPath(tree, h); DisjointBlocks(tree, path[i], path[j])
  {
  }

  /** `fix` followed by `update` of the same block changes nothing. */
  lemma FixThenUpdate(tree: Tree, h: Hash, n: nat)
    requires WellFormed(tree) && h in tree
    ensures Known(tree, Window(tree, h, n))
    ensures var w := Window(tree, h, n);
            UpdateGives(tree, h, n, CacheOf(tree, w), BlocksOf(tree, w), w)
  {
    var w := Window(tree, h, n);
    WindowFacts(tree, h, n);
    if n > 0 {
      OrderedPutLast(BlocksOf(tree, w), h, LocatorKeys(tree[h].txs));
      assert CacheOf(tree, w) + LocatorMap(tree[h].txs) == CacheOf(tree, w);
    } else {
      assert w == [];
    }
  }

  /** `get_txid` answers from exactly the transactions of the window. */
  lemma CacheAnswers(tree: Tree, h: Hash, n: nat, l: Locator)
    requires WellFormed(tree) && h in tree
    ensures Known(tree, Window(tree, h, n))
    ensures var c := CacheOf(tree, Window(tree, h, n));
            && (l in c <==> exists b <- Window(tree, h, n) :: exists t <- tree[b].txs :: ComputeLocator(t) == l)
            && (l in c ==> exists b <- Window(tree, h, n) :: c[l] in tree[b].txs && ComputeLocator(c[l]) == l)
  {
    var w := Window(tree, h, n);
    WindowFacts(tree, h, n);
    CacheOfMember(tree, w, l);
    if l in CacheOf(tree, w) {
      CacheValue(tree, w, l);
    }
  }

  lemma {:induction false} CacheValue(tree: Tree, hashes: seq<Hash>, l: Locator)
    requires Known(tree, hashes) && l in CacheOf(tree, hashes)
    ensures exists b <- hashes :: l in LocatorMap(tree[b].txs) && LocatorMap(tree[b].txs)[l] == CacheOf(tree, hashes)[l]
  {
    var last := |hashes| - 1;
    if l !in LocatorMap(tree[hashes[last]].txs) {
      CacheValue(tree, hashes[..last], l);
    }
  }
}
