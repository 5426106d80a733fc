/** Fork recovery and catch-up over the block tree served by bitcoind. */
module BlockProcessor {
  import opened Basics
  import opened BlockTree

  /** The transactions of `blocks`, last block first. */
  ghost function TxsNewestFirst(tree: Tree, blocks: seq<Hash>): seq<Txid>
    requires forall h <- blocks :: h in tree
  {
    if blocks == [] then []
    else
      var last := |blocks| - 1;
      tree[blocks[last]].txs + TxsNewestFirst(tree, blocks[..last])
  }

  /** bitcoind: the tree it stores and the tip of its best chain. */
  class BlockProcessor {
    const tree: Tree
    const tip: Hash
    /** The `confirmations` field of the answer to `getblock`. */
    const confirmations: Hash -> int

    ghost predicate Valid() {
      && WellFormed(tree)
      && tip in tree
      && (forall h <- tree :: confirmations(h) == Confirmations(tree, tip, h))
    }

    constructor (tree: Tree, tip: Hash, confirmations: Hash -> int)
      requires WellFormed(tree) && tip in tree
      requires forall h <- tree :: confirmations(h) == Confirmations(tree, tip, h)
      ensures Valid() && this.tree == tree && this.tip == tip
    {
      this.tree, this.tip, this.confirmations := tree, tip, confirmations;
    }

    /** Whether a block is on the best chain; unknown blocks raise `KeyError`. */
    method IsBlockInBestChain(blockHash: Option<Hash>) returns (r: Result<bool>)
      requires Valid()
      ensures r.Raised? <==> blockHash.None? || blockHash.value !in tree
      ensures r.Ok? ==> (r.value <==> blockHash.value in RootPath(tree, tip))
      ensures r.Raised? ==> r == Raised(KeyError)
    {
      if blockHash.None? || blockHash.value !in tree {
        return Raised(KeyError);
      }
      if blockHash.value in tree {
        if confirmations(blockHash.value) != -1 {
          r := Ok(true);
        } else {
          r := Ok(false);
        }
        OnPathIsNotMinusOne(blockHash.value);
      }
    }

    lemma OnPathIsNotMinusOne(h: Hash)
      requires Valid() && h in tree
      ensures confirmations(h) != -1 <==> h in RootPath(tree, tip)
    {
      if h in RootPath(tree, tip) {
        AncestorPosition(tree, tip, h);
      }
    }

    /** Walks back from the last known block to the first block on the best chain. */
    method FindLastCommonAncestor(lastKnown: Hash)
      returns (r: Result<(Hash, seq<Txid>)>, ghost abandoned: seq<Hash>)
      requires Valid()
      // It fails only on an unknown block, or when no ancestor is on the best chain.
      ensures r.Raised? <==>
              lastKnown !in tree || forall a <- RootPath(tree, lastKnown) :: a !in RootPath(tree, tip)
      ensures r.Ok? ==>
                var (ancestor, dropped) := r.value;
                && lastKnown in tree && ancestor in tree
                && RootPath(tree, lastKnown) == RootPath(tree, ancestor) + abandoned
                && RootPath(tree, ancestor) <= RootPath(tree, tip)
                && (forall a <- abandoned :: a in tree && a !in RootPath(tree, tip))
                && dropped == TxsNewestFirst(tree, abandoned)
    {
      assert TxsNewestFirst(tree, []) == [];
      hide TxsNewestFirst, RootPath;
      var target := Some(lastKnown);
      var dropped := [];
      abandoned := [];
      var onChain := IsBlockInBestChain(target);
      if onChain.Raised? {
        return Raised(KeyError), [];
      }
      while onChain == Ok(false)
        invariant target.Some? && target.value in tree
        invariant onChain == Ok(target.value in RootPath(tree, tip))
        invariant RootPath(tree, lastKnown) == RootPath(tree, target.value) + abandoned
        invariant forall a <- abandoned :: a in tree && a !in RootPath(tree, tip)
        invariant dropped == TxsNewestFirst(tree, abandoned)
        decreases tree[target.value].height
      {
        var block := tree[target.value];
        TxsOfOlderBlock(tree, target.value, abandoned);
        ghost var last := target.value;
        dropped := dropped + block.txs;
        target := block.prev;
        onChain := IsBlockInBestChain(target);
        StepDown(tree, lastKnown, last, abandoned);
        abandoned := [last] + abandoned;
        if onChain.Raised? {
          return Raised(KeyError), [];
        }
      }
      AncestorPosition(tree, tip, target.value);
      assert target.value in RootPath(tree, lastKnown);
      r := Ok((target.value, dropped));
    }

    /** The best chain above the given block, oldest first. */
    method GetMissedBlocks(lastKnown: Hash) returns (missed: seq<Hash>)
      requires Valid()
      ensures if lastKnown in RootPath(tree, tip)
              then RootPath(tree, lastKnown) + missed == RootPath(tree, tip)
              else missed == RootPath(tree, tip)
    {
      var current := Some(tip);
      var missedBlocks := [];
      while current != Some(lastKnown) && current != None
        invariant current.Some? ==> current.value in tree
        invariant RootPath(tree, tip) ==
                  (if current.Some? then RootPath(tree, current.value) else []) + Reverse(missedBlocks)
        invariant lastKnown !in missedBlocks
        decreases current.Some?, if current.Some? then tree[current.value].height else 0
      {
        ghost var last := current.value;
        StepDown(tree, tip, last, Reverse(missedBlocks));
        ReverseAppend(missedBlocks, last);
        missedBlocks := missedBlocks + [current.value];
        current := tree[current.value].prev;
      }
      missed := Reverse(missedBlocks);
      assert forall h <- missed :: h in missedBlocks;
    }
  }

  /** Moving one block from the end of a path to the front of what follows it. */
  lemma StepDown(tree: Tree, h: Hash, last: Hash, rest: seq<Hash>)
    requires WellFormed(tree) && h in tree && last in tree
    requires RootPath(tree, h) == RootPath(tree, last) + rest
    ensures RootPath(tree, h) ==
            (if tree[last].prev.Some? then RootPath(tree, tree[last].prev.value) else []) + ([last] + rest)
  {
  }

  lemma {:induction false} TxsOfOlderBlock(tree: Tree, h: Hash, blocks: seq<Hash>)
    requires h in tree && forall x <- blocks :: x in tree
    ensures forall x <- [h] + blocks :: x in tree
    ensures TxsNewestFirst(tree, [h] + blocks) == TxsNewestFirst(tree, blocks) + tree[h].txs
  {
    var wider := [h] + blocks;
    if blocks == [] {
      assert wider == [h] && wider[..0] == [];
    } else {
      var last := |blocks| - 1;
      TxsOfOlderBlock(tree, h, blocks[..last]);
      assert wider[..|wider| - 1] == [h] + blocks[..last];
    }
  }

  lemma ReverseAppend<T>(s: seq<T>, x: T)
    ensures Reverse(s + [x]) == [x] + Reverse(s)
  {
  }
}
