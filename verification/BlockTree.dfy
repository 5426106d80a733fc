/** The blocks bitcoind can serve, as a tree of hashes, and the paths through it. */
module BlockTree {
  import opened Basics

  datatype Block = Block(prev: Option<Hash>, height: nat, txs: seq<Txid>)

  type Tree = map<Hash, Block>

  /** Parents are known and one block lower; only a block at height 0 has no parent. */
  ghost predicate WellFormed(tree: Tree) {
    forall h {:trigger tree[h].prev} :: h in tree ==>
      match tree[h].prev
      case None => tree[h].height == 0
      case Some(p) => p in tree && tree[p].height + 1 == tree[h].height
  }

  /** The blocks from the root of `h` up to `h`, oldest first. */
  ghost function RootPath(tree: Tree, h: Hash): (path: seq<Hash>)
    requires WellFormed(tree) && h in tree
    ensures |path| == tree[h].height + 1 && path[|path| - 1] == h
    ensures forall i :: 0 <= i < |path| ==> path[i] in tree && tree[path[i]].height == i
    decreases tree[h].height
  {
    match tree[h].prev
    case None => [h]
    case Some(p) => RootPath(tree, p) + [h]
  }

  /** Every prefix of a root path is the root path of its last block. */
  lemma {:induction false} PathOfAncestor(tree: Tree, h: Hash, i: nat)
    requires WellFormed(tree) && h in tree && i <= tree[h].height
    ensures RootPath(tree, RootPath(tree, h)[i]) == RootPath(tree, h)[..i + 1]
    decreases tree[h].height
  {
    if i < tree[h].height {
      PathOfAncestor(tree, tree[h].prev.value, i);
    }
  }

  /** A block lies on a path only at the position of its height. */
  lemma AncestorPosition(tree: Tree, h: Hash, a: Hash)
    requires WellFormed(tree) && h in tree && a in RootPath(tree, h)
    ensures a in tree && tree[a].height <= tree[h].height
    ensures RootPath(tree, h)[tree[a].height] == a
    ensures RootPath(tree, a) == RootPath(tree, h)[..tree[a].height + 1]
  {
    PathOfAncestor(tree, h, tree[a].height);
  }

  /** `getblock(h).confirmations`: -1 off the best chain. */
  ghost function Confirmations(tree: Tree, tip: Hash, h: Hash): int
    requires WellFormed(tree) && tip in tree && h in tree
  {
    if h in RootPath(tree, tip) then tree[tip].height - tree[h].height + 1 else -1
  }
}
