/**
 The `locator_uuid_map` of the Watcher and the `tx_tracker_map` of the Responder: dictionaries of lists
 that invert the `locator` (respectively `penalty_txid`) of every stored uuid.
 */
module InverseIndex {
  import opened Basics

  /** `index` inverts `keyOf`: every uuid sits once in the list of its key, and no list is empty. */
  ghost predicate Exact<U(!new), K(!new)>(keyOf: map<U, K>, index: map<K, seq<U>>) {
    && (forall u <- keyOf :: keyOf[u] in index && u in index[keyOf[u]])
    && (forall k <- index :: index[k] != [] && NoDup(index[k]))
    && (forall k <- index :: forall u <- index[k] :: u in keyOf && keyOf[u] == k)
  }

  /** `index[k].append(u)`, creating the list when it is missing. */
  function Insert<U, K(==)>(index: map<K, seq<U>>, k: K, u: U): map<K, seq<U>> {
    index[k := if k in index then index[k] + [u] else [u]]
  }

  /** `index[k].remove(u)`, dropping the list when `u` was its only element. */
  function Remove<U(==), K(==)>(index: map<K, seq<U>>, k: K, u: U): map<K, seq<U>>
    requires k in index && u in index[k]
  {
    if |index[k]| == 1 then index - {k} else index[k := RemoveFirst(index[k], u)]
  }

  lemma InsertKeepsExact<U(!new), K(!new)>(keyOf: map<U, K>, index: map<K, seq<U>>, k: K, u: U)
    requires Exact(keyOf, index) && u !in keyOf
    ensures Exact(keyOf[u := k], Insert(index, k, u))
  {
    var index' := Insert(index, k, u);
    forall j | j in index' ensures index'[j] != [] && NoDup(index'[j]) {
      if j == k && k in index {
        NoDupAppend(index[k], u);
      }
    }
  }

  /**
   Appending a uuid keeps the index exact only when it is new: a known one would be listed twice, or under its old
   key.
   */
  lemma InsertExactIff<U(!new), K(!new)>(keyOf: map<U, K>, index: map<K, seq<U>>, k: K, u: U)
    requires Exact(keyOf, index)
    ensures Exact(keyOf[u := k], Insert(index, k, u)) <==> u !in keyOf
  {
    if u !in keyOf {
      InsertKeepsExact(keyOf, index, k, u);
    } else if keyOf[u] == k {
      var i :| 0 <= i < |index[k]| && index[k][i] == u;
      assert Insert(index, k, u)[k][i] == Insert(index, k, u)[k][|index[k]|];
    } else {
      assert u in Insert(index, k, u)[keyOf[u]];
    }
  }

  lemma RemoveKeepsExact<U(!new), K(!new)>(keyOf: map<U, K>, index: map<K, seq<U>>, u: U)
    requires Exact(keyOf, index) && u in keyOf
    ensures Exact(keyOf - {u}, Remove(index, keyOf[u], u))
  {
    var k := keyOf[u];
    RemoveFirstElems(index[k], u);
    if |index[k]| == 1 {
      assert index[k] == [u];
    }
  }

  /** The list of a key holds exactly the uuids with that key. */
  lemma ExactLists<U(!new), K(!new)>(keyOf: map<U, K>, index: map<K, seq<U>>, k: K, u: U)
    requires Exact(keyOf, index)
    ensures k in index && u in index[k] <==> u in keyOf && keyOf[u] == k
  {
  }

  lemma ExactKeys<U(!new), K(!new)>(keyOf: map<U, K>, a: map<K, seq<U>>, b: map<K, seq<U>>)
    requires Exact(keyOf, a) && Exact(keyOf, b)
    ensures a.Keys <= b.Keys
  {
    forall k | k in a ensures k in b {
      assert a[k][0] in a[k];
    }
  }

  /** An exact index is determined by what it inverts, up to the order of its lists. */
  lemma ExactIsUnique<U(!new), K(!new)>(keyOf: map<U, K>, a: map<K, seq<U>>, b: map<K, seq<U>>)
    requires Exact(keyOf, a) && Exact(keyOf, b)
    ensures a.Keys == b.Keys
    ensures forall k <- a :: multiset(a[k]) == multiset(b[k])
  {
    ExactKeys(keyOf, a, b);
    ExactKeys(keyOf, b, a);
    forall k | k in a ensures multiset(a[k]) == multiset(b[k]) {
      assert forall u :: u in a[k] <==> u in b[k];
      SameElements(a[k], b[k]);
    }
  }

  lemma {:induction false} CountNoDup<T(!new)>(s: seq<T>, x: T)
    requires NoDup(s)
    ensures multiset(s)[x] == if x in s then 1 else 0
  {
    if s != [] {
      assert s == [s[0]] + s[1..];
      CountNoDup(s[1..], x);
    }
  }

  lemma SameElements<T(!new)>(s: seq<T>, t: seq<T>)
    requires NoDup(s) && NoDup(t)
    requires forall x :: x in s <==> x in t
    ensures multiset(s) == multiset(t)
  {
    forall x ensures multiset(s)[x] == multiset(t)[x] {
      CountNoDup(s, x);
      CountNoDup(t, x);
    }
  }
}
