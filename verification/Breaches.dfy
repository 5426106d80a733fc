/** Sorting the breached appointments of a block into valid and invalid ones, with memoised decryption. */
module Breaches {
  import opened Basics
  import opened Records

  /** Decrypts a blob with a dispute transaction id and decodes the result. */
  type Decrypt = (Blob, Txid) -> Option<Penalty>

  datatype Breach = Breach(locator: Locator, disputeTxid: Txid, penalty: Penalty)

  /** A breached appointment with the transaction that triggered it. */
  datatype Entry = Entry(uuid: Uuid, locator: Locator, blob: Blob, disputeTxid: Txid)

  function Decrypted(decrypt: Decrypt, e: Entry): Option<Penalty> {
    decrypt(e.blob, e.disputeTxid)
  }

  /** The `decrypted_blobs` memo, keyed on the blob alone, after some entries. */
  function Memo(decrypt: Decrypt, entries: seq<Entry>): map<Blob, Penalty> {
    if entries == [] then map[]
    else
      var e := entries[|entries| - 1];
      var memo := Memo(decrypt, entries[..|entries| - 1]);
      if e.blob !in memo && Decrypted(decrypt, e).Some? then memo[e.blob := Decrypted(decrypt, e).value] else memo
  }

  /** What the memo, or else decryption, says about one entry. */
  function Judge(decrypt: Decrypt, memo: map<Blob, Penalty>, e: Entry): Option<Penalty> {
    if e.blob in memo then Some(memo[e.blob]) else Decrypted(decrypt, e)
  }

  /** The verdict on every entry, processed in order. */
  function Verdicts(decrypt: Decrypt, entries: seq<Entry>): map<Uuid, Option<Breach>> {
    if entries == [] then map[]
    else
      var before := entries[..|entries| - 1];
      var e := entries[|entries| - 1];
      Verdicts(decrypt, before)[e.uuid :=
        match Judge(decrypt, Memo(decrypt, before), e)
        case Some(p) => Some(Breach(e.locator, e.disputeTxid, p))
        case None => None]
  }

  ghost predicate DistinctUuids(entries: seq<Entry>) {
    forall i, j :: 0 <= i < j < |entries| ==> entries[i].uuid != entries[j].uuid
  }

  function Uuids(entries: seq<Entry>): set<Uuid> {
    set e | e in entries :: e.uuid
  }

  /** The memo holds for each blob the first successful decryption. */
  lemma {:induction false} MemoHolds(decrypt: Decrypt, entries: seq<Entry>, blob: Blob)
    ensures blob in Memo(decrypt, entries) <==>
            exists i :: 0 <= i < |entries| && entries[i].blob == blob && Decrypted(decrypt, entries[i]).Some?
    ensures blob in Memo(decrypt, entries) ==>
            exists i :: 0 <= i < |entries| && entries[i].blob == blob
                        && Decrypted(decrypt, entries[i]) == Some(Memo(decrypt, entries)[blob])
  {
    if entries != [] {
      var last := |entries| - 1;
      var before := entries[..last];
      MemoHolds(decrypt, before, blob);
      if blob in Memo(decrypt, before) {
        var i :| 0 <= i < |before| && before[i].blob == blob
                 && Decrypted(decrypt, before[i]) == Some(Memo(decrypt, before)[blob]);
        assert entries[i] == before[i];
      } else if i :| 0 <= i < |entries| && entries[i].blob == blob && Decrypted(decrypt, entries[i]).Some? {
        assert forall k :: 0 <= k < last ==> before[k] == entries[k];
        assert i == last;
      }
    }
  }

  /** A verdict that fits an entry, given the entries it was processed with. */
  ghost predicate Sound(decrypt: Decrypt, entries: seq<Entry>, e: Entry, verdict: Option<Breach>) {
    match verdict
    case None => Decrypted(decrypt, e) == None
    case Some(b) =>
      && b.locator == e.locator && b.disputeTxid == e.disputeTxid
      && exists other <- entries :: other.blob == e.blob && Decrypted(decrypt, other) == Some(b.penalty)
  }

  lemma JudgeIsSound(decrypt: Decrypt, before: seq<Entry>, e: Entry)
    ensures Sound(decrypt, before + [e], e, Verdicts(decrypt, before + [e])[e.uuid])
  {
    var entries := before + [e];
    assert entries[..|before|] == before && entries[|before|] == e;
    MemoHolds(decrypt, before, e.blob);
    if e.blob in Memo(decrypt, before) {
      var i :| 0 <= i < |before| && before[i].blob == e.blob
               && Decrypted(decrypt, before[i]) == Some(Memo(decrypt, before)[e.blob]);
      assert before[i] in entries;
    } else {
      assert e in entries;
    }
  }

  lemma StaysSound(decrypt: Decrypt, before: seq<Entry>, e: Entry, x: Entry)
    requires x.uuid != e.uuid && x.uuid in Verdicts(decrypt, before)
    requires Sound(decrypt, before, x, Verdicts(decrypt, before)[x.uuid])
    ensures x.uuid in Verdicts(decrypt, before + [e])
    ensures Sound(decrypt, before + [e], x, Verdicts(decrypt, before + [e])[x.uuid])
  {
    var entries := before + [e];
    assert entries[..|before|] == before && entries[|before|] == e;
    assert forall other <- before :: other in entries;
  }

  ghost predicate AllSound(decrypt: Decrypt, entries: seq<Entry>) {
    forall e <- entries ::
      e.uuid in Verdicts(decrypt, entries) && Sound(decrypt, entries, e, Verdicts(decrypt, entries)[e.uuid])
  }

  lemma OneMoreSound(decrypt: Decrypt, before: seq<Entry>, e: Entry)
    requires AllSound(decrypt, before) && e.uuid !in Uuids(before)
    ensures AllSound(decrypt, before + [e])
  {
    var entries := before + [e];
    JudgeIsSound(decrypt, before, e);
    forall x | x in entries
      ensures x.uuid in Verdicts(decrypt, entries) && Sound(decrypt, entries, x, Verdicts(decrypt, entries)[x.uuid])
    {
      if x in before {
        assert x.uuid in Uuids(before);
        StaysSound(decrypt, before, e, x);
      } else {
        assert x == e && entries[..|before|] == before;
      }
    }
  }

  /**
   Every entry gets exactly one verdict. A valid one carries its own locator and dispute and the decryption
   of some entry with its blob; an invalid one does not decrypt.
   */
  lemma {:induction false} VerdictsSound(decrypt: Decrypt, entries: seq<Entry>)
    requires DistinctUuids(entries)
    ensures Verdicts(decrypt, entries).Keys == Uuids(entries)
    ensures AllSound(decrypt, entries)
  {
    if entries != [] {
      var last := |entries| - 1;
      var before, e := entries[..last], entries[last];
      VerdictsSound(decrypt, before);
      assert entries == before + [e];
      assert Uuids(entries) == Uuids(before) + {e.uuid};
      OneMoreSound(decrypt, before, e);
    }
  }

  /** The verdict of decrypting every entry on its own. */
  ghost predicate Separate(decrypt: Decrypt, entries: seq<Entry>, verdicts: map<Uuid, Option<Breach>>) {
    forall e <- entries :: e.uuid in verdicts && verdicts[e.uuid] ==
      match Decrypted(decrypt, e)
      case Some(p) => Some(Breach(e.locator, e.disputeTxid, p))
      case None => None
  }

  /** No two entries share a blob that the earlier decrypts and the later does not decrypt alike. */
  ghost predicate NoStaleMemo(decrypt: Decrypt, entries: seq<Entry>) {
    forall i, j :: 0 <= i < j < |entries| && entries[i].blob == entries[j].blob && Decrypted(decrypt, entries[i]).Some?
      ==> Decrypted(decrypt, entries[j]) == Decrypted(decrypt, entries[i])
  }

  /** Judging after entries without a stale memo is exact exactly when no earlier success disagrees. */
  lemma JudgeIsExactIff(decrypt: Decrypt, before: seq<Entry>, e: Entry)
    requires NoStaleMemo(decrypt, before)
    ensures Judge(decrypt, Memo(decrypt, before), e) == Decrypted(decrypt, e) <==>
            forall i :: 0 <= i < |before| && before[i].blob == e.blob && Decrypted(decrypt, before[i]).Some?
              ==> Decrypted(decrypt, e) == Decrypted(decrypt, before[i])
  {
    MemoHolds(decrypt, before, e.blob);
  }

  /** Memoised verdicts equal separate decryption exactly when no memo entry is stale. */
  lemma {:induction false} MemoIsExactIff(decrypt: Decrypt, entries: seq<Entry>)
    requires DistinctUuids(entries)
    ensures Separate(decrypt, entries, Verdicts(decrypt, entries)) <==> NoStaleMemo(decrypt, entries)
  {
    if entries != [] {
      hide Verdicts, Memo, Separate, NoStaleMemo, Judge;
      var last := |entries| - 1;
      var before, e := entries[..last], entries[last];
      MemoIsExactIff(decrypt, before);
      assert entries == before + [e];
      SeparateSplits(decrypt, before, e);
      StaleSplits(decrypt, before, e);
      if NoStaleMemo(decrypt, before) {
        JudgeIsExactIff(decrypt, before, e);
      }
    }
  }

  lemma VerdictOfLast(decrypt: Decrypt, entries: seq<Entry>)
    requires entries != []
    ensures var e := entries[|entries| - 1];
            Verdicts(decrypt, entries)[e.uuid] ==
            match Judge(decrypt, Memo(decrypt, entries[..|entries| - 1]), e)
            case Some(p) => Some(Breach(e.locator, e.disputeTxid, p))
            case None => None
  {
  }

  lemma SeparateSplits(decrypt: Decrypt, before: seq<Entry>, e: Entry)
    requires DistinctUuids(before + [e])
    ensures var entries := before + [e];
            Separate(decrypt, entries, Verdicts(decrypt, entries)) <==>
            Separate(decrypt, before, Verdicts(decrypt, before))
            && Judge(decrypt, Memo(decrypt, before), e) == Decrypted(decrypt, e)
  {
    var entries := before + [e];
    assert entries[..|before|] == before && entries[|before|] == e;
    VerdictOfLast(decrypt, entries);
    forall x | x in before ensures x in entries && x.uuid != e.uuid {
      var i :| 0 <= i < |before| && before[i] == x;
      assert entries[i] == x;
    }
    assert e in entries;
  }

  lemma StaleSplits(decrypt: Decrypt, before: seq<Entry>, e: Entry)
    ensures NoStaleMemo(decrypt, before + [e]) <==>
            && NoStaleMemo(decrypt, before)
            && forall i :: 0 <= i < |before| && before[i].blob == e.blob && Decrypted(decrypt, before[i]).Some?
                 ==> Decrypted(decrypt, e) == Decrypted(decrypt, before[i])
  {
    var entries := before + [e];
    assert entries[|before|] == e;
    if NoStaleMemo(decrypt, entries) {
      forall i | 0 <= i < |before| && before[i].blob == e.blob && Decrypted(decrypt, before[i]).Some?
        ensures Decrypted(decrypt, e) == Decrypted(decrypt, before[i])
      {
        assert entries[i] == before[i];
      }
      forall i, j | 0 <= i < j < |before| && before[i].blob == before[j].blob && Decrypted(decrypt, before[i]).Some?
        ensures Decrypted(decrypt, before[j]) == Decrypted(decrypt, before[i])
      {
        assert entries[i] == before[i] && entries[j] == before[j];
      }
    }
  }

  // ---------- One entry ----------

  /** The penalty a breached appointment is answered with, if any: the memoised one, or its own. */
  function Used(decrypt: Decrypt, entries: seq<Entry>, i: nat): Option<Penalty>
    requires i < |entries|
  {
    Judge(decrypt, Memo(decrypt, entries[..i]), entries[i])
  }

  /** Entry `j` is the first with this blob that decrypts. */
  ghost predicate FirstSuccess(decrypt: Decrypt, entries: seq<Entry>, blob: Blob, j: nat) {
    && j < |entries| && entries[j].blob == blob && Decrypted(decrypt, entries[j]).Some?
    && forall k :: 0 <= k < j && entries[k].blob == blob ==> Decrypted(decrypt, entries[k]).None?
  }

  /** The first earlier entry with the blob of entry `i` that decrypts does so to something else. */
  ghost predicate Stale(decrypt: Decrypt, entries: seq<Entry>, i: nat)
    requires i < |entries|
  {
    exists j :: 0 <= j < i && FirstSuccess(decrypt, entries, entries[i].blob, j)
                && Decrypted(decrypt, entries[j]) != Decrypted(decrypt, entries[i])
  }

  lemma {:induction false} MemoIsFirst(decrypt: Decrypt, entries: seq<Entry>, blob: Blob, j: nat)
    requires FirstSuccess(decrypt, entries, blob, j)
    ensures blob in Memo(decrypt, entries) && Decrypted(decrypt, entries[j]) == Some(Memo(decrypt, entries)[blob])
  {
    var last := |entries| - 1;
    var before := entries[..last];
    if j < last {
      assert FirstSuccess(decrypt, before, blob, j);
      MemoIsFirst(decrypt, before, blob, j);
    } else if blob in Memo(decrypt, before) {
      MemoHolds(decrypt, before, blob);
    }
  }

  lemma {:induction false} SomeFirst(decrypt: Decrypt, entries: seq<Entry>, blob: Blob, i: nat) returns (j: nat)
    requires i < |entries| && entries[i].blob == blob && Decrypted(decrypt, entries[i]).Some?
    ensures j <= i && FirstSuccess(decrypt, entries, blob, j)
    decreases i
  {
    if k :| 0 <= k < i && entries[k].blob == blob && Decrypted(decrypt, entries[k]).Some? {
      j := SomeFirst(decrypt, entries, blob, k);
    } else {
      j := i;
    }
  }

  lemma FirstOfPrefix(decrypt: Decrypt, entries: seq<Entry>, blob: Blob, i: nat, j: nat)
    requires j < i <= |entries|
    ensures FirstSuccess(decrypt, entries[..i], blob, j) <==> FirstSuccess(decrypt, entries, blob, j)
  {
  }

  /** An appointment is answered with its own penalty exactly when no earlier success with its blob disagrees. */
  lemma UsedIsOwnIff(decrypt: Decrypt, entries: seq<Entry>, i: nat)
    requires i < |entries|
    ensures Used(decrypt, entries, i) == Decrypted(decrypt, entries[i]) <==> !Stale(decrypt, entries, i)
    ensures Stale(decrypt, entries, i) ==>
              exists j :: 0 <= j < i && FirstSuccess(decrypt, entries, entries[i].blob, j)
                          && Used(decrypt, entries, i) == Decrypted(decrypt, entries[j])
  {
    var before, blob := entries[..i], entries[i].blob;
    hide Memo, FirstSuccess;
    if j :| 0 <= j < i && FirstSuccess(decrypt, entries, blob, j) {
      FirstOfPrefix(decrypt, entries, blob, i, j);
      MemoIsFirst(decrypt, before, blob, j);
      assert before[j] == entries[j];
      forall k | 0 <= k < i && FirstSuccess(decrypt, entries, blob, k) ensures k == j {
        FirstIsUnique(decrypt, entries, blob, j, k);
      }
    } else {
      MemoHolds(decrypt, before, blob);
      if blob in Memo(decrypt, before) {
        var m :| 0 <= m < |before| && before[m].blob == blob && Decrypted(decrypt, before[m]).Some?;
        var j := SomeFirst(decrypt, entries, blob, m);
        assert false;
      }
    }
  }

  lemma FirstIsUnique(decrypt: Decrypt, entries: seq<Entry>, blob: Blob, j: nat, k: nat)
    requires FirstSuccess(decrypt, entries, blob, j) && FirstSuccess(decrypt, entries, blob, k)
    ensures j == k
  {
  }

  /** The verdict on an entry depends only on it and on the entries before it. */
  lemma {:induction false} VerdictOf(decrypt: Decrypt, entries: seq<Entry>, i: nat)
    requires DistinctUuids(entries) && i < |entries|
    ensures var e := entries[i];
            && e.uuid in Verdicts(decrypt, entries)
            && Verdicts(decrypt, entries)[e.uuid] ==
                 match Used(decrypt, entries, i)
                 case Some(p) => Some(Breach(e.locator, e.disputeTxid, p))
                 case None => None
    decreases |entries|
  {
    var last := |entries| - 1;
    if i < last {
      var before := entries[..last];
      assert before[..i] == entries[..i];
      VerdictOf(decrypt, before, i);
    }
  }

  /** In particular when equal blobs share a dispute transaction. */
  lemma SameDisputeIsSafe(decrypt: Decrypt, entries: seq<Entry>)
    requires forall i, j :: 0 <= i < j < |entries| && entries[i].blob == entries[j].blob
               ==> entries[i].disputeTxid == entries[j].disputeTxid
    ensures NoStaleMemo(decrypt, entries)
  {
  }
}
