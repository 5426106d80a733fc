/** Vocabulary shared by every component of the tower. */
module Basics {

  datatype Option<+T> = None | Some(value: T)

  /** The exceptions the tower raises, and the outcome of a call that may raise one. */
  datatype Exception =
    | KeyError
    | ValueError
    | RuntimeError
    | TypeError
    | AttributeError
    | InvalidParameter
    | NotEnoughSlots
    | AuthenticationFailure
    | SubscriptionExpired
    | AppointmentLimitReached
    | AppointmentAlreadyTriggered

  datatype Result<+T> = Ok(value: T) | Raised(exception: Exception)

  // Every identifier is a string, as it is in the databases.
  type Hash = string
  type Txid = string
  type Locator = string
  type Uuid = string
  type UserId = string
  type Blob = string

  const LOCATOR_LEN_HEX := 32

  /** A locator is the first half of a transaction id. */
  function ComputeLocator(txid: Txid): Locator {
    if |txid| <= LOCATOR_LEN_HEX then txid else txid[..LOCATOR_LEN_HEX]
  }

  ghost predicate NoDup<T(!new)>(s: seq<T>) {
    forall i, j :: 0 <= i < j < |s| ==> s[i] != s[j]
  }

  function Elems<T>(s: seq<T>): set<T> {
    set x | x in s
  }

  /** Any finite set can be listed. */
  lemma {:induction false} Listing<T(!new)>(s: set<T>) returns (list: seq<T>)
    ensures NoDup(list) && Elems(list) == s
    decreases |s|
  {
    list := [];
    if s != {} {
      var x :| x in s;
      var rest := Listing(s - {x});
      list := rest + [x];
      assert x !in rest by { assert x !in Elems(rest); }
      NoDupAppend(rest, x);
      assert Elems(list) == Elems(rest) + {x};
    }
  }

  lemma ElemsOneMore<T>(s: seq<T>, i: nat)
    requires i < |s|
    ensures Elems(s[..i + 1]) == Elems(s[..i]) + {s[i]}
  {
  }

  /** Python's `list.remove`: drops the first occurrence. */
  function RemoveFirst<T(==)>(s: seq<T>, x: T): (r: seq<T>)
    requires x in s
  {
    if s[0] == x then s[1..] else [s[0]] + RemoveFirst(s[1..], x)
  }

  lemma {:induction false} RemoveFirstElems<T(!new)>(s: seq<T>, x: T)
    requires x in s && NoDup(s)
    ensures NoDup(RemoveFirst(s, x))
    ensures |RemoveFirst(s, x)| == |s| - 1
    ensures forall y :: y in RemoveFirst(s, x) <==> y in s && y != x
  {
    if s[0] != x {
      RemoveFirstElems(s[1..], x);
      forall y ensures y in RemoveFirst(s, x) <==> y in s && y != x {
        assert y in s <==> y == s[0] || y in s[1..];
      }
      var r := RemoveFirst(s[1..], x);
      assert s[0] !in r;
    } else {
      forall y ensures y in s[1..] <==> y in s && y != x {
        assert y in s <==> y == s[0] || y in s[1..];
      }
    }
  }

  /** The last `n` elements, or all of them when there are fewer. */
  function LastN<T>(s: seq<T>, n: nat): seq<T> {
    if |s| <= n then s else s[|s| - n..]
  }

  /** `s[::-1]` */
  function Reverse<T>(s: seq<T>): (r: seq<T>)
    ensures |r| == |s| && forall i :: 0 <= i < |s| ==> r[i] == s[|s| - 1 - i]
  {
    seq(|s|, i requires 0 <= i < |s| => s[|s| - 1 - i])
  }

  lemma LastNAppend<T>(s: seq<T>, x: T, n: nat)
    ensures LastN(s + [x], n) == if |LastN(s, n)| < n then LastN(s, n) + [x] else (LastN(s, n) + [x])[1..]
  {
  }

  lemma NoDupAppend<T(!new)>(s: seq<T>, x: T)
    requires NoDup(s) && x !in s
    ensures NoDup(s + [x])
  {
  }
}
