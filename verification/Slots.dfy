/** User subscriptions as values: what each Gatekeeper operation does to the registered users. */
module Slots {
  import opened Basics

  const ENCRYPTED_BLOB_MAX_SIZE_HEX := 2 * 2048
  const U4_MAX := 0x1_0000_0000 - 1

  datatype Config = Config(subscriptionSlots: nat, subscriptionDuration: nat, expiryDelta: nat)

  datatype UserInfo = UserInfo(availableSlots: int, subscriptionExpiry: int, appointments: map<Uuid, nat>)

  type Users = map<UserId, UserInfo>

  predicate IsU4Int(n: int) {
    0 <= n <= U4_MAX
  }

  predicate IsHexDigit(c: char) {
    '0' <= c <= '9' || 'A' <= c <= 'F' || 'a' <= c <= 'f'
  }

  /** A 33-byte hex string starting by 02 or 03; the pattern ends in `$`, which also matches before a final newline. */
  predicate IsCompressedPk(s: string) {
    && (|s| == 66 || (|s| == 67 && s[66] == '\n'))
    && s[0] == '0'
    && (s[1] == '2' || s[1] == '3')
    && forall i :: 2 <= i < 66 ==> IsHexDigit(s[i])
  }

  /** A key is accepted in two forms, which are two users. */
  lemma KeyHasTwoForms(s: string)
    requires |s| == 66
    ensures IsCompressedPk(s) <==> IsCompressedPk(s + "\n")
    ensures IsCompressedPk(s) ==> s[..2] in {"02", "03"} && forall c <- s :: c in "0123456789abcdefABCDEF"
  {
    if IsCompressedPk(s) {
      forall c | c in s ensures c in "0123456789abcdefABCDEF" {
        var i :| 0 <= i < |s| && s[i] == c;
        DigitOf(c);
      }
      assert s[..2] == [s[0], s[1]];
    }
    if IsCompressedPk(s + "\n") {
      assert forall i :: 0 <= i < 66 ==> (s + "\n")[i] == s[i];
    }
  }

  lemma DigitOf(c: char)
    ensures IsHexDigit(c) <==> c in "0123456789abcdefABCDEF"
  {
    var digits := "0123456789abcdefABCDEF";
    if '0' <= c <= '9' {
      assert digits[c as int - '0' as int] == c;
    } else if 'a' <= c <= 'f' {
      assert digits[10 + c as int - 'a' as int] == c;
    } else if 'A' <= c <= 'F' {
      assert digits[16 + c as int - 'A' as int] == c;
    }
  }

  /** The number of slots a blob takes: the least number of blocks that covers it. */
  function RequiredSlots(blobLength: nat): (slots: nat)
    ensures slots * 4096 >= blobLength
    ensures forall k: nat :: k * 4096 >= blobLength ==> k >= slots
  {
    (blobLength + ENCRYPTED_BLOB_MAX_SIZE_HEX - 1) / ENCRYPTED_BLOB_MAX_SIZE_HEX
  }

  // ---------- Sums of charged slots ----------

  ghost function Sum(m: map<Uuid, nat>): nat {
    if m == map[] then 0
    else
      var u :| u in m;
      m[u] + Sum(m - {u})
  }

  lemma {:induction false} SumRemove(m: map<Uuid, nat>, u: Uuid)
    requires u in m
    ensures Sum(m) == m[u] + Sum(m - {u})
    decreases |m|
  {
    var v :| v in m && Sum(m) == m[v] + Sum(m - {v});
    if u != v {
      SumRemove(m - {v}, u);
      SumRemove(m - {u}, v);
      assert m - {v} - {u} == m - {u} - {v};
    }
  }

  lemma SumAdd(m: map<Uuid, nat>, u: Uuid, n: nat)
    ensures Sum(m[u := n]) == n + Sum(m - {u})
  {
    SumRemove(m[u := n], u);
    assert m[u := n] - {u} == m - {u};
  }

  function Restrict(m: map<Uuid, nat>, uuids: set<Uuid>): map<Uuid, nat> {
    map u | u in m && u in uuids :: m[u]
  }

  lemma RestrictRemove(m: map<Uuid, nat>, uuids: set<Uuid>, u: Uuid)
    requires u in m
    ensures u in uuids ==> Restrict(m, uuids) - {u} == Restrict(m - {u}, uuids) && m - {u} - uuids == m - uuids
    ensures u !in uuids ==> m - uuids - {u} == m - {u} - uuids && Restrict(m - {u}, uuids) == Restrict(m, uuids)
  {
  }

  lemma {:induction false} SumSplit(m: map<Uuid, nat>, uuids: set<Uuid>)
    ensures Sum(m) == Sum(Restrict(m, uuids)) + Sum(m - uuids)
    decreases |m|
  {
    if m == map[] {
      assert Restrict(m, uuids) == map[] && m - uuids == map[];
    } else {
      var u :| u in m;
      SumRemove(m, u);
      SumSplit(m - {u}, uuids);
      RestrictRemove(m, uuids, u);
      if u in uuids {
        SumRemove(Restrict(m, uuids), u);
      } else {
        SumRemove(m - uuids, u);
      }
    }
  }

  // ---------- Operations ----------

  /** A new user gets the configured slots; a known one gets them on top, and a new expiry. */
  function Register(config: Config, users: Users, userId: UserId, blockCount: int): Result<Users> {
    if !IsCompressedPk(userId) then Raised(InvalidParameter)
    else if userId !in users then
      Ok(users[userId := UserInfo(config.subscriptionSlots, blockCount + config.subscriptionDuration, map[])])
    else if !IsU4Int(users[userId].availableSlots + config.subscriptionSlots) then Raised(InvalidParameter)
    else
      Ok(users[userId := users[userId].(
        availableSlots := users[userId].availableSlots + config.subscriptionSlots,
        subscriptionExpiry := blockCount + config.subscriptionDuration)])
  }

  /**
   A registration at a block count, of a new or a known user: the subscription then ends a full duration later, the
   slots are added, what is charged stays charged, and nobody else changes. It fails only for a malformed key and for
   slots beyond 32 bits.
   */
  ghost predicate Subscribed(config: Config, users: Users, users': Users, userId: UserId, blockCount: int) {
    && users'.Keys == users.Keys + {userId}
    && (forall id <- users :: id != userId ==> users'[id] == users[id])
    && users'[userId].subscriptionExpiry == blockCount + config.subscriptionDuration
    && users'[userId].availableSlots ==
         config.subscriptionSlots + (if userId in users then users[userId].availableSlots else 0)
    && users'[userId].appointments == if userId in users then users[userId].appointments else map[]
  }

  lemma RegisterSubscribes(config: Config, users: Users, userId: UserId, blockCount: int)
    ensures var r := Register(config, users, userId, blockCount);
            && (r.Raised? <==>
                || !IsCompressedPk(userId)
                || (userId in users && !(0 <= users[userId].availableSlots + config.subscriptionSlots < 0x1_0000_0000)))
            && (r.Raised? ==> r == Raised(InvalidParameter))
            && (r.Ok? ==> Subscribed(config, users, r.value, userId, blockCount))
  {
  }

  function UsedSlots(user: UserInfo, uuid: Uuid): nat {
    if uuid in user.appointments then user.appointments[uuid] else 0
  }

  /** An appointment takes its slots; an update pays or gets back the difference. */
  function Charge(users: Users, userId: UserId, uuid: Uuid, blobLength: nat): Result<Users>
    requires userId in users
  {
    var user := users[userId];
    var required := RequiredSlots(blobLength);
    if required - UsedSlots(user, uuid) <= user.availableSlots then
      Ok(users[userId := user.(
        appointments := user.appointments[uuid := required],
        availableSlots := user.availableSlots - (required - UsedSlots(user, uuid)))])
    else Raised(NotEnoughSlots)
  }

  ghost function RefundUser(user: UserInfo, uuids: set<Uuid>): UserInfo {
    user.(
      appointments := user.appointments - uuids,
      availableSlots := user.availableSlots + Sum(Restrict(user.appointments, uuids)))
  }

  function UuidsOf(owners: map<Uuid, UserId>, userId: UserId): set<Uuid> {
    set u | u in owners && owners[u] == userId
  }

  /** Every listed appointment that is charged to its owner is given back. */
  ghost function Refund(users: Users, owners: map<Uuid, UserId>): Users {
    map userId | userId in users :: RefundUser(users[userId], UuidsOf(owners, userId))
  }

  // ---------- Conservation ----------

  ghost function Balance(user: UserInfo): int {
    user.availableSlots + Sum(user.appointments)
  }

  /** Available and charged slots of every user add up to what was granted, and none is overdrawn. */
  ghost predicate Conserved(users: Users, granted: map<UserId, nat>) {
    && granted.Keys == users.Keys
    && forall id <- users :: Balance(users[id]) == granted[id] && users[id].availableSlots >= 0
  }

  lemma ChargeKeepsBalance(users: Users, userId: UserId, uuid: Uuid, blobLength: nat)
    requires userId in users && Charge(users, userId, uuid, blobLength).Ok?
    ensures var users' := Charge(users, userId, uuid, blobLength).value;
            && users'.Keys == users.Keys
            && (forall id <- users :: Balance(users'[id]) == Balance(users[id]))
            && (forall id <- users :: users[id].availableSlots >= 0 ==> users'[id].availableSlots >= 0)
            && users'[userId].appointments == users[userId].appointments[uuid := RequiredSlots(blobLength)]
  {
    var m := users[userId].appointments;
    SumAdd(m, uuid, RequiredSlots(blobLength));
    if uuid in m {
      SumRemove(m, uuid);
    } else {
      assert m - {uuid} == m;
    }
  }

  lemma RefundKeepsBalance(users: Users, owners: map<Uuid, UserId>)
    ensures Refund(users, owners).Keys == users.Keys
    ensures forall id <- users :: Balance(Refund(users, owners)[id]) == Balance(users[id])
    ensures forall id <- users :: Refund(users, owners)[id].availableSlots >= users[id].availableSlots
  {
    forall id | id in users ensures Balance(Refund(users, owners)[id]) == Balance(users[id]) {
      SumSplit(users[id].appointments, UuidsOf(owners, id));
    }
  }

  /**
   The guard of `register` looks only at the available slots. The counter stays within 32 bits under
   every refund exactly when available and charged slots together fit.
   */
  lemma RefundsFitIff(user: UserInfo)
    requires user.availableSlots >= 0
    ensures (forall uuids: set<Uuid> :: IsU4Int(RefundUser(user, uuids).availableSlots))
            <==> IsU4Int(Balance(user))
  {
    forall uuids: set<Uuid>
      ensures 0 <= RefundUser(user, uuids).availableSlots <= Balance(user)
    {
      SumSplit(user.appointments, uuids);
    }
    var all := user.appointments.Keys;
    assert Restrict(user.appointments, all) == user.appointments;
    assert RefundUser(user, all).availableSlots == Balance(user);
  }
}
