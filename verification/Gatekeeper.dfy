/** The Gatekeeper and the users database it keeps in step with its memory. */
module Gatekeeper {
  import opened Basics
  import opened Slots
  import opened Expiry

  class UsersDbm {
    var users: Users

    constructor ()
      ensures users == map[]
    {
      users := map[];
    }

    /** Stores a user, unless its id is malformed. */
    method StoreUser(userId: UserId, info: UserInfo) returns (stored: bool)
      modifies this
      ensures stored <==> IsCompressedPk(userId)
      ensures users == if stored then old(users)[userId := info] else old(users)
    {
      stored := IsCompressedPk(userId);
      if stored {
        users := users[userId := info];
      }
    }

    method DeleteUser(userId: UserId)
      modifies this
      ensures users == old(users) - {userId}
    {
      users := users - {userId};
    }
  }

  function Owned(owners: map<Uuid, UserId>, uuids: set<Uuid>): map<Uuid, UserId> {
    map u | u in owners && u in uuids :: owners[u]
  }

  /** One iteration of the deletion loop: pop the charge and give the slots back. */
  function RefundOne(users: Users, uuid: Uuid, userId: UserId): Users {
    if userId in users && uuid in users[userId].appointments then
      users[userId := users[userId].(
        appointments := users[userId].appointments - {uuid},
        availableSlots := users[userId].availableSlots + users[userId].appointments[uuid])]
    else users
  }

  lemma RefundUserOneMore(user: UserInfo, done: set<Uuid>, uuid: Uuid)
    requires uuid !in done
    ensures RefundUser(user, done + {uuid}) ==
            var part := RefundUser(user, done);
            if uuid in user.appointments then
              part.(appointments := part.appointments - {uuid},
                    availableSlots := part.availableSlots + part.appointments[uuid])
            else part
  {
    var m := user.appointments;
    assert m - done - {uuid} == m - (done + {uuid});
    if uuid in m {
      SumAdd(Restrict(m, done), uuid, m[uuid]);
      assert Restrict(m, done)[uuid := m[uuid]] == Restrict(m, done + {uuid});
      assert Restrict(m, done) - {uuid} == Restrict(m, done);
    } else {
      assert Restrict(m, done + {uuid}) == Restrict(m, done);
      assert m - (done + {uuid}) == m - done;
    }
  }

  lemma RefundOneMore(users: Users, owners: map<Uuid, UserId>, done: set<Uuid>, uuid: Uuid)
    requires uuid in owners && uuid !in done
    ensures Refund(users, Owned(owners, done + {uuid})) ==
            RefundOne(Refund(users, Owned(owners, done)), uuid, owners[uuid])
  {
    hide Sum, Restrict;
    var before := Refund(users, Owned(owners, done));
    var after := Refund(users, Owned(owners, done + {uuid}));
    forall id | id in users ensures after[id] == RefundOne(before, uuid, owners[uuid])[id] {
      var uuids := UuidsOf(Owned(owners, done), id);
      if id == owners[uuid] {
        assert UuidsOf(Owned(owners, done + {uuid}), id) == uuids + {uuid};
        RefundUserOneMore(users[id], uuids, uuid);
      } else {
        assert UuidsOf(Owned(owners, done + {uuid}), id) == uuids;
      }
    }
  }

  lemma RefundNothing(users: Users, owners: map<Uuid, UserId>)
    ensures Refund(users, Owned(owners, {})) == users
  {
    forall id | id in users ensures RefundUser(users[id], UuidsOf(Owned(owners, {}), id)) == users[id] {
      var m := users[id].appointments;
      assert UuidsOf(Owned(owners, {}), id) == {};
      assert Restrict(m, {}) == map[] && m - {} == m;
    }
  }

  /** Pops the charges one by one; `touched` are the users to store again. */
  method GiveBack(users: Users, owners: map<Uuid, UserId>) returns (users': Users, touched: set<UserId>)
    ensures users' == Refund(users, owners)
    ensures users'.Keys == users.Keys && touched <= users.Keys
    ensures forall id <- users :: id !in touched ==> users'[id] == users[id]
  {
    users', touched := users, {};
    var pending := owners.Keys;
    RefundNothing(users, owners);
    while pending != {}
      invariant pending <= owners.Keys
      invariant users' == Refund(users, Owned(owners, owners.Keys - pending))
      invariant touched <= users'.Keys == users.Keys
      invariant forall id <- users :: id !in touched ==> users'[id] == users[id]
      decreases pending
    {
      var uuid :| uuid in pending;
      var userId := owners[uuid];
      RefundOneMore(users, owners, owners.Keys - pending, uuid);
      assert owners.Keys - pending + {uuid} == owners.Keys - (pending - {uuid});
      if userId in users' && uuid in users'[userId].appointments {
        touched := touched + {userId};
      }
      users' := RefundOne(users', uuid, userId);
      pending := pending - {uuid};
    }
    assert Owned(owners, owners.Keys - {}) == owners;
  }

  /** The appointments of some outdated users, flattened. */
  function Flatten(outdated: Outdated): set<Uuid> {
    set id, u | id in outdated && u in outdated[id] :: u
  }

  class Gatekeeper {
    const config: Config
    const userDb: UsersDbm
    var registeredUsers: Users
    var cacheOrder: seq<int>
    var outdatedUsersCache: map<int, Outdated>

    ghost function State(): Expiry.State
      reads this
    {
      Expiry.State.State(registeredUsers, cacheOrder, outdatedUsersCache)
    }

    /** The database always holds exactly the registered users. */
    ghost predicate Valid()
      reads this, userDb
    {
      && userDb.users == registeredUsers
      && (forall id <- registeredUsers :: IsCompressedPk(id))
      && CacheOk(State())
    }

    constructor (config: Config, userDb: UsersDbm)
      requires forall id <- userDb.users :: IsCompressedPk(id)
      ensures Valid() && this.config == config && this.userDb == userDb
      ensures State() == Expiry.State.State(userDb.users, [], map[])
    {
      this.config, this.userDb := config, userDb;
      registeredUsers, cacheOrder, outdatedUsersCache := userDb.users, [], map[];
    }

    method AddUpdateUser(userId: UserId, blockCount: int) returns (r: Result<(int, int)>)
      requires Valid()
      modifies this`registeredUsers, userDb
      ensures Valid()
      ensures match Register(config, old(registeredUsers), userId, blockCount)
              case Ok(users) =>
                registeredUsers == users &&
                r == Ok((users[userId].availableSlots, users[userId].subscriptionExpiry))
              case Raised(e) => registeredUsers == old(registeredUsers) && r == Raised(e)
      ensures r.Ok? ==>
                && Subscribed(config, old(registeredUsers), registeredUsers, userId, blockCount)
                && r.value.1 == blockCount + config.subscriptionDuration
                && r.value.0 == registeredUsers[userId].availableSlots
    {
      RegisterSubscribes(config, registeredUsers, userId, blockCount);
      if !IsCompressedPk(userId) {
        return Raised(InvalidParameter);
      }
      if userId !in registeredUsers {
        registeredUsers := registeredUsers[
          userId := UserInfo(config.subscriptionSlots, blockCount + config.subscriptionDuration, map[])];
      } else {
        var user := registeredUsers[userId];
        if !IsU4Int(user.availableSlots + config.subscriptionSlots) {
          return Raised(InvalidParameter);
        }
        registeredUsers := registeredUsers[userId := user.(
          availableSlots := user.availableSlots + config.subscriptionSlots,
          subscriptionExpiry := blockCount + config.subscriptionDuration)];
      }
      var user := registeredUsers[userId];
      var stored := userDb.StoreUser(userId, user);
      r := Ok((user.availableSlots, user.subscriptionExpiry));
    }

    method AddUpdateAppointment(userId: UserId, uuid: Uuid, blobLength: nat) returns (r: Result<int>)
      requires Valid() && userId in registeredUsers
      modifies this`registeredUsers, userDb
      ensures Valid()
      ensures match Charge(old(registeredUsers), userId, uuid, blobLength)
              case Ok(users) => registeredUsers == users && r == Ok(users[userId].availableSlots)
              case Raised(e) => registeredUsers == old(registeredUsers) && r == Raised(e)
    {
      var user := registeredUsers[userId];
      var usedSlots := 0;
      if uuid in user.appointments {
        usedSlots := user.appointments[uuid];
      }
      var requiredSlots := RequiredSlots(blobLength);
      if requiredSlots - usedSlots <= user.availableSlots {
        var updated := user.(
          appointments := user.appointments[uuid := requiredSlots],
          availableSlots := user.availableSlots - (requiredSlots - usedSlots));
        registeredUsers := registeredUsers[userId := updated];
        var stored := userDb.StoreUser(userId, updated);
        r := Ok(updated.availableSlots);
      } else {
        r := Raised(NotEnoughSlots);
      }
    }

    method HasSubscriptionExpired(userId: UserId, blockCount: int) returns (r: Result<(bool, int)>)
      ensures r == if userId !in registeredUsers then Raised(AuthenticationFailure)
                   else Ok((blockCount >= registeredUsers[userId].subscriptionExpiry,
                            registeredUsers[userId].subscriptionExpiry))
    {
      if userId !in registeredUsers {
        return Raised(AuthenticationFailure);
      }
      var expiry := registeredUsers[userId].subscriptionExpiry;
      r := Ok((blockCount >= expiry, expiry));
    }

    method GetOutdatedUsers(blockHeight: int) returns (outdated: Outdated)
      ensures outdated == GetOutdated(config, State(), blockHeight)
    {
      if blockHeight in outdatedUsersCache && outdatedUsersCache[blockHeight] != map[] {
        outdated := outdatedUsersCache[blockHeight];
      } else {
        outdated := OutdatedUsers(config, registeredUsers, blockHeight);
      }
    }

    /** The flattened list; every appointment occurs once when no two users share one. */
    method GetOutdatedAppointments(blockHeight: int) returns (uuids: seq<Uuid>)
      ensures Elems(uuids) == Flatten(GetOutdated(config, State(), blockHeight))
      ensures Apart(GetOutdated(config, State(), blockHeight)) ==> NoDup(uuids)
    {
      var outdated := GetOutdatedUsers(blockHeight);
      uuids := FlattenUsers(outdated);
    }

    method UpdateOutdatedUsersCache(blockHeight: int)
      requires Valid()
      modifies this`cacheOrder, this`outdatedUsersCache
      ensures State() == UpdateCache(config, old(State()), blockHeight) && Valid()
    {
      var outdatedUsers := GetOutdatedUsers(blockHeight);
      if blockHeight !in outdatedUsersCache {
        UpdateCacheFacts(config, State(), blockHeight);
        outdatedUsersCache := outdatedUsersCache[blockHeight := outdatedUsers];
        cacheOrder := cacheOrder + [blockHeight];
        if |outdatedUsersCache| > OUTDATED_USERS_CACHE_SIZE_BLOCKS {
          outdatedUsersCache := outdatedUsersCache - {cacheOrder[0]};
          cacheOrder := cacheOrder[1..];
        }
      }
    }

    /** Deletes users one by one; an absent one raises and stops the thread. */
    method DeleteOutdatedUsers(userIds: set<UserId>) returns (r: Result<()>)
      requires Valid()
      modifies this`registeredUsers, userDb
      ensures r == if userIds <= old(registeredUsers).Keys then Ok(()) else Raised(KeyError)
      ensures r.Ok? ==> registeredUsers == old(registeredUsers) - userIds
      ensures Valid()
    {
      var pending := userIds;
      while pending != {}
        invariant Valid() && pending <= userIds
        invariant registeredUsers == old(registeredUsers) - (userIds - pending)
        invariant userIds - pending <= old(registeredUsers).Keys
        decreases pending
      {
        var id :| id in pending;
        if id !in registeredUsers {
          return Raised(KeyError);
        }
        registeredUsers := registeredUsers - {id};
        userDb.DeleteUser(id);
        pending := pending - {id};
      }
      assert userIds - {} == userIds;
      r := Ok(());
    }

    /** The body of `manage_subscription_expiry` for one block. */
    method OnBlock(blockHeight: int) returns (r: Result<()>)
      requires Valid()
      modifies this, userDb
      ensures match Block(config, old(State()), blockHeight)
              case Ok(g) => r == Ok(()) && State() == g && Valid()
              case Raised(e) => r == Raised(e)
    {
      UpdateOutdatedUsersCache(blockHeight);
      var outdated := GetOutdatedUsers(blockHeight);
      r := DeleteOutdatedUsers(outdated.Keys);
    }

    /** `delete_appointments`: gives back the slots of finished or refused appointments. */
    method DeleteAppointments(owners: map<Uuid, UserId>)
      requires Valid()
      modifies this`registeredUsers, userDb
      ensures Valid() && registeredUsers == Refund(old(registeredUsers), owners)
    {
      var users, userIds := GiveBack(registeredUsers, owners);
      registeredUsers := users;
      StoreUsers(userIds);
      assert userDb.users == registeredUsers;
    }

    method StoreUsers(userIds: set<UserId>)
      requires userIds <= registeredUsers.Keys && forall id <- registeredUsers :: IsCompressedPk(id)
      modifies userDb
      ensures userDb.users == map id | id in old(userDb.users).Keys + userIds ::
                                if id in userIds then registeredUsers[id] else old(userDb.users)[id]
    {
      var pending := userIds;
      while pending != {}
        invariant pending <= userIds
        invariant userDb.users == map id | id in old(userDb.users).Keys + (userIds - pending) ::
                                    if id in userIds - pending then registeredUsers[id] else old(userDb.users)[id]
        decreases pending
      {
        var id :| id in pending;
        var stored := userDb.StoreUser(id, registeredUsers[id]);
        pending := pending - {id};
      }
      assert userIds - {} == userIds;
    }
  }

  ghost predicate Apart(outdated: Outdated) {
    forall i, j :: i in outdated && j in outdated && i != j ==> outdated[i] !! outdated[j]
  }

  method ListOf(s: set<Uuid>) returns (list: seq<Uuid>)
    ensures Elems(list) == s && NoDup(list)
  {
    list := [];
    var pending := s;
    while pending != {}
      invariant pending <= s && Elems(list) == s - pending && NoDup(list)
      decreases pending
    {
      var u :| u in pending;
      assert u !in list by { assert u !in Elems(list); }
      NoDupAppend(list, u);
      assert Elems(list + [u]) == Elems(list) + {u};
      list := list + [u];
      pending := pending - {u};
    }
  }

  method FlattenUsers(outdated: Outdated) returns (uuids: seq<Uuid>)
    ensures Elems(uuids) == Flatten(outdated)
    ensures Apart(outdated) ==> NoDup(uuids)
  {
    uuids := [];
    var pending := outdated.Keys;
    while pending != {}
      invariant pending <= outdated.Keys
      invariant Elems(uuids) == set id, u | id in outdated.Keys - pending && u in outdated[id] :: u
      invariant Apart(outdated) ==> NoDup(uuids)
      decreases pending
    {
      var id :| id in pending;
      var list := ListOf(outdated[id]);
      if Apart(outdated) {
        forall i, j | 0 <= i < |uuids| && 0 <= j < |list| ensures uuids[i] != list[j] {
          assert uuids[i] in Elems(uuids) && list[j] in Elems(list);
        }
      }
      assert Elems(uuids + list) == Elems(uuids) + Elems(list);
      uuids := uuids + list;
      pending := pending - {id};
    }
  }
}
