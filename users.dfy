/**
  The users table as far as sign-in touches it: getOrCreateUser finds a user by Google id,
  refreshes the last login of a known user and creates an unknown one under newbie protection.
 */
module Users {
  import opened Wrappers
  import opened GameTypes

  /** Seven days, in milliseconds. */
  const ProtectionMillis: int := 7 * 24 * 60 * 60 * 1000

  datatype UserRecord = UserRecord(
    id: UserId,
    googleId: string,
    name: string,
    email: string,
    avatarUrl: Option<string>,
    lastLogin: int,
    isProtected: bool,
    protectionUntil: Option<int>)

  /** The table keyed by Google id; every key is the id stored in its record. */
  ghost predicate Keyed(users: map<string, UserRecord>)
  {
    forall g :: g in users ==> users[g].googleId == g
  }

  /** No two users share an id. */
  ghost predicate DistinctIds(users: map<string, UserRecord>)
  {
    forall g, h :: g in users && h in users && g != h ==> users[g].id != users[h].id
  }

  datatype Lookup = Lookup(users: map<string, UserRecord>, user: Option<UserRecord>)

  /**
    getOrCreateUser on a table: a known user is answered as it was read (the stored last
    login moves to `now`); an unknown one is inserted with id `freshId`, protected until a
    week from `now`; a failed insert answers none and leaves the table as it was.
   */
  function GetOrCreateUser(users: map<string, UserRecord>, googleId: string, name: string, email: string,
                           avatarUrl: Option<string>, freshId: UserId, insertOk: bool, now: int): Lookup
  {
    if googleId in users then
      Lookup(users[googleId := users[googleId].(lastLogin := now)], Some(users[googleId]))
    else if !insertOk then
      Lookup(users, None)
    else
      // The insert leaves last_login to the table's column default; the model takes that to be `now`.
      var created := UserRecord(freshId, googleId, name, email, avatarUrl, now, true, Some(now + ProtectionMillis));
      Lookup(users[googleId := created], Some(created))
  }

  /** A newly created user is protected for exactly seven days and carries the profile given. */
  lemma NewUserProtected(users: map<string, UserRecord>, googleId: string, name: string, email: string,
                         avatarUrl: Option<string>, freshId: UserId, now: int)
    requires googleId !in users
    ensures var l := GetOrCreateUser(users, googleId, name, email, avatarUrl, freshId, true, now);
      && l.user == Some(l.users[googleId])
      && l.users[googleId].isProtected
      && l.users[googleId].protectionUntil == Some(now + 604800000)
      && l.users[googleId].id == freshId
      && l.users[googleId].name == name && l.users[googleId].email == email
      && l.users[googleId].avatarUrl == avatarUrl
      && l.users.Keys == users.Keys + {googleId}
  {
  }

  /** A known user is answered with the stored record; only its last login changes. */
  lemma KnownUserKept(users: map<string, UserRecord>, googleId: string, name: string, email: string,
                      avatarUrl: Option<string>, freshId: UserId, insertOk: bool, now: int)
    requires googleId in users
    ensures var l := GetOrCreateUser(users, googleId, name, email, avatarUrl, freshId, insertOk, now);
      && l.user == Some(users[googleId])
      && l.users.Keys == users.Keys
      && l.users[googleId] == users[googleId].(lastLogin := now)
      && (forall g :: g in users && g != googleId ==> l.users[g] == users[g])
  {
  }

  /** The table stays keyed by Google id, and ids stay distinct when the fresh id is unused. */
  lemma GetOrCreateKeepsTable(users: map<string, UserRecord>, googleId: string, name: string, email: string,
                              avatarUrl: Option<string>, freshId: UserId, insertOk: bool, now: int)
    requires Keyed(users) && DistinctIds(users)
    requires forall g :: g in users ==> users[g].id != freshId
    ensures Keyed(GetOrCreateUser(users, googleId, name, email, avatarUrl, freshId, insertOk, now).users)
    ensures DistinctIds(GetOrCreateUser(users, googleId, name, email, avatarUrl, freshId, insertOk, now).users)
  {
  }

  /**
    Signing in twice finds the same user: the second call answers the record the first one
    stored (or created), whatever id or insert outcome the second call would have had.
   */
  lemma SecondSignInFindsSameUser(users: map<string, UserRecord>, googleId: string, name: string, email: string,
                                  avatarUrl: Option<string>, freshId: UserId, freshId2: UserId, ok2: bool,
                                  now: int, later: int)
    ensures var first := GetOrCreateUser(users, googleId, name, email, avatarUrl, freshId, true, now);
      var second := GetOrCreateUser(first.users, googleId, name, email, avatarUrl, freshId2, ok2, later);
      && first.user.Some?
      && second.user.Some?
      && second.user.value.id == first.user.value.id
      && second.user.value.lastLogin == now
  {
  }

  class UserDirectory {
    var users: map<string, UserRecord>

    constructor ()
      ensures users == map[]
    {
      users := map[];
    }

    /** getOrCreateUser against this table; `freshId` is the id the insert would be given. */
    method GetOrCreate(googleId: string, name: string, email: string, avatarUrl: Option<string>,
                       freshId: UserId, insertOk: bool, now: int)
      returns (user: Option<UserRecord>)
      modifies this
      ensures Lookup(users, user) == GetOrCreateUser(old(users), googleId, name, email, avatarUrl, freshId, insertOk, now)
    {
      if googleId in users {
        var existing := users[googleId];
        users := users[googleId := existing.(lastLogin := now)];
        return Some(existing);
      }
      if !insertOk {
        return None;
      }
      var created := UserRecord(freshId, googleId, name, email, avatarUrl, now, true, Some(now + ProtectionMillis));
      users := users[googleId := created];
      user := Some(created);
    }
  }
}
