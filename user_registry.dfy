/**
 * The user table of `AuthManager` (jarvis-web/backend/auth_manager.py):
 * creating, authenticating, updating, deleting and listing users, and the
 * table statistics.
 *
 * The table is an insertion-ordered dictionary from user id to user, as the
 * Python dictionary is. Password hashing and checking are parameters, and so
 * are the fresh user id and the clock. Loading and saving the users file and
 * the JWT tokens are not part of this model.
 */
module UserRegistry {
  import opened Common
  import opened OrderedDicts

  datatype User = User(id: string, username: string, passwordHash: string, email: Option<string>,
                       authLevel: int, createdAt: string, lastLogin: Option<string>)

  const MinAuthLevel: int := 0
  const MaxAuthLevel: int := 4

  // -------------------------------------------------------------- lookups

  /** The position of the first user with the name, in table order. */
  function FirstNamed(us: seq<User>, name: string): (r: Option<nat>)
    ensures r.Some? ==> r.value < |us| && us[r.value].username == name
    ensures r.Some? ==> forall k :: 0 <= k < r.value ==> us[k].username != name
    ensures r.None? ==> forall k :: 0 <= k < |us| ==> us[k].username != name
  {
    if |us| == 0 then None
    else if us[0].username == name then Some(0)
    else match FirstNamed(us[1..], name)
      case None => None
      case Some(i) => Some(i + 1)
  }

  /** `get_user_by_username`: the first user in table order with that name. */
  function FindByName(users: ODict<string, User>, name: string): (r: Option<User>)
    ensures r.Some? ==> r.value.username == name && r.value in users.m.Values
    ensures r.None? <==> forall id :: id in users.m ==> users.m[id].username != name
  {
    var us := Values(users);
    match FirstNamed(us, name)
    case None =>
      forall id | id in users.m
        ensures users.m[id].username != name
      {
        InKeys(users, id);
        var i :| 0 <= i < |users.keys| && users.keys[i] == id;
        assert us[i] == users.m[id];
      }
      None
    case Some(i) =>
      assert us[i] == users.m[users.keys[i]];
      Some(us[i])
  }

  /** Every user sits under its own id. */
  predicate KeyedById(users: ODict<string, User>)
  {
    forall id :: id in users.m ==> users.m[id].id == id
  }

  predicate UniqueNames(users: ODict<string, User>)
  {
    forall a, b :: a in users.m && b in users.m && a != b ==> users.m[a].username != users.m[b].username
  }

  /** With unique names, the user found by name is the one user in the table with that name. */
  lemma FindByNameUnique(users: ODict<string, User>, name: string, id: string)
    requires UniqueNames(users) && KeyedById(users)
    requires id in users.m && users.m[id].username == name
    ensures FindByName(users, name) == Some(users.m[id])
  {
    var u := FindByName(users, name).value;
    var other :| other in users.m && users.m[other] == u;
  }

  // ------------------------------------------------------------- ordering

  /** Python's `<` on strings: by code point, a proper prefix first. */
  function StrLess(a: string, b: string): bool
  {
    if |b| == 0 then false
    else if |a| == 0 then true
    else if a[0] != b[0] then a[0] < b[0]
    else StrLess(a[1..], b[1..])
  }

  lemma {:induction false} StrLessTransitive(a: string, b: string, c: string)
    requires StrLess(a, b) && StrLess(b, c)
    ensures StrLess(a, c)
  {
    if |a| > 0 && a[0] == b[0] && b[0] == c[0] {
      StrLessTransitive(a[1..], b[1..], c[1..]);
    }
  }

  /** `max(values, default=None)` on strings: the first of the greatest. */
  function MaxString(values: seq<string>): (r: Option<string>)
    ensures r.None? <==> |values| == 0
    ensures r.Some? ==> r.value in values
  {
    if |values| == 0 then None
    else
      match MaxString(values[..|values| - 1])
      case None => Some(values[|values| - 1])
      case Some(m) => if StrLess(m, values[|values| - 1]) then Some(values[|values| - 1]) else Some(m)
  }

  /** No value is greater than the maximum. */
  lemma {:induction false} MaxStringIsGreatest(values: seq<string>)
    ensures MaxString(values).Some? ==> forall k :: 0 <= k < |values| ==> !StrLess(MaxString(values).value, values[k])
  {
    if |values| > 0 {
      var init := values[..|values| - 1];
      var x := values[|values| - 1];
      MaxStringIsGreatest(init);
      match MaxString(init)
      case None =>
        assert |values| == 1;
        StrLessIrreflexive(x);
      case Some(m) =>
        forall k | 0 <= k < |values|
          ensures !StrLess(MaxString(values).value, values[k])
        {
          if k == |values| - 1 {
            StrLessIrreflexive(x);
            StrLessAsymmetric(m, x);
          } else {
            assert values[k] == init[k];
            if StrLess(m, x) && StrLess(x, values[k]) {
              StrLessTransitive(m, x, values[k]);
            }
          }
        }
    }
  }

  lemma {:induction false} StrLessIrreflexive(a: string)
    ensures !StrLess(a, a)
  {
    if |a| > 0 {
      StrLessIrreflexive(a[1..]);
    }
  }

  lemma {:induction false} StrLessAsymmetric(a: string, b: string)
    ensures !(StrLess(a, b) && StrLess(b, a))
  {
    if |a| > 0 && |b| > 0 && a[0] == b[0] {
      StrLessAsymmetric(a[1..], b[1..]);
    }
  }

  // --------------------------------------------------------------- counts

  function CountLevel(us: seq<User>, level: int): (n: nat)
    ensures n <= |us|
  {
    if |us| == 0 then 0 else (if us[0].authLevel == level then 1 else 0) + CountLevel(us[1..], level)
  }

  function LevelCounts(us: seq<User>): (r: seq<nat>)
    ensures |r| == MaxAuthLevel + 1
    ensures forall l :: 0 <= l <= MaxAuthLevel ==> r[l] == CountLevel(us, l)
  {
    [CountLevel(us, 0), CountLevel(us, 1), CountLevel(us, 2), CountLevel(us, 3), CountLevel(us, 4)]
  }

  predicate LevelsInRange(us: seq<User>)
  {
    forall k :: 0 <= k < |us| ==> MinAuthLevel <= us[k].authLevel <= MaxAuthLevel
  }

  /** The five level counts add up to the total exactly when every level is within 0..4. */
  lemma {:induction false} LevelCountsPartition(us: seq<User>)
    ensures LevelsInRange(us) <==>
              CountLevel(us, 0) + CountLevel(us, 1) + CountLevel(us, 2) + CountLevel(us, 3) + CountLevel(us, 4) == |us|
    ensures CountLevel(us, 0) + CountLevel(us, 1) + CountLevel(us, 2) + CountLevel(us, 3) + CountLevel(us, 4) <= |us|
  {
    if |us| > 0 {
      LevelCountsPartition(us[1..]);
      if LevelsInRange(us[1..]) && MinAuthLevel <= us[0].authLevel <= MaxAuthLevel {
        forall k | 0 <= k < |us|
          ensures MinAuthLevel <= us[k].authLevel <= MaxAuthLevel
        {
          if k > 0 {
            assert us[k] == us[1..][k - 1];
          }
        }
      } else if !LevelsInRange(us[1..]) {
        var k :| 0 <= k < |us[1..]| && !(MinAuthLevel <= us[1..][k].authLevel <= MaxAuthLevel);
        assert us[k + 1] == us[1..][k];
      }
    }
  }

  datatype AuthStats = AuthStats(totalUsers: nat, byAuthLevel: seq<nat>, lastCreated: Option<string>)

  /** `list_users`: the users at or above a level, in table order. */
  function AtLeast(us: seq<User>, minLevel: int): (r: seq<User>)
    ensures |r| <= |us|
    ensures forall k :: 0 <= k < |r| ==> r[k] in us && r[k].authLevel >= minLevel
    ensures forall k :: 0 <= k < |us| && us[k].authLevel >= minLevel ==> us[k] in r
  {
    if |us| == 0 then []
    else
      var rest := AtLeast(us[1..], minLevel);
      assert forall k :: 0 <= k < |us[1..]| ==> us[1..][k] == us[k + 1];
      if us[0].authLevel >= minLevel then [us[0]] + rest else rest
  }

  /**
   * The listing keeps table order: the users of a concatenation are those
   * of each part in turn, and a single user is listed exactly when their
   * level is high enough.
   */
  lemma {:induction false} AtLeastInOrder(a: seq<User>, b: seq<User>, minLevel: int)
    ensures AtLeast(a + b, minLevel) == AtLeast(a, minLevel) + AtLeast(b, minLevel)
    ensures forall u :: AtLeast([u], minLevel) == if u.authLevel >= minLevel then [u] else []
  {
    AtLeastConcat(a, b, minLevel);
    forall u ensures AtLeast([u], minLevel) == if u.authLevel >= minLevel then [u] else [] {
      assert [u][1..] == [];
    }
  }

  lemma {:induction false} AtLeastConcat(a: seq<User>, b: seq<User>, minLevel: int)
    ensures AtLeast(a + b, minLevel) == AtLeast(a, minLevel) + AtLeast(b, minLevel)
    decreases |a|
  {
    if |a| == 0 {
      assert a + b == b;
    } else {
      assert (a + b)[1..] == a[1..] + b;
      AtLeastConcat(a[1..], b, minLevel);
    }
  }

  function CreatedTimes(us: seq<User>): (r: seq<string>)
    ensures |r| == |us| && forall k :: 0 <= k < |us| ==> r[k] == us[k].createdAt
  {
    if |us| == 0 then [] else [us[0].createdAt] + CreatedTimes(us[1..])
  }

  // -------------------------------------------------------------- manager

  datatype Creation = Created(user: User) | UsernameTaken | BadAuthLevel

  /** The fields `update_user` may change; `None` is a field the caller did not pass. */
  datatype Updates = Updates(email: Option<Option<string>>, authLevel: Option<int>, password: Option<string>)

  /** What `update_user` does to a user. */
  function Updated(u: User, updates: Updates, hash: string -> string): (r: User)
    ensures r.id == u.id && r.username == u.username && r.createdAt == u.createdAt && r.lastLogin == u.lastLogin
    ensures r.email == (if updates.email.Some? then updates.email.value else u.email)
    ensures r.authLevel == (if updates.authLevel.Some? then updates.authLevel.value else u.authLevel)
    ensures r.passwordHash == (if updates.password.Some? then hash(updates.password.value) else u.passwordHash)
  {
    u.(email := if updates.email.Some? then updates.email.value else u.email,
       authLevel := if updates.authLevel.Some? then updates.authLevel.value else u.authLevel,
       passwordHash := if updates.password.Some? then hash(updates.password.value) else u.passwordHash)
  }

  class AuthManager {
    var users: ODict<string, User>

    predicate Valid()
      reads this
    {
      KeyedById(users) && UniqueNames(users)
    }

    constructor()
      ensures Valid() && users == Empty()
    {
      users := Empty();
    }

    /**
     * `create_user`: a taken name, then a level outside 0..4, is refused;
     * otherwise the user is stored under the fresh id with the password's hash.
     */
    method CreateUser(username: string, password: string, email: Option<string>, authLevel: int,
                      newId: string, now: string, hash: string -> string) returns (r: Creation)
      requires Valid()
      modifies this
      ensures Valid()
      ensures FindByName(old(users), username).Some? ==> r == UsernameTaken && users == old(users)
      ensures FindByName(old(users), username).None? && !(MinAuthLevel <= authLevel <= MaxAuthLevel) ==>
                r == BadAuthLevel && users == old(users)
      ensures FindByName(old(users), username).None? && MinAuthLevel <= authLevel <= MaxAuthLevel ==>
                r == Created(User(newId, username, hash(password), email, authLevel, now, None)) &&
                users == Put(old(users), newId, r.user)
    {
      if FindByName(users, username).Some? {
        return UsernameTaken;
      }
      if !(MinAuthLevel <= authLevel <= MaxAuthLevel) {
        return BadAuthLevel;
      }
      var user := User(newId, username, hash(password), email, authLevel, now, None);
      users := Put(users, newId, user);
      r := Created(user);
    }

    /** `authenticate`: an unknown name or a wrong password gives `None`; a match records the login time. */
    method Authenticate(username: string, password: string, now: string, check: (string, string) -> bool)
      returns (r: Option<User>)
      requires Valid()
      modifies this
      ensures Valid()
      ensures var found := FindByName(old(users), username);
        (found.None? || !check(password, found.value.passwordHash) ==> r.None? && users == old(users)) &&
        (found.Some? && check(password, found.value.passwordHash) ==>
           r == Some(found.value.(lastLogin := Some(now))) && users == Put(old(users), found.value.id, r.value))
    {
      var found := FindByName(users, username);
      if found.None? || !check(password, found.value.passwordHash) {
        return None;
      }
      var user := found.value.(lastLogin := Some(now));
      users := Put(users, user.id, user);
      r := Some(user);
    }

    function GetUserById(id: string): (r: Option<User>)
      reads this
      ensures r.Some? <==> id in users.m
      ensures r.Some? ==> r.value == users.m[id]
    {
      Get(users, id)
    }

    /** `update_user`: only the email and the level are assigned, and a new password is hashed. */
    method UpdateUser(id: string, updates: Updates, hash: string -> string) returns (r: Option<User>)
      requires Valid()
      modifies this
      ensures Valid()
      ensures id !in old(users.m) ==> r.None? && users == old(users)
      ensures id in old(users.m) ==>
                r == Some(Updated(old(users.m)[id], updates, hash)) && users == Put(old(users), id, r.value)
      ensures users.keys == old(users.keys)
    {
      if id !in users.m {
        return None;
      }
      var user := Updated(users.m[id], updates, hash);
      users := Put(users, id, user);
      r := Some(user);
    }

    /** `delete_user`: removes the user and says so exactly when the id is present. */
    method DeleteUser(id: string) returns (deleted: bool)
      requires Valid()
      modifies this
      ensures Valid()
      ensures deleted <==> id in old(users.m)
      ensures users.m == old(users.m) - {id}
      ensures users == Remove(old(users), id)
    {
      deleted := id in users.m;
      users := Remove(users, id);
    }

    /** `list_users`. */
    function ListUsers(minLevel: int): (r: seq<User>)
      reads this
      ensures forall k :: 0 <= k < |r| ==> r[k] in users.m.Values && r[k].authLevel >= minLevel
      ensures forall id :: id in users.m && users.m[id].authLevel >= minLevel ==> users.m[id] in r
      ensures r == AtLeast(Values(users), minLevel)
    {
      var us := Values(users);
      ValuesAreTable(users);
      AtLeast(us, minLevel)
    }

    /** `get_stats`. */
    function GetStats(): (s: AuthStats)
      reads this
      ensures s.totalUsers == |users.m|
      ensures |s.byAuthLevel| == MaxAuthLevel + 1
      ensures s.lastCreated.None? <==> |users.m| == 0
      ensures s.byAuthLevel == LevelCounts(Values(users))
      ensures s.lastCreated == MaxString(CreatedTimes(Values(users)))
      ensures s.lastCreated.Some? ==>
        (exists k :: 0 <= k < |Values(users)| && Values(users)[k].createdAt == s.lastCreated.value) &&
        forall k :: 0 <= k < |Values(users)| ==> !StrLess(s.lastCreated.value, Values(users)[k].createdAt)
    {
      LengthIsCardinality(users);
      MaxStringIsGreatest(CreatedTimes(Values(users)));
      AuthStats(|users.keys|, LevelCounts(Values(users)), MaxString(CreatedTimes(Values(users))))
    }
  }

  /** The values of the table in order are exactly its users. */
  lemma ValuesAreTable(users: ODict<string, User>)
    ensures forall u :: u in Values(users) <==> u in users.m.Values
  {
    var us := Values(users);
    forall u | u in users.m.Values
      ensures u in us
    {
      var id :| id in users.m && users.m[id] == u;
      InKeys(users, id);
      var i :| 0 <= i < |users.keys| && users.keys[i] == id;
      assert us[i] == u;
    }
    forall u | u in us
      ensures u in users.m.Values
    {
      var i :| 0 <= i < |us| && us[i] == u;
      assert users.keys[i] in users.m;
    }
  }
}
