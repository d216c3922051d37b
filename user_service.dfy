/**
 * The user table (Components/Services/UserService.cs): login matching,
 * adding, updating and deleting users, and USERnnn identifiers. Usernames
 * are compared ignoring case; identifiers and passwords exactly.
 */
module UserStore {
  import opened Common
  import opened Users

  const UserPrefix: string := "USER"

  // ---------------------------------------------------------------------
  // Identifiers
  // ---------------------------------------------------------------------

  function UserIds(users: seq<User>): (r: seq<string>)
    ensures |r| == |users| && forall k :: 0 <= k < |users| ==> r[k] == users[k].userId
  {
    seq(|users|, k requires 0 <= k < |users| => users[k].userId)
  }

  /**
   * `GenerateNextUserId` as written: only identifiers of exactly seven
   * characters take part, so USER1000 and later are never seen.
   */
  function UserNumberAsWritten(id: string): (r: Option<int>)
    ensures r.Some? <==> StartsWith(id, UserPrefix) && |id| == 7
    ensures r.Some? ==> InInt32(r.value)
  {
    if StartsWith(id, UserPrefix) && |id| == 7 then Some(ParseInt32(id[|UserPrefix|..]).GetOr(0)) else None
  }

  /** The numbers `GenerateNextUserId` collects, in table order. */
  function UserNumbersAsWritten(users: seq<User>): (r: seq<int>)
    ensures forall i :: 0 <= i < |r| ==> InInt32(r[i])
    ensures forall k :: 0 <= k < |users| && UserNumberAsWritten(users[k].userId).Some? ==>
      UserNumberAsWritten(users[k].userId).value in r
  {
    if users == [] then []
    else
      var n := |users| - 1;
      var init := UserNumbersAsWritten(users[..n]);
      assert forall k :: 0 <= k < n ==> users[..n][k] == users[k];
      match UserNumberAsWritten(users[n].userId)
      case None => init
      case Some(v) => init + [v]
  }

  /**
   * Nothing but the numbers of Ids passing the seven-character filter is
   * collected: each element is the number of one of them, and the list is
   * empty exactly when none passes.
   */
  lemma {:induction false} UserNumbersAsWrittenSound(users: seq<User>)
    ensures forall i :: 0 <= i < |UserNumbersAsWritten(users)| ==>
      exists k :: 0 <= k < |users| && UserNumberAsWritten(users[k].userId) == Some(UserNumbersAsWritten(users)[i])
    ensures UserNumbersAsWritten(users) == [] <==>
      forall k :: 0 <= k < |users| ==> UserNumberAsWritten(users[k].userId).None?
  {
    if users != [] {
      var n := |users| - 1;
      var init := UserNumbersAsWritten(users[..n]);
      UserNumbersAsWrittenSound(users[..n]);
      assert forall k :: 0 <= k < n ==> users[..n][k] == users[k];
      var r := UserNumbersAsWritten(users);
      var last := match UserNumberAsWritten(users[n].userId) case None => [] case Some(v) => [v];
      assert r == init + last;
      forall i | 0 <= i < |r|
        ensures exists k :: 0 <= k < |users| && UserNumberAsWritten(users[k].userId) == Some(r[i])
      {
        if i < |init| {
          assert r[i] == init[i];
          var k :| 0 <= k < n && UserNumberAsWritten(users[..n][k].userId) == Some(init[i]);
          assert UserNumberAsWritten(users[k].userId) == Some(r[i]);
        } else {
          assert r[i] == last[0];
          assert UserNumberAsWritten(users[n].userId) == Some(r[i]);
        }
      }
    } else {
      assert UserNumbersAsWritten(users) == [];
    }
  }

  /** `maxId` in `GenerateNextUserId`. */
  function MaxUserNumberAsWritten(users: seq<User>): (r: int)
    ensures InInt32(r)
    ensures forall k :: 0 <= k < |users| && UserNumberAsWritten(users[k].userId).Some? ==>
      UserNumberAsWritten(users[k].userId).value <= r
  {
    var ns := UserNumbersAsWritten(users);
    var m := MaxOrDefault(ns, 0);
    assert ns != [] ==> InInt32(m);
    m
  }

  /**
   * `maxId` is 0 when no Id passes the filter; otherwise it is the number
   * of one that does, and no such number exceeds it.
   */
  lemma MaxUserNumberAsWrittenSpec(users: seq<User>)
    ensures (forall k :: 0 <= k < |users| ==> UserNumberAsWritten(users[k].userId).None?) ==>
      MaxUserNumberAsWritten(users) == 0
    ensures (exists k :: 0 <= k < |users| && UserNumberAsWritten(users[k].userId).Some?) ==>
      exists k :: 0 <= k < |users| && UserNumberAsWritten(users[k].userId) == Some(MaxUserNumberAsWritten(users))
  {
    var ns := UserNumbersAsWritten(users);
    UserNumbersAsWrittenSound(users);
    if ns != [] {
      var i :| 0 <= i < |ns| && ns[i] == MaxUserNumberAsWritten(users);
      var k :| 0 <= k < |users| && UserNumberAsWritten(users[k].userId) == Some(ns[i]);
    }
  }

  /**
   * `GenerateNextUserId` as written: USER001 for an empty table, otherwise
   * USER followed by one past `maxId` in D3 format.
   */
  function NextUserIdAsWritten(users: seq<User>): string {
    if users == [] then "USER001"
    else UserPrefix + FormatD(Inc32(MaxUserNumberAsWritten(users)), 3)
  }

  /**
   * What the generator as written promises for every table: USER001 when
   * the table is empty or no Id passes the filter; otherwise a USER Id
   * whose number is one past the largest seven-character one.
   */
  lemma NextUserIdAsWrittenSpec(users: seq<User>)
    ensures (forall k :: 0 <= k < |users| ==> UserNumberAsWritten(users[k].userId).None?) ==>
      NextUserIdAsWritten(users) == "USER001"
    ensures StartsWith(NextUserIdAsWritten(users), UserPrefix)
    ensures users != [] ==>
      ParseInt32(NextUserIdAsWritten(users)[|UserPrefix|..]) == Some(Inc32(MaxUserNumberAsWritten(users)))
  {
    MaxUserNumberAsWrittenSpec(users);
    PrefixedNumberParses(UserPrefix, Inc32(MaxUserNumberAsWritten(users)), 3);
    FormatOne();
  }

  /** A user whose Id does not pass the seven-character filter never changes the next Id. */
  lemma AsWrittenIgnoresUnfiltered(users: seq<User>, u: User)
    requires UserNumberAsWritten(u.userId).None?
    ensures NextUserIdAsWritten(users + [u]) == NextUserIdAsWritten(users)
  {
    var t := users + [u];
    assert t[..|users|] == users;
    assert UserNumbersAsWritten(t) == UserNumbersAsWritten(users);
    FormatOne();
  }

  lemma NatDigitsShort(n: nat)
    requires n < 1000
    ensures |NatDigits(n)| <= 3
  {
    if n >= 10 {
      assert |NatDigits(n / 10)| <= 2 by {
        if n / 10 >= 10 {
          assert n / 100 < 10;
          assert NatDigits(n / 10) == NatDigits(n / 100) + [DigitChar(n / 10 % 10)];
        }
      }
    }
  }

  /**
   * Below USER999 the generator as written is sound: the next Id has seven
   * characters, so it would pass the filter, and it is one past the
   * largest such number, so no user has it.
   */
  lemma NextUserIdAsWrittenFresh(users: seq<User>)
    requires 0 <= MaxUserNumberAsWritten(users) < 999
    ensures |NextUserIdAsWritten(users)| == 7
    ensures forall k :: 0 <= k < |users| ==> users[k].userId != NextUserIdAsWritten(users)
  {
    var n := MaxUserNumberAsWritten(users) + 1;
    var next := NextUserIdAsWritten(users);
    if users == [] {
      assert next == "USER001";
    } else {
      assert |FormatD(n, 3)| == 3 by {
        NatDigitsShort(n);
      }
      assert next == UserPrefix + FormatD(n, 3);
      PrefixedNumberParses(UserPrefix, n, 3);
      assert UserNumberAsWritten(next) == Some(n);
      forall k | 0 <= k < |users| ensures users[k].userId != next {
        var id := users[k].userId;
        assert id == next ==> UserNumberAsWritten(id) == Some(n);
      }
    }
  }

  /**
   * Once the largest seven-character number is 999, the generator as
   * written hands out USER1000, and after a user with that Id is added it
   * hands out USER1000 again: the seven-character filter skips the Id it
   * has just produced.
   */
  lemma AsWrittenRepeatsUserId(users: seq<User>, u: User)
    requires MaxUserNumberAsWritten(users) == 999
    requires u.userId == NextUserIdAsWritten(users)
    ensures NextUserIdAsWritten(users) == "USER1000"
    ensures NextUserIdAsWritten(users + [u]) == "USER1000"
  {
    assert users != [] by {
      MaxUserNumberAsWrittenSpec(users);
    }
    Format1000();
    assert NextUserIdAsWritten(users) == "USER1000";
    assert |u.userId| == 8;
    AsWrittenIgnoresUnfiltered(users, u);
  }

  /** A table whose only user is USER999 has 999 as its largest seven-character number. */
  lemma SingleUser999(u: User)
    requires u.userId == "USER999"
    ensures MaxUserNumberAsWritten([u]) == 999
  {
    User999Number();
    UserNumbersSnoc([], u);
    assert [] + [u] == [u];
    assert UserNumbersAsWritten([u]) == [999];
  }

  /** The numbers of a table with one more user at the end. */
  lemma UserNumbersSnoc(users: seq<User>, u: User)
    ensures UserNumbersAsWritten(users + [u]) ==
      UserNumbersAsWritten(users) + match UserNumberAsWritten(u.userId) case None => [] case Some(v) => [v]
  {
    assert (users + [u])[..|users|] == users;
  }

  lemma User999Number()
    ensures UserNumberAsWritten("USER999") == Some(999)
    ensures UserNumberAsWritten("USER1000") == None
  {
    assert NatDigits(999) == "999";
    assert FormatD(999, 3) == "999";
    PrefixedNumberParses(UserPrefix, 999, 3);
    assert "USER999"[4..] == FormatD(999, 3);
  }

  lemma Format1000()
    ensures FormatD(1000, 3) == "1000"
    ensures UserPrefix + FormatD(Inc32(999), 3) == "USER1000"
  {
    assert NatDigits(1000) == "1000";
  }

  /**
   * The corrected generator: every USER-prefixed identifier takes part,
   * whatever its length, as for record identifiers.
   */
  function NextUserId(users: seq<User>): string {
    NextPrefixedId(UserIds(users), UserPrefix)
  }

  function MaxUserNumber(users: seq<User>): int {
    MaxPrefixedNumber(UserIds(users), UserPrefix)
  }

  /** The corrected identifier is never one already in the table (short of 32-bit wrap-around). */
  lemma NextUserIdFresh(users: seq<User>)
    requires MaxUserNumber(users) < Int32Max
    ensures forall k :: 0 <= k < |users| ==> users[k].userId != NextUserId(users)
    ensures users == [] ==> NextUserId(users) == "USER001"
  {
    NextPrefixedIdFresh(UserIds(users), UserPrefix);
  }

  // ---------------------------------------------------------------------
  // Table invariants
  // ---------------------------------------------------------------------

  predicate UsernameTaken(users: seq<User>, username: string) {
    exists k :: 0 <= k < |users| && EqualsIgnoreCase(users[k].username, username)
  }

  ghost predicate UniqueUsernames(users: seq<User>) {
    forall i, j :: 0 <= i < j < |users| ==> !EqualsIgnoreCase(users[i].username, users[j].username)
  }

  ghost predicate UniqueUserIds(users: seq<User>) {
    forall i, j :: 0 <= i < j < |users| ==> users[i].userId != users[j].userId
  }

  function AdminCount(users: seq<User>): nat {
    if users == [] then 0
    else AdminCount(users[..|users| - 1]) + (if users[|users| - 1].role == Admin then 1 else 0)
  }

  lemma {:induction false} AdminCountConcat(a: seq<User>, b: seq<User>)
    ensures AdminCount(a + b) == AdminCount(a) + AdminCount(b)
    decreases |b|
  {
    if b == [] {
      assert a + b == a;
    } else {
      assert (a + b)[..|a + b| - 1] == a + b[..|b| - 1];
      AdminCountConcat(a, b[..|b| - 1]);
    }
  }

  datatype UserChange = UserChange(ok: bool, users: seq<User>)

  function UserIndex(users: seq<User>, userId: string): (r: Option<nat>)
    ensures r.Some? ==> r.value < |users| && users[r.value].userId == userId
    ensures r.Some? ==> forall j :: 0 <= j < r.value ==> users[j].userId != userId
    ensures r.None? <==> forall k :: 0 <= k < |users| ==> users[k].userId != userId
  {
    FindFirst(users, (u: User) => u.userId == userId)
  }

  // ---------------------------------------------------------------------
  // Login
  // ---------------------------------------------------------------------

  predicate LoginMatches(u: User, username: string, password: string) {
    EqualsIgnoreCase(u.username, username) && u.password == password && u.isActive
  }

  datatype LoginResult = LoginResult(user: Option<User>, users: seq<User>)

  /** `ValidateLoginAsync`: the first active user with that name and password, stamped with the login time. */
  function LoginOutcome(users: seq<User>, username: string, password: string, now: int): LoginResult {
    match FindFirst(users, (u: User) => LoginMatches(u, username, password))
    case None => LoginResult(None, users)
    case Some(k) =>
      var u := users[k].(lastLoginDate := Some(now));
      LoginResult(Some(u), users[k := u])
  }

  /**
   * A login succeeds exactly when some active user has that name (ignoring
   * case) and exactly that password; the user returned is the first such
   * one, and its last login is the only thing that changes.
   */
  lemma LoginSpec(users: seq<User>, username: string, password: string, now: int)
    ensures var o := LoginOutcome(users, username, password, now);
      (o.user.Some? <==> exists k :: 0 <= k < |users| && LoginMatches(users[k], username, password))
      && (o.user.None? ==> o.users == users)
    ensures var o := LoginOutcome(users, username, password, now);
      o.user.Some? ==> (exists k :: (0 <= k < |users|
        && LoginMatches(users[k], username, password)
        && (forall j :: 0 <= j < k ==> !LoginMatches(users[j], username, password))
        && o.user.value == users[k].(lastLoginDate := Some(now))
        && o.users == users[k := o.user.value]))
  {
    var p := (u: User) => LoginMatches(u, username, password);
    var f := FindFirst(users, p);
    if f.Some? {
      var k := f.value;
      assert p(users[k]);
      assert forall j :: 0 <= j < k ==> !p(users[j]);
    } else {
      assert forall j :: 0 <= j < |users| ==> !p(users[j]);
    }
  }

  // ---------------------------------------------------------------------
  // Add, update, delete
  // ---------------------------------------------------------------------

  /** The stamping in `AddUserAsync`: the given Id, both dates `now`, the caller as modifier. */
  function AddedUser(newUser: User, userId: string, currentUsername: string, now: int): User {
    newUser.(userId := userId, createdDate := now, lastModifiedDate := now, lastModifiedBy := currentUsername)
  }

  /** `AddUserAsync` with the Id it assigns given: refused on a taken name, else appended. */
  function AddWithId(users: seq<User>, newUser: User, userId: string, currentUsername: string, now: int): UserChange {
    if UsernameTaken(users, newUser.username) then UserChange(false, users)
    else UserChange(true, users + [AddedUser(newUser, userId, currentUsername, now)])
  }

  /** `AddUserAsync` as written, with the Id from `GenerateNextUserId`. */
  function AddOutcome(users: seq<User>, newUser: User, currentUsername: string, now: int): UserChange {
    AddWithId(users, newUser, NextUserIdAsWritten(users), currentUsername, now)
  }

  /** `AddUserAsync` with the corrected generator, under which every USER Id takes part. */
  function CorrectedAddOutcome(users: seq<User>, newUser: User, currentUsername: string, now: int): UserChange {
    AddWithId(users, newUser, NextUserId(users), currentUsername, now)
  }

  /**
   * Adding refuses a name already taken in any case and changes nothing;
   * otherwise it appends the user under the given Id, stamped by the
   * caller. Usernames stay unique ignoring case, and Ids stay unique when
   * the given Id is new.
   */
  lemma AddWithIdSpec(users: seq<User>, newUser: User, userId: string, currentUsername: string, now: int)
    ensures var o := AddWithId(users, newUser, userId, currentUsername, now);
      (o.ok <==> forall k :: 0 <= k < |users| ==> !EqualsIgnoreCase(users[k].username, newUser.username))
      && (!o.ok ==> o.users == users)
      && (o.ok ==> (|o.users| == |users| + 1 && o.users[..|users|] == users
          && o.users[|users|] == newUser.(userId := userId, createdDate := now, lastModifiedDate := now,
                                          lastModifiedBy := currentUsername)))
      && (UniqueUsernames(users) ==> UniqueUsernames(o.users))
      && (UniqueUserIds(users) && (forall k :: 0 <= k < |users| ==> users[k].userId != userId) ==>
          UniqueUserIds(o.users))
  {
    var o := AddWithId(users, newUser, userId, currentUsername, now);
    if o.ok {
      assert o.users[..|users|] == users;
      if UniqueUsernames(users) {
        forall i, j | 0 <= i < j < |o.users|
          ensures !EqualsIgnoreCase(o.users[i].username, o.users[j].username)
        {
          if j == |users| {
            EqualsIgnoreCaseIsEquivalence(o.users[i].username, newUser.username, newUser.username);
          }
        }
      }
    }
  }

  /**
   * `AddUserAsync` as written: refused without change iff the name is
   * taken in any case; otherwise one user is appended under
   * `GenerateNextUserId`'s Id. Names stay unique; Ids stay unique while
   * the largest seven-character number is below 999.
   */
  lemma AddSpec(users: seq<User>, newUser: User, currentUsername: string, now: int)
    ensures var o := AddOutcome(users, newUser, currentUsername, now);
      (o.ok <==> forall k :: 0 <= k < |users| ==> !EqualsIgnoreCase(users[k].username, newUser.username))
      && (!o.ok ==> o.users == users)
      && (o.ok ==> (|o.users| == |users| + 1 && o.users[..|users|] == users
          && o.users[|users|].userId == NextUserIdAsWritten(users)
          && o.users[|users|].lastModifiedBy == currentUsername
          && o.users[|users|].username == newUser.username))
      && (UniqueUsernames(users) ==> UniqueUsernames(o.users))
      && (UniqueUserIds(users) && 0 <= MaxUserNumberAsWritten(users) < 999 ==> UniqueUserIds(o.users))
  {
    AddWithIdSpec(users, newUser, NextUserIdAsWritten(users), currentUsername, now);
    if 0 <= MaxUserNumberAsWritten(users) < 999 {
      NextUserIdAsWrittenFresh(users);
    }
  }

  /**
   * `AddUserAsync` as written breaks Id uniqueness: on a table that holds
   * USER1000 and whose largest seven-character number is 999 (USER999 and
   * USER1000, say), adding a user under a new name appends a second
   * USER1000.
   */
  lemma AsWrittenAddRepeatsUserId(users: seq<User>, newUser: User, currentUsername: string, now: int)
    requires MaxUserNumberAsWritten(users) == 999
    requires exists k :: 0 <= k < |users| && users[k].userId == "USER1000"
    requires !UsernameTaken(users, newUser.username)
    ensures var o := AddOutcome(users, newUser, currentUsername, now);
      o.ok && o.users[|users|].userId == "USER1000" && !UniqueUserIds(o.users)
  {
    assert users != [] by {
      MaxUserNumberAsWrittenSpec(users);
    }
    Format1000();
    assert NextUserIdAsWritten(users) == "USER1000";
    AddWithIdSpec(users, newUser, NextUserIdAsWritten(users), currentUsername, now);
    var o := AddOutcome(users, newUser, currentUsername, now);
    var k :| 0 <= k < |users| && users[k].userId == "USER1000";
    assert o.users[k] == users[k];
    assert o.users[k].userId == o.users[|users|].userId;
  }

  /**
   * With the corrected generator the same add keeps Ids unique for every
   * table short of 32-bit wrap-around.
   */
  lemma CorrectedAddSpec(users: seq<User>, newUser: User, currentUsername: string, now: int)
    ensures var o := CorrectedAddOutcome(users, newUser, currentUsername, now);
      (o.ok <==> AddOutcome(users, newUser, currentUsername, now).ok)
      && (o.ok ==> o.users[..|users|] == users && o.users[|users|].userId == NextUserId(users))
      && (UniqueUserIds(users) && MaxUserNumber(users) < Int32Max ==> UniqueUserIds(o.users))
  {
    AddWithIdSpec(users, newUser, NextUserId(users), currentUsername, now);
    if MaxUserNumber(users) < Int32Max {
      NextUserIdFresh(users);
    }
  }

  function UpdatedUser(existing: User, updated: User, currentUsername: string, now: int): User {
    existing.(username := updated.username, password := updated.password, fullName := updated.fullName,
              role := updated.role, isActive := updated.isActive, lastModifiedDate := now,
              lastModifiedBy := currentUsername)
  }

  /** Another user (by Id) already has the name. */
  predicate NameClash(users: seq<User>, updated: User) {
    exists j :: 0 <= j < |users| && users[j].userId != updated.userId
      && EqualsIgnoreCase(users[j].username, updated.username)
  }

  function UpdateOutcome(users: seq<User>, updated: User, currentUsername: string, now: int): UserChange {
    match UserIndex(users, updated.userId)
    case None => UserChange(false, users)
    case Some(k) =>
      if NameClash(users, updated) then UserChange(false, users)
      else UserChange(true, users[k := UpdatedUser(users[k], updated, currentUsername, now)])
  }

  /**
   * Updating fails, changing nothing, when the Id is unknown or the new
   * name is taken by another user; otherwise only the first user with that
   * Id changes, keeping its Id, creation date and last login. On a table
   * with unique Ids and names, names stay unique.
   */
  lemma UpdateSpec(users: seq<User>, updated: User, currentUsername: string, now: int)
    ensures var o := UpdateOutcome(users, updated, currentUsername, now);
      (o.ok <==> (exists k :: 0 <= k < |users| && users[k].userId == updated.userId) && !NameClash(users, updated))
      && (!o.ok ==> o.users == users)
      && |o.users| == |users|
    ensures var o := UpdateOutcome(users, updated, currentUsername, now);
      o.ok ==> (
        var k := UserIndex(users, updated.userId).value;
        (forall j :: 0 <= j < |users| && j != k ==> o.users[j] == users[j])
        && o.users[k] == UpdatedUser(users[k], updated, currentUsername, now)
        && o.users[k].userId == users[k].userId && o.users[k].createdDate == users[k].createdDate
        && o.users[k].lastLoginDate == users[k].lastLoginDate)
    ensures var o := UpdateOutcome(users, updated, currentUsername, now);
      UniqueUsernames(users) && UniqueUserIds(users) ==> UniqueUsernames(o.users) && UniqueUserIds(o.users)
  {
    var o := UpdateOutcome(users, updated, currentUsername, now);
    if o.ok {
      var k := UserIndex(users, updated.userId).value;
      if UniqueUsernames(users) && UniqueUserIds(users) {
        forall i, j | 0 <= i < j < |o.users|
          ensures !EqualsIgnoreCase(o.users[i].username, o.users[j].username)
        {
          if i == k {
            assert users[j].userId != updated.userId;
            EqualsIgnoreCaseIsEquivalence(users[j].username, updated.username, updated.username);
          } else if j == k {
            assert users[i].userId != updated.userId;
          }
        }
      }
    }
  }

  function DeleteOutcome(users: seq<User>, userId: string): UserChange {
    match UserIndex(users, userId)
    case None => UserChange(false, users)
    case Some(k) =>
      if users[k].role == Admin && AdminCount(users) <= 1 then UserChange(false, users)
      else UserChange(true, users[..k] + users[k + 1..])
  }

  /**
   * Deleting fails, changing nothing, when the Id is unknown or the user is
   * the only Admin; otherwise exactly the first user with that Id goes. A
   * table with an Admin keeps one.
   */
  lemma DeleteSpec(users: seq<User>, userId: string)
    ensures var o := DeleteOutcome(users, userId);
      (!o.ok ==> o.users == users)
      && (o.ok <==> (UserIndex(users, userId).Some?
          && !(users[UserIndex(users, userId).value].role == Admin && AdminCount(users) <= 1)))
      && (o.ok ==> (
          var k := UserIndex(users, userId).value;
          |o.users| == |users| - 1 && o.users == users[..k] + users[k + 1..]))
      && (AdminCount(users) >= 1 ==> AdminCount(o.users) >= 1)
  {
    var i := UserIndex(users, userId);
    if i.Some? {
      var k := i.value;
      assert users == users[..k] + [users[k]] + users[k + 1..];
      AdminCountConcat(users[..k] + [users[k]], users[k + 1..]);
      AdminCountConcat(users[..k], [users[k]]);
      AdminCountConcat(users[..k], users[k + 1..]);
      assert AdminCount([users[k]]) == if users[k].role == Admin then 1 else 0 by {
        assert [users[k]][..0] == [];
      }
    }
  }

  // ---------------------------------------------------------------------
  // The service
  // ---------------------------------------------------------------------

  class UserService {
    var users: seq<User>

    constructor (users: seq<User>)
      ensures this.users == users
    {
      this.users := users;
    }

    function GetUserById(userId: string): (r: Option<User>)
      reads this
      ensures r.Some? ==> r.value in users && r.value.userId == userId
      ensures r.None? <==> forall k :: 0 <= k < |users| ==> users[k].userId != userId
    {
      match UserIndex(users, userId)
      case None => None
      case Some(k) => Some(users[k])
    }

    method ValidateLogin(username: string, password: string, now: int) returns (user: Option<User>)
      modifies this
      ensures LoginResult(user, users) == LoginOutcome(old(users), username, password, now)
    {
      var index := FindFirst(users, (u: User) => LoginMatches(u, username, password));
      if index.None? {
        return None;
      }
      var u := users[index.value];
      u := u.(lastLoginDate := Some(now));
      users := users[index.value := u];
      return Some(u);
    }

    method AddUser(newUser: User, currentUsername: string, now: int) returns (ok: bool)
      modifies this
      ensures UserChange(ok, users) == AddOutcome(old(users), newUser, currentUsername, now)
    {
      if UsernameTaken(users, newUser.username) {
        return false;
      }
      var u := newUser.(userId := NextUserIdAsWritten(users));
      u := u.(createdDate := now);
      u := u.(lastModifiedDate := now);
      u := u.(lastModifiedBy := currentUsername);
      users := users + [u];
      return true;
    }

    method UpdateUser(updated: User, currentUsername: string, now: int) returns (ok: bool)
      modifies this
      ensures UserChange(ok, users) == UpdateOutcome(old(users), updated, currentUsername, now)
    {
      var index := UserIndex(users, updated.userId);
      if index.None? {
        return false;
      }
      if NameClash(users, updated) {
        return false;
      }
      var existing := users[index.value];
      existing := existing.(username := updated.username);
      existing := existing.(password := updated.password);
      existing := existing.(fullName := updated.fullName);
      existing := existing.(role := updated.role);
      existing := existing.(isActive := updated.isActive);
      existing := existing.(lastModifiedDate := now);
      existing := existing.(lastModifiedBy := currentUsername);
      users := users[index.value := existing];
      return true;
    }

    method DeleteUser(userId: string) returns (ok: bool)
      modifies this
      ensures UserChange(ok, users) == DeleteOutcome(old(users), userId)
    {
      var index := UserIndex(users, userId);
      if index.None? {
        return false;
      }
      var k := index.value;
      if users[k].role == Admin && AdminCount(users) <= 1 {
        return false;
      }
      users := users[..k] + users[k + 1..];
      return true;
    }
  }
}
