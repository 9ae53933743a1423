/**
 * The authentication component: looking a user up by email, the duplicate
 * check of registration, and the two-stage credential check of login.
 */
module Accounts {
  import opened Wrappers
  import opened Store
  import opened Passwords
  import opened Models

  /**
   * Some user already has this username or this email: the single
   * "username equal OR email equal" query of registration finds a user exactly
   * when one of the two single-column queries would.
   */
  predicate Taken(users: map<nat, User>, username: string, email: string)
  {
    exists k :: k in users && (users[k].username == username || users[k].email == email)
  }

  /** The first key of `ids` whose user has this email. */
  function FirstWithEmail(ids: seq<nat>, users: map<nat, User>, email: string): (r: Option<nat>)
    requires forall i :: 0 <= i < |ids| ==> ids[i] in users
    ensures r.Some? ==> r.value in ids && users[r.value].email == email
    ensures r.Some? ==>
      exists i :: 0 <= i < |ids| && ids[i] == r.value && forall j :: 0 <= j < i ==> users[ids[j]].email != email
    ensures r.None? ==> forall i :: 0 <= i < |ids| ==> users[ids[i]].email != email
    ensures r.Some? && (forall i, j :: 0 <= i < j < |ids| ==> ids[i] < ids[j]) ==>
      forall i :: 0 <= i < |ids| && users[ids[i]].email == email ==> r.value <= ids[i]
  {
    if ids == [] then None
    else if users[ids[0]].email == email then Some(ids[0])
    else
      var r := FirstWithEmail(ids[1..], users, email);
      if r.Some? then
        var i :| 0 <= i < |ids| - 1 && ids[1..][i] == r.value && forall j :: 0 <= j < i ==> users[ids[1..][j]].email != email;
        assert ids[i + 1] == r.value && forall j :: 0 <= j < i + 1 ==> users[ids[j]].email != email;
        r
      else r
  }

  /** A full scan by ascending key that finds no user with the email: no user has it. */
  lemma ScanMissesOnlyAbsent(users: map<nat, User>, email: string)
    requires FirstWithEmail(IdsAscending(users.Keys), users, email).None?
    ensures forall k :: k in users ==> users[k].email != email
  {
    var ids := IdsAscending(users.Keys);
    forall k | k in users ensures users[k].email != email {
      var i :| 0 <= i < |ids| && ids[i] == k;
    }
  }

  /** A full scan by ascending key stops at the smallest key whose user has the email. */
  lemma ScanFindsSmallest(users: map<nat, User>, email: string)
    requires FirstWithEmail(IdsAscending(users.Keys), users, email).Some?
    ensures forall k :: k in users && users[k].email == email ==>
      FirstWithEmail(IdsAscending(users.Keys), users, email).value <= k
  {
    var ids := IdsAscending(users.Keys);
    forall k | k in users && users[k].email == email ensures FirstWithEmail(ids, users, email).value <= k {
      var i :| 0 <= i < |ids| && ids[i] == k;
    }
  }

  /** The user a lookup by email finds, if any. */
  function FindByEmail(users: map<nat, User>, email: string): (r: Option<nat>)
    ensures r.Some? ==> r.value in users && users[r.value].email == email
    ensures r.None? <==> forall k :: k in users ==> users[k].email != email
  {
    var r := FirstWithEmail(IdsAscending(users.Keys), users, email);
    if r.None? then ScanMissesOnlyAbsent(users, email); r
    else r
  }

  /** Of the users with the email, the lookup finds the one with the smallest key. */
  lemma FindByEmailFindsSmallest(users: map<nat, User>, email: string)
    requires FindByEmail(users, email).Some?
    ensures forall k :: k in users && users[k].email == email ==> FindByEmail(users, email).value <= k
  {
    ScanFindsSmallest(users, email);
  }

  /** The outcomes of a login attempt, each with its own message. */
  datatype LoginOutcome = UnknownEmail | WrongPassword | LoggedIn(id: nat)

  /** Look the email up; then check the password against the stored hash. */
  function Authenticate(kdf: Kdf, users: map<nat, User>, email: string, password: string): (r: LoginOutcome)
    ensures r.UnknownEmail? <==> forall k :: k in users ==> users[k].email != email
    ensures r.WrongPassword? ==>
      exists k :: k in users && users[k].email == email && !CheckPasswordHash(kdf, users[k].password, password)
    ensures r.LoggedIn? ==>
      r.id in users && users[r.id].email == email && CheckPasswordHash(kdf, users[r.id].password, password)
  {
    match FindByEmail(users, email)
    case None => UnknownEmail
    case Some(id) => if CheckPasswordHash(kdf, users[id].password, password) then LoggedIn(id) else WrongPassword
  }

  /** With unique emails, login succeeds for exactly the user with that email whose hash accepts the password. */
  lemma LoginSucceedsIff(kdf: Kdf, users: map<nat, User>, email: string, password: string, id: nat)
    requires UniqueAccounts(users)
    ensures Authenticate(kdf, users, email, password) == LoggedIn(id) <==>
      id in users && users[id].email == email && CheckPasswordHash(kdf, users[id].password, password)
  {
  }

  /** With unique emails, "wrong password" means the user exists and the hash rejects the password. */
  lemma WrongPasswordIff(kdf: Kdf, users: map<nat, User>, email: string, password: string)
    requires UniqueAccounts(users)
    ensures Authenticate(kdf, users, email, password) == WrongPassword <==>
      exists k :: k in users && users[k].email == email && !CheckPasswordHash(kdf, users[k].password, password)
  {
  }

  /** Adding a user whose username and email are both free keeps both columns unique. */
  lemma FreshAccountKeepsUnique(users: map<nat, User>, id: nat, user: User)
    requires UniqueAccounts(users)
    requires id !in users
    requires !Taken(users, user.username, user.email)
    ensures UniqueAccounts(users[id := user])
  {
    var users' := users[id := user];
    forall a, b | a in users' && b in users' && a != b
      ensures users'[a].username != users'[b].username && users'[a].email != users'[b].email
    {
      if a != id && b != id {
        assert users'[a] == users[a] && users'[b] == users[b];
      }
    }
  }

  /** The duplicate check of registration finds a user exactly when the login lookup finds the email or some user has the username. */
  lemma TakenIff(users: map<nat, User>, username: string, email: string)
    ensures Taken(users, username, email) <==>
      FindByEmail(users, email).Some? || exists k :: k in users && users[k].username == username
  {
    var found := FindByEmail(users, email);
    if found.Some? {
      assert users[found.value].email == email;
    }
  }

  /** A user who registers with a free username and email can then log in with the same password. */
  lemma RegisteredUserCanLogIn(kdf: Kdf, users: map<nat, User>, id: nat, username: string, email: string, password: string, salt: string)
    requires id !in users
    requires !Taken(users, username, email)
    ensures Authenticate(kdf, users[id := User(username, email, GeneratePasswordHash(kdf, password, salt))], email, password) == LoggedIn(id)
  {
    var user := User(username, email, GeneratePasswordHash(kdf, password, salt));
    var users' := users[id := user];
    assert forall k :: k in users' && users'[k].email == email ==> k == id;
    var found := FindByEmail(users', email);
    assert users'[id].email == email;
    assert found.Some?;
    assert found == Some(id);
  }

  /** With unique emails, the lookup by email finds every user under their own key. */
  lemma UniqueEmailsFindEveryUser(users: map<nat, User>, id: nat)
    requires UniqueAccounts(users)
    requires id in users
    ensures FindByEmail(users, users[id].email) == Some(id)
  {
    var r := FindByEmail(users, users[id].email);
    assert r.Some?;
    assert users[r.value].email == users[id].email;
  }
}
