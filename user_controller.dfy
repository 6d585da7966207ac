/** The profile endpoints of the signed-in user: reading the profile and changing
    the username, name or password. */
module UserController {
  import opened Common
  import opened Text
  import opened Store

  /** The `data` of a profile answer: id, username, name and role, no password. */
  datatype Profile = Profile(id: nat, username: string, name: string, role: Role)

  function ProfileOf(id: nat, u: User): (p: Profile)
    ensures p.id == id && p.username == u.username && p.name == u.name && p.role == u.role
  {
    Profile(id, u.username, u.name, u.role)
  }

  /** `getUser`: the profile of the user the request was authenticated as. */
  function GetUser(db: Database, userId: nat): (r: Result<Profile>)
    reads db
    ensures r.Ok? <==> userId in db.users
    ensures r.Ok? ==> r.value == ProfileOf(userId, db.users[userId])
    ensures r.Fail? ==> r.failure == Failure(NotFound, "User not found")
  {
    if userId in db.users then Ok(ProfileOf(userId, db.users[userId]))
    else Fail(Failure(NotFound, "User not found"))
  }

  /** The body `{ username, name, password }`; any other field is ignored. */
  datatype UserPatch = UserPatch(username: Option<string>, name: Option<string>, password: Option<string>)

  /** The user after `if (x) user.x = x` for the three fields: a missing or empty
      value keeps the stored one. */
  function Patched(u: User, p: UserPatch): (v: User)
    ensures v.role == u.role && v.isInitialSetup == u.isInitialSetup
    ensures v.username == (if TruthyText(p.username) then p.username.value else u.username)
    ensures v.name == (if TruthyText(p.name) then p.name.value else u.name)
    ensures v.password == (if TruthyText(p.password) then p.password.value else u.password)
  {
    u.(username := if TruthyText(p.username) then p.username.value else u.username,
       name := if TruthyText(p.name) then p.name.value else u.name,
       password := if TruthyText(p.password) then p.password.value else u.password)
  }

  /** Sending the same body twice is sending it once. */
  lemma PatchedIdempotent(u: User, p: UserPatch)
    ensures Patched(Patched(u, p), p) == Patched(u, p)
  {
  }

  /** A username another user already has, up to the collation's case folding. */
  predicate TakenByOther(users: map<nat, User>, id: nat, username: string) {
    exists k :: k in users && k != id && SameText(users[k].username, username)
  }

  /** `updateUser`. An unknown user is not found and nothing changes. A username
      another user holds breaks the unique constraint on save, and nothing changes.
      Otherwise the patched user is stored and its profile answered. */
  method UpdateUser(db: Database, userId: nat, p: UserPatch) returns (r: Result<Profile>)
    requires db.Valid()
    modifies db`users
    ensures db.Valid()
    ensures userId !in old(db.users) ==> r == Fail(Failure(NotFound, "User not found")) && unchanged(db)
    ensures userId in old(db.users) && TakenByOther(old(db.users), userId, Patched(old(db.users)[userId], p).username) ==>
      r == Fail(Failure(Invalid, "Username already exists")) && unchanged(db)
    ensures userId in old(db.users) && !TakenByOther(old(db.users), userId, Patched(old(db.users)[userId], p).username) ==>
      var v := Patched(old(db.users)[userId], p);
      r == Ok(ProfileOf(userId, v)) && db.users == old(db.users)[userId := v]
  {
    if userId !in db.users {
      return Fail(Failure(NotFound, "User not found"));
    }
    var user := Patched(db.users[userId], p);
    if TakenByOther(db.users, userId, user.username) {
      return Fail(Failure(Invalid, "Username already exists"));
    }
    db.ReplaceUser(userId, user);
    r := Ok(ProfileOf(userId, user));
  }

  /** Renaming a user to another user's username in capitals breaks the unique
      index, which ignores case: "ADMIN" is taken while "admin" exists. */
  lemma CapitalizedRenameTaken(users: map<nat, User>, id: nat, other: nat, username: string)
    requires other in users && other != id && users[other].username == "admin"
    requires username == "ADMIN"
    ensures TakenByOther(users, id, username)
  {
    assert FoldCase(username) == "admin";
    assert FoldCase(users[other].username) == "admin";
  }

  /** A body that leaves the username alone can never break the unique constraint. */
  lemma KeptUsernameNeverClashes(db: Database, userId: nat, p: UserPatch)
    requires db.Valid() && userId in db.users && !TruthyText(p.username)
    ensures !TakenByOther(db.users, userId, Patched(db.users[userId], p).username)
  {
  }

  /** The profile-completion page ends by sending `{ isInitialSetup: false }` to
      this endpoint, which reads only username, name and password: the body
      patches nothing, and the flag stays as it was. */
  lemma SetupFlagIgnored(u: User)
    ensures Patched(u, UserPatch(None, None, None)) == u
    ensures u.isInitialSetup ==> Patched(u, UserPatch(None, None, None)).isInitialSetup
  {
  }
}
