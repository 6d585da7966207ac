/** The authentication endpoints: logging in with a username and password,
    registering the first and only self-registered user, and marking a user's
    initial setup as done. Token signing is not part of this model, and a stored
    password stands for its bcrypt hash, so checking a password is equality. */
module AuthController {
  import opened Common
  import opened Text
  import opened Store

  /** `login`. A missing or empty username or password is refused before any
      lookup. The username is looked up under the collation, so its case does not
      matter. An unknown username and a wrong password fail alike. Otherwise the
      stored user's fields, without the password, are answered. Nothing changes. */
  method Login(db: Database, username: Option<string>, password: Option<string>) returns (r: Result<SessionUser>)
    requires db.Valid()
    ensures !TruthyText(username) || !TruthyText(password) ==>
      r == Fail(Failure(Invalid, "Username and password are required"))
    ensures TruthyText(username) && TruthyText(password) ==>
      && (r.Ok? <==> exists k :: k in db.users && SameText(db.users[k].username, username.value) && db.users[k].password == password.value)
      && (r.Fail? ==> r.failure == Failure(Unauthorized, "Invalid credentials"))
    ensures r.Ok? ==>
      && r.value.id in db.users
      && r.value == SessionOf(r.value.id, db.users[r.value.id])
      && SameText(r.value.username, username.value)
  {
    if !TruthyText(username) || !TruthyText(password) {
      return Fail(Failure(Invalid, "Username and password are required"));
    }
    var found := db.FindUserByName(username.value);
    if found.None? {
      return Fail(Failure(Unauthorized, "Invalid credentials"));
    }
    var user := db.users[found.value];
    if user.password != password.value {
      return Fail(Failure(Unauthorized, "Invalid credentials"));
    }
    r := Ok(SessionOf(found.value, user));
  }

  /** The message of a refused registration. */
  const AlreadyRegistered := "User already exists. Registration is only allowed for initial setup."

  /** `register`. While any user exists registration is forbidden, whatever the
      body. On an empty user table a body without username, password and name is
      refused; otherwise the one user is created as an admin who still has to
      complete the initial setup. */
  method Register(db: Database, username: Option<string>, password: Option<string>, name: Option<string>)
    returns (r: Result<SessionUser>)
    requires db.Valid()
    modifies db`users, db`nextUserId
    ensures db.Valid()
    ensures |old(db.users)| > 0 ==> r == Fail(Failure(Forbidden, AlreadyRegistered)) && unchanged(db)
    ensures |old(db.users)| == 0 && !(TruthyText(username) && TruthyText(password) && TruthyText(name)) ==>
      r == Fail(Failure(Invalid, "Username, password, and name are required")) && unchanged(db)
    ensures |old(db.users)| == 0 && TruthyText(username) && TruthyText(password) && TruthyText(name) ==>
      var user := User(username.value, password.value, name.value, Admin, true);
      && r == Ok(SessionOf(old(db.nextUserId), user))
      && db.users == map[old(db.nextUserId) := user]
  {
    if |db.users| > 0 {
      return Fail(Failure(Forbidden, AlreadyRegistered));
    }
    if !TruthyText(username) || !TruthyText(password) || !TruthyText(name) {
      return Fail(Failure(Invalid, "Username, password, and name are required"));
    }
    var user := User(username.value, password.value, name.value, Admin, true);
    var id := db.InsertUser(user);
    r := Ok(SessionOf(id, user));
  }

  /** The user after `user.isInitialSetup = false`. */
  function SetupCompleted(u: User): (v: User)
    ensures !v.isInitialSetup
    ensures v.username == u.username && v.password == u.password && v.name == u.name && v.role == u.role
  {
    u.(isInitialSetup := false)
  }

  /** Completing the setup a second time changes nothing more. */
  lemma SetupCompletedIdempotent(u: User)
    ensures SetupCompleted(SetupCompleted(u)) == SetupCompleted(u)
    ensures !u.isInitialSetup ==> SetupCompleted(u) == u
  {
  }

  /** `completeInitialSetup`. An unknown user is not found; otherwise the user's
      flag is cleared and every other column kept. */
  method CompleteInitialSetup(db: Database, userId: nat) returns (r: Result<()>)
    requires db.Valid()
    modifies db`users
    ensures db.Valid()
    ensures userId !in old(db.users) ==> r == Fail(Failure(NotFound, "User not found")) && unchanged(db)
    ensures userId in old(db.users) ==>
      r == Ok(()) && db.users == old(db.users)[userId := SetupCompleted(old(db.users)[userId])]
  {
    if userId !in db.users {
      return Fail(Failure(NotFound, "User not found"));
    }
    db.ReplaceUser(userId, SetupCompleted(db.users[userId]));
    r := Ok(());
  }
}
