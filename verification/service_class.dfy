/** Customer accounts: login, password reset, lookup by username, and profile update. */
module ServiceClass {
  import opened Wrappers
  import opened JavaText
  import opened Entities
  import opened Repositories

  /** `login`: the user with exactly that username and password, if there is one. */
  function Login(users: seq<User>, username: Text, password: Text): (r: Option<User>)
    ensures r.Some? ==> r.value in users && r.value.username == username && r.value.password == password
    ensures r.None? <==> forall u :: u in users ==> !(u.username == username && u.password == password)
  {
    UserByUsernameAndPassword(users, username, password)
  }

  /** In a table with unique usernames, the user a login finds is the user with that
      username: a login succeeds exactly when the password stored for the username matches. */
  lemma {:induction false} LoginMatchesStoredPassword(users: seq<User>, username: Text, password: Text)
    requires forall i, j :: 0 <= i < j < |users| ==> users[i].username != users[j].username
    ensures Login(users, username, password).Some? <==>
      UserByUsername(users, username).Some? && UserByUsername(users, username).value.password == password
    ensures Login(users, username, password).Some? ==> Login(users, username, password) == UserByUsername(users, username)
  {
    var byName := UserByUsername(users, username);
    var login := Login(users, username, password);
    if login.Some? {
      var k := UsernameIndex(users, username).value;
      var j :| 0 <= j < |users| && users[j] == login.value;
      assert j == k;
    } else if byName.Some? && byName.value.password == password {
      assert byName.value in users;
    }
  }

  const ResetDoneMessage := "Password reset successful!"

  function UnknownUsernameMessage(username: Text): string
  {
    "User not found with username: " + Show(username)
  }

  /** In a table whose ids increase, the row found by id `rows[k].id` is row `k`. */
  lemma UserIndexOfOwnId(repo: UserRepo, k: nat)
    requires repo.Valid() && k < |repo.rows|
    ensures UserIndex(repo.rows, repo.rows[k].id.value) == Some(k)
  {
  }

  /** `resetPassword`: for a known username only that user's password is overwritten; an
      unknown username changes nothing. The answer is a message either way. */
  method ResetPassword(userRepo: UserRepo, username: Text, newPassword: Text) returns (message: string)
    requires userRepo.Valid()
    modifies userRepo
    ensures userRepo.Valid() && userRepo.nextId == old(userRepo.nextId)
    ensures match UsernameIndex(old(userRepo.rows), username)
      case None => message == UnknownUsernameMessage(username) && userRepo.rows == old(userRepo.rows)
      case Some(k) =>
        && message == ResetDoneMessage
        && userRepo.rows == old(userRepo.rows)[k := old(userRepo.rows)[k].(password := newPassword)]
  {
    var k := UsernameIndex(userRepo.rows, username);
    if k.None? {
      return UnknownUsernameMessage(username);
    }
    var user := userRepo.rows[k.value];
    user := user.(password := newPassword);
    UserIndexOfOwnId(userRepo, k.value);
    var saved := userRepo.Save(user);
    assert saved.Success?;
    message := ResetDoneMessage;
  }

  /** A password reset followed by a login with the new password finds the user. */
  lemma {:induction false} ResetThenLogin(users: seq<User>, k: nat, newPassword: Text)
    requires forall i, j :: 0 <= i < j < |users| ==> users[i].username != users[j].username
    requires k < |users|
    ensures var after := users[k := users[k].(password := newPassword)];
            Login(after, users[k].username, newPassword) == Some(after[k])
  {
    var after := users[k := users[k].(password := newPassword)];
    assert forall i, j :: 0 <= i < j < |after| ==> after[i].username != after[j].username;
    LoginMatchesStoredPassword(after, users[k].username, newPassword);
    assert after[k].username == users[k].username;
  }

  const NullIdMessage := "The given id must not be null"

  function UnknownIdMessage(id: Option<int>): string
  {
    "User not found with id: " + (if id.Some? then IntToString(id.value) else "null")
  }

  /** `updateUser`: a user whose id is null or not stored is refused with no write;
      otherwise the record replaces the stored one, unless its username belongs to another
      user, which the unique constraint refuses. */
  method UpdateUser(userRepo: UserRepo, user: User) returns (r: Result<User, string>)
    requires userRepo.Valid()
    modifies userRepo
    ensures userRepo.Valid() && userRepo.nextId == old(userRepo.nextId)
    ensures user.id.None? ==> r == Failure(NullIdMessage) && userRepo.rows == old(userRepo.rows)
    ensures user.id.Some? ==> match UserIndex(old(userRepo.rows), user.id.value)
      case None => r == Failure(UnknownIdMessage(user.id)) && userRepo.rows == old(userRepo.rows)
      case Some(i) =>
        if old(userRepo.UsernameTaken(user.username, Some(i)))
        then r == Failure(DuplicateKeyMessage) && userRepo.rows == old(userRepo.rows)
        else r == Success(user) && userRepo.rows == old(userRepo.rows)[i := user]
    ensures r.Success? ==> UserByUsername(userRepo.rows, user.username) == Some(user)
  {
    if user.id.None? {
      return Failure(NullIdMessage);
    }
    var existing := UserIndex(userRepo.rows, user.id.value);
    if existing.None? {
      return Failure(UnknownIdMessage(user.id));
    }
    r := userRepo.Save(user);
    if r.Success? {
      var i := existing.value;
      var found := UsernameIndex(userRepo.rows, user.username);
      assert userRepo.rows[i] == user;
      assert found == Some(i);
    }
  }
}
