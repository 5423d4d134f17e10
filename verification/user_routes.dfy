/**
 * Registration, login and administrator registration over the users
 * collection. `jwt.sign` is represented by the claims it signs, `bcrypt.hash`
 * and `bcrypt.compare` are parameters. The register route hands the password to
 * the user model as received; whatever that model does with it is not part of
 * this model.
 */
module UserRoutes {
  import opened Base
  import opened UserRecord
  import opened Store

  const EmailExistsMessage := "Email đã tồn tại"
  const UnknownEmailMessage := "Email không tồn tại"
  const WrongPasswordMessage := "Mật khẩu không đúng"
  const WrongAdminPassMessage := "Sai mật khẩu admin bí mật"
  const TokenLifetime := "7d"

  /** What `jwt.sign({ id }, secret, { expiresIn })` signs. */
  datatype Token = Token(id: Id, expiresIn: string)

  /** The success body: a token and the user without the password. */
  datatype Session = Session(token: Token, user: PublicUser)

  /** The token and body every successful route answers with. */
  function Issue(u: User): (s: Session)
    ensures s.token == Token(u.id, TokenLifetime)
    ensures s.user.id == u.id && s.user.name == u.name && s.user.email == u.email && s.user.isAdmin == u.isAdmin
  {
    Session(Token(u.id, TokenLifetime), WithoutPassword(u))
  }

  /** `User.findOne({ email })` finds a document. */
  predicate EmailTaken(users: map<Id, User>, email: string) {
    exists k :: k in users && users[k].email == email
  }

  /** Adding a user whose email is new keeps emails unique. */
  lemma AddKeepsEmailsUnique(users: map<Id, User>, u: User)
    requires EmailsUnique(users) && u.id !in users && !EmailTaken(users, u.email)
    ensures EmailsUnique(users[u.id := u])
  {
  }

  /** POST /api/users/register. */
  method Register(db: Db, name: string, email: string, password: string, freshId: Id)
    returns (r: Reply<Session>)
    requires db.Valid() && freshId !in db.users
    modifies db`users
    ensures db.Valid()
    ensures EmailTaken(old(db.users), email) ==> r == Fail(400, EmailExistsMessage) && db.users == old(db.users)
    ensures !EmailTaken(old(db.users), email) ==>
              var u := User(freshId, name, email, password, false);
              db.users == old(db.users)[freshId := u] && r == Ok(200, Issue(u))
  {
    if EmailTaken(db.users, email) {
      return Fail(400, EmailExistsMessage);
    }
    var u := User(freshId, name, email, password, false);
    AddKeepsEmailsUnique(db.users, u);
    db.users := db.users[freshId := u];
    r := Ok(200, Issue(u));
  }

  /** POST /api/users/login. */
  method Login(db: Db, email: string, password: string, compare: (string, string) -> bool)
    returns (r: Reply<Session>)
    requires db.Valid()
    ensures !EmailTaken(db.users, email) ==> r == Fail(401, UnknownEmailMessage)
    ensures forall k :: k in db.users && db.users[k].email == email ==>
              r == if compare(password, db.users[k].password) then Ok(200, Issue(db.users[k]))
                   else Fail(401, WrongPasswordMessage)
  {
    if !EmailTaken(db.users, email) {
      return Fail(401, UnknownEmailMessage);
    }
    var k :| k in db.users && db.users[k].email == email;
    var user := db.users[k];
    if !compare(password, user.password) {
      return Fail(401, WrongPasswordMessage);
    }
    r := Ok(200, Issue(user));
  }

  /**
   * POST /api/users/register-admin. `adminSecret` is the configured secret;
   * both it and `adminPass` may be absent, and the comparison is strict
   * inequality, so two absent values match.
   */
  method RegisterAdmin(db: Db, name: string, email: string, password: string, adminPass: Option<string>,
                       adminSecret: Option<string>, hash: string -> string, freshId: Id)
    returns (r: Reply<Session>)
    requires db.Valid() && freshId !in db.users
    modifies db`users
    ensures db.Valid()
    ensures adminPass != adminSecret ==> r == Fail(403, WrongAdminPassMessage) && db.users == old(db.users)
    ensures adminPass == adminSecret && EmailTaken(old(db.users), email) ==>
              r == Fail(400, EmailExistsMessage) && db.users == old(db.users)
    ensures adminPass == adminSecret && !EmailTaken(old(db.users), email) ==>
              var u := User(freshId, name, email, hash(password), true);
              db.users == old(db.users)[freshId := u] && r == Ok(201, Issue(u))
  {
    if adminPass != adminSecret {
      return Fail(403, WrongAdminPassMessage);
    }
    if EmailTaken(db.users, email) {
      return Fail(400, EmailExistsMessage);
    }
    var u := User(freshId, name, email, hash(password), true);
    AddKeepsEmailsUnique(db.users, u);
    db.users := db.users[freshId := u];
    r := Ok(201, Issue(u));
  }
}
