/**
 * The user document as the route handlers and the middleware use it. The user
 * schema file (backend/models/userModel.js) is not part of this model; the
 * fields are the ones the handlers read and write.
 */
module UserRecord {
  import opened Base

  datatype User = User(id: Id, name: string, email: string, password: string, isAdmin: bool)

  /** A user document read with `select('-password')`: there is no password field to leak. */
  datatype PublicUser = PublicUser(id: Id, name: string, email: string, isAdmin: bool)

  function WithoutPassword(u: User): PublicUser {
    PublicUser(u.id, u.name, u.email, u.isAdmin)
  }

  /** `User.findById(id).select('-password')`: null when no document has that id. */
  function FindById(users: map<Id, User>, id: Id): Option<PublicUser> {
    if id in users then Some(WithoutPassword(users[id])) else None
  }
}
