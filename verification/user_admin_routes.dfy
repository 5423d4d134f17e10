/** The administrator's user routes: list without passwords, delete, and set the role flag. */
module UserAdminRoutes {
  import opened Base
  import opened UserRecord
  import opened AuthMiddleware
  import opened Store

  const UserNotFoundMessage := "Không tìm thấy user"
  const UserDeletedMessage := "Đã xoá người dùng"
  const PersonNotFoundMessage := "Không tìm thấy người dùng"
  const RoleUpdatedMessage := "Cập nhật thành công"

  /** The body of a successful role change: a confirmation and the saved user, password field included. */
  datatype RoleUpdated = RoleUpdated(message: string, user: User)

  /** Every stored user once, each without its password. */
  ghost predicate ListsPublicUsers(body: seq<PublicUser>, users: map<Id, User>) {
    && |body| == |users|
    && (forall k :: k in users ==> WithoutPassword(users[k]) in body)
    && (forall i :: 0 <= i < |body| ==> body[i].id in users && body[i] == WithoutPassword(users[body[i].id]))
    && (forall i, j :: 0 <= i < j < |body| ==> body[i].id != body[j].id)
  }

  /** `User.find().select('-password')`. */
  method FindAllPublic(users: map<Id, User>) returns (body: seq<PublicUser>)
    requires forall k :: k in users ==> users[k].id == k
    ensures ListsPublicUsers(body, users)
  {
    var ids := KeysOf(users);
    body := seq(|ids|, i requires 0 <= i < |ids| => WithoutPassword(users[ids[i]]));
    assert forall i :: 0 <= i < |ids| ==> ids[i] in users && body[i].id == ids[i];
    forall k | k in users ensures WithoutPassword(users[k]) in body {
      var i :| 0 <= i < |ids| && ids[i] == k;
      assert body[i] == WithoutPassword(users[k]);
    }
  }

  /** GET /api/admin/users. */
  method ListUsers(db: Db, header: Option<string>, verify: string -> Option<Id>)
    returns (r: Reply<seq<PublicUser>>)
    requires db.Valid()
    ensures ProtectAdmin(header, verify, db.users).Reject? ==> r == Refused(ProtectAdmin(header, verify, db.users))
    ensures ProtectAdmin(header, verify, db.users).Next? ==>
              r.Ok? && r.status == 200 && ListsPublicUsers(r.body, db.users)
  {
    var gate := ProtectAdmin(header, verify, db.users);
    if gate.Reject? {
      return Refused(gate);
    }
    var body := FindAllPublic(db.users);
    r := Ok(200, body);
  }

  /** DELETE /api/admin/users/:id. The user's orders keep their reference. */
  method DeleteUser(db: Db, header: Option<string>, verify: string -> Option<Id>, id: Id)
    returns (r: Reply<string>)
    requires db.Valid()
    modifies db`users
    ensures db.Valid()
    ensures ProtectAdmin(header, verify, old(db.users)).Reject? ==>
              r == Refused(ProtectAdmin(header, verify, old(db.users))) && db.users == old(db.users)
    ensures ProtectAdmin(header, verify, old(db.users)).Next? && id !in old(db.users) ==>
              r == Fail(404, UserNotFoundMessage) && db.users == old(db.users)
    ensures ProtectAdmin(header, verify, old(db.users)).Next? && id in old(db.users) ==>
              r == Ok(200, UserDeletedMessage) && db.users == old(db.users) - {id}
  {
    var gate := ProtectAdmin(header, verify, db.users);
    if gate.Reject? {
      return Refused(gate);
    }
    if id !in db.users {
      return Fail(404, UserNotFoundMessage);
    }
    db.users := db.users - {id};
    r := Ok(200, UserDeletedMessage);
  }

  /** PUT /api/admin/users/:id. The reply carries the saved document as it is, password included. */
  method SetAdmin(db: Db, header: Option<string>, verify: string -> Option<Id>, id: Id, isAdmin: bool)
    returns (r: Reply<RoleUpdated>)
    requires db.Valid()
    modifies db`users
    ensures db.Valid()
    ensures ProtectAdmin(header, verify, old(db.users)).Reject? ==>
              r == Refused(ProtectAdmin(header, verify, old(db.users))) && db.users == old(db.users)
    ensures ProtectAdmin(header, verify, old(db.users)).Next? && id !in old(db.users) ==>
              r == Fail(404, PersonNotFoundMessage) && db.users == old(db.users)
    ensures ProtectAdmin(header, verify, old(db.users)).Next? && id in old(db.users) ==>
              var u := old(db.users)[id].(isAdmin := isAdmin);
              r == Ok(200, RoleUpdated(RoleUpdatedMessage, u)) && db.users == old(db.users)[id := u]
  {
    var gate := ProtectAdmin(header, verify, db.users);
    if gate.Reject? {
      return Refused(gate);
    }
    if id !in db.users {
      return Fail(404, PersonNotFoundMessage);
    }
    var u := db.users[id].(isAdmin := isAdmin);
    db.users := db.users[id := u];
    r := Ok(200, RoleUpdated(RoleUpdatedMessage, u));
  }
}
