/**
 * The user account handlers: reading a profile without its password, the
 * two field-merge rules of the profile and the admin update, and deletion.
 */
module UserController {
  import opened Common
  import opened Lists

  /** A user account as stored (the stored password is whatever was saved). */
  datatype User = User(
    id: Id,
    name: string,
    email: string,
    password: string,
    role: string,
    addresses: Value,
    createdAt: Time,
    updatedAt: Time)

  /** A user as the handlers send it: every field but the password. */
  datatype PublicUser = PublicUser(
    id: Id,
    name: string,
    email: string,
    role: string,
    addresses: Value,
    createdAt: Time,
    updatedAt: Time)

  /** `.select("-password")` and the reply of `updateUserProfile`. */
  function Public(u: User): (v: PublicUser)
    ensures v.id == u.id && v.name == u.name && v.email == u.email && v.role == u.role
    ensures v.addresses == u.addresses && v.createdAt == u.createdAt && v.updatedAt == u.updatedAt
  {
    PublicUser(u.id, u.name, u.email, u.role, u.addresses, u.createdAt, u.updatedAt)
  }

  /**
   * The public view never depends on the password: two accounts that
   * differ only in their password look the same, and the view determines
   * every other field.
   */
  lemma PublicHidesPassword(u: User, w: User)
    ensures Public(u.(password := w.password)) == Public(u)
    ensures Public(u) == Public(w) <==> u.(password := w.password) == w
  {
  }

  /** The position of the user with id `id`, or -1 (`findById`). */
  function FindUser(users: seq<User>, id: Id): (k: int)
    ensures -1 <= k < |users|
    ensures k >= 0 ==> users[k].id == id
    ensures k == -1 <==> forall j :: 0 <= j < |users| ==> users[j].id != id
  {
    IndexWhere(users, (u: User) => u.id == id)
  }

  /** No two stored users share an id. */
  predicate UniqueUserIds(users: seq<User>) {
    UniqueKeys(users, (u: User) => u.id)
  }

  const UserNotFound := "User not found"

  /** The body of `updateUserProfile`; a missing or empty string field is "", a missing `addresses` is undefined. */
  datatype ProfileRequest = ProfileRequest(name: string, email: string, password: string, addresses: Value)

  /** The body of `updateUserRole`; a missing field is "". */
  datatype RoleRequest = RoleRequest(name: string, email: string, role: string)

  /** The reply of `updateUserRole`. */
  datatype RoleView = RoleView(id: Id, name: string, email: string, role: string)

  /** The account after the truthy fields of a profile request are copied onto it. */
  function ProfileMerged(u: User, req: ProfileRequest): User {
    u.(name := if req.name != "" then req.name else u.name,
       email := if req.email != "" then req.email else u.email,
       password := if req.password != "" then req.password else u.password,
       addresses := if Truthy(req.addresses) then req.addresses else u.addresses)
  }

  /** The account after `field = req.field || user.field` for name, email and role. */
  function RoleMerged(u: User, req: RoleRequest): User {
    u.(name := if req.name != "" then req.name else u.name,
       email := if req.email != "" then req.email else u.email,
       role := if req.role != "" then req.role else u.role)
  }

  /** Two profile requests in a row as one: the later request's truthy fields win. */
  function ThenProfile(a: ProfileRequest, b: ProfileRequest): ProfileRequest {
    ProfileRequest(
      if b.name != "" then b.name else a.name,
      if b.email != "" then b.email else a.email,
      if b.password != "" then b.password else a.password,
      if Truthy(b.addresses) then b.addresses else a.addresses)
  }

  /**
   * The profile merge overwrites exactly the truthy fields: an empty
   * request changes nothing, id, role and creation time never change, a
   * truthy field is taken and a falsy one keeps the stored value,
   * repeating a request changes nothing more, and two requests in a row
   * act as one in which the later request's truthy fields win.
   */
  lemma ProfileMergeLaws(u: User, a: ProfileRequest, b: ProfileRequest)
    ensures ProfileMerged(u, ProfileRequest("", "", "", Undefined)) == u
    ensures var m := ProfileMerged(u, a); m.id == u.id && m.role == u.role && m.createdAt == u.createdAt
    ensures a.name != "" ==> ProfileMerged(u, a).name == a.name
    ensures a.name == "" ==> ProfileMerged(u, a).name == u.name
    ensures a.email != "" ==> ProfileMerged(u, a).email == a.email
    ensures a.email == "" ==> ProfileMerged(u, a).email == u.email
    ensures Truthy(a.addresses) ==> ProfileMerged(u, a).addresses == a.addresses
    ensures !Truthy(a.addresses) ==> ProfileMerged(u, a).addresses == u.addresses
    ensures a.password != "" ==> ProfileMerged(u, a).password == a.password
    ensures a.password == "" ==> ProfileMerged(u, a).password == u.password
    ensures ProfileMerged(ProfileMerged(u, a), a) == ProfileMerged(u, a)
    ensures ProfileMerged(ProfileMerged(u, a), b) == ProfileMerged(u, ThenProfile(a, b))
  {
  }

  /**
   * The role update keeps a field whose request value is empty and takes
   * the request value otherwise; it never touches password, addresses or
   * the id, and an empty request changes nothing.
   */
  lemma RoleMergeLaws(u: User, req: RoleRequest)
    ensures RoleMerged(u, RoleRequest("", "", "")) == u
    ensures var m := RoleMerged(u, req);
            && m.password == u.password && m.addresses == u.addresses && m.id == u.id
            && (req.name != "" ==> m.name == req.name)
            && (req.name == "" ==> m.name == u.name)
            && (req.email != "" ==> m.email == req.email)
            && (req.email == "" ==> m.email == u.email)
            && (req.role != "" ==> m.role == req.role)
            && (req.role == "" ==> m.role == u.role)
    ensures RoleMerged(RoleMerged(u, req), req) == RoleMerged(u, req)
  {
  }

  /**
   * What `save()` stores: a document whose fields all kept their values is
   * saved as it was; a changed one gets `updatedAt` stamped.
   */
  function Saved(before: User, after: User, now: Time): (r: User)
    ensures after == before ==> r == before
    ensures after != before ==> r.(updatedAt := after.updatedAt) == after && r.updatedAt == now
  {
    if after == before then before else after.(updatedAt := now)
  }

  /** The users collection, updated in place by the handlers. */
  class UserCollection {
    var users: seq<User>

    constructor (initial: seq<User>)
      ensures users == initial
    {
      users := initial;
    }

    /**
     * `getUserProfile` (for the caller's own id) and `getUserById`: 404 for
     * an unknown id, otherwise the account without its password.
     */
    method GetUser(id: Id) returns (r: Response<PublicUser>)
      ensures FindUser(users, id) == -1 <==> r == Error(404, UserNotFound)
      ensures r.Reply? ==> r.code == 200 && exists k :: 0 <= k < |users| && users[k].id == id && r.body == Public(users[k])
      ensures FindUser(users, id) >= 0 ==> r == Reply(200, Public(users[FindUser(users, id)]))
    {
      var k := FindUser(users, id);
      if k == -1 {
        return Error(404, UserNotFound);
      }
      r := Reply(200, Public(users[k]));
    }

    /**
     * `updateUserProfile`: 404 for an unknown id; otherwise the truthy
     * request fields are copied onto the account, the save stamps
     * `updatedAt` when a field changed, and the reply is the saved account without its password.
     */
    method UpdateUserProfile(id: Id, req: ProfileRequest, now: Time) returns (r: Response<PublicUser>)
      modifies this
      ensures var k := FindUser(old(users), id);
              && (k == -1 ==> r == Error(404, UserNotFound) && users == old(users))
              && (k >= 0 ==>
                    var saved := Saved(old(users)[k], ProfileMerged(old(users)[k], req), now);
                    users == old(users)[k := saved] && r == Reply(200, Public(saved)))
    {
      var k := FindUser(users, id);
      if k == -1 {
        return Error(404, UserNotFound);
      }
      var user := users[k];
      if req.name != "" { user := user.(name := req.name); }
      if req.email != "" { user := user.(email := req.email); }
      if req.password != "" {
        user := user.(password := req.password);
      }
      if Truthy(req.addresses) {
        user := user.(addresses := req.addresses);
      }
      user := Saved(users[k], user, now);
      users := users[k := user];
      r := Reply(200, Public(user));
    }

    /**
     * `updateUserRole`: 404 for an unknown id; otherwise name, email and
     * role each take the request value when it is non-empty, and the reply
     * is the id, name, email and role of the saved account.
     */
    method UpdateUserRole(id: Id, req: RoleRequest, now: Time) returns (r: Response<RoleView>)
      modifies this
      ensures var k := FindUser(old(users), id);
              && (k == -1 ==> r == Error(404, UserNotFound) && users == old(users))
              && (k >= 0 ==>
                    var saved := Saved(old(users)[k], RoleMerged(old(users)[k], req), now);
                    users == old(users)[k := saved]
                    && r == Reply(200, RoleView(saved.id, saved.name, saved.email, saved.role)))
    {
      var k := FindUser(users, id);
      if k == -1 {
        return Error(404, UserNotFound);
      }
      var user := users[k];
      user := user.(name := if req.name != "" then req.name else user.name);
      user := user.(email := if req.email != "" then req.email else user.email);
      user := user.(role := if req.role != "" then req.role else user.role);
      user := Saved(users[k], user, now);
      users := users[k := user];
      r := Reply(200, RoleView(user.id, user.name, user.email, user.role));
    }

    /** `deleteUser`: 404 for an unknown id; otherwise the account is removed. */
    method DeleteUser(id: Id) returns (r: Response<string>)
      modifies this
      ensures var k := FindUser(old(users), id);
              && (k == -1 ==> r == Error(404, UserNotFound) && users == old(users))
              && (k >= 0 ==> users == RemoveAt(old(users), k) && r == Reply(200, "User removed"))
    {
      var k := FindUser(users, id);
      if k == -1 {
        return Error(404, UserNotFound);
      }
      users := RemoveAt(users, k);
      r := Reply(200, "User removed");
    }
  }
}
