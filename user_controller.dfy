/** The three handlers of the user controller over an in-memory user store.
    Each works the way the handler does (local variables reassigned, the
    fetched record changed field by field, one write at the end) and is
    proved to leave the store and give the reply that module UserPolicy
    specifies. */
module UserController {
  import opened JsValues
  import opened Identity
  import opened UserPolicy

  class UserStore {
    /** The user collection, keyed by id. */
    var users: Table

    ghost predicate Valid()
      reads this
    {
      UniqueEmails(users)
    }

    constructor ()
      ensures Valid() && users == map[]
    {
      users := map[];
    }

    /** The createUser handler. */
    method CreateUser(newId: string, email: string, password: string,
                      firstName: string, lastName: string, role: string,
                      hash: string -> string) returns (r: Result<PublicUser>)
      requires Valid() && newId !in users
      modifies this
      ensures Valid()
      ensures r.Err? ==> users == old(users)
      ensures Step(users, r) == Create(old(users), newId, email, password, firstName, lastName, role, hash)
    {
      if EmailTaken(users, email) {
        r := Err(EmailInUse);
        return;
      }
      var hashedPassword := hash(password);
      var newUser := User(email, hashedPassword, firstName, lastName, role, DEFAULT_PROFILE_IMG);
      users := users[newId := newUser];
      r := Ok(Project(newId, newUser));
    }

    /** The updateUser handler. `authorization` is the Authorization header when it
        is a string, and `decode` verifies a token. */
    method UpdateUser(req: UpdateRequest, authorization: Option<string>, decode: Decoder)
      returns (r: Result<PublicUser>)
      requires Valid()
      modifies this
      ensures Valid()
      ensures r.Err? ==> users == old(users)
      ensures Step(users, r) == Update(old(users), req, authorization, decode)
    {
      var currentUserId := req.currentUserId;
      var currentUserRole := req.currentUserRole;
      var idToUpdate := Or(req.targetUserId, req.userId);
      if !Truthy(idToUpdate) {
        r := Err(MissingId);
        return;
      }

      if (!Truthy(currentUserId) || !Truthy(currentUserRole)) && authorization.Some? {
        var auth := authorization.value;
        if IsBearer(auth) {
          var token := BearerToken(auth);
          var decoded := decode(token);
          if decoded.Some? {
            currentUserId := Or(Or(Or(currentUserId, decoded.value.userId), decoded.value.id), decoded.value.dbId);
            currentUserRole := Or(Or(Or(currentUserRole, decoded.value.role), decoded.value.roleFromJWT), decoded.value.roleName);
          }
          // a token that does not verify is logged and otherwise ignored
        }
      }
      assert Actor(currentUserId, currentUserRole) == ActingIdentity(req, authorization, decode);

      var id := idToUpdate.value;
      if id !in users {
        r := Err(NotFound);
        return;
      }
      var user := users[id];

      if Truthy(currentUserId) && currentUserId.value != id {
        if !IsPrivileged(currentUserRole) {
          r := Err(ForbiddenOtherUser);
          return;
        }
      }

      if Truthy(req.newRole) {
        if !IsPrivileged(currentUserRole) {
          r := Err(ForbiddenRoleChange);
          return;
        }
        user := user.(role := req.newRole.value);
      }

      if Truthy(req.email) && req.email.value != user.email {
        if HeldByOther(users, req.email.value, id) {
          // the role set above is dropped: nothing has been written yet
          r := Err(EmailInUse);
          return;
        }
        user := user.(email := req.email.value);
      }

      user := user.(firstName := Or(req.firstName, Some(user.firstName)).value);
      user := user.(lastName := Or(req.lastName, Some(user.lastName)).value);

      users := users[id := user];
      r := Ok(Project(id, user));
    }

    /** The deleteUser handler. */
    method DeleteUser(userId: Option<string>, currentUserId: Option<string>) returns (r: Result<()>)
      requires Valid()
      modifies this
      ensures Valid()
      ensures r.Err? ==> users == old(users)
      ensures Step(users, r) == Delete(old(users), userId, currentUserId)
    {
      if userId.None? || userId.value !in users {
        r := Err(NotFound);
        return;
      }
      if userId == currentUserId {
        r := Err(SelfDelete);
        return;
      }
      users := users - {userId.value};
      r := Ok(());
    }
  }
}
