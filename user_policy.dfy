/** The user table and the policy of the three mutating handlers, as
    functions from the old table and the request to the new table and the
    reply. The handlers in module UserController are proved to compute
    exactly these. */
module UserPolicy {
  import opened JsValues
  import opened Identity

  /** Every account created gets this profile image. */
  const DEFAULT_PROFILE_IMG: string :=
    "https://res.cloudinary.com/dboau6axv/image/upload/v1735641179/qa9dfyxn8spwm0nwtako.jpg"

  /** A stored user; its id is the key it is stored under. */
  datatype User = User(
    email: string, passwordHash: string, firstName: string, lastName: string,
    role: string, profileImg: string)

  type Table = map<string, User>

  /** What a reply shows of a user: everything but the password hash. */
  datatype PublicUser = PublicUser(
    id: string, email: string, firstName: string, lastName: string,
    role: string, profileImg: string)

  datatype Error =
    | MissingId           // 400 "Missing user id to update"
    | NotFound            // 404
    | ForbiddenOtherUser  // 403 "Insufficient permissions to update other users"
    | ForbiddenRoleChange // 403 "Insufficient permissions to change role"
    | EmailInUse          // 400, duplicate email on create or update
    | SelfDelete          // 400 "Cannot delete your own account"

  datatype Result<+T> = Ok(value: T) | Err(error: Error)

  /** The table after a handler ran, and its reply. */
  datatype Step<+T> = Step(table: Table, outcome: Result<T>)

  /** The body of an updateUser request; every field may be absent. */
  datatype UpdateRequest = UpdateRequest(
    userId: Option<string>, targetUserId: Option<string>,
    firstName: Option<string>, lastName: Option<string>,
    email: Option<string>, newRole: Option<string>,
    currentUserId: Option<string>, currentUserRole: Option<string>)

  /** No two stored users share an email. */
  ghost predicate UniqueEmails(t: Table) {
    forall a, b :: a in t && b in t && t[a].email == t[b].email ==> a == b
  }

  /** `User.findOne({ email })` finds a record. */
  function EmailTaken(t: Table, email: string): (b: bool)
    ensures b <==> email in (set k | k in t :: t[k].email)
    ensures t == map[] ==> !b
  {
    exists k :: k in t && t[k].email == email
  }

  /** Some user other than `id` holds `email`. */
  function HeldByOther(t: Table, email: string, id: string): (b: bool)
    ensures b ==> EmailTaken(t, email)
    ensures EmailTaken(t, email) && !b ==> id in t && t[id].email == email
  {
    exists k :: k in t && k != id && t[k].email == email
  }

  /** The reply object: every field of the record under its id, and no
      password hash (PublicUser has no such field). */
  function Project(id: string, u: User): (p: PublicUser)
    ensures p.id == id && p.email == u.email && p.role == u.role
    ensures p.firstName == u.firstName && p.lastName == u.lastName && p.profileImg == u.profileImg
  {
    PublicUser(id, u.email, u.firstName, u.lastName, u.role, u.profileImg)
  }

  // ---------------------------------------------------------------- create

  /** The createUser handler. `newId` is the fresh id the store assigns and `hash` the
      salted one-way password hash. */
  function Create(users: Table, newId: string, email: string, password: string,
                  firstName: string, lastName: string, role: string,
                  hash: string -> string): (r: Step<PublicUser>)
    requires newId !in users
    ensures r.outcome.Err? <==> EmailTaken(users, email)
    ensures r.outcome.Err? ==> r.outcome.error == EmailInUse && r.table == users
    ensures r.outcome.Ok? ==>
              && r.table.Keys == users.Keys + {newId}
              && (forall k :: k in users ==> r.table[k] == users[k])
              && r.table[newId] == User(email, hash(password), firstName, lastName, role, DEFAULT_PROFILE_IMG)
              && r.outcome.value == Project(newId, r.table[newId])
    ensures UniqueEmails(users) ==> UniqueEmails(r.table)
  {
    if EmailTaken(users, email) then Step(users, Err(EmailInUse))
    else
      var u := User(email, hash(password), firstName, lastName, role, DEFAULT_PROFILE_IMG);
      Step(users[newId := u], Ok(Project(newId, u)))
  }

  // ---------------------------------------------------------------- update

  /** `targetUserId || userId`. */
  function TargetId(req: UpdateRequest): (r: Option<string>)
    ensures Truthy(r) <==> Truthy(req.targetUserId) || Truthy(req.userId)
    ensures Truthy(req.targetUserId) ==> r == req.targetUserId
    ensures !Truthy(req.targetUserId) && Truthy(req.userId) ==> r == req.userId
  {
    Or(req.targetUserId, req.userId)
  }

  /** The acting identity of an update request. */
  function ActingIdentity(req: UpdateRequest, authorization: Option<string>, decode: Decoder): (a: Actor)
    ensures Truthy(req.currentUserId) ==> a.id == req.currentUserId
    ensures Truthy(req.currentUserRole) ==> a.role == req.currentUserRole
  {
    ResolveActor(Actor(req.currentUserId, req.currentUserRole), authorization, decode)
  }

  /** The target id is given and names a stored user. */
  function Located(users: Table, req: UpdateRequest): (b: bool)
    ensures Truthy(req.targetUserId) ==> (b <==> req.targetUserId.value in users)
    ensures !Truthy(req.targetUserId) ==> (b <==> Truthy(req.userId) && req.userId.value in users)
  {
    Truthy(TargetId(req)) && TargetId(req).value in users
  }

  /** Cross-account guard: a known actor other than the target needs a
      privileged role; an unknown actor is let through. */
  function CrossAccountDenied(actor: Actor, id: string): (b: bool)
    ensures !Truthy(actor.id) ==> !b
    ensures actor.id == Some(id) ==> !b
    ensures IsPrivileged(actor.role) ==> !b
    ensures Truthy(actor.id) && actor.id != Some(id) && !Truthy(actor.role) ==> b
    ensures Truthy(actor.id) && actor.id != Some(id) && Truthy(actor.role) ==>
              (b <==> !(EqualsIgnoringCase(actor.role.value, ADMIN) || EqualsIgnoringCase(actor.role.value, SUPER_ADMIN)))
  {
    Truthy(actor.id) && actor.id.value != id && !IsPrivileged(actor.role)
  }

  /** Role-change guard: any requested role needs a privileged actor, even
      on the actor's own record. */
  function RoleChangeDenied(actor: Actor, newRole: Option<string>): (b: bool)
    ensures !Truthy(newRole) ==> !b
    ensures Truthy(newRole) && !Truthy(actor.role) ==> b
    ensures Truthy(newRole) && Truthy(actor.role) ==> (b <==> !(EqualsIgnoringCase(actor.role.value, ADMIN) || EqualsIgnoringCase(actor.role.value, SUPER_ADMIN)))
  {
    Truthy(newRole) && !IsPrivileged(actor.role)
  }

  /** Email guard: a new email held by a different user. */
  function EmailClash(users: Table, id: string, email: Option<string>): (b: bool)
    requires id in users
    ensures !Truthy(email) || email.value == users[id].email ==> !b
    ensures Truthy(email) && email.value != users[id].email ==> (b <==> EmailTaken(users, email.value))
    ensures b ==> exists k :: k in users && k != id && users[k].email == email.value
  {
    Truthy(email) && email.value != users[id].email && HeldByOther(users, email.value, id)
  }

  /** The target record once an accepted request is applied: a requested
      role or email replaces the old one, a non-empty name replaces the old
      one, and the password hash and profile image stay. */
  function Revise(u: User, req: UpdateRequest): (v: User)
    ensures v.passwordHash == u.passwordHash && v.profileImg == u.profileImg
    ensures v.role == (if Truthy(req.newRole) then req.newRole.value else u.role)
    ensures v.email == (if Truthy(req.email) then req.email.value else u.email)
    ensures v.firstName == (if Truthy(req.firstName) then req.firstName.value else u.firstName)
    ensures v.lastName == (if Truthy(req.lastName) then req.lastName.value else u.lastName)
  {
    u.(role := if Truthy(req.newRole) then req.newRole.value else u.role,
       email := if Truthy(req.email) then req.email.value else u.email,
       firstName := Or(req.firstName, Some(u.firstName)).value,
       lastName := Or(req.lastName, Some(u.lastName)).value)
  }

  /** The updateUser handler: the guards in their order (missing id, not found,
      cross-account, role change, email clash), then one write of the
      revised target. */
  function Update(users: Table, req: UpdateRequest, authorization: Option<string>,
                  decode: Decoder): (r: Step<PublicUser>)
    ensures r.outcome == Err(MissingId) <==> !Truthy(TargetId(req))
    ensures r.outcome == Err(NotFound) <==> Truthy(TargetId(req)) && TargetId(req).value !in users
    ensures r.outcome == Err(ForbiddenOtherUser) <==>
              Located(users, req) && CrossAccountDenied(ActingIdentity(req, authorization, decode), TargetId(req).value)
    ensures r.outcome == Err(ForbiddenRoleChange) <==>
              && Located(users, req)
              && !CrossAccountDenied(ActingIdentity(req, authorization, decode), TargetId(req).value)
              && RoleChangeDenied(ActingIdentity(req, authorization, decode), req.newRole)
    ensures r.outcome == Err(EmailInUse) <==>
              && Located(users, req)
              && !CrossAccountDenied(ActingIdentity(req, authorization, decode), TargetId(req).value)
              && !RoleChangeDenied(ActingIdentity(req, authorization, decode), req.newRole)
              && EmailClash(users, TargetId(req).value, req.email)
    ensures r.outcome.Ok? <==>
              && Located(users, req)
              && !CrossAccountDenied(ActingIdentity(req, authorization, decode), TargetId(req).value)
              && !RoleChangeDenied(ActingIdentity(req, authorization, decode), req.newRole)
              && !EmailClash(users, TargetId(req).value, req.email)
    ensures r.outcome.Err? ==> r.table == users
    ensures r.outcome.Ok? ==>
              && Located(users, req)
              && var id := TargetId(req).value;
              && r.table == users[id := Revise(users[id], req)]
              && r.outcome.value == Project(id, r.table[id])
    ensures r.outcome.Ok? && Truthy(req.newRole) ==> IsPrivileged(ActingIdentity(req, authorization, decode).role)
    ensures UniqueEmails(users) ==> UniqueEmails(r.table)
  {
    var target := TargetId(req);
    if !Truthy(target) then Step(users, Err(MissingId))
    else if target.value !in users then Step(users, Err(NotFound))
    else
      var id := target.value;
      var actor := ActingIdentity(req, authorization, decode);
      if CrossAccountDenied(actor, id) then Step(users, Err(ForbiddenOtherUser))
      else if RoleChangeDenied(actor, req.newRole) then Step(users, Err(ForbiddenRoleChange))
      else if EmailClash(users, id, req.email) then Step(users, Err(EmailInUse))
      else
        var u := Revise(users[id], req);
        assert u.email == users[id].email || !HeldByOther(users, u.email, id);
        Step(users[id := u], Ok(Project(id, u)))
  }

  // ---------------------------------------------------------------- delete

  /** The deleteUser handler: an unknown target is NotFound before anything else;
      deleting one's own account is refused whatever the role. */
  function Delete(users: Table, userId: Option<string>, currentUserId: Option<string>): (r: Step<()>)
    ensures r.outcome == Err(NotFound) <==> userId.None? || userId.value !in users
    ensures r.outcome == Err(SelfDelete) <==> userId.Some? && userId.value in users && userId == currentUserId
    ensures r.outcome.Ok? <==> userId.Some? && userId.value in users && userId != currentUserId
    ensures r.outcome.Err? ==> r.table == users
    ensures r.outcome.Ok? ==>
              && userId.Some? && userId.value in users
              && r.table.Keys == users.Keys - {userId.value}
              && (forall k :: k in r.table ==> r.table[k] == users[k])
    ensures UniqueEmails(users) ==> UniqueEmails(r.table)
  {
    if userId.None? || userId.value !in users then Step(users, Err(NotFound))
    else if userId == currentUserId then Step(users, Err(SelfDelete))
    else Step(users - {userId.value}, Ok(()))
  }
}
