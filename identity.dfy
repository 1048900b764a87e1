/** Who is acting on an update request: the caller's own `currentUserId` and
    `currentUserRole` body fields, completed from a bearer token (section 2.1
    of RFC 6750) carrying a JSON Web Token (RFC 7519) when one of them is
    missing, and the privilege test both update guards apply to the role. */
module Identity {
  import opened JsValues

  /** The payload fields of a verified token that the controller reads. The
      issuer may name the subject `userId`, `id` or `_id` (here `dbId`) and the
      role `role`, `roleFromJWT` or `role_name` (here `roleName`). */
  datatype Claims = Claims(
    userId: Option<string>, id: Option<string>, dbId: Option<string>,
    role: Option<string>, roleFromJWT: Option<string>, roleName: Option<string>)

  /** The acting identity: either part may stay unresolved. */
  datatype Actor = Actor(id: Option<string>, role: Option<string>)

  /** Token verification (signature, secret, expiry): None is a token that
      does not verify. */
  type Decoder = string -> Option<Claims>

  const SCHEME: string := "Bearer "
  const ADMIN: string := "admin"
  const SUPER_ADMIN: string := "super admin"

  /** `auth.startsWith('Bearer ')`. */
  function IsBearer(auth: string): (b: bool)
    ensures b <==> SCHEME <= auth
    ensures b ==> auth == SCHEME + auth[|SCHEME|..]
  {
    |SCHEME| <= |auth| && auth[..|SCHEME|] == SCHEME
  }

  /** The text of `s` up to its first space. */
  function FirstField(s: string): (t: string)
    ensures t <= s
    ensures ' ' !in t
    ensures |t| == |s| || s[|t|] == ' '
  {
    if s == [] || s[0] == ' ' then [] else [s[0]] + FirstField(s[1..])
  }

  /** `auth.split(' ')[1]` on a header that starts with "Bearer ": "Bearer"
      holds no space, so the second field is what follows the scheme up to the
      next space (empty when nothing follows). */
  function BearerToken(auth: string): (t: string)
    requires IsBearer(auth)
    ensures SCHEME + t <= auth
    ensures ' ' !in t
    ensures |auth| == |SCHEME| + |t| || auth[|SCHEME| + |t|] == ' '
  {
    var t := FirstField(auth[|SCHEME|..]);
    assert auth == SCHEME + auth[|SCHEME|..];
    t
  }

  /** The token is looked at only when a field is missing and the header is
      a string in the Bearer scheme. */
  function ConsultsToken(explicit: Actor, authorization: Option<string>): (b: bool)
    ensures Truthy(explicit.id) && Truthy(explicit.role) ==> !b
    ensures authorization.None? ==> !b
    ensures authorization.Some? && !(SCHEME <= authorization.value) ==> !b
    ensures !Truthy(explicit.id) && authorization.Some? && SCHEME <= authorization.value ==> b
    ensures !Truthy(explicit.role) && authorization.Some? && SCHEME <= authorization.value ==> b
  {
    && (!Truthy(explicit.id) || !Truthy(explicit.role))
    && authorization.Some?
    && IsBearer(authorization.value)
  }

  /** The claims the resolution uses: None when the token is not consulted or
      does not verify. */
  function Decoded(explicit: Actor, authorization: Option<string>, decode: Decoder): (c: Option<Claims>)
    ensures !ConsultsToken(explicit, authorization) ==> c.None?
    ensures ConsultsToken(explicit, authorization) ==> c == decode(BearerToken(authorization.value))
  {
    if ConsultsToken(explicit, authorization) then decode(BearerToken(authorization.value)) else None
  }

  /** Merges the explicit body fields with the decoded token. A failed
      verification is swallowed: the explicit fields stand as they are. */
  function ResolveActor(explicit: Actor, authorization: Option<string>, decode: Decoder): (r: Actor)
    // explicit values are never overwritten
    ensures Truthy(explicit.id) ==> r.id == explicit.id
    ensures Truthy(explicit.role) ==> r.role == explicit.role
    // no usable token: nothing changes
    ensures Decoded(explicit, authorization, decode).None? ==> r == explicit
    // a missing id falls back to userId, then id, then _id
    ensures Decoded(explicit, authorization, decode).Some? && !Truthy(explicit.id) ==>
              var c := Decoded(explicit, authorization, decode).value;
              && (Truthy(r.id) <==> Truthy(c.userId) || Truthy(c.id) || Truthy(c.dbId))
              && (Truthy(c.userId) ==> r.id == c.userId)
              && (!Truthy(c.userId) && Truthy(c.id) ==> r.id == c.id)
              && (!Truthy(c.userId) && !Truthy(c.id) ==> r.id == c.dbId)
    // a missing role falls back to role, then roleFromJWT, then role_name
    ensures Decoded(explicit, authorization, decode).Some? && !Truthy(explicit.role) ==>
              var c := Decoded(explicit, authorization, decode).value;
              && (Truthy(r.role) <==> Truthy(c.role) || Truthy(c.roleFromJWT) || Truthy(c.roleName))
              && (Truthy(c.role) ==> r.role == c.role)
              && (!Truthy(c.role) && Truthy(c.roleFromJWT) ==> r.role == c.roleFromJWT)
              && (!Truthy(c.role) && !Truthy(c.roleFromJWT) ==> r.role == c.roleName)
  {
    match Decoded(explicit, authorization, decode)
    case None => explicit
    case Some(c) =>
      Actor(Or(Or(Or(explicit.id, c.userId), c.id), c.dbId),
            Or(Or(Or(explicit.role, c.role), c.roleFromJWT), c.roleName))
  }

  /** `(role || "").toString().toLowerCase()` is "admin" or "super admin";
      an absent or empty role is never privileged. */
  function IsPrivileged(role: Option<string>): (b: bool)
    ensures b ==> Truthy(role)
    ensures b <==> Truthy(role) && (EqualsIgnoringCase(role.value, ADMIN) || EqualsIgnoringCase(role.value, SUPER_ADMIN))
  {
    var lower := Lower(Or(role, Some("")).value);
    assert Truthy(role) ==> (lower == ADMIN <==> EqualsIgnoringCase(role.value, ADMIN));
    assert Truthy(role) ==> (lower == SUPER_ADMIN <==> EqualsIgnoringCase(role.value, SUPER_ADMIN));
    lower == ADMIN || lower == SUPER_ADMIN
  }
}
