# User controller of the car-tracking backend, modelled in Dafny

The backend keeps a collection of user accounts: email, password hash, first
and last name, role, and profile image. It exposes three mutating handlers:

- `createUser` refuses an email that is already stored. Otherwise it stores a new user with the hashed password and the default profile image.
- `updateUser` first picks the target id (`targetUserId`, else `userId`) and answers MissingId when there is none. It then works out who is calling. It takes the `currentUserId`/`currentUserRole` body fields and fills a missing one from a Bearer token (section 2.1 of RFC 6750) carrying a JSON Web Token (RFC 7519). After that it applies four guards in a fixed order:
  - the target must exist;
  - a known caller who is not the target needs the role "admin" or "super admin", compared case-insensitively;
  - any role change needs such a role;
  - a new email must not belong to another user.
  After the guards it writes the revised record once.
- `deleteUser` answers NotFound for an unknown id. It refuses the request, whatever the role, when `userId` and `currentUserId` are the same string.

The routing table binds POST /create, PATCH /update and DELETE /delete to handlers with these same names. It imports them from an auth controller that is not part of this model.

The model has five modules:

- `JsValues` holds the JavaScript rules the handlers rely on. An absent or empty field is falsy, and `a || b` returns the first truthy operand, or the last operand when none is truthy. `toLowerCase` is modelled on ASCII letters only.
- `Identity` holds the Bearer-token extraction, the merge of body fields with token claims, and the privilege test.
- `UserPolicy` holds the user table (`map<string, User>`, keyed by id) and one pure function per handler. Each function maps the old table and the request to the new table and the reply. Its contract states the guard order, that a rejection writes nothing, the exact new record on success, and that email uniqueness is preserved.
- `UserController` holds the class `UserStore`, whose `users` field is the table. It has one method per handler, written as the handler runs: the body fields are copied into local variables and filled from the token, the fetched record is changed field by field, and one write happens at the end. Each method is proved to give exactly the step its `UserPolicy` function specifies.
- `UserProperties` holds lemmas that relate several calls and work through a few concrete scenarios. These include idempotent updates, create-then-delete restoring the table, and self-delete never succeeding.

Collaborators the model cannot see become parameters:

- Token verification (`jwt.verify` with its secret) is a `decode: string -> Option<Claims>` argument. None stands for a token that does not verify.
- The salted password hash (bcrypt) is a `hash: string -> string` argument.
- The id the database assigns to a new user is an argument `newId` that must not already be stored.

Two behaviours of the handler are modelled as written and shown by lemmas:

- `UnresolvedActorMayRenameAnyone`: with no body identity and no token, the cross-account guard is skipped, so any existing user can be renamed.
- `BodyStatedAdminIsTrusted`: a role stated in the request body is believed, and it takes precedence over the token.

## Model

| member | source | states |
|---|---|---|
| `JsValues.Or` | backend/src/controllers/userController.ts:53 | `a \|\| b` is truthy iff one operand is, returns `a` when `a` is truthy and `b` otherwise, so a falsy `b` comes back as it is |
| `JsValues.Lower` | backend/src/controllers/userController.ts:84 | lower-casing keeps the length and folds each character on its own |
| `Identity.FirstField` | backend/src/controllers/userController.ts:64 | the result is the longest space-free prefix: a prefix of the input, with no space, ending at the input's end or at a space |
| `Identity.BearerToken` | backend/src/controllers/userController.ts:63-64 | `auth.split(' ')[1]` after "Bearer ": the header is "Bearer " + token + (nothing or a space …), and the token holds no space |
| `Identity.IsBearer` | backend/src/controllers/userController.ts:63 | `auth.startsWith('Bearer ')`: the header has "Bearer " as a prefix, and is then that prefix followed by the rest |
| `Identity.ConsultsToken` | backend/src/controllers/userController.ts:61-63 | the token is never looked at when both body fields are present, when there is no header string, or when the header lacks the Bearer prefix; it is looked at whenever one body field is missing and the header has the prefix |
| `Identity.Decoded` | backend/src/controllers/userController.ts:61-66 | the claims are exactly `decode` of the Bearer token when id or role is missing and the header uses the Bearer scheme; otherwise there are none |
| `Identity.ResolveActor` | backend/src/controllers/userController.ts:61-74 | explicit id/role are never overwritten; a missing or unverifiable token leaves both as they were; a missing id falls back to userId, then id, then _id, and a missing role to role, then roleFromJWT, then role_name |
| `Identity.IsPrivileged` | backend/src/controllers/userController.ts:84-85 | privileged iff the role is present and equals "admin" or "super admin" ignoring case; an absent or empty role is unprivileged |
| `UserPolicy.EmailTaken` | backend/src/controllers/userController.ts:11-12 | an email is taken iff it is among the stored emails; an empty table takes none |
| `UserPolicy.Project` | backend/src/controllers/userController.ts:118-125 | the reply (here and, with the same fields, at lines 34-41) carries the id and the email, names, role and image of the record; it has no password-hash field, so the hash is never returned |
| `UserPolicy.ActingIdentity` | backend/src/controllers/userController.ts:50-74 | a present `currentUserId` or `currentUserRole` body field is the acting id or role as it is, whatever the header and token |
| `UserPolicy.Located` | backend/src/controllers/userController.ts:53-77 | the target is found iff a given `targetUserId` is stored, or, when none is given, `userId` is given and stored |
| `UserPolicy.CrossAccountDenied` | backend/src/controllers/userController.ts:83-85 | an unknown actor, the target itself and a privileged actor are let through; a known other actor with no role is refused, and with a role is refused iff it is neither "admin" nor "super admin" ignoring case |
| `UserPolicy.RoleChangeDenied` | backend/src/controllers/userController.ts:92-94 | no requested role is never refused; a requested role is refused when the actor has no role, and otherwise iff the role is neither "admin" nor "super admin" ignoring case |
| `UserPolicy.EmailClash` | backend/src/controllers/userController.ts:102-104 | an absent, empty or unchanged email never clashes; a changed email clashes iff it is stored at all, and then another user holds it |
| `UserPolicy.Create` | backend/src/controllers/userController.ts:11-41 | rejected with EmailInUse iff the email is stored, and then the table is unchanged; otherwise exactly one record is added, holding the given names and role, `hash(password)` and the default image; the reply is its public projection; email uniqueness is preserved |
| `UserPolicy.TargetId` | backend/src/controllers/userController.ts:53-58 | an id is found iff targetUserId or userId is truthy, and targetUserId wins when both are given |
| `UserPolicy.Revise` | backend/src/controllers/userController.ts:98-112 | a requested role or email replaces the old one; a non-empty name replaces the old one and an absent or empty one keeps it; the password hash and image are kept |
| `UserPolicy.Update` | backend/src/controllers/userController.ts:53-125 | each rejection holds exactly when its guard is the first to fail, in the order MissingId, NotFound, ForbiddenOtherUser, ForbiddenRoleChange, EmailInUse; the reply is Ok exactly when every guard passes; every rejection leaves the table unchanged; success rewrites only the target, with its revised record, and replies with that record; a role change succeeds only for a privileged actor; email uniqueness is preserved |
| `UserPolicy.Delete` | backend/src/controllers/userController.ts:174-187 | NotFound iff the id is absent or unknown; SelfDelete iff it is known and equals currentUserId; Ok iff it is known and differs from currentUserId; rejections leave the table unchanged; success removes exactly that key and keeps every other record; email uniqueness is preserved |
| `UserController.UserStore.CreateUser` | backend/src/controllers/userController.ts:7-46 | the stored table and the reply are those `UserPolicy.Create` gives for the old table; uniqueness (Valid) is kept |
| `UserController.UserStore.UpdateUser` | backend/src/controllers/userController.ts:49-129 | the identity is merged in local variables and the fetched record is changed step by step; the single write at the end makes the table and reply equal those of `UserPolicy.Update`, so a role set before an email clash is never stored |
| `UserController.UserStore.DeleteUser` | backend/src/controllers/userController.ts:170-191 | the table and reply are those of `UserPolicy.Delete` for the old table |
| `UserProperties.ExplicitIdentityIgnoresToken` | backend/src/controllers/userController.ts:61 | with both explicit fields present, neither the header nor the decoder affects the acting identity |
| `UserProperties.NonBearerHeaderIgnored` | backend/src/controllers/userController.ts:61-63 | a missing header, or one outside the Bearer scheme, leaves the explicit identity as it is |
| `UserProperties.PrivilegedLabels` | backend/src/controllers/userController.ts:84-85 | "admin", "Admin" and "SUPER ADMIN" are privileged |
| `UserProperties.UnprivilegedLabels` | backend/src/controllers/userController.ts:93-94 | an absent role, "", "user", "superadmin" and " admin" are not privileged |
| `UserProperties.BearerTokenExamples` | backend/src/controllers/userController.ts:64 | the token is the text between "Bearer " and the next space, and is empty for "Bearer " |
| `UserProperties.TargetPreferred` | backend/src/controllers/userController.ts:53 | when targetUserId is given, an accepted update replies with that id and adds or removes no key |
| `UserProperties.UpdateIsIdempotent` | backend/src/controllers/userController.ts:92-114 | repeating an accepted update on its own result gives the same table and the same reply |
| `UserProperties.NoOpUpdateChangesNothing` | backend/src/controllers/userController.ts:102-114 | a self or anonymous request with no role and only current or empty values succeeds with the table unchanged |
| `UserProperties.SelfUpdateNotCrossAccount` | backend/src/controllers/userController.ts:83-89 | an actor that is the target, or is unknown, is never refused by the cross-account guard |
| `UserProperties.UnprivilegedCrossAccountForbidden` | backend/src/controllers/userController.ts:83-89 | an unprivileged explicit caller naming another existing user gets ForbiddenOtherUser with the table unchanged, whatever header and token come with it |
| `UserProperties.RoleChangeNeedsPrivilege` | backend/src/controllers/userController.ts:92-97 | a requested role from an unprivileged or unknown role is refused, even on the caller's own record, and nothing is written |
| `UserProperties.PrivilegedRoleChangeApplies` | backend/src/controllers/userController.ts:92-99 | a privileged actor's role change on an existing user without an email clash succeeds and stores exactly the new role |
| `UserProperties.UnresolvedActorMayRenameAnyone` | backend/src/controllers/userController.ts:83 | with no identity in body or header, a name-only update of any existing user succeeds |
| `UserProperties.BodyStatedAdminIsTrusted` | backend/src/controllers/userController.ts:51-52 | a body stating role "admin" passes both privilege guards for any target, header and token, whether or not the body states an id |
| `UserProperties.CreateThenDelete` | backend/src/controllers/userController.ts:30-185 | creating a user (saved at line 30) and having someone else delete it (removed at line 185) restores the original table |
| `UserProperties.CreateTwiceConflicts` | backend/src/controllers/userController.ts:11-15 | a second create with the same email is refused with EmailInUse and changes nothing |
| `UserProperties.SelfDeleteNeverSucceeds` | backend/src/controllers/userController.ts:174-183 | deleting one's own id is SelfDelete when it exists and NotFound when it does not; never a removal |
| `UserProperties.EmailTakenScenario` | backend/src/controllers/userController.ts:102-106 | B asking for A's email gets EmailInUse with the table unchanged |
| `UserProperties.OwnEmailScenario` | backend/src/controllers/userController.ts:102 | A restating its own email succeeds and changes nothing |
| `UserProperties.CrossAccountScenario` | backend/src/controllers/userController.ts:83-87 | caller U1 with role "user" updating U2 gets ForbiddenOtherUser |
| `UserProperties.AdminPromotionScenario` | backend/src/controllers/userController.ts:92-98 | caller U1 with role "admin" promoting U2 to "admin" succeeds and U2's role becomes "admin" |
| `UserProperties.CreateScenario` | backend/src/controllers/userController.ts:11-30 | creating a@x.com stores `hash("p")` as the password, and a second create with a@x.com is refused |

## Left out

- HTTP status codes, the JSON envelope and the message texts: a reply is an `Ok` value or an `Error` tag. The comments beside the tags give the status each one answers with.
- The `catch` branches answering 500: these are database or hashing failures (schema validation among them), and the store is a plain map here.
- An id that is not a valid database id makes the real store raise a cast error, which the handler answers with 500. The model treats such an id as an absent key, so it answers NotFound.
- Ids are treated as canonical: each record has exactly one id string, and a lookup succeeds only for that string. The real store converts the id before looking it up, so two spellings can name the same record (a hex id in upper and in lower case, for instance). The guards at lines 83 and 180 still compare the raw strings. So another spelling of the caller's own id gets past the self-delete check at line 180. At line 83 it has the opposite effect: an unprivileged caller who updates their own record under another spelling is refused as if it were another user's record. The model captures neither.
- Salt generation and bcrypt hashing are the `hash` parameter, and the model does not capture the randomness of the salt. `jwt.verify`, the `JWT_SECRET` environment variable and its fallback secret are the `decode` parameter. The warning logged on a failed verification is not modelled.
- Body fields and decoded token claims of a type other than string, and their `String(...)` / `toString()` conversions: every field and claim is an optional string. A numeric `id` or `userId` claim is not modelled, including `0`, which is falsy in JavaScript.
- JsValues.Lower: folds ASCII letters only, not the full Unicode `toLowerCase`.
- The schema of the user document, including required fields and defaults, is not part of this model. `createUser` therefore takes its fields as given strings.
- The read-then-write race between the email check and the write: the model is sequential.
- The commented-out earlier version of the update handler (lines 130-166) is dead code.
- `backend/src/routes/authRoutes.ts` only maps paths to handlers. Its login, register, renewToken and showAllUsers handlers live in a controller that is not part of this model.
