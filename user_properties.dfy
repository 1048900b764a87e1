/** Properties of the user policy that relate several calls or pin down a
    whole class of requests, and a few worked scenarios. */
module UserProperties {
  import opened JsValues
  import opened Identity
  import opened UserPolicy

  // ------------------------------------------------------- identity merge

  /** When both explicit fields are present the header and the token play no
      part at all. */
  lemma ExplicitIdentityIgnoresToken(explicit: Actor, auth1: Option<string>, auth2: Option<string>,
                                     decode1: Decoder, decode2: Decoder)
    requires Truthy(explicit.id) && Truthy(explicit.role)
    ensures ResolveActor(explicit, auth1, decode1) == ResolveActor(explicit, auth2, decode2) == explicit
  {
  }

  /** A header outside the Bearer scheme, or none, is never decoded. */
  lemma NonBearerHeaderIgnored(explicit: Actor, authorization: Option<string>, decode: Decoder)
    requires authorization.None? || !IsBearer(authorization.value)
    ensures ResolveActor(explicit, authorization, decode) == explicit
  {
  }

  /** The role test folds case: both labels count in any capitalisation. */
  lemma PrivilegedLabels()
    ensures IsPrivileged(Some("admin")) && IsPrivileged(Some("Admin")) && IsPrivileged(Some("SUPER ADMIN"))
  {
    assert EqualsIgnoringCase("admin", ADMIN) by {
      forall i | 0 <= i < 5 ensures LowerChar("admin"[i]) == ADMIN[i] {}
    }
    assert EqualsIgnoringCase("Admin", ADMIN) by {
      forall i | 0 <= i < 5 ensures LowerChar("Admin"[i]) == ADMIN[i] {}
    }
    assert EqualsIgnoringCase("SUPER ADMIN", SUPER_ADMIN) by {
      forall i | 0 <= i < 11 ensures LowerChar("SUPER ADMIN"[i]) == SUPER_ADMIN[i] {}
    }
  }

  /** No other label is privileged, and neither is an absent or empty role. */
  lemma UnprivilegedLabels()
    ensures !IsPrivileged(None) && !IsPrivileged(Some("")) && !IsPrivileged(Some("user"))
    ensures !IsPrivileged(Some("superadmin")) && !IsPrivileged(Some(" admin"))
  {
  }

  /** The token is the second space-separated field of the header. */
  lemma BearerTokenExamples()
    ensures BearerToken("Bearer abc.def.ghi") == "abc.def.ghi"
    ensures BearerToken("Bearer abc extra") == "abc"
    ensures BearerToken("Bearer ") == ""
  {
    assert "Bearer abc.def.ghi"[|SCHEME|..] == "abc.def.ghi";
    assert "Bearer abc extra"[|SCHEME|..] == "abc extra";
    assert FirstField("abc extra") == "abc" by {
      assert "abc extra"[1..] == "bc extra" && "bc extra"[1..] == "c extra" && "c extra"[1..] == " extra";
      assert FirstField(" extra") == [];
    }
  }

  // --------------------------------------------------------------- update

  /** Which id an update addresses: targetUserId when given, else userId. */
  lemma TargetPreferred(users: Table, req: UpdateRequest, authorization: Option<string>, decode: Decoder)
    requires Truthy(req.targetUserId)
    ensures var r := Update(users, req, authorization, decode);
            r.outcome.Ok? ==> r.outcome.value.id == req.targetUserId.value && r.table.Keys == users.Keys
  {
  }

  /** Repeating an accepted update changes nothing more and gives the same
      reply. */
  lemma {:induction false} UpdateIsIdempotent(users: Table, req: UpdateRequest,
                                              authorization: Option<string>, decode: Decoder)
    requires Update(users, req, authorization, decode).outcome.Ok?
    ensures var once := Update(users, req, authorization, decode);
            Update(once.table, req, authorization, decode) == once
  {
    var once := Update(users, req, authorization, decode);
    var id := TargetId(req).value;
    var u := Revise(users[id], req);
    assert once.table[id] == u;
    assert Revise(u, req) == u;
    assert !EmailClash(once.table, id, req.email);
    assert once.table[id := u] == once.table;
  }

  /** A request that asks for no change, by the target itself or by no known
      actor, succeeds and leaves the table as it was. */
  lemma {:induction false} NoOpUpdateChangesNothing(users: Table, req: UpdateRequest,
                                                    authorization: Option<string>, decode: Decoder)
    requires Located(users, req)
    requires var a := ActingIdentity(req, authorization, decode);
             !Truthy(a.id) || a.id.value == TargetId(req).value
    requires !Truthy(req.newRole)
    requires var u := users[TargetId(req).value];
             && (!Truthy(req.email) || req.email.value == u.email)
             && (!Truthy(req.firstName) || req.firstName.value == u.firstName)
             && (!Truthy(req.lastName) || req.lastName.value == u.lastName)
    ensures var id := TargetId(req).value;
            Update(users, req, authorization, decode) == Step(users, Ok(Project(id, users[id])))
  {
    var id := TargetId(req).value;
    assert Revise(users[id], req) == users[id];
    assert users[id := users[id]] == users;
  }

  /** The cross-account guard never rejects a request whose actor is the
      target or is unknown. */
  lemma SelfUpdateNotCrossAccount(users: Table, req: UpdateRequest, authorization: Option<string>, decode: Decoder)
    requires var a := ActingIdentity(req, authorization, decode);
             !Truthy(a.id) || (Truthy(TargetId(req)) && a.id.value == TargetId(req).value)
    ensures Update(users, req, authorization, decode).outcome != Err(ForbiddenOtherUser)
  {
  }

  /** An unprivileged caller naming another existing user is refused before
      the role and email guards, whatever header and token come along. */
  lemma UnprivilegedCrossAccountForbidden(users: Table, req: UpdateRequest,
                                          authorization: Option<string>, decode: Decoder)
    requires Located(users, req)
    requires Truthy(req.currentUserId) && Truthy(req.currentUserRole)
    requires req.currentUserId.value != TargetId(req).value
    requires !IsPrivileged(req.currentUserRole)
    ensures Update(users, req, authorization, decode) == Step(users, Err(ForbiddenOtherUser))
  {
  }

  /** A role change by an unprivileged or unknown role is refused even on
      the caller's own record, and nothing is written. */
  lemma RoleChangeNeedsPrivilege(users: Table, req: UpdateRequest, authorization: Option<string>, decode: Decoder)
    requires Truthy(req.newRole)
    requires !IsPrivileged(ActingIdentity(req, authorization, decode).role)
    ensures var r := Update(users, req, authorization, decode);
            r.outcome.Err? && r.table == users
  {
  }

  /** A role change by a privileged actor on an existing user, with no
      email clash, sets exactly that role. */
  lemma PrivilegedRoleChangeApplies(users: Table, req: UpdateRequest, authorization: Option<string>, decode: Decoder)
    requires Located(users, req) && Truthy(req.newRole)
    requires IsPrivileged(ActingIdentity(req, authorization, decode).role)
    requires !EmailClash(users, TargetId(req).value, req.email)
    ensures var r := Update(users, req, authorization, decode);
            r.outcome.Ok? && r.table[TargetId(req).value].role == req.newRole.value
  {
  }

  /** Without any identity (no body fields, no header) the cross-account
      guard is skipped: anyone may rename any existing user. */
  lemma UnresolvedActorMayRenameAnyone(users: Table, req: UpdateRequest, decode: Decoder)
    requires Located(users, req)
    requires req.currentUserId.None? && req.currentUserRole.None?
    requires req.newRole.None? && req.email.None?
    ensures var r := Update(users, req, None, decode);
            r.outcome.Ok? && r.table.Keys == users.Keys
  {
  }

  /** The role check believes a role the caller states in the body: a body
      that says "admin" may update and promote any user, whatever the token,
      and whether or not it states an id. */
  lemma BodyStatedAdminIsTrusted(users: Table, req: UpdateRequest, authorization: Option<string>, decode: Decoder)
    requires Located(users, req)
    requires req.currentUserRole == Some("admin")
    requires !EmailClash(users, TargetId(req).value, req.email)
    ensures Update(users, req, authorization, decode).outcome.Ok?
  {
    PrivilegedLabels();
  }

  // ------------------------------------------------------ create / delete

  /** Creating a user and deleting it again, by someone else, restores the
      table. */
  lemma {:induction false} CreateThenDelete(users: Table, newId: string, email: string, password: string,
                                            firstName: string, lastName: string, role: string,
                                            hash: string -> string, currentUserId: Option<string>)
    requires newId !in users && !EmailTaken(users, email)
    requires currentUserId != Some(newId)
    ensures var created := Create(users, newId, email, password, firstName, lastName, role, hash);
            Delete(created.table, Some(newId), currentUserId) == Step(users, Ok(()))
  {
    var created := Create(users, newId, email, password, firstName, lastName, role, hash);
    assert created.table - {newId} == users;
  }

  /** A second account with the same email is refused. */
  lemma CreateTwiceConflicts(users: Table, id1: string, id2: string, email: string,
                             password: string, firstName: string, lastName: string, role: string,
                             hash: string -> string)
    requires id1 !in users && id2 !in users && id1 != id2
    ensures var first := Create(users, id1, email, password, firstName, lastName, role, hash);
            id2 !in first.table &&
            Create(first.table, id2, email, password, firstName, lastName, role, hash) == Step(first.table, Err(EmailInUse))
  {
    var first := Create(users, id1, email, password, firstName, lastName, role, hash);
    if first.outcome.Ok? {
      assert first.table[id1].email == email;
    }
  }

  /** Deleting one's own id never succeeds, whatever the role: an existing
      id is refused, a missing one is not found. */
  lemma SelfDeleteNeverSucceeds(users: Table, id: string)
    ensures var r := Delete(users, Some(id), Some(id));
            r.table == users && r.outcome == (if id in users then Err(SelfDelete) else Err(NotFound))
  {
  }

  // ------------------------------------------------------------ scenarios

  function Request(target: string, actor: string, actorRole: string,
                   email: Option<string>, newRole: Option<string>): (req: UpdateRequest)
  {
    UpdateRequest(None, Some(target), None, None, email, newRole, Some(actor), Some(actorRole))
  }

  /** Two users: A holds a@x.com and B holds b@x.com. */
  function TwoUsers(hashA: string, hashB: string): (users: Table) {
    map["A" := User("a@x.com", hashA, "A", "A", "user", DEFAULT_PROFILE_IMG),
        "B" := User("b@x.com", hashB, "B", "B", "user", DEFAULT_PROFILE_IMG)]
  }

  /** B may not take A's email. */
  lemma EmailTakenScenario(hashA: string, hashB: string, decode: Decoder)
    ensures var users := TwoUsers(hashA, hashB);
            Update(users, Request("B", "B", "user", Some("a@x.com"), None), None, decode)
              == Step(users, Err(EmailInUse))
  {
    var users := TwoUsers(hashA, hashB);
    var req := Request("B", "B", "user", Some("a@x.com"), None);
    assert TargetId(req) == Some("B");
    assert ActingIdentity(req, None, decode) == Actor(Some("B"), Some("user"));
    assert Located(users, req);
    assert users["B"].email == "b@x.com" && users["A"].email == "a@x.com";
    assert HeldByOther(users, "a@x.com", "B");
    assert EmailClash(users, "B", req.email);
  }

  /** A may restate its own email: nothing changes. */
  lemma OwnEmailScenario(hashA: string, hashB: string, decode: Decoder)
    ensures var users := TwoUsers(hashA, hashB);
            Update(users, Request("A", "A", "user", Some("a@x.com"), None), None, decode)
              == Step(users, Ok(Project("A", users["A"])))
  {
    var users := TwoUsers(hashA, hashB);
    var req := Request("A", "A", "user", Some("a@x.com"), None);
    assert TargetId(req) == Some("A");
    assert ActingIdentity(req, None, decode) == Actor(Some("A"), Some("user"));
    assert users["A"].email == "a@x.com";
    NoOpUpdateChangesNothing(users, req, None, decode);
  }

  /** U1 with role "user" may not touch U2. */
  lemma CrossAccountScenario(u2: User, decode: Decoder)
    ensures var users := map["U2" := u2];
            Update(users, Request("U2", "U1", "user", None, None), None, decode)
              == Step(users, Err(ForbiddenOtherUser))
  {
    UnprivilegedLabels();
    var req := Request("U2", "U1", "user", None, None);
    assert TargetId(req) == Some("U2");
    UnprivilegedCrossAccountForbidden(map["U2" := u2], req, None, decode);
  }

  /** U1 with role "admin" may promote U2 to admin. */
  lemma AdminPromotionScenario(u2: User, decode: Decoder)
    ensures var r := Update(map["U2" := u2], Request("U2", "U1", "admin", None, Some("admin")), None, decode);
            r.outcome.Ok? && r.table["U2"].role == "admin"
  {
    PrivilegedLabels();
    var req := Request("U2", "U1", "admin", None, Some("admin"));
    assert TargetId(req) == Some("U2");
    assert ActingIdentity(req, None, decode) == Actor(Some("U1"), Some("admin"));
    PrivilegedRoleChangeApplies(map["U2" := u2], req, None, decode);
  }

  /** Creating a@x.com once succeeds with a hashed password; twice conflicts. */
  lemma CreateScenario(hash: string -> string)
    ensures var first := Create(map[], "U1", "a@x.com", "p", "A", "B", "user", hash);
            && first.outcome.Ok?
            && first.table["U1"].passwordHash == hash("p")
            && Create(first.table, "U2", "a@x.com", "p", "A", "B", "user", hash).outcome == Err(EmailInUse)
  {
    CreateTwiceConflicts(map[], "U1", "U2", "a@x.com", "p", "A", "B", "user", hash);
  }
}
