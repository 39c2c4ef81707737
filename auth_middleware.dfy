/**
 * The access gate: `requireAuth` checks the `Authorization` header, verifies
 * the bearer token with the identity provider, looks the token's subject up
 * by `clerkId` and attaches the user's identity to the request; `requireAdmin`
 * and `requireVerified` are the later gates.
 *
 * Token verification is an oracle `verify`; whether the store read throws is
 * the flag `lookupFails`.
 */
module AuthMiddleware {
  import opened Options
  import opened Strings
  import opened Entities
  import opened Http
  import opened Db

  /** What the token verifier does: throws, or yields a payload whose `sub` may be missing. */
  datatype VerifyResult = VerifyThrew | Payload(sub: Option<string>)

  /** The access gate lets the request through with a user, or answers it. */
  datatype Gate = Admitted(user: AuthUser) | Denied(response: Response)

  const BEARER := "Bearer "

  predicate HasBearer(authorization: Option<string>) {
    authorization.Some? && StartsWith(authorization.value, BEARER)
  }

  /** A header starting with "Bearer " splits on spaces into at least two pieces, the second being the token. */
  lemma BearerPieces(h: string)
    requires StartsWith(h, BEARER)
    ensures |Split(h, ' ')| >= 2 && Split(h, ' ')[1] == TakeUntil(h[7..], ' ')
  {
    assert h[..7] == BEARER;
    assert h == "Bearer" + h[6..];
    FirstIndexOfPrefix("Bearer", ' ', h[6..]);
    SplitFirst(h, ' ');
  }

  /** `authHeader.split(" ")[1]`: the text after "Bearer " up to the next space. */
  function BearerToken(h: string): (token: string)
    requires StartsWith(h, BEARER)
    ensures token == TakeUntil(h[7..], ' ')
  {
    BearerPieces(h);
    Split(h, ' ')[1]
  }

  /** A token without spaces is extracted as it was sent; "Bearer " alone gives the empty token. */
  lemma {:induction false} BearerTokenOf(token: string)
    requires ' ' !in token
    ensures StartsWith(BEARER + token, BEARER) && BearerToken(BEARER + token) == token
  {
    var h := BEARER + token;
    assert h[..7] == BEARER;
    assert h[7..] == token;
    assert FirstIndexOf(token, ' ') == |token|;
  }

  lemma BareBearerGivesEmptyToken()
    ensures BearerToken(BEARER) == ""
  {
    BearerTokenOf("");
    assert BEARER + "" == BEARER;
  }

  /** The verified subject, when the payload has a truthy `sub`. */
  function SubjectOf(v: VerifyResult): (r: Option<string>)
    ensures r.Some? <==> v.Payload? && v.sub.Some? && v.sub.value != ""
    ensures r.Some? ==> r == v.sub
  {
    if v.Payload? && v.sub.Some? && v.sub.value != "" then v.sub else None
  }

  const MISSING_TOKEN := Error(401, "Missing auth token", UNAUTHORIZED)
  const INVALID_TOKEN := Error(401, "Invalid token", UNAUTHORIZED)
  const VERIFICATION_FAILED := Error(401, "Token verification failed", UNAUTHORIZED)
  const UNKNOWN_USER := Error(401, "User not found in database", USER_NOT_FOUND)
  const AUTH_FAILED := Error(401, "Authentication failed", UNAUTHORIZED)

  /** `requireAuth`'s decision. */
  function Authenticate(authorization: Option<string>, verify: string -> VerifyResult,
                        users: map<string, User>, lookupFails: bool): (g: Gate)
    requires UniqueClerkIds(users)
    ensures g.Denied? ==> g.response.status == 401 && g.response.body.ErrorBody?
    ensures !HasBearer(authorization) ==> g == Denied(MISSING_TOKEN)
    ensures HasBearer(authorization) ==>
      var v := verify(BearerToken(authorization.value));
      && (v.VerifyThrew? ==> g == Denied(VERIFICATION_FAILED))
      && (v.Payload? && SubjectOf(v).None? ==> g == Denied(INVALID_TOKEN))
      && (SubjectOf(v).Some? && lookupFails ==> g == Denied(AUTH_FAILED))
      && (SubjectOf(v).Some? && !lookupFails && !ClerkIdTaken(users, SubjectOf(v).value) ==> g == Denied(UNKNOWN_USER))
    ensures g.Admitted? <==>
      && HasBearer(authorization)
      && SubjectOf(verify(BearerToken(authorization.value))).Some?
      && !lookupFails
      && ClerkIdTaken(users, SubjectOf(verify(BearerToken(authorization.value))).value)
    ensures g.Admitted? ==>
      exists id :: id in users && users[id].clerkId == SubjectOf(verify(BearerToken(authorization.value))).value
        && g.user == AuthUserOf(users[id])
  {
    if !HasBearer(authorization) then Denied(MISSING_TOKEN)
    else
      var v := verify(BearerToken(authorization.value));
      if v.VerifyThrew? then Denied(VERIFICATION_FAILED)
      else if SubjectOf(v).None? then Denied(INVALID_TOKEN)
      else if lookupFails then Denied(AUTH_FAILED)
      else match FindUserByClerkId(users, SubjectOf(v).value)
        case None => Denied(UNKNOWN_USER)
        case Some(u) => Admitted(AuthUserOf(u))
  }

  /** Without a bearer header nothing is verified and nothing is looked up: the answer does not depend on either. */
  lemma MissingHeaderNeedsNoVerifier(authorization: Option<string>,
                                     verify: string -> VerifyResult, verify': string -> VerifyResult,
                                     users: map<string, User>, users': map<string, User>,
                                     lookupFails: bool, lookupFails': bool)
    requires UniqueClerkIds(users) && UniqueClerkIds(users')
    requires !HasBearer(authorization)
    ensures Authenticate(authorization, verify, users, lookupFails)
         == Authenticate(authorization, verify', users', lookupFails')
  {
  }

  /** When verification throws or yields no subject, the store is not consulted. */
  lemma BadTokenNeedsNoLookup(authorization: Option<string>, verify: string -> VerifyResult,
                              users: map<string, User>, users': map<string, User>,
                              lookupFails: bool, lookupFails': bool)
    requires UniqueClerkIds(users) && UniqueClerkIds(users')
    requires HasBearer(authorization) && SubjectOf(verify(BearerToken(authorization.value))).None?
    ensures Authenticate(authorization, verify, users, lookupFails)
         == Authenticate(authorization, verify, users', lookupFails')
  {
  }

  /** A token whose subject is a stored user's `clerkId` admits exactly that user's identity. */
  lemma AuthenticatesStoredUser(token: string, verify: string -> VerifyResult, users: map<string, User>, id: string)
    requires UniqueClerkIds(users) && id in users
    requires ' ' !in token && users[id].clerkId != ""
    requires verify(token) == Payload(Some(users[id].clerkId))
    ensures Authenticate(Some(BEARER + token), verify, users, false) == Admitted(AuthUserOf(users[id]))
  {
    BearerTokenOf(token);
    FindUserByClerkIdIsTheOwner(users, id);
  }

  /**
   * `requireAuth`: on success `req.user` is set and the chain continues;
   * otherwise the request is answered and `req.user` stays as it was.
   */
  method RequireAuth(req: RequestContext, store: Store, verify: string -> VerifyResult, lookupFails: bool)
    returns (o: Outcome)
    requires store.Valid()
    modifies req
    ensures var g := Authenticate(req.Header("authorization"), verify, store.users, lookupFails);
      && (g.Admitted? ==> o == Continue && req.user == Some(g.user))
      && (g.Denied? ==> o == Respond(g.response) && req.user == old(req.user))
    ensures req.body == old(req.body) && req.query == old(req.query)
  {
    var authorization := req.Header("authorization");
    if !HasBearer(authorization) {
      return Respond(MISSING_TOKEN);
    }
    var token := BearerToken(authorization.value);
    var v := verify(token);
    if v.VerifyThrew? {
      return Respond(VERIFICATION_FAILED);
    }
    var sub := SubjectOf(v);
    if sub.None? {
      return Respond(INVALID_TOKEN);
    }
    if lookupFails {
      return Respond(AUTH_FAILED);
    }
    var found := FindUserByClerkId(store.users, sub.value);
    if found.None? {
      return Respond(UNKNOWN_USER);
    }
    req.user := Some(AuthUserOf(found.value));
    o := Continue;
  }

  const ADMIN_REQUIRED := Error(403, "Admin access required", FORBIDDEN)

  /** `requireAdmin`: continue iff a user is attached and is an admin. */
  function RequireAdmin(user: Option<AuthUser>): (o: Outcome)
    ensures o.Continue? <==> user.Some? && user.value.isAdmin
    ensures !o.Continue? ==> o == Respond(ADMIN_REQUIRED)
  {
    if user.Some? && user.value.isAdmin then Continue else Respond(ADMIN_REQUIRED)
  }

  /** After a successful `requireAuth`, `requireAdmin` lets through exactly the stored admins. */
  lemma AdminGateFollowsStore(authorization: Option<string>, verify: string -> VerifyResult,
                              users: map<string, User>)
    requires KeyedById(users) && UniqueClerkIds(users)
    requires Authenticate(authorization, verify, users, false).Admitted?
    ensures var g := Authenticate(authorization, verify, users, false);
      g.user.id in users
      && (RequireAdmin(Some(g.user)).Continue? <==> users[g.user.id].isAdmin)
  {
    var g := Authenticate(authorization, verify, users, false);
    var id :| id in users && users[id].clerkId == SubjectOf(verify(BearerToken(authorization.value))).value
        && g.user == AuthUserOf(users[id]);
    assert id == users[id].id == g.user.id;
  }

  const VERIFICATION_REQUIRED := Error(403, "College verification required", NOT_VERIFIED)

  /**
   * `requireVerified`: reads the user's current verification status from the
   * store (not from the identity attached by `requireAuth`) and continues only
   * when it is `Verified`.
   */
  method RequireVerified(req: RequestContext, store: Store) returns (o: Outcome)
    requires req.user.Some?
    ensures var id := req.user.value.id;
      o.Continue? <==> id in store.users && store.users[id].verificationStatus == Verified
    ensures !o.Continue? ==> o == Respond(VERIFICATION_REQUIRED)
  {
    var row := FindUser(store.Snapshot(), req.user.value.id);
    if row.Some? && row.value.verificationStatus == Verified {
      o := Continue;
    } else {
      o := Respond(VERIFICATION_REQUIRED);
    }
  }
}
