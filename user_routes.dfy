/**
 * The user routes: the caller's own profile (`GET /me`, `PUT /me`), onboarding
 * (`POST /onboarding`) and the public profile (`GET /:id`).
 *
 * Each route is given as a pure function over `Tables` (its specification,
 * about which the lemmas speak) and as a method that runs the same middleware
 * chain against the request and the store in place. A database error inside a
 * handler is handed to the error handler, whose answer ends the request.
 */
module UserRoutes {
  import opened Options
  import opened Json
  import opened Entities
  import opened Http
  import opened Db
  import opened Schema
  import opened UserSchemas
  import opened Validate
  import opened ErrorHandler
  import opened AuthMiddleware

  /** What `requireAuth` needs besides the store: the header, the token verifier and whether the read throws. */
  datatype Credentials = Credentials(authorization: Option<string>, verify: string -> VerifyResult, lookupFails: bool)

  function Gatekeep(t: Tables, c: Credentials): Gate
    requires Consistent(t)
  {
    Authenticate(c.authorization, c.verify, t.users, c.lookupFails)
  }

  /** The answer of a stage that ended the request. */
  function Finish(o: Outcome, nodeEnv: Option<string>): Response
    requires !o.Continue?
  {
    match o
    case Respond(r) => r
    case Forward(f) => HandleError(f, nodeEnv)
  }

  /** The identity the access gate attaches is that of a stored user, under that user's id. */
  lemma AdmittedIsStored(t: Tables, c: Credentials)
    requires Consistent(t) && Gatekeep(t, c).Admitted?
    ensures var user := Gatekeep(t, c).user;
      user.id in t.users && user == AuthUserOf(t.users[user.id])
  {
    var g := Gatekeep(t, c);
    var id :| id in t.users && t.users[id].clerkId == SubjectOf(c.verify(BearerToken(c.authorization.value))).value
        && g.user == AuthUserOf(t.users[id]);
    assert id == t.users[id].id == g.user.id;
  }

  const USER_NOT_FOUND_RESPONSE := Error(404, "User not found", NOT_FOUND)
  const BAD_COLLEGE := Error(400, "Invalid or inactive college", VALIDATION_ERROR)

  function CollegeOf(t: Tables, u: User): Option<College> {
    if u.collegeId.Some? then FindCollege(t, u.collegeId.value) else None
  }

  function WalletOf(t: Tables, id: string): Option<Wallet> {
    if id in t.wallets then Some(t.wallets[id]) else None
  }

  /** The college fields `GET /me` selects, when there is a college. */
  function SelectCard(c: Option<College>): Option<CollegeCard> {
    if c.Some? then Some(CollegeCardOf(c.value)) else None
  }

  /** The college fields `GET /:id` and onboarding select, when there is a college. */
  function SelectRef(c: Option<College>): Option<CollegeRef> {
    if c.Some? then Some(CollegeRefOf(c.value)) else None
  }

  /** The wallet fields `GET /me` selects, when there is a wallet. */
  function SelectWallet(w: Option<Wallet>): Option<WalletCard> {
    if w.Some? then Some(WalletCardOf(w.value)) else None
  }

  // ----- GET /me -----

  /** The handler of `GET /me` for the attached user. */
  function Me(t: Tables, user: AuthUser): (r: Response)
    ensures r.status == 200 <==> user.id in t.users
    ensures r.status == 200 ==>
      r.body == MeView(MeUserOf(t.users[user.id]), SelectCard(CollegeOf(t, t.users[user.id])), SelectWallet(WalletOf(t, user.id)))
    ensures r.status != 200 ==> r == USER_NOT_FOUND_RESPONSE
  {
    match FindUser(t, user.id)
    case None => USER_NOT_FOUND_RESPONSE
    case Some(u) => Success(MeView(MeUserOf(u), SelectCard(CollegeOf(t, u)), SelectWallet(WalletOf(t, user.id))))
  }

  /**
   * `GET /me` behind `requireAuth`: every authenticated caller is answered 200,
   * every refused one gets the gate's 401; the 404 branch of the handler is
   * unreachable while the store is consistent.
   */
  function GetMeRoute(t: Tables, c: Credentials): (r: Response)
    requires Consistent(t)
    ensures r.status == 200 <==> Gatekeep(t, c).Admitted?
    ensures Gatekeep(t, c).Denied? ==> r == Gatekeep(t, c).response && r.status == 401
  {
    match Gatekeep(t, c)
    case Denied(r) => r
    case Admitted(user) => AdmittedIsStored(t, c); Me(t, user)
  }

  /** An authenticated caller always finds their own record, with their own wallet. */
  lemma GetMeShowsCaller(t: Tables, c: Credentials)
    requires Consistent(t) && Gatekeep(t, c).Admitted?
    ensures var id := Gatekeep(t, c).user.id;
      id in t.users && GetMeRoute(t, c) == Success(MeView(MeUserOf(t.users[id]), SelectCard(CollegeOf(t, t.users[id])), SelectWallet(WalletOf(t, id))))
  {
    AdmittedIsStored(t, c);
  }

  method GetMe(req: RequestContext, store: Store, verify: string -> VerifyResult, lookupFails: bool)
    returns (r: Response)
    requires store.Valid()
    modifies req
    ensures r == GetMeRoute(store.Snapshot(), Credentials(req.Header("authorization"), verify, lookupFails))
  {
    var o := RequireAuth(req, store, verify, lookupFails);
    if !o.Continue? {
      return Finish(o, None);
    }
    r := Me(store.Snapshot(), req.user.value);
  }

  // ----- PUT /me -----

  /** The new value of a nullable field, when the body has one. */
  function NullableField(body: Json, key: string): (r: Option<Option<string>>)
    ensures r.Some? ==> Get(body, key).Some?
  {
    match Get(body, key)
    case Some(JStr(s)) => Some(Some(s))
    case Some(JNull) => Some(None)
    case _ => None
  }

  /** `data: req.body`: the validated profile fields, each set only when present. */
  function ProfilePatch(body: Json): (p: UserPatch)
    ensures p.fullName.Some? ==> Get(body, "fullName").Some?
    ensures p.phone.Some? ==> Get(body, "phone").Some?
    ensures p.avatarUrl.Some? ==> Get(body, "avatarUrl").Some?
    ensures p.collegeId.None? && p.onboardingComplete.None?
  {
    UserPatch(
      if Get(body, "fullName").Some? && Get(body, "fullName").value.JStr? then Some(Get(body, "fullName").value.s) else None,
      NullableField(body, "phone"),
      NullableField(body, "avatarUrl"),
      None,
      None)
  }

  /** For a validated body the patch sets exactly the fields the body carries, to the values it carries. */
  lemma ProfilePatchOfValidBody(formats: Formats, input: Json)
    requires UpdateProfile(formats, input).Parsed?
    ensures var body := UpdateProfile(formats, input).output;
      var p := ProfilePatch(body);
      var f := input.fields;
      && (p.fullName.Some? <==> "fullName" in f) && ("fullName" in f ==> p.fullName == Some(f["fullName"].s))
      && (p.phone.Some? <==> "phone" in f)
      && ("phone" in f ==> p.phone == Some(if f["phone"].JNull? then None else Some(f["phone"].s)))
      && (p.avatarUrl.Some? <==> "avatarUrl" in f)
      && ("avatarUrl" in f ==> p.avatarUrl == Some(if f["avatarUrl"].JNull? then None else Some(f["avatarUrl"].s)))
      && p.collegeId.None? && p.onboardingComplete.None?
  {
  }

  /** The handler of `PUT /me` for the attached user and the validated body. */
  function UpdateMe(t: Tables, user: AuthUser, body: Json, nodeEnv: Option<string>): (h: Handled)
    requires Consistent(t)
    ensures Consistent(h.after)
  {
    var s := UpdateUserStep(t, user.id, ProfilePatch(body));
    match s.result
    case Ok(u) => Handled(s.after, Success(ProfileView(u.id, u.fullName, u.phone, u.avatarUrl)))
    case Err(f) => Handled(t, HandleError(f, nodeEnv))
  }

  function PutMeRoute(t: Tables, c: Credentials, formats: Formats, body: Json, nodeEnv: Option<string>): (h: Handled)
    requires Consistent(t)
    ensures Consistent(h.after)
  {
    match Gatekeep(t, c)
    case Denied(r) => Handled(t, r)
    case Admitted(user) =>
      var parsed := UpdateProfile(formats, body);
      var o := Decide(parsed, BODY_ERROR);
      if !o.Continue? then Handled(t, Finish(o, nodeEnv))
      else UpdateMe(t, user, parsed.output, nodeEnv)
  }

  /**
   * A refused caller gets the access gate's 401 whatever the body says, and
   * nothing changes: authentication runs before validation.
   */
  lemma PutMeAuthenticatesFirst(t: Tables, c: Credentials, formats: Formats, body: Json, body': Json,
                                nodeEnv: Option<string>)
    requires Consistent(t) && Gatekeep(t, c).Denied?
    ensures PutMeRoute(t, c, formats, body, nodeEnv) == PutMeRoute(t, c, formats, body', nodeEnv)
    ensures PutMeRoute(t, c, formats, body, nodeEnv) == Handled(t, Gatekeep(t, c).response)
    ensures PutMeRoute(t, c, formats, body, nodeEnv).response.status == 401
  {
  }

  /** An invalid body is answered 400 with the schema's issues and changes nothing. */
  lemma PutMeRejectsInvalidBody(t: Tables, c: Credentials, formats: Formats, body: Json, nodeEnv: Option<string>)
    requires Consistent(t) && Gatekeep(t, c).Admitted? && UpdateProfile(formats, body).Failed?
    ensures PutMeRoute(t, c, formats, body, nodeEnv) ==
      Handled(t, Response(400, ErrorBody(BODY_ERROR, Some(VALIDATION_ERROR), Some(Details(UpdateProfile(formats, body).issues)))))
  {
  }

  /**
   * A valid update rewrites only the caller's own row, only in the fields the
   * body carries; identity, email, role and verification state stay, and every
   * other user, every wallet and every college is unchanged.
   */
  lemma PutMeChangesOnlyCaller(t: Tables, c: Credentials, formats: Formats, body: Json, nodeEnv: Option<string>)
    requires Consistent(t) && Gatekeep(t, c).Admitted? && UpdateProfile(formats, body).Parsed?
    ensures var id := Gatekeep(t, c).user.id;
      var h := PutMeRoute(t, c, formats, body, nodeEnv);
      var u := ApplyPatch(t.users[id], ProfilePatch(UpdateProfile(formats, body).output));
      && id in t.users
      && h.after == t.(users := t.users[id := u])
      && h.response == Success(ProfileView(u.id, u.fullName, u.phone, u.avatarUrl))
      && u.id == id && u.email == t.users[id].email && u.isAdmin == t.users[id].isAdmin
      && u.verificationStatus == t.users[id].verificationStatus && u.collegeId == t.users[id].collegeId
  {
    AdmittedIsStored(t, c);
    var id := Gatekeep(t, c).user.id;
    ApplyPatchKeepsIdentity(t.users[id], ProfilePatch(UpdateProfile(formats, body).output));
  }

  method PutMe(req: RequestContext, store: Store, verify: string -> VerifyResult, lookupFails: bool,
               formats: Formats, nodeEnv: Option<string>) returns (r: Response)
    requires store.Valid()
    modifies req, store
    ensures store.Valid()
    ensures var h := PutMeRoute(old(store.Snapshot()), Credentials(req.Header("authorization"), verify, lookupFails),
                                formats, old(req.body), nodeEnv);
      store.Snapshot() == h.after && r == h.response
  {
    var o := RequireAuth(req, store, verify, lookupFails);
    if !o.Continue? {
      return Finish(o, nodeEnv);
    }
    o := ValidateBody(input => UpdateProfile(formats, input), req);
    if !o.Continue? {
      return Finish(o, nodeEnv);
    }
    var result := store.UpdateUser(req.user.value.id, ProfilePatch(req.body));
    match result
    case Ok(u) =>
      r := Success(ProfileView(u.id, u.fullName, u.phone, u.avatarUrl));
    case Err(f) =>
      r := HandleError(f, nodeEnv);
  }

  // ----- POST /onboarding -----

  /** A string field of a validated body (the empty string when it is not one). */
  function StringField(body: Json, key: string): string {
    if Get(body, key).Some? && Get(body, key).value.JStr? then Get(body, key).value.s else ""
  }

  /** `phone || null`: a missing or empty phone is stored as null. */
  function PhoneOf(body: Json): (r: Option<string>)
    ensures r.Some? <==> Get(body, "phone").Some? && Get(body, "phone").value.JStr? && Get(body, "phone").value.s != ""
    ensures r.Some? ==> r.value == Get(body, "phone").value.s
  {
    if Get(body, "phone").Some? && Get(body, "phone").value.JStr? && Get(body, "phone").value.s != "" then
      Some(Get(body, "phone").value.s)
    else None
  }

  /** The data onboarding writes: college, name, phone, and the completion flag. */
  function OnboardingPatch(body: Json): (p: UserPatch)
    ensures p.collegeId == Some(StringField(body, "collegeId")) && p.onboardingComplete == Some(true)
    ensures p.fullName == Some(StringField(body, "fullName")) && p.avatarUrl.None?
    ensures p.phone == Some(PhoneOf(body))
  {
    UserPatch(Some(StringField(body, "fullName")), Some(PhoneOf(body)), None,
              Some(StringField(body, "collegeId")), Some(true))
  }

  /** The college check: it must exist and be active. */
  predicate ActiveCollege(t: Tables, id: string) {
    FindCollege(t, id).Some? && FindCollege(t, id).value.isActive
  }

  /**
   * The handler of `POST /onboarding` for the attached user and the validated
   * body; `walletId` is the id a newly created wallet would get.
   */
  function Onboard(t: Tables, user: AuthUser, body: Json, walletId: string, nodeEnv: Option<string>): (h: Handled)
    requires Consistent(t)
    ensures Consistent(h.after)
    ensures !ActiveCollege(t, StringField(body, "collegeId")) ==> h == Handled(t, BAD_COLLEGE)
    ensures ActiveCollege(t, StringField(body, "collegeId")) && user.id in t.users ==>
      && h.after.users == t.users[user.id := ApplyPatch(t.users[user.id], OnboardingPatch(body))]
      && h.after.colleges == t.colleges
      && (user.id in t.wallets ==> h.after.wallets == t.wallets && h.response.status == 200)
      && (h.response.status == 200 ==> user.id in h.after.wallets)
    ensures h.response.status == 200 ==>
      && ActiveCollege(t, StringField(body, "collegeId"))
      && h.response.body.OnboardedView?
      && h.response.body.id == user.id && h.response.body.onboardingComplete
      && h.response.body.college == Some(CollegeRefOf(t.colleges[StringField(body, "collegeId")]))
  {
    var collegeId := StringField(body, "collegeId");
    if !ActiveCollege(t, collegeId) then Handled(t, BAD_COLLEGE)
    else
      var s := UpdateUserStep(t, user.id, OnboardingPatch(body));
      match s.result
      case Err(f) => Handled(t, HandleError(f, nodeEnv))
      case Ok(u) =>
        var w := UpsertWalletStep(s.after, user.id, walletId);
        if w.result.Err? then Handled(s.after, HandleError(w.result.failure, nodeEnv))
        else Handled(w.after, Success(OnboardedView(u.id, u.fullName, u.email, u.phone, u.onboardingComplete,
                                               SelectRef(FindCollege(s.after, collegeId)))))
  }

  function OnboardingRoute(t: Tables, c: Credentials, formats: Formats, body: Json, walletId: string,
                           nodeEnv: Option<string>): (h: Handled)
    requires Consistent(t)
    ensures Consistent(h.after)
  {
    match Gatekeep(t, c)
    case Denied(r) => Handled(t, r)
    case Admitted(user) =>
      var parsed := Onboarding(formats, body);
      var o := Decide(parsed, BODY_ERROR);
      if !o.Continue? then Handled(t, Finish(o, nodeEnv))
      else Onboard(t, user, parsed.output, walletId, nodeEnv)
  }

  /** For a validated body the data written are the body's college, name and phone, and the flag. */
  lemma OnboardingPatchOfValidBody(formats: Formats, input: Json)
    requires Onboarding(formats, input).Parsed?
    ensures var out := Onboarding(formats, input).output;
      var f := input.fields;
      && StringField(out, "collegeId") == f["collegeId"].s
      && OnboardingPatch(out) == UserPatch(
           Some(f["fullName"].s),
           Some(if "phone" in f && f["phone"].s != "" then Some(f["phone"].s) else None),
           None, Some(f["collegeId"].s), Some(true))
  {
    var out := Onboarding(formats, input).output;
    var f := input.fields;
    assert out.fields["collegeId"] == f["collegeId"] && out.fields["fullName"] == f["fullName"];
    assert "phone" in out.fields <==> "phone" in f;
    assert "phone" in f ==> out.fields["phone"] == f["phone"];
  }

  /** Authentication runs before validation here too. */
  lemma OnboardingAuthenticatesFirst(t: Tables, c: Credentials, formats: Formats, body: Json, body': Json,
                                     walletId: string, nodeEnv: Option<string>)
    requires Consistent(t) && Gatekeep(t, c).Denied?
    ensures OnboardingRoute(t, c, formats, body, walletId, nodeEnv)
         == OnboardingRoute(t, c, formats, body', walletId, nodeEnv)
    ensures OnboardingRoute(t, c, formats, body, walletId, nodeEnv) == Handled(t, Gatekeep(t, c).response)
  {
  }

  /** A valid body naming a missing or inactive college is answered 400 and changes nothing. */
  lemma OnboardingRejectsInactiveCollege(t: Tables, c: Credentials, formats: Formats, body: Json,
                                         walletId: string, nodeEnv: Option<string>)
    requires Consistent(t) && Gatekeep(t, c).Admitted? && Onboarding(formats, body).Parsed?
    requires !ActiveCollege(t, body.fields["collegeId"].s)
    ensures OnboardingRoute(t, c, formats, body, walletId, nodeEnv) == Handled(t, BAD_COLLEGE)
  {
    var out := Onboarding(formats, body).output;
    assert out.fields["collegeId"] == body.fields["collegeId"];
  }

  /**
   * Successful onboarding sets the college, the name, the phone (null when
   * absent or empty) and the completion flag of the caller's row and nothing
   * else; afterwards the caller has a wallet, and a wallet that existed before
   * is untouched.
   */
  lemma OnboardingEffect(t: Tables, c: Credentials, formats: Formats, body: Json, walletId: string,
                         nodeEnv: Option<string>)
    requires Consistent(t) && Gatekeep(t, c).Admitted? && Onboarding(formats, body).Parsed?
    requires OnboardingRoute(t, c, formats, body, walletId, nodeEnv).response.status == 200
    ensures var id := Gatekeep(t, c).user.id;
      var h := OnboardingRoute(t, c, formats, body, walletId, nodeEnv);
      var f := body.fields;
      var phone := if "phone" in f && f["phone"].s != "" then Some(f["phone"].s) else None;
      && id in t.users
      && h.after.users == t.users[id := t.users[id].(collegeId := Some(f["collegeId"].s),
                                                     fullName := f["fullName"].s,
                                                     phone := phone,
                                                     onboardingComplete := true)]
      && ActiveCollege(t, f["collegeId"].s)
      && id in h.after.wallets
      && (id in t.wallets ==> h.after.wallets == t.wallets)
      && h.after.colleges == t.colleges
  {
    AdmittedIsStored(t, c);
    OnboardingPatchOfValidBody(formats, body);
  }

  /** Onboarding again changes no wallet: the upsert leaves an existing wallet as it is. */
  lemma OnboardingTwiceKeepsWallet(t: Tables, c: Credentials, formats: Formats, body: Json,
                                   walletId: string, walletId': string, nodeEnv: Option<string>)
    requires Consistent(t) && Gatekeep(t, c).Admitted? && Onboarding(formats, body).Parsed?
    requires OnboardingRoute(t, c, formats, body, walletId, nodeEnv).response.status == 200
    ensures var h := OnboardingRoute(t, c, formats, body, walletId, nodeEnv);
      Gatekeep(h.after, c).Admitted? && Gatekeep(h.after, c).user.id == Gatekeep(t, c).user.id
      && var h' := OnboardingRoute(h.after, c, formats, body, walletId', nodeEnv);
      h'.response.status == 200 && h'.after.wallets == h.after.wallets
  {
    OnboardingEffect(t, c, formats, body, walletId, nodeEnv);
    AdmittedIsStored(t, c);
    var h := OnboardingRoute(t, c, formats, body, walletId, nodeEnv);
    var id := Gatekeep(t, c).user.id;
    var sub := SubjectOf(c.verify(BearerToken(c.authorization.value))).value;
    assert t.users[id].clerkId == sub by {
      var id0 :| id0 in t.users && t.users[id0].clerkId == sub && Gatekeep(t, c).user == AuthUserOf(t.users[id0]);
      assert id0 == t.users[id0].id;
    }
    assert h.after.users[id].clerkId == sub;
    FindUserByClerkIdIsTheOwner(h.after.users, id);
    OnboardingPatchOfValidBody(formats, body);
    AdmittedIsStored(h.after, c);
    var out := Onboarding(formats, body).output;
    assert Gatekeep(h.after, c).user.id == id;
    assert ActiveCollege(h.after, StringField(out, "collegeId"));
  }

  method PostOnboarding(req: RequestContext, store: Store, verify: string -> VerifyResult, lookupFails: bool,
                        formats: Formats, walletId: string, nodeEnv: Option<string>) returns (r: Response)
    requires store.Valid()
    modifies req, store
    ensures store.Valid()
    ensures var h := OnboardingRoute(old(store.Snapshot()), Credentials(req.Header("authorization"), verify, lookupFails),
                                     formats, old(req.body), walletId, nodeEnv);
      store.Snapshot() == h.after && r == h.response
  {
    var o := RequireAuth(req, store, verify, lookupFails);
    if !o.Continue? {
      return Finish(o, nodeEnv);
    }
    o := ValidateBody(input => Onboarding(formats, input), req);
    if !o.Continue? {
      return Finish(o, nodeEnv);
    }
    r := CompleteOnboarding(store, req.user.value, req.body, walletId, nodeEnv);
  }

  /** The onboarding handler, in place. */
  method CompleteOnboarding(store: Store, user: AuthUser, body: Json, walletId: string, nodeEnv: Option<string>)
    returns (r: Response)
    requires store.Valid()
    modifies store
    ensures store.Valid()
    ensures var h := Onboard(old(store.Snapshot()), user, body, walletId, nodeEnv);
      store.Snapshot() == h.after && r == h.response
  {
    var collegeId := StringField(body, "collegeId");
    var college := FindCollege(store.Snapshot(), collegeId);
    if college.None? || !college.value.isActive {
      return BAD_COLLEGE;
    }
    var updated := store.UpdateUser(user.id, OnboardingPatch(body));
    if updated.Err? {
      return HandleError(updated.failure, nodeEnv);
    }
    var u := updated.value;
    var view := OnboardedView(u.id, u.fullName, u.email, u.phone, u.onboardingComplete,
                              SelectRef(FindCollege(store.Snapshot(), collegeId)));
    var wallet := store.UpsertWallet(user.id, walletId);
    if wallet.Err? {
      return HandleError(wallet.failure, nodeEnv);
    }
    r := Success(view);
  }

  // ----- GET /:id -----

  /** `GET /:id`: public, no authentication; 404 for an unknown id. */
  function PublicProfile(t: Tables, id: string): (r: Response)
    ensures r.status == 200 <==> id in t.users
    ensures r.status != 200 ==> r == USER_NOT_FOUND_RESPONSE
    ensures r.status == 200 ==>
      var u := t.users[id];
      r.body == PublicView(u.id, u.fullName, u.avatarUrl, u.verificationStatus, SelectRef(CollegeOf(t, u)))
  {
    match FindUser(t, id)
    case None => USER_NOT_FOUND_RESPONSE
    case Some(u) => Success(PublicView(u.id, u.fullName, u.avatarUrl, u.verificationStatus, SelectRef(CollegeOf(t, u))))
  }

  method GetUserById(store: Store, id: string) returns (r: Response)
    ensures r == PublicProfile(store.Snapshot(), id)
  {
    var row := FindUser(store.Snapshot(), id);
    if row.None? {
      return USER_NOT_FOUND_RESPONSE;
    }
    var u := row.value;
    r := Success(PublicView(u.id, u.fullName, u.avatarUrl, u.verificationStatus, SelectRef(CollegeOf(store.Snapshot(), u))));
  }
}
