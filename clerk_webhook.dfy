/**
 * The identity provider's webhook: after checking that the signing secret is
 * configured, that the three svix headers are present and that the signature
 * verifies, the handler dispatches on the event type. `user.created` inserts the
 * user together with its wallet, `user.updated` rewrites the user's email, name
 * and avatar, and every other type is acknowledged without effect. A database
 * error during dispatch ends in 500 "Webhook processing failed".
 *
 * Signature verification is the oracle `verify`, which yields the event when
 * the signature is valid and nothing when it throws. The ids the database
 * generates for a new user and its wallet are the parameters `userId` and
 * `walletId`.
 */
module ClerkWebhook {
  import opened Options
  import opened Strings
  import opened Entities
  import opened Http
  import opened Db

  datatype EmailAddress = EmailAddress(emailAddress: string, id: string)

  datatype UserEventData = UserEventData(
    id: string,
    emailAddresses: seq<EmailAddress>,
    firstName: Option<string>,
    lastName: Option<string>,
    imageUrl: Option<string>,
    primaryEmailAddressId: string)

  datatype WebhookEvent = WebhookEvent(eventType: string, data: UserEventData)

  /** `(secret, payload, svix-id, svix-timestamp, svix-signature)` to the event, or nothing when `verify` throws. */
  type SignatureCheck = (string, string, string, string, string) -> Option<WebhookEvent>

  /** `email_addresses.find(e => e.id === primary_email_address_id)` */
  function PrimaryEmail(addresses: seq<EmailAddress>, primaryId: string): (r: Option<EmailAddress>)
    ensures r.None? <==> forall k :: 0 <= k < |addresses| ==> addresses[k].id != primaryId
    ensures r.Some? ==>
              exists k :: 0 <= k < |addresses| && addresses[k] == r.value && r.value.id == primaryId
                          && forall j :: 0 <= j < k ==> addresses[j].id != primaryId
  {
    if |addresses| == 0 then None
    else if addresses[0].id == primaryId then Some(addresses[0])
    else
      var r := PrimaryEmail(addresses[1..], primaryId);
      if r.Some? then
        var k :| 0 <= k < |addresses[1..]| && addresses[1..][k] == r.value
          && r.value.id == primaryId && forall j :: 0 <= j < k ==> addresses[1..][j].id != primaryId;
        assert addresses[k + 1] == r.value;
        assert forall j :: 0 <= j < k + 1 ==> addresses[j].id != primaryId by {
          forall j | 0 <= j < k + 1 ensures addresses[j].id != primaryId {
            if j > 0 {
              assert addresses[j] == addresses[1..][j - 1];
            }
          }
        }
        r
      else
        assert forall k :: 0 <= k < |addresses| ==> addresses[k].id != primaryId by {
          forall k | 0 <= k < |addresses| ensures addresses[k].id != primaryId {
            if k > 0 {
              assert addresses[k] == addresses[1..][k - 1];
            }
          }
        }
        None
  }

  /** A name part survives `filter(Boolean)` when it is neither null nor empty. */
  predicate Present(part: Option<string>) {
    part.Some? && part.value != ""
  }

  /** `[first, last].filter(Boolean)` */
  function NameParts(first: Option<string>, last: Option<string>): (r: seq<string>)
    ensures forall k :: 0 <= k < |r| ==> r[k] != ""
  {
    (if Present(first) then [first.value] else []) + (if Present(last) then [last.value] else [])
  }

  /** `[first, last].filter(Boolean).join(" ") || "User"` */
  function FullName(first: Option<string>, last: Option<string>): (r: string)
    ensures Present(first) && Present(last) ==> r == first.value + " " + last.value
    ensures Present(first) && !Present(last) ==> r == first.value
    ensures !Present(first) && Present(last) ==> r == last.value
    ensures !Present(first) && !Present(last) ==> r == "User"
    ensures r != ""
  {
    var parts := NameParts(first, last);
    var joined := Join(parts, " ");
    assert |parts| == 2 ==> joined == parts[0] + " " + Join(parts[1..], " ") && parts[1..] == [parts[1]];
    if joined == "" then "User" else joined
  }

  /** The outcome of a handler: the user it wrote, or nothing when there was no primary email. */
  type Written = Step<Option<User>>

  function Lift(s: Step<User>): (w: Written)
    ensures w.after == s.after
    ensures w.result.Ok? <==> s.result.Ok?
    ensures s.result.Ok? ==> w.result.value == Some(s.result.value)
    ensures s.result.Err? ==> w.result.failure == s.result.failure
  {
    match s.result
    case Ok(u) => Step(s.after, Ok(Some(u)))
    case Err(f) => Step(s.after, Err(f))
  }

  /** `handleUserCreated`: insert the user (with its wallet) unless there is no primary email. */
  function UserCreated(t: Tables, data: UserEventData, userId: string, walletId: string): (w: Written)
    requires Consistent(t)
    ensures Consistent(w.after)
    ensures w.result.Err? ==> w.after == t
    ensures PrimaryEmail(data.emailAddresses, data.primaryEmailAddressId).None? ==> w == Step(t, Ok(None))
    ensures PrimaryEmail(data.emailAddresses, data.primaryEmailAddressId).Some? ==>
      var email := PrimaryEmail(data.emailAddresses, data.primaryEmailAddressId).value.emailAddress;
      var user := NewUser(userId, data.id, email, FullName(data.firstName, data.lastName), data.imageUrl);
      && (w.result.Ok? <==> CreateAllowed(t, userId, walletId, data.id, email))
      && (w.result.Ok? ==>
            && w.result.value == Some(user)
            && w.after.users == t.users[userId := user]
            && w.after.wallets == t.wallets[userId := NewWallet(walletId, userId)]
            && w.after.colleges == t.colleges)
  {
    match PrimaryEmail(data.emailAddresses, data.primaryEmailAddressId)
    case None => Step(t, Ok(None))
    case Some(e) =>
      var s := CreateUserStep(t, userId, walletId, data.id, e.emailAddress,
                              FullName(data.firstName, data.lastName), data.imageUrl);
      assert s.result.Ok? ==> s.after.users == t.users[userId := s.result.value];
      assert s.result.Ok? ==> s.after.wallets == t.wallets[userId := NewWallet(walletId, userId)];
      Lift(s)
  }

  /** `handleUserUpdated`: rewrite email, name and avatar of the user with `clerkId == data.id`. */
  function UserUpdated(t: Tables, data: UserEventData): (w: Written)
    requires Consistent(t)
    ensures Consistent(w.after)
    ensures w.result.Err? ==> w.after == t
    ensures PrimaryEmail(data.emailAddresses, data.primaryEmailAddressId).None? ==> w == Step(t, Ok(None))
    ensures PrimaryEmail(data.emailAddresses, data.primaryEmailAddressId).Some? && !ClerkIdTaken(t.users, data.id) ==>
      w == Step(t, Err(RecordNotFound))
    ensures PrimaryEmail(data.emailAddresses, data.primaryEmailAddressId).Some? && w.result.Ok? ==>
      var email := PrimaryEmail(data.emailAddresses, data.primaryEmailAddressId).value.emailAddress;
      forall id :: id in t.users && t.users[id].clerkId == data.id ==>
        var user := t.users[id].(email := email, fullName := FullName(data.firstName, data.lastName),
                                 avatarUrl := data.imageUrl);
        w.result.value == Some(user) && w.after == t.(users := t.users[id := user])
  {
    match PrimaryEmail(data.emailAddresses, data.primaryEmailAddressId)
    case None => Step(t, Ok(None))
    case Some(e) =>
      var fullName := FullName(data.firstName, data.lastName);
      var s := UpdateUserByClerkIdStep(t, data.id, e.emailAddress, fullName, data.imageUrl);
      assert forall id :: id in t.users && t.users[id].clerkId == data.id && s.result.Ok? ==>
        var user := t.users[id].(email := e.emailAddress, fullName := fullName, avatarUrl := data.imageUrl);
        s.result.value == user && s.after == t.(users := t.users[id := user]) by {
        forall id | id in t.users && t.users[id].clerkId == data.id && s.result.Ok?
          ensures var user := t.users[id].(email := e.emailAddress, fullName := fullName, avatarUrl := data.imageUrl);
                  s.result.value == user && s.after == t.(users := t.users[id := user])
        {
          var id' :| id' in t.users && t.users[id'].clerkId == data.id
              && !EmailTakenByOther(t.users, e.emailAddress, id')
              && s.result.value == t.users[id'].(email := e.emailAddress, fullName := fullName,
                                                 avatarUrl := data.imageUrl)
              && s.after == t.(users := t.users[id' := s.result.value]);
          assert id' == id;
        }
      }
      Lift(s)
  }

  function Dispatch(t: Tables, e: WebhookEvent, userId: string, walletId: string): (w: Written)
    requires Consistent(t)
    ensures Consistent(w.after)
    ensures w.result.Err? ==> w.after == t
    ensures e.eventType != "user.created" && e.eventType != "user.updated" ==> w == Step(t, Ok(None))
  {
    if e.eventType == "user.created" then UserCreated(t, e.data, userId, walletId)
    else if e.eventType == "user.updated" then UserUpdated(t, e.data)
    else Step(t, Ok(None))
  }

  const SECRET_MISSING := PlainErrorResponse(500, "Webhook secret not configured")
  const HEADERS_MISSING := PlainErrorResponse(400, "Missing svix headers")
  const BAD_SIGNATURE := PlainErrorResponse(400, "Invalid webhook signature")
  /** `res.json({ received: true })` */
  const ACK := Success(Received)
  const PROCESSING_FAILED := PlainErrorResponse(500, "Webhook processing failed")

  /** A header that is present and not empty. */
  function SvixHeader(headers: map<string, string>, name: string): (r: Option<string>)
    ensures r.Some? <==> name in headers && headers[name] != ""
    ensures r.Some? ==> r.value == headers[name]
  {
    if name in headers && headers[name] != "" then Some(headers[name]) else None
  }

  predicate HasSvixHeaders(headers: map<string, string>) {
    SvixHeader(headers, "svix-id").Some? && SvixHeader(headers, "svix-timestamp").Some?
    && SvixHeader(headers, "svix-signature").Some?
  }

  /** The event the signature check yields for these headers, when they are all present. */
  function Verified(secret: string, headers: map<string, string>, payload: string, verify: SignatureCheck): Option<WebhookEvent>
    requires HasSvixHeaders(headers)
  {
    verify(secret, payload, headers["svix-id"], headers["svix-timestamp"], headers["svix-signature"])
  }

  /** The POST handler. `secret` is the configured signing secret. */
  function HandleWebhook(t: Tables, secret: Option<string>, headers: map<string, string>, payload: string,
                         verify: SignatureCheck, userId: string, walletId: string): (h: Handled)
    requires Consistent(t)
    ensures Consistent(h.after)
    ensures (secret.None? || secret.value == "") ==> h == Handled(t, SECRET_MISSING)
    ensures secret.Some? && secret.value != "" && !HasSvixHeaders(headers) ==> h == Handled(t, HEADERS_MISSING)
    ensures secret.Some? && secret.value != "" && HasSvixHeaders(headers) ==>
      match Verified(secret.value, headers, payload, verify)
      case None => h == Handled(t, BAD_SIGNATURE)
      case Some(e) =>
        var w := Dispatch(t, e, userId, walletId);
        h.after == w.after && h.response == (if w.result.Ok? then ACK else PROCESSING_FAILED)
    ensures h.response.status == 200 <==> h.response == ACK
    ensures h.response.status != 200 ==> h.after == t
  {
    if secret.None? || secret.value == "" then Handled(t, SECRET_MISSING)
    else if !HasSvixHeaders(headers) then Handled(t, HEADERS_MISSING)
    else match Verified(secret.value, headers, payload, verify)
      case None => Handled(t, BAD_SIGNATURE)
      case Some(e) =>
        var w := Dispatch(t, e, userId, walletId);
        if w.result.Ok? then Handled(w.after, ACK) else Handled(t, PROCESSING_FAILED)
  }

  /** A delivery whose signature verifies to `e`. */
  predicate Delivers(secret: Option<string>, headers: map<string, string>, payload: string,
                     verify: SignatureCheck, e: WebhookEvent) {
    secret.Some? && secret.value != "" && HasSvixHeaders(headers)
    && Verified(secret.value, headers, payload, verify) == Some(e)
  }

  /** An event of any other type is acknowledged and changes nothing. */
  lemma OtherEventIgnored(t: Tables, secret: Option<string>, headers: map<string, string>, payload: string,
                          verify: SignatureCheck, e: WebhookEvent, userId: string, walletId: string)
    requires Consistent(t) && Delivers(secret, headers, payload, verify, e)
    requires e.eventType != "user.created" && e.eventType != "user.updated"
    ensures HandleWebhook(t, secret, headers, payload, verify, userId, walletId) == Handled(t, ACK)
  {
  }

  /** Without a primary email either handler returns early: 200 and nothing changes. */
  lemma NoPrimaryEmailIgnored(t: Tables, secret: Option<string>, headers: map<string, string>, payload: string,
                              verify: SignatureCheck, e: WebhookEvent, userId: string, walletId: string)
    requires Consistent(t) && Delivers(secret, headers, payload, verify, e)
    requires forall k :: 0 <= k < |e.data.emailAddresses| ==>
      e.data.emailAddresses[k].id != e.data.primaryEmailAddressId
    ensures HandleWebhook(t, secret, headers, payload, verify, userId, walletId) == Handled(t, ACK)
  {
  }

  /**
   * `user.created` for a user the store does not know yet adds exactly that
   * user (with the event's clerk id, primary email, name and avatar, and every
   * default) and exactly one wallet for it; nothing else changes.
   */
  lemma CreatedAddsUserAndWallet(t: Tables, secret: Option<string>, headers: map<string, string>, payload: string,
                                 verify: SignatureCheck, e: WebhookEvent, userId: string, walletId: string,
                                 primary: EmailAddress)
    requires Consistent(t) && Delivers(secret, headers, payload, verify, e)
    requires e.eventType == "user.created"
    requires PrimaryEmail(e.data.emailAddresses, e.data.primaryEmailAddressId) == Some(primary)
    requires CreateAllowed(t, userId, walletId, e.data.id, primary.emailAddress)
    ensures var h := HandleWebhook(t, secret, headers, payload, verify, userId, walletId);
      && h.response == ACK
      && h.after.users == t.users[userId := NewUser(userId, e.data.id, primary.emailAddress,
                                                    FullName(e.data.firstName, e.data.lastName), e.data.imageUrl)]
      && h.after.wallets == t.wallets[userId := NewWallet(walletId, userId)]
      && h.after.colleges == t.colleges
  {
    var s := CreateUserStep(t, userId, walletId, e.data.id, primary.emailAddress,
                            FullName(e.data.firstName, e.data.lastName), e.data.imageUrl);
    assert s.after.users == t.users[userId := s.result.value];
    assert s.after.wallets == t.wallets[userId := NewWallet(walletId, userId)];
  }

  /**
   * A repeated `user.created` (its clerk id already stored) violates the unique
   * constraint: the answer is 500 and no second row appears.
   */
  lemma DuplicateCreatedFails(t: Tables, secret: Option<string>, headers: map<string, string>, payload: string,
                              verify: SignatureCheck, e: WebhookEvent, userId: string, walletId: string)
    requires Consistent(t) && Delivers(secret, headers, payload, verify, e)
    requires e.eventType == "user.created"
    requires PrimaryEmail(e.data.emailAddresses, e.data.primaryEmailAddressId).Some?
    requires ClerkIdTaken(t.users, e.data.id)
    ensures HandleWebhook(t, secret, headers, payload, verify, userId, walletId) == Handled(t, PROCESSING_FAILED)
  {
  }

  /** Delivering the same `user.created` twice leaves the store as the first delivery did, and the second gets 500. */
  lemma CreatedTwice(t: Tables, secret: Option<string>, headers: map<string, string>, payload: string,
                     verify: SignatureCheck, e: WebhookEvent, userId: string, walletId: string,
                     userId': string, walletId': string)
    requires Consistent(t) && Delivers(secret, headers, payload, verify, e)
    requires e.eventType == "user.created"
    requires PrimaryEmail(e.data.emailAddresses, e.data.primaryEmailAddressId).Some?
    ensures var first := HandleWebhook(t, secret, headers, payload, verify, userId, walletId);
      first.response == ACK ==>
        HandleWebhook(first.after, secret, headers, payload, verify, userId', walletId')
          == Handled(first.after, PROCESSING_FAILED)
  {
    var first := HandleWebhook(t, secret, headers, payload, verify, userId, walletId);
    if first.response == ACK {
      var primary := PrimaryEmail(e.data.emailAddresses, e.data.primaryEmailAddressId).value;
      var s := CreateUserStep(t, userId, walletId, e.data.id, primary.emailAddress,
                              FullName(e.data.firstName, e.data.lastName), e.data.imageUrl);
      assert s.result.Ok?;
      assert first.after.users[userId].clerkId == e.data.id;
      DuplicateCreatedFails(first.after, secret, headers, payload, verify, e, userId', walletId');
    }
  }

  /** `user.updated` for a clerk id no user has makes the update throw: 500 and nothing is created. */
  lemma UpdatedUnknownFails(t: Tables, secret: Option<string>, headers: map<string, string>, payload: string,
                            verify: SignatureCheck, e: WebhookEvent, userId: string, walletId: string)
    requires Consistent(t) && Delivers(secret, headers, payload, verify, e)
    requires e.eventType == "user.updated"
    requires PrimaryEmail(e.data.emailAddresses, e.data.primaryEmailAddressId).Some?
    requires !ClerkIdTaken(t.users, e.data.id)
    ensures HandleWebhook(t, secret, headers, payload, verify, userId, walletId) == Handled(t, PROCESSING_FAILED)
  {
  }

  /**
   * A successful `user.updated` changes only the email, name and avatar of the
   * one user with the event's clerk id; every other user, every wallet and
   * every college is unchanged.
   */
  lemma UpdatedChangesThreeFields(t: Tables, secret: Option<string>, headers: map<string, string>, payload: string,
                                  verify: SignatureCheck, e: WebhookEvent, userId: string, walletId: string,
                                  primary: EmailAddress, id: string)
    requires Consistent(t) && Delivers(secret, headers, payload, verify, e)
    requires e.eventType == "user.updated"
    requires PrimaryEmail(e.data.emailAddresses, e.data.primaryEmailAddressId) == Some(primary)
    requires id in t.users && t.users[id].clerkId == e.data.id
    requires HandleWebhook(t, secret, headers, payload, verify, userId, walletId).response == ACK
    ensures var h := HandleWebhook(t, secret, headers, payload, verify, userId, walletId);
      && h.after.users == t.users[id := t.users[id].(email := primary.emailAddress,
                                                     fullName := FullName(e.data.firstName, e.data.lastName),
                                                     avatarUrl := e.data.imageUrl)]
      && h.after.wallets == t.wallets && h.after.colleges == t.colleges
  {
    var s := UpdateUserByClerkIdStep(t, e.data.id, primary.emailAddress,
                                     FullName(e.data.firstName, e.data.lastName), e.data.imageUrl);
    assert s.result.Ok?;
    var id' :| id' in t.users && t.users[id'].clerkId == e.data.id
        && !EmailTakenByOther(t.users, primary.emailAddress, id')
        && s.result.value == t.users[id'].(email := primary.emailAddress,
                                           fullName := FullName(e.data.firstName, e.data.lastName),
                                           avatarUrl := e.data.imageUrl)
        && s.after == t.(users := t.users[id' := s.result.value]);
    assert id' == id;
  }

  /** The handler run against the store in place. */
  method ReceiveWebhook(store: Store, secret: Option<string>, headers: map<string, string>, payload: string,
                        verify: SignatureCheck, userId: string, walletId: string) returns (r: Response)
    requires store.Valid()
    modifies store
    ensures store.Valid()
    ensures var h := HandleWebhook(old(store.Snapshot()), secret, headers, payload, verify, userId, walletId);
      store.Snapshot() == h.after && r == h.response
  {
    if secret.None? || secret.value == "" {
      return SECRET_MISSING;
    }
    if !HasSvixHeaders(headers) {
      return HEADERS_MISSING;
    }
    var event := Verified(secret.value, headers, payload, verify);
    if event.None? {
      return BAD_SIGNATURE;
    }
    var e := event.value;
    var data := e.data;
    var primary := PrimaryEmail(data.emailAddresses, data.primaryEmailAddressId);
    if (e.eventType == "user.created" || e.eventType == "user.updated") && primary.Some? {
      var fullName := FullName(data.firstName, data.lastName);
      var result: DbResult<User>;
      if e.eventType == "user.created" {
        result := store.CreateUser(userId, walletId, data.id, primary.value.emailAddress, fullName, data.imageUrl);
      } else {
        result := store.UpdateUserByClerkId(data.id, primary.value.emailAddress, fullName, data.imageUrl);
      }
      if result.Err? {
        return PROCESSING_FAILED;
      }
    }
    r := ACK;
  }
}
