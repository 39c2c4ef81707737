/**
 * The user store behind the identity pipeline: users keyed by their internal
 * id, wallets keyed by their owner's id, and colleges. The database enforces
 * unique internal ids, unique `clerkId`s, unique emails, unique wallet ids and
 * wallet-to-user foreign keys; a write that would break one of these fails
 * with the Prisma error the database reports and changes nothing.
 *
 * Each write is given twice: as a pure transition on `Tables` (the
 * specification, about which the lemmas speak) and as a method of the class
 * `Store` that performs it in place.
 */
module Db {
  import opened Options
  import opened Entities
  import opened Http

  datatype Tables = Tables(
    users: map<string, User>,
    wallets: map<string, Wallet>,
    colleges: map<string, College>)

  /** A database call either yields a value or throws a Prisma error. */
  datatype DbResult<T> = Ok(value: T) | Err(failure: Failure)

  /** The state after a write and what the write returned. */
  datatype Step<T> = Step(after: Tables, result: DbResult<T>)

  /** The state after a request has been handled, and the answer it got. */
  datatype Handled = Handled(after: Tables, response: Response)

  /** Prisma's "unique constraint failed" error. */
  const UniqueViolation := KnownRequestError("P2002", "Unique constraint failed")
  /** Prisma's "record to update not found" error. */
  const RecordNotFound := KnownRequestError("P2025", "Record to update not found")
  /** Prisma's "foreign key constraint failed" error. */
  const ForeignKeyViolation := KnownRequestError("P2003", "Foreign key constraint failed")

  predicate KeyedById(users: map<string, User>) {
    forall id :: id in users ==> users[id].id == id
  }

  /** `clerkId` identifies at most one user. */
  predicate UniqueClerkIds(users: map<string, User>) {
    forall a, b :: a in users && b in users && users[a].clerkId == users[b].clerkId ==> a == b
  }

  predicate UniqueEmails(users: map<string, User>) {
    forall a, b :: a in users && b in users && users[a].email == users[b].email ==> a == b
  }

  /** Every wallet belongs to an existing user, under that user's id. */
  predicate WalletsOwned(users: map<string, User>, wallets: map<string, Wallet>) {
    forall u :: u in wallets ==> u in users && wallets[u].userId == u
  }

  predicate UniqueWalletIds(wallets: map<string, Wallet>) {
    forall a, b :: a in wallets && b in wallets && wallets[a].id == wallets[b].id ==> a == b
  }

  /** The constraints the database schema enforces. */
  predicate Consistent(t: Tables) {
    && KeyedById(t.users)
    && UniqueClerkIds(t.users)
    && UniqueEmails(t.users)
    && WalletsOwned(t.users, t.wallets)
    && UniqueWalletIds(t.wallets)
  }

  predicate ClerkIdTaken(users: map<string, User>, clerkId: string) {
    exists id :: id in users && users[id].clerkId == clerkId
  }

  /** Some user other than `except` has `email`. */
  predicate EmailTakenByOther(users: map<string, User>, email: string, except: string) {
    exists id :: id in users && id != except && users[id].email == email
  }

  predicate WalletIdTaken(wallets: map<string, Wallet>, walletId: string) {
    exists u :: u in wallets && wallets[u].id == walletId
  }

  /** `prisma.user.findUnique({ where: { id } })` */
  function FindUser(t: Tables, id: string): (r: Option<User>)
    ensures r.Some? <==> id in t.users
    ensures r.Some? ==> r.value == t.users[id]
  {
    if id in t.users then Some(t.users[id]) else None
  }

  /** `prisma.user.findUnique({ where: { clerkId } })` */
  function FindUserByClerkId(users: map<string, User>, clerkId: string): (r: Option<User>)
    requires UniqueClerkIds(users)
    ensures r.Some? <==> ClerkIdTaken(users, clerkId)
    ensures r.Some? ==> r.value.clerkId == clerkId && exists id :: id in users && users[id] == r.value
  {
    if ClerkIdTaken(users, clerkId) then
      var id :| id in users && users[id].clerkId == clerkId;
      Some(users[id])
    else None
  }

  /** The user found by `clerkId` is the one user that has it. */
  lemma FindUserByClerkIdIsTheOwner(users: map<string, User>, id: string)
    requires UniqueClerkIds(users) && id in users
    ensures FindUserByClerkId(users, users[id].clerkId) == Some(users[id])
  {
    var r := FindUserByClerkId(users, users[id].clerkId);
    var other :| other in users && users[other] == r.value;
    assert users[other].clerkId == users[id].clerkId;
  }

  /** `prisma.college.findUnique({ where: { id } })` */
  function FindCollege(t: Tables, id: string): (r: Option<College>)
    ensures r.Some? <==> id in t.colleges
    ensures r.Some? ==> r.value == t.colleges[id]
  {
    if id in t.colleges then Some(t.colleges[id]) else None
  }

  /** The row `user.create` inserts: schema defaults for every field the call leaves out. */
  function NewUser(id: string, clerkId: string, email: string, fullName: string, avatarUrl: Option<string>): User {
    User(id, clerkId, email, fullName, None, avatarUrl, None, Unverified, false, false, false)
  }

  /** The row `wallet: { create: {} }` and `wallet.create` insert: both balances zero. */
  function NewWallet(id: string, userId: string): Wallet {
    Wallet(id, userId, 0, 0)
  }

  /** No unique constraint stands in the way of inserting this user and wallet. */
  predicate CreateAllowed(t: Tables, userId: string, walletId: string, clerkId: string, email: string) {
    && userId !in t.users
    && !ClerkIdTaken(t.users, clerkId)
    && !EmailTakenByOther(t.users, email, userId)
    && !WalletIdTaken(t.wallets, walletId)
  }

  /**
   * `prisma.user.create` of a user together with its wallet, in one statement:
   * both rows are inserted, or neither is and the call throws P2002.
   */
  function CreateUserStep(t: Tables, userId: string, walletId: string, clerkId: string, email: string,
                          fullName: string, avatarUrl: Option<string>): (s: Step<User>)
    requires Consistent(t)
    ensures Consistent(s.after)
    ensures s.result.Ok? <==> CreateAllowed(t, userId, walletId, clerkId, email)
    ensures s.result.Err? ==> s.after == t && s.result.failure == UniqueViolation
    ensures s.result.Ok? ==>
      && s.result.value == NewUser(userId, clerkId, email, fullName, avatarUrl)
      && s.after.users.Keys == t.users.Keys + {userId}
      && s.after.users[userId] == s.result.value
      && (forall id :: id in t.users ==> s.after.users[id] == t.users[id])
      && s.after.wallets.Keys == t.wallets.Keys + {userId}
      && s.after.wallets[userId] == NewWallet(walletId, userId)
      && (forall u :: u in t.wallets ==> s.after.wallets[u] == t.wallets[u])
      && s.after.colleges == t.colleges
  {
    if !CreateAllowed(t, userId, walletId, clerkId, email) then Step(t, Err(UniqueViolation))
    else
      var u := NewUser(userId, clerkId, email, fullName, avatarUrl);
      InsertKeepsConsistent(t, u, NewWallet(walletId, userId));
      Step(t.(users := t.users[userId := u], wallets := t.wallets[userId := NewWallet(walletId, userId)]), Ok(u))
  }

  /** Inserting a user and its wallet whose keys are all fresh keeps every constraint. */
  lemma InsertKeepsConsistent(t: Tables, u: User, w: Wallet)
    requires Consistent(t)
    requires u.id !in t.users && !ClerkIdTaken(t.users, u.clerkId) && !EmailTakenByOther(t.users, u.email, u.id)
    requires w.userId == u.id && !WalletIdTaken(t.wallets, w.id)
    ensures Consistent(t.(users := t.users[u.id := u], wallets := t.wallets[u.id := w]))
  {
  }

  /**
   * `prisma.user.update({ where: { clerkId }, data: { email, fullName, avatarUrl } })`:
   * throws P2025 when no user has `clerkId`, and P2002 when another user already
   * has `email`.
   */
  function UpdateUserByClerkIdStep(t: Tables, clerkId: string, email: string, fullName: string,
                                   avatarUrl: Option<string>): (s: Step<User>)
    requires Consistent(t)
    ensures Consistent(s.after)
    ensures !ClerkIdTaken(t.users, clerkId) ==> s == Step(t, Err(RecordNotFound))
    ensures s.result.Err? ==> s.after == t && s.result.failure in {RecordNotFound, UniqueViolation}
    ensures s.result.Ok? ==>
      exists id :: id in t.users && t.users[id].clerkId == clerkId
        && !EmailTakenByOther(t.users, email, id)
        && s.result.value == t.users[id].(email := email, fullName := fullName, avatarUrl := avatarUrl)
        && s.after == t.(users := t.users[id := s.result.value])
    ensures ClerkIdTaken(t.users, clerkId) && s.result.Err? ==> s.result.failure == UniqueViolation
  {
    match FindUserByClerkId(t.users, clerkId)
    case None => Step(t, Err(RecordNotFound))
    case Some(u) =>
      if EmailTakenByOther(t.users, email, u.id) then Step(t, Err(UniqueViolation))
      else
        var u' := u.(email := email, fullName := fullName, avatarUrl := avatarUrl);
        Step(t.(users := t.users[u.id := u']), Ok(u'))
  }

  /**
   * The fields a `prisma.user.update({ where: { id }, data })` call may set;
   * `None` leaves a field as it is.
   */
  datatype UserPatch = UserPatch(
    fullName: Option<string>,
    phone: Option<Option<string>>,
    avatarUrl: Option<Option<string>>,
    collegeId: Option<string>,
    onboardingComplete: Option<bool>)

  function ApplyPatch(u: User, p: UserPatch): User {
    u.(fullName := p.fullName.GetOr(u.fullName),
       phone := p.phone.GetOr(u.phone),
       avatarUrl := p.avatarUrl.GetOr(u.avatarUrl),
       collegeId := if p.collegeId.Some? then p.collegeId else u.collegeId,
       onboardingComplete := p.onboardingComplete.GetOr(u.onboardingComplete))
  }

  /** A patch changes no identity field, no email, no role and no verification state. */
  lemma ApplyPatchKeepsIdentity(u: User, p: UserPatch)
    ensures var v := ApplyPatch(u, p);
      v.id == u.id && v.clerkId == u.clerkId && v.email == u.email && v.isAdmin == u.isAdmin
      && v.isBanned == u.isBanned && v.verificationStatus == u.verificationStatus
  {
  }

  /**
   * `prisma.user.update({ where: { id }, data })`: throws P2025 when there is no
   * such user and P2003 when the patch names a college that does not exist.
   */
  function UpdateUserStep(t: Tables, id: string, p: UserPatch): (s: Step<User>)
    requires Consistent(t)
    ensures Consistent(s.after)
    ensures s.result.Err? ==> s.after == t
    ensures id !in t.users ==> s.result == Err(RecordNotFound)
    ensures id in t.users && p.collegeId.Some? && p.collegeId.value !in t.colleges ==>
      s.result == Err(ForeignKeyViolation)
    ensures s.result.Ok? <==> id in t.users && (p.collegeId.Some? ==> p.collegeId.value in t.colleges)
    ensures s.result.Ok? ==>
      s.result.value == ApplyPatch(t.users[id], p) && s.after == t.(users := t.users[id := s.result.value])
  {
    if id !in t.users then Step(t, Err(RecordNotFound))
    else if p.collegeId.Some? && p.collegeId.value !in t.colleges then Step(t, Err(ForeignKeyViolation))
    else
      var u := ApplyPatch(t.users[id], p);
      Step(t.(users := t.users[id := u]), Ok(u))
  }

  /**
   * `prisma.wallet.upsert({ where: { userId }, update: {}, create: { userId } })`:
   * an existing wallet is returned untouched; otherwise one is created, which
   * fails with P2003 when the user does not exist.
   */
  function UpsertWalletStep(t: Tables, userId: string, walletId: string): (s: Step<Wallet>)
    requires Consistent(t)
    ensures Consistent(s.after)
    ensures userId in t.wallets ==> s == Step(t, Ok(t.wallets[userId]))
    ensures s.result.Err? ==> s.after == t
    ensures userId !in t.wallets ==>
      if userId !in t.users then s.result == Err(ForeignKeyViolation)
      else if WalletIdTaken(t.wallets, walletId) then s.result == Err(UniqueViolation)
      else (s.result == Ok(NewWallet(walletId, userId))
            && s.after == t.(wallets := t.wallets[userId := NewWallet(walletId, userId)]))
    ensures s.after.users == t.users && s.after.colleges == t.colleges
  {
    if userId in t.wallets then Step(t, Ok(t.wallets[userId]))
    else if userId !in t.users then Step(t, Err(ForeignKeyViolation))
    else if WalletIdTaken(t.wallets, walletId) then Step(t, Err(UniqueViolation))
    else
      var w := NewWallet(walletId, userId);
      Step(t.(wallets := t.wallets[userId := w]), Ok(w))
  }

  /** Upserting a wallet twice leaves the store as the first upsert did. */
  lemma UpsertWalletIdempotent(t: Tables, userId: string, walletId: string, walletId': string)
    requires Consistent(t)
    ensures var s := UpsertWalletStep(t, userId, walletId);
      s.result.Ok? ==> UpsertWalletStep(s.after, userId, walletId').after == s.after
  {
  }

  /** The store, updated in place. */
  class Store {
    var users: map<string, User>
    var wallets: map<string, Wallet>
    var colleges: map<string, College>

    function Snapshot(): Tables
      reads this
    {
      Tables(users, wallets, colleges)
    }

    predicate Valid()
      reads this
    {
      Consistent(Snapshot())
    }

    constructor(colleges: map<string, College>)
      ensures Valid() && Snapshot() == Tables(map[], map[], colleges)
    {
      users := map[];
      wallets := map[];
      this.colleges := colleges;
    }

    method CreateUser(userId: string, walletId: string, clerkId: string, email: string,
                      fullName: string, avatarUrl: Option<string>) returns (r: DbResult<User>)
      requires Valid()
      modifies this
      ensures Valid()
      ensures var s := CreateUserStep(old(Snapshot()), userId, walletId, clerkId, email, fullName, avatarUrl);
        Snapshot() == s.after && r == s.result
    {
      if !CreateAllowed(Snapshot(), userId, walletId, clerkId, email) {
        return Err(UniqueViolation);
      }
      var u := NewUser(userId, clerkId, email, fullName, avatarUrl);
      users := users[userId := u];
      wallets := wallets[userId := NewWallet(walletId, userId)];
      r := Ok(u);
    }

    method UpdateUserByClerkId(clerkId: string, email: string, fullName: string, avatarUrl: Option<string>)
      returns (r: DbResult<User>)
      requires Valid()
      modifies this
      ensures Valid()
      ensures var s := UpdateUserByClerkIdStep(old(Snapshot()), clerkId, email, fullName, avatarUrl);
        Snapshot() == s.after && r == s.result
    {
      var found := FindUserByClerkId(users, clerkId);
      if found.None? {
        return Err(RecordNotFound);
      }
      var u := found.value;
      if EmailTakenByOther(users, email, u.id) {
        return Err(UniqueViolation);
      }
      var u' := u.(email := email, fullName := fullName, avatarUrl := avatarUrl);
      users := users[u.id := u'];
      r := Ok(u');
    }

    method UpdateUser(id: string, p: UserPatch) returns (r: DbResult<User>)
      requires Valid()
      modifies this
      ensures Valid()
      ensures var s := UpdateUserStep(old(Snapshot()), id, p); Snapshot() == s.after && r == s.result
    {
      if id !in users {
        return Err(RecordNotFound);
      }
      if p.collegeId.Some? && p.collegeId.value !in colleges {
        return Err(ForeignKeyViolation);
      }
      var u := ApplyPatch(users[id], p);
      users := users[id := u];
      r := Ok(u);
    }

    method UpsertWallet(userId: string, walletId: string) returns (r: DbResult<Wallet>)
      requires Valid()
      modifies this
      ensures Valid()
      ensures var s := UpsertWalletStep(old(Snapshot()), userId, walletId); Snapshot() == s.after && r == s.result
    {
      if userId in wallets {
        return Ok(wallets[userId]);
      }
      if userId !in users {
        return Err(ForeignKeyViolation);
      }
      if WalletIdTaken(wallets, walletId) {
        return Err(UniqueViolation);
      }
      var w := NewWallet(walletId, userId);
      wallets := wallets[userId := w];
      r := Ok(w);
    }
  }
}
