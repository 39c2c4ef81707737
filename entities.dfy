/** The persistent records of the marketplace that the identity pipeline reads and writes. */
module Entities {
  import opened Options

  /** A user's college-verification state. */
  datatype VerificationStatus = Unverified | Pending | Verified | Rejected

  /** The local user record; `clerkId` is the identity provider's subject id. */
  datatype User = User(
    id: string,
    clerkId: string,
    email: string,
    fullName: string,
    phone: Option<string>,
    avatarUrl: Option<string>,
    collegeId: Option<string>,
    verificationStatus: VerificationStatus,
    isAdmin: bool,
    isBanned: bool,
    onboardingComplete: bool)

  /** A user's wallet; balances are whole amounts. */
  datatype Wallet = Wallet(id: string, userId: string, balance: int, frozenBalance: int)

  datatype College = College(id: string, name: string, slug: string, city: string, isActive: bool)

  /** The identity attached to a request by the access gate (`req.user`). */
  datatype AuthUser = AuthUser(id: string, clerkId: string, email: string, isAdmin: bool)

  function AuthUserOf(u: User): (a: AuthUser)
    ensures a.id == u.id && a.clerkId == u.clerkId && a.email == u.email && a.isAdmin == u.isAdmin
  {
    AuthUser(u.id, u.clerkId, u.email, u.isAdmin)
  }
}
