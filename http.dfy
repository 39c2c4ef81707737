/**
 * Requests, responses and the outcome of one middleware stage: continue to the
 * next stage, answer the request, or hand an error to the error handler
 * (`next(error)`).
 */
module Http {
  import opened Options
  import opened Json
  import opened Entities

  /** One entry of a validation error's `details`. */
  datatype FieldError = FieldError(field: string, message: string)

  /** The errors that reach the error handler. */
  datatype Failure =
    | KnownRequestError(code: string, message: string)   // Prisma.PrismaClientKnownRequestError
    | PrismaValidationError(message: string)             // Prisma.PrismaClientValidationError
    | PlainError(message: string)                        // any other Error

  /** The user fields `GET /me` selects. */
  datatype MeUser = MeUser(
    id: string,
    clerkId: string,
    email: string,
    fullName: string,
    phone: Option<string>,
    avatarUrl: Option<string>,
    verificationStatus: VerificationStatus,
    isAdmin: bool,
    isBanned: bool,
    onboardingComplete: bool)

  /** `college: { select: { id, name, slug, city } }` */
  datatype CollegeCard = CollegeCard(id: string, name: string, slug: string, city: string)

  /** `college: { select: { id, name, slug } }` */
  datatype CollegeRef = CollegeRef(id: string, name: string, slug: string)

  /** `wallet: { select: { id, balance, frozenBalance } }` */
  datatype WalletCard = WalletCard(id: string, balance: int, frozenBalance: int)

  function MeUserOf(u: User): MeUser {
    MeUser(u.id, u.clerkId, u.email, u.fullName, u.phone, u.avatarUrl, u.verificationStatus,
           u.isAdmin, u.isBanned, u.onboardingComplete)
  }

  function CollegeCardOf(c: College): CollegeCard {
    CollegeCard(c.id, c.name, c.slug, c.city)
  }

  function CollegeRefOf(c: College): CollegeRef {
    CollegeRef(c.id, c.name, c.slug)
  }

  function WalletCardOf(w: Wallet): WalletCard {
    WalletCard(w.id, w.balance, w.frozenBalance)
  }

  /** A response body. */
  datatype Body =
    | ErrorBody(error: string, code: Option<string>, details: Option<seq<FieldError>>)
    | Received                                           // { received: true }
    | HealthOk                                           // { status: "ok", timestamp }
    | MeView(user: MeUser, collegeCard: Option<CollegeCard>, wallet: Option<WalletCard>)
    | ProfileView(id: string, fullName: string, phone: Option<string>, avatarUrl: Option<string>)
    | OnboardedView(id: string, fullName: string, email: string, phone: Option<string>,
                    onboardingComplete: bool, college: Option<CollegeRef>)
    | PublicView(id: string, fullName: string, avatarUrl: Option<string>,
                 verificationStatus: VerificationStatus, college: Option<CollegeRef>)
    | CatalogBody                                        // a body produced by the catalog routes

  datatype Response = Response(status: nat, body: Body)

  /** What a middleware stage does with a request. */
  datatype Outcome = Continue | Respond(response: Response) | Forward(failure: Failure)

  /** `res.status(status).json({ error, code })` */
  function Error(status: nat, error: string, code: string): (r: Response)
    ensures r.status == status && r.body.ErrorBody? && r.body.code == Some(code)
  {
    Response(status, ErrorBody(error, Some(code), None))
  }

  /** `res.status(status).json({ error })`, a body without a code. */
  function PlainErrorResponse(status: nat, error: string): (r: Response)
    ensures r.status == status && r.body.ErrorBody? && r.body.code.None?
  {
    Response(status, ErrorBody(error, None, None))
  }

  /** `res.json(body)`: status 200. */
  function Success(body: Body): Response {
    Response(200, body)
  }

  const UNAUTHORIZED := "UNAUTHORIZED"
  const USER_NOT_FOUND := "USER_NOT_FOUND"
  const FORBIDDEN := "FORBIDDEN"
  const NOT_VERIFIED := "NOT_VERIFIED"
  const NOT_FOUND := "NOT_FOUND"
  const VALIDATION_ERROR := "VALIDATION_ERROR"
  const CONFLICT := "CONFLICT"
  const INTERNAL_ERROR := "INTERNAL_ERROR"
  const RATE_LIMITED := "RATE_LIMITED"

  /**
   * The request as the middleware chain sees it. Header names are lower-case,
   * as Express stores them. `user`, `body` and `query` are overwritten by the
   * access gate and the validators.
   */
  class RequestContext {
    const verb: string       // the HTTP method
    const path: string
    const headers: map<string, string>
    const clientIp: string
    var user: Option<AuthUser>
    var body: Json
    var query: Json

    constructor(verb: string, path: string, headers: map<string, string>, clientIp: string,
                body: Json, query: Json)
      ensures this.verb == verb && this.path == path && this.headers == headers
      ensures this.clientIp == clientIp && this.body == body && this.query == query
      ensures user == None
    {
      this.verb := verb;
      this.path := path;
      this.headers := headers;
      this.clientIp := clientIp;
      this.body := body;
      this.query := query;
      user := None;
    }

    /** `req.headers[name]` */
    function Header(name: string): Option<string> {
      if name in headers then Some(headers[name]) else None
    }
  }
}
