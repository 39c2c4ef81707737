/**
 * Fixed-window admission control. Each limiter keeps, per client key, the
 * start of the client's current window and the requests admitted in it. A
 * request that finds no window, or one that has elapsed, opens a new window
 * at its own time. A request is admitted while the window holds fewer than
 * `max` admitted requests; otherwise it is answered with 429 `RATE_LIMITED`
 * and the count stays as it is.
 */
module RateLimiter {
  import opened Options
  import opened Http
  import opened Constants

  datatype Window = Window(start: int, hits: nat)

  /** The window of this client's limiter state and whether the request was admitted. */
  datatype Decision = Decision(window: Window, admitted: bool)

  predicate Expired(w: Window, now: int, windowMs: nat) {
    now >= w.start + windowMs
  }

  /** The window a request at `now` counts against. */
  function Current(w: Option<Window>, now: int, windowMs: nat): (c: Window)
    ensures w.None? || Expired(w.value, now, windowMs) ==> c == Window(now, 0)
    ensures w.Some? && !Expired(w.value, now, windowMs) ==> c == w.value
  {
    if w.None? || Expired(w.value, now, windowMs) then Window(now, 0) else w.value
  }

  /** One request from a client whose window state is `w`. */
  function Hit(w: Option<Window>, now: int, windowMs: nat, max: nat): (d: Decision)
    ensures d.window.start == Current(w, now, windowMs).start
    ensures d.admitted <==> Current(w, now, windowMs).hits < max
    ensures d.window.hits == Current(w, now, windowMs).hits + (if d.admitted then 1 else 0)
  {
    var c := Current(w, now, windowMs);
    if c.hits < max then Decision(c.(hits := c.hits + 1), true) else Decision(c, false)
  }

  /** A window never records more than `max` admitted requests. */
  lemma HitBounded(w: Option<Window>, now: int, windowMs: nat, max: nat)
    requires w.Some? ==> w.value.hits <= max
    ensures Hit(w, now, windowMs, max).window.hits <= max
  {
  }

  /** Once its window has elapsed, a client that was throttled is admitted again. */
  lemma AdmittedAfterRollover(w: Window, now: int, windowMs: nat, max: nat)
    requires w.hits >= max >= 1
    requires Expired(w, now, windowMs)
    ensures Hit(Some(w), now, windowMs, max).admitted
    ensures Hit(Some(w), now, windowMs, max).window == Window(now, 1)
  {
  }

  /** The admission decisions for a client's requests at `times`, in order. */
  function Run(w: Option<Window>, times: seq<int>, windowMs: nat, max: nat): (r: seq<bool>)
    ensures |r| == |times|
    decreases |times|
  {
    if |times| == 0 then []
    else
      var d := Hit(w, times[0], windowMs, max);
      [d.admitted] + Run(Some(d.window), times[1..], windowMs, max)
  }

  function CountAdmitted(flags: seq<bool>): nat {
    if |flags| == 0 then 0 else (if flags[0] then 1 else 0) + CountAdmitted(flags[1..])
  }

  /** Requests that all fall inside an open window add at most `max - hits` admissions to it. */
  lemma {:induction false} AtMostMaxInOpenWindow(w: Window, times: seq<int>, windowMs: nat, max: nat)
    requires w.hits <= max
    requires forall k :: 0 <= k < |times| ==> w.start <= times[k] < w.start + windowMs
    ensures CountAdmitted(Run(Some(w), times, windowMs, max)) <= max - w.hits
    decreases |times|
  {
    if |times| > 0 {
      var d := Hit(Some(w), times[0], windowMs, max);
      assert d.window.start == w.start;
      AtMostMaxInOpenWindow(d.window, times[1..], windowMs, max);
    }
  }

  /**
   * A client admitted after a rollover (or for the first time) gets at most
   * `max` requests admitted until its window ends.
   */
  lemma AtMostMaxPerWindow(w: Option<Window>, times: seq<int>, windowMs: nat, max: nat)
    requires |times| > 0
    requires w.None? || Expired(w.value, times[0], windowMs)
    requires forall k :: 0 <= k < |times| ==> times[0] <= times[k] < times[0] + windowMs
    ensures CountAdmitted(Run(w, times, windowMs, max)) <= max
  {
    AtMostMaxInOpenWindow(Window(times[0], 0), times, windowMs, max);
    assert Run(w, times, windowMs, max) == Run(Some(Window(times[0], 0)), times, windowMs, max);
  }

  /** With the auth policy, five requests in a window pass, the sixth is refused, and a request after the window passes. */
  lemma AuthPolicyBurst()
    ensures Run(None, [0, 1, 2, 3, 4, 5, 60000], RateLimit(Auth).windowMs, RateLimit(Auth).max)
      == [true, true, true, true, true, false, true]
  {
  }

  /** The response to a refused request: 429 with code `RATE_LIMITED`. */
  function Rejection(message: string): (r: Response)
    ensures r.status == 429 && r.body.ErrorBody? && r.body.code == Some(RATE_LIMITED)
  {
    Error(429, message, RATE_LIMITED)
  }

  /** One rate limiter: its policy, its rejection message and its own per-client windows. */
  class FixedWindowLimiter {
    const windowMs: nat
    const max: nat
    const message: string
    var windows: map<string, Window>

    predicate Valid()
      reads this
    {
      forall k :: k in windows ==> windows[k].hits <= max
    }

    constructor(policy: Policy, message: string)
      ensures Valid()
      ensures windowMs == policy.windowMs && max == policy.max && this.message == message
      ensures windows == map[]
    {
      windowMs := policy.windowMs;
      max := policy.max;
      this.message := message;
      windows := map[];
    }

    /**
     * The middleware: records the request of client `key` at time `now` and
     * lets it continue or refuses it. Only this limiter's windows change.
     */
    method Handle(key: string, now: int) returns (o: Outcome)
      requires Valid()
      modifies this
      ensures Valid()
      ensures var d := Hit(if key in old(windows) then Some(old(windows)[key]) else None, now, windowMs, max);
        windows == old(windows)[key := d.window]
        && o == (if d.admitted then Continue else Respond(Rejection(message)))
    {
      var w := if key in windows then Some(windows[key]) else None;
      HitBounded(w, now, windowMs, max);
      var d := Hit(w, now, windowMs, max);
      windows := windows[key := d.window];
      if d.admitted {
        o := Continue;
      } else {
        o := Respond(Rejection(message));
      }
    }
  }

  /** `generalLimiter`: 60 requests per minute; mounted in front of every route. */
  method GeneralLimiter() returns (l: FixedWindowLimiter)
    ensures fresh(l) && l.Valid() && l.windows == map[]
    ensures l.windowMs == 60000 && l.max == 60 && l.message == "Too many requests, please try again later"
  {
    l := new FixedWindowLimiter(RateLimit(General), "Too many requests, please try again later");
  }

  /** `authLimiter`: 5 requests per minute. */
  method AuthLimiter() returns (l: FixedWindowLimiter)
    ensures fresh(l) && l.Valid() && l.windows == map[]
    ensures l.windowMs == 60000 && l.max == 5 && l.message == "Too many auth attempts, please try again later"
  {
    l := new FixedWindowLimiter(RateLimit(Auth), "Too many auth attempts, please try again later");
  }

  /** `itemsLimiter`: 30 requests per minute. */
  method ItemsLimiter() returns (l: FixedWindowLimiter)
    ensures fresh(l) && l.Valid() && l.windows == map[]
    ensures l.windowMs == 60000 && l.max == 30 && l.message == "Too many requests, please try again later"
  {
    l := new FixedWindowLimiter(RateLimit(Items), "Too many requests, please try again later");
  }

  /** `paymentsLimiter`: 10 requests per minute. */
  method PaymentsLimiter() returns (l: FixedWindowLimiter)
    ensures fresh(l) && l.Valid() && l.windows == map[]
    ensures l.windowMs == 60000 && l.max == 10 && l.message == "Too many payment requests, please try again later"
  {
    l := new FixedWindowLimiter(RateLimit(Payments), "Too many payment requests, please try again later");
  }

  /**
   * Each limiter keeps its own budget: a request counted by `a` moves only
   * the client's window in `a`, as `Hit` says, and `b`'s count for the same
   * client is untouched, so `b` will decide that client's next request as
   * before.
   */
  method IndependentBudgets(a: FixedWindowLimiter, b: FixedWindowLimiter, key: string, now: int)
    returns (o: Outcome)
    requires a != b && a.Valid() && b.Valid()
    modifies a
    ensures a.Valid() && b.Valid()
    ensures var d := Hit(if key in old(a.windows) then Some(old(a.windows)[key]) else None, now, a.windowMs, a.max);
      a.windows == old(a.windows)[key := d.window] && (o.Continue? <==> d.admitted)
    ensures b.windows == old(b.windows)
  {
    o := a.Handle(key, now);
  }
}
