/**
 * The device-flow login loop (packages/cli-env/src/auth0.ts), held to section
 * 3.5 of RFC 8628.
 *
 * The environment answers poll number `k`, takes `latency(k)` ms over it, and
 * lets the sleep after it overrun by `overrun(k)` ms. Server times are whole
 * seconds.
 */
module DeviceFlow {
  import opened Arithmetic

  datatype Answer = Token(accessToken: string) | AuthorizationPending | SlowDown | Refused(error: string)

  datatype Env = Env(answer: nat -> Answer, latency: nat -> nat, overrun: nat -> nat)

  datatype Outcome = LoggedIn(accessToken: string) | Expired | NotGranted(error: string)

  /** The loop's variables when poll number `k` is about to be made. */
  datatype Moment = Moment(now: int, intervalS: int)

  /** Another poll may follow this answer. */
  predicate Again(answer: Answer) {
    answer.AuthorizationPending? || answer.SlowDown?
  }

  /** The loop at poll `k`, supposing every answer before it asked for another. */
  function At(env: Env, start: int, intervalS: int, k: nat): Moment {
    if k == 0 then Moment(start, intervalS)
    else
      var m := At(env, start, intervalS, k - 1);
      var next := if env.answer(k - 1).SlowDown? then m.intervalS + 5 else m.intervalS;
      Moment(m.now + env.latency(k - 1) + next * 1000 + env.overrun(k - 1), next)
  }

  /** Poll `k` is really made: the code was alive then, and the loop got there. */
  predicate Polled(env: Env, start: int, intervalS: int, expiresAt: int, k: nat) {
    && At(env, start, intervalS, k).now <= expiresAt
    && (k > 0 ==> Again(env.answer(k - 1)) && Polled(env, start, intervalS, expiresAt, k - 1))
  }

  function SlowDowns(env: Env, k: nat): nat {
    if k == 0 then 0 else SlowDowns(env, k - 1) + (if env.answer(k - 1).SlowDown? then 1 else 0)
  }

  /** The seconds slept before poll `k`. */
  function Slept(env: Env, start: int, intervalS: int, k: nat): int {
    if k == 0 then 0 else Slept(env, start, intervalS, k - 1) + At(env, start, intervalS, k).intervalS
  }

  /** After any number of polls the interval is the server's own plus five seconds
      for each `slow_down` so far, and the polls are that far apart. */
  lemma {:induction false} EverySlowDownCountsForever(env: Env, start: int, intervalS: int, k: nat)
    ensures At(env, start, intervalS, k).intervalS == intervalS + 5 * SlowDowns(env, k)
    ensures At(env, start, intervalS, k + 1).now - At(env, start, intervalS, k).now
            == env.latency(k) + 1000 * (intervalS + 5 * SlowDowns(env, k + 1)) + env.overrun(k)
    ensures At(env, start, intervalS, k).now >= start + 1000 * Slept(env, start, intervalS, k)
    ensures Slept(env, start, intervalS, k) >= k * intervalS
  {
    if k > 0 {
      EverySlowDownCountsForever(env, start, intervalS, k - 1);
      assert k * intervalS == (k - 1) * intervalS + intervalS;
    }
  }

  /** With a positive interval and lifetime, at most floor(E / I) + 1 polls are made. */
  lemma PollsAreBounded(env: Env, start: int, intervalS: int, expiresInS: int, k: nat)
    requires intervalS > 0 && Polled(env, start, intervalS, start + expiresInS * 1000, k)
    ensures k <= expiresInS / intervalS
  {
    EverySlowDownCountsForever(env, start, intervalS, k);
    assert At(env, start, intervalS, k).now <= start + expiresInS * 1000;
    QuotientBound(k, intervalS, expiresInS);
  }

  /** The loop always ends, after the poll it says it ended on, and only for the
      reason that poll or the clock gives. */
  method PollForToken(env: Env, start: int, intervalS: int, expiresInS: int) returns (outcome: Outcome, polls: nat)
    requires intervalS > 0
    ensures polls > 0 ==> Polled(env, start, intervalS, start + expiresInS * 1000, polls - 1)
    ensures polls > 0 ==> polls <= expiresInS / intervalS + 1
    ensures match outcome
      case Expired =>
        && At(env, start, intervalS, polls).now > start + expiresInS * 1000
        && (polls > 0 ==> Again(env.answer(polls - 1)))
      case LoggedIn(token) => polls > 0 && env.answer(polls - 1) == Token(token)
      case NotGranted(error) => polls > 0 && env.answer(polls - 1) == Refused(error)
  {
    var expiresAt := start + expiresInS * 1000;
    outcome, polls := Loop(env, start, intervalS, expiresAt);
    if polls > 0 { PollsAreBounded(env, start, intervalS, expiresInS, polls - 1); }
  }

  method Loop(env: Env, start: int, intervalS: int, expiresAt: int) returns (outcome: Outcome, polls: nat)
    requires intervalS > 0
    ensures polls > 0 ==> Polled(env, start, intervalS, expiresAt, polls - 1)
    ensures match outcome
      case Expired => At(env, start, intervalS, polls).now > expiresAt && (polls > 0 ==> Again(env.answer(polls - 1)))
      case LoggedIn(token) => polls > 0 && env.answer(polls - 1) == Token(token)
      case NotGranted(error) => polls > 0 && env.answer(polls - 1) == Refused(error)
  {
    var now, interval := start, intervalS;
    polls := 0;
    while true
      invariant Moment(now, interval) == At(env, start, intervalS, polls)
      invariant interval >= intervalS
      invariant polls > 0 ==> Polled(env, start, intervalS, expiresAt, polls - 1) && Again(env.answer(polls - 1))
      decreases expiresAt - now
    {
      if now > expiresAt { return Expired, polls; }
      assert Polled(env, start, intervalS, expiresAt, polls);
      var answer := env.answer(polls);
      polls := polls + 1;
      match answer {
        case Token(token) => return LoggedIn(token), polls;
        case Refused(error) => return NotGranted(error), polls;
        case AuthorizationPending =>
        case SlowDown => interval := interval + 5;
      }
      now := now + env.latency(polls - 1) + interval * 1000 + env.overrun(polls - 1);
    }
  }
}
