/**
 * The database password resolver (apps/api/src/db/credentials.util.ts): a
 * cache with a time to live, one secret fetch at a time, failing open to the
 * last password known good.
 *
 * The three promise reactions that end a fetch (its own return, `then`,
 * `finally`) are separate steps, so a caller may come in between any two.
 */
module PasswordResolver {
  import opened Arithmetic
  import opened Wrappers

  datatype Cached = Cached(password: string, fetchedAt: int)

  /** A fetch under way: waiting for the secret, returned, or already cached. */
  datatype Flight = Fetching | Returned(password: string) | Settled(password: string)

  /** `armed` is a resolver with a secret to read. `log` records what the
      service answered each fetch that returned (None for an error), oldest first; `cachedFrom`
      is how many had returned when the cached value was produced. */
  datatype State = State(
    armed: bool,
    fallback: string,
    ttl: int,
    now: int,
    cached: Option<Cached>,
    lastKnownGood: Option<string>,
    inFlight: Option<Flight>,
    started: nat,
    invalidations: nat,
    log: seq<Option<string>>,
    cachedFrom: nat)

  function Initial(armed: bool, fallback: string, ttl: int, now: int): State {
    State(armed, fallback, ttl, now, None, None, None, 0, 0, [], 0)
  }

  /** What a caller of `resolve()` gets: a value at once, or fetch number `fetch`'s. */
  datatype Answer = Now(password: string) | OnFetch(fetch: int)

  // ---------------------------------------------------------------------------
  // The resolver
  // ---------------------------------------------------------------------------

  predicate CacheFresh(s: State) {
    s.cached.Some? && s.now - s.cached.value.fetchedAt < s.ttl
  }

  function Resolve(s: State): (State, Answer) {
    if !s.armed then (s, Now(s.fallback))
    else if CacheFresh(s) then (s, Now(s.cached.value.password))
    else if s.inFlight.None? then (s.(inFlight := Some(Fetching), started := s.started + 1), OnFetch(s.started))
    else (s, OnFetch(s.started - 1))
  }

  /** A secret is usable when its password is a non-empty string. */
  function Usable(secret: Option<string>): Option<string> {
    if secret.Some? && secret.value != "" then secret else None
  }

  /** `fetchPassword` returns. `secret` is the password field the service
      answered with, None for any error on the way. */
  function FetchReturns(s: State, secret: Option<string>): State {
    var good := if Usable(secret).Some? then Usable(secret) else s.lastKnownGood;
    s.(lastKnownGood := good,
       inFlight := Some(Returned(if good.Some? then good.value else s.fallback)),
       log := s.log + [secret])
  }

  function FetchCaches(s: State): State
    requires s.inFlight.Some? && s.inFlight.value.Returned?
  {
    var password := s.inFlight.value.password;
    s.(cached := Some(Cached(password, s.now)), inFlight := Some(Settled(password)), cachedFrom := |s.log|)
  }

  function Invalidate(s: State): State {
    if s.armed then s.(cached := None, invalidations := s.invalidations + 1) else s
  }

  // ---------------------------------------------------------------------------
  // Steps and runs
  // ---------------------------------------------------------------------------

  datatype Step =
    | Call
    | Return(secret: Option<string>)
    | Cache
    | Finish
    | Drop
    | Tick(elapsed: nat)

  predicate Enabled(s: State, step: Step) {
    match step
    case Call => true
    case Drop => true
    case Tick(_) => true
    case Return(_) => s.inFlight == Some(Fetching)
    case Cache => s.inFlight.Some? && s.inFlight.value.Returned?
    case Finish => s.inFlight.Some? && s.inFlight.value.Settled?
  }

  function Next(s: State, step: Step): State
    requires Enabled(s, step)
  {
    match step
    case Call => Resolve(s).0
    case Return(secret) => FetchReturns(s, secret)
    case Cache => FetchCaches(s)
    case Finish => s.(inFlight := None)
    case Drop => Invalidate(s)
    case Tick(elapsed) => s.(now := s.now + elapsed)
  }

  predicate Runs(s: State, steps: seq<Step>)
    decreases |steps|
  {
    steps == [] || (Enabled(s, steps[0]) && Runs(Next(s, steps[0]), steps[1..]))
  }

  function After(s: State, steps: seq<Step>): State
    requires Runs(s, steps)
    decreases |steps|
  {
    if steps == [] then s else After(Next(s, steps[0]), steps[1..])
  }

  // ---------------------------------------------------------------------------
  // Provenance
  // ---------------------------------------------------------------------------

  /** The service answered with a password, which is never empty. */
  predicate Success(answer: Option<string>) {
    answer.Some? && answer.value != ""
  }

  /** The password of the last success among the first `n` fetches. */
  function LastGood(log: seq<Option<string>>, n: nat): Option<string>
    requires n <= |log|
  {
    if n == 0 then None else if Success(log[n - 1]) then log[n - 1] else LastGood(log, n - 1)
  }

  /** What failing open serves as of the `n`-th fetch to return. */
  function FailOpen(s: State, n: nat): string
    requires n <= |s.log|
  {
    var good := LastGood(s.log, n);
    if good.Some? then good.value else s.fallback
  }

  predicate Inv(s: State) {
    && s.lastKnownGood == LastGood(s.log, |s.log|)
    && (s.cached.Some? ==>
          && 0 < s.cachedFrom <= |s.log|
          && s.cached.value.password == FailOpen(s, s.cachedFrom) && s.cached.value.fetchedAt <= s.now)
    && s.started == |s.log| + (if s.inFlight == Some(Fetching) then 1 else 0)
    && (s.inFlight.Some? && !s.inFlight.value.Fetching? ==>
          0 < |s.log| && s.inFlight.value.password == FailOpen(s, |s.log|))
    && (s.inFlight.Some? ==> s.started > 0)
    && (!s.armed ==> s.started == 0)
  }

  lemma {:induction false} LastGoodPrefix(log: seq<Option<string>>, more: seq<Option<string>>, n: nat)
    requires n <= |log|
    ensures LastGood(log + more, n) == LastGood(log, n)
  {
    if n > 0 { LastGoodPrefix(log, more, n - 1); }
  }

  lemma StepKeepsInv(s: State, step: Step)
    requires Inv(s) && Enabled(s, step)
    ensures Inv(Next(s, step))
  {
    if step.Return? {
      LastGoodPrefix(s.log, [step.secret], |s.log|);
      if s.cached.Some? { LastGoodPrefix(s.log, [step.secret], s.cachedFrom); }
    }
  }

  lemma {:induction false} RunKeepsInv(s: State, steps: seq<Step>)
    requires Inv(s) && Runs(s, steps)
    ensures Inv(After(s, steps)) && s.log <= After(s, steps).log
    ensures After(s, steps).fallback == s.fallback && After(s, steps).ttl == s.ttl && After(s, steps).armed == s.armed
    ensures s.now <= After(s, steps).now && s.started <= After(s, steps).started
    ensures s.invalidations <= After(s, steps).invalidations
    decreases |steps|
  {
    if steps != [] {
      StepKeepsInv(s, steps[0]);
      RunKeepsInv(Next(s, steps[0]), steps[1..]);
    }
  }

  lemma InitialInv(armed: bool, fallback: string, ttl: int, now: int)
    ensures Inv(Initial(armed, fallback, ttl, now))
  {
  }

  /** A value served at once is the fail-open value as of the fetch that produced
      it, cached less than one time to live ago; without a secret it is the
      fallback and nothing is fetched. Otherwise the caller waits on the one
      fetch in flight, starting it only when there is none. */
  lemma EveryAnswerHasItsProvenance(s: State)
    requires Inv(s)
    ensures var (t, answer) := Resolve(s);
      && (answer.Now? && s.armed ==>
            0 < s.cachedFrom <= |s.log| && answer.password == FailOpen(s, s.cachedFrom)
            && s.cached.Some? && s.now - s.cached.value.fetchedAt < s.ttl)
      && (!s.armed ==> answer == Now(s.fallback) && t == s)
      && (answer.OnFetch? ==>
            && answer.fetch == t.started - 1 && t.inFlight.Some?
            && t.started == s.started + (if s.inFlight.None? then 1 else 0))
  {
  }

  /** A fetch the service answers with a password hands out and remembers that very
      password; one it does not hands out what was remembered, or the fallback. */
  lemma FetchHandsOutTheAnswer(s: State, secret: Option<string>)
    requires Enabled(s, Return(secret))
    ensures var t := Next(s, Return(secret));
      && t.inFlight.Some? && t.inFlight.value.Returned?
      && (secret.Some? && secret.value != "" ==>
            t.lastKnownGood == secret && t.inFlight.value.password == secret.value)
      && (secret.None? || secret.value == "" ==>
            && t.lastKnownGood == s.lastKnownGood
            && t.inFlight.value.password == match s.lastKnownGood case None => s.fallback case Some(p) => p)
      && t.log == s.log + [secret]
  {
  }

  /** Fetch `n` answers its waiters, in any run from a resolver's creation, with the
      newest password among the service's first `n + 1` answers, or with the fallback
      when there is none. */
  lemma AwaitedValue(armed: bool, fallback: string, ttl: int, now: int, steps: seq<Step>)
    requires Runs(Initial(armed, fallback, ttl, now), steps)
    requires var s := After(Initial(armed, fallback, ttl, now), steps); s.inFlight.Some? && !s.inFlight.value.Fetching?
    ensures var s := After(Initial(armed, fallback, ttl, now), steps);
      var password := s.inFlight.value.password;
      && s.started == |s.log|
      && ((exists i :: 0 <= i < |s.log| && s.log[i] == Some(password) && password != ""
             && forall j :: i < j < |s.log| ==> s.log[j] == None || s.log[j] == Some(""))
          || (password == fallback && forall j :: 0 <= j < |s.log| ==> s.log[j] == None || s.log[j] == Some("")))
  {
    InitialInv(armed, fallback, ttl, now);
    RunKeepsInv(Initial(armed, fallback, ttl, now), steps);
    var s := After(Initial(armed, fallback, ttl, now), steps);
    NewestSuccess(s.log, |s.log|);
  }

  lemma {:induction false} NewestSuccess(log: seq<Option<string>>, n: nat)
    requires n <= |log|
    ensures match LastGood(log, n)
      case None => forall j :: 0 <= j < n ==> log[j] == None || log[j] == Some("")
      case Some(p) =>
        p != "" && exists i :: 0 <= i < n && log[i] == Some(p)
                     && forall j :: i < j < n ==> log[j] == None || log[j] == Some("")
  {
    if n > 0 && !Success(log[n - 1]) { NewestSuccess(log, n - 1); }
  }

  /** Within the time to live the cache answers and nothing is fetched; a time to live
      later it does not. Without a secret to read the fallback answers, always. */
  lemma CacheAnswersExactly(s: State)
    ensures var (t, answer) := Resolve(s);
      && (!s.armed ==> answer == Now(s.fallback) && t == s)
      && (s.armed && s.cached.Some? && s.now < s.cached.value.fetchedAt + s.ttl ==>
            answer == Now(s.cached.value.password) && t == s)
      && (s.armed && (s.cached.None? || s.now >= s.cached.value.fetchedAt + s.ttl) ==>
            answer.OnFetch? && t.inFlight == if s.inFlight.Some? then s.inFlight else Some(Fetching))
  {
  }

  /** The value every caller waiting on fetch number `n` receives. */
  lemma WaitersGetTheirFetch(s: State, answer: Answer, steps: seq<Step>)
    requires Inv(s) && s.armed && answer == Resolve(s).1 && answer.OnFetch?
    requires Runs(Resolve(s).0, steps)
    requires var t := After(Resolve(s).0, steps);
      t.started == answer.fetch + 1 && t.inFlight.Some? && !t.inFlight.value.Fetching?
    ensures var t := After(Resolve(s).0, steps);
      answer.fetch < |t.log| && t.inFlight.value.password == FailOpen(t, answer.fetch + 1)
  {
    StepKeepsInv(s, Call);
    RunKeepsInv(Resolve(s).0, steps);
  }

  /** No failed fetch and no invalidation loses the last password known good: a
      later fetch serves the newest success there has been, never the fallback. */
  lemma LastKnownGoodIsNeverLost(s: State, steps: seq<Step>)
    requires Inv(s) && Runs(s, steps) && s.lastKnownGood.Some?
    ensures After(s, steps).lastKnownGood.Some?
    ensures (forall i :: |s.log| <= i < |After(s, steps).log| ==> !Success(After(s, steps).log[i])) ==>
              After(s, steps).lastKnownGood == s.lastKnownGood
  {
    RunKeepsInv(s, steps);
    var t := After(s, steps);
    assert t.log == s.log + t.log[|s.log|..];
    LastGoodOfFailures(s.log, t.log[|s.log|..]);
  }

  lemma {:induction false} LastGoodOfFailures(log: seq<Option<string>>, more: seq<Option<string>>)
    ensures LastGood(log, |log|).Some? ==> LastGood(log + more, |log + more|).Some?
    ensures (forall i :: 0 <= i < |more| ==> !Success(more[i])) ==>
              LastGood(log + more, |log + more|) == LastGood(log, |log|)
    decreases |more|
  {
    if more == [] {
      assert log + more == log;
    } else {
      var shorter := more[..|more| - 1];
      assert log + more == (log + shorter) + [more[|more| - 1]];
      LastGoodOfFailures(log, shorter);
      LastGoodPrefix(log + shorter, [more[|more| - 1]], |log + shorter|);
    }
  }

  /** The same of every state a resolver can reach from its creation. */
  lemma EveryReachableAnswer(armed: bool, fallback: string, ttl: int, now: int, steps: seq<Step>)
    requires Runs(Initial(armed, fallback, ttl, now), steps)
    ensures var s := After(Initial(armed, fallback, ttl, now), steps);
      var answer := Resolve(s).1;
      && Inv(s)
      && (answer.Now? && armed ==>
            0 < s.cachedFrom <= |s.log| && answer.password == FailOpen(s, s.cachedFrom)
            && s.cached.Some? && s.now - s.cached.value.fetchedAt < ttl)
      && (!armed ==> answer == Now(fallback))
      && (s.lastKnownGood.None? <==> forall i :: 0 <= i < |s.log| ==> !Success(s.log[i]))
  {
    InitialInv(armed, fallback, ttl, now);
    RunKeepsInv(Initial(armed, fallback, ttl, now), steps);
    var s := After(Initial(armed, fallback, ttl, now), steps);
    EveryAnswerHasItsProvenance(s);
    NoneGood(s.log, |s.log|);
  }

  lemma {:induction false} NoneGood(log: seq<Option<string>>, n: nat)
    requires n <= |log|
    ensures LastGood(log, n).None? <==> forall i :: 0 <= i < n ==> !Success(log[i])
  {
    if n > 0 { NoneGood(log, n - 1); }
  }

  // ---------------------------------------------------------------------------
  // What an invalidation reaches
  // ---------------------------------------------------------------------------

  /** The next `resolve()` after an invalidation starts a fetch exactly when none
      was in flight; otherwise it is answered by that older fetch. */
  lemma InvalidatedResolveFetchesExactly(s: State)
    requires Inv(s) && s.armed
    ensures var (t, answer) := Resolve(Invalidate(s));
      && answer.OnFetch?
      && (t.started == s.started + 1 <==> s.inFlight.None?)
      && (answer.fetch >= s.started <==> s.inFlight.None?)
  {
  }

  /** A fetch that has not cached its value yet. */
  predicate Uncached(s: State) {
    s.inFlight.Some? && !s.inFlight.value.Settled?
  }

  /** Whatever is cached after an invalidation was fetched after it, in every run,
      exactly when no fetch that had yet to cache was in flight: such a fetch
      refills the cache with what it was asked for before the invalidation. */
  lemma InvalidationReachesTheCacheExactly(s: State)
    requires Inv(s) && s.armed
    ensures (forall steps :: Runs(Invalidate(s), steps) && After(Invalidate(s), steps).cached.Some? ==>
               After(Invalidate(s), steps).cachedFrom > s.started)
            <==> !Uncached(s)
  {
    var dropped := Invalidate(s);
    if Uncached(s) {
      var steps := OlderFetchRefills(s);
      assert After(dropped, steps).cachedFrom <= s.started;
    } else {
      StepKeepsInv(s, Drop);
      forall steps | Runs(dropped, steps) && After(dropped, steps).cached.Some?
        ensures After(dropped, steps).cachedFrom > s.started
      {
        LaterRuns(dropped, steps, s.started);
      }
    }
  }

  lemma OlderFetchRefills(s: State) returns (steps: seq<Step>)
    requires Inv(s) && s.armed && Uncached(s)
    ensures Runs(Invalidate(s), steps)
    ensures After(Invalidate(s), steps).cached.Some? && After(Invalidate(s), steps).cachedFrom == s.started
  {
    var dropped := Invalidate(s);
    assert [Cache][1..] == [];
    if s.inFlight.value.Returned? {
      steps := [Cache];
      assert Runs(Next(dropped, Cache), []);
    } else {
      steps := [Return(None), Cache];
      var returned := Next(dropped, Return(None));
      assert steps[1..] == [Cache];
      assert Runs(Next(returned, Cache), []);
      assert Runs(returned, [Cache]);
    }
  }

  /** Nothing cached, or about to be, comes from the first `n` fetches. */
  predicate Later(t: State, n: nat) {
    t.started >= n && (t.cached.Some? ==> t.cachedFrom > n) && (Uncached(t) ==> t.started > n)
  }

  lemma {:induction false} LaterRuns(t: State, steps: seq<Step>, n: nat)
    requires Inv(t) && Runs(t, steps) && Later(t, n)
    ensures Later(After(t, steps), n)
    decreases |steps|
  {
    if steps != [] {
      StepKeepsInv(t, steps[0]);
      LaterRuns(Next(t, steps[0]), steps[1..], n);
    }
  }

  // ---------------------------------------------------------------------------
  // How often the secret is fetched
  // ---------------------------------------------------------------------------

  /** Counting from `s`: fetches less invalidations, each a full ttl apart. */
  predicate Spaced(s: State, t: State) {
    var n := t.started - s.started;
    var m := n - (t.invalidations - s.invalidations);
    && n >= 0 && t.invalidations >= s.invalidations && s.now <= t.now
    && (n > 0 ==>
          && (m - 1) * s.ttl <= t.now - s.now
          && (if t.inFlight.Some? && !t.inFlight.value.Settled? then true
              else if t.cached.Some? then (m - 1) * s.ttl <= t.cached.value.fetchedAt - s.now
              else m * s.ttl <= t.now - s.now))
  }

  lemma StepKeepsSpaced(s: State, t: State, step: Step)
    requires Inv(t) && s.ttl == t.ttl > 0 && Enabled(t, step) && Spaced(s, t)
    ensures Spaced(s, Next(t, step))
  {
    var n := t.started - s.started;
    var m := n - (t.invalidations - s.invalidations);
    var u := Next(t, step);
    if step.Drop? {
      assert (m - 2) * s.ttl == (m - 1) * s.ttl - s.ttl && m * s.ttl == (m - 1) * s.ttl + s.ttl;
    } else if step.Call? && u.started != t.started {
      assert m * s.ttl == (m - 1) * s.ttl + s.ttl;
      if n == 0 {
        var k := t.invalidations - s.invalidations;
        assert k * s.ttl >= 0 && (0 - k) * s.ttl == -(k * s.ttl);
      }
    }
  }

  lemma {:induction false} RunKeepsSpaced(s: State, t: State, steps: seq<Step>)
    requires Inv(t) && s.ttl == t.ttl > 0 && Runs(t, steps) && Spaced(s, t)
    ensures Spaced(s, After(t, steps))
    decreases |steps|
  {
    if steps != [] {
      StepKeepsInv(t, steps[0]);
      StepKeepsSpaced(s, t, steps[0]);
      RunKeepsSpaced(s, Next(t, steps[0]), steps[1..]);
    }
  }

  lemma SpacedFetches(s: State, t: State)
    requires s.ttl > 0 && Spaced(s, t)
    ensures t.started - s.started <= 1 + (t.invalidations - s.invalidations) + (t.now - s.now) / s.ttl
  {
    if t.started > s.started {
      QuotientBound((t.started - s.started) - (t.invalidations - s.invalidations) - 1, s.ttl, t.now - s.now);
    }
  }

  /** At most one fetch is in flight, and in any stretch of any run, with a
      positive ttl, the fetches started number at most one, plus one for each
      invalidation, plus one for each full ttl elapsed, failures included. */
  lemma FetchesAreBounded(s: State, steps: seq<Step>)
    requires Inv(s) && s.ttl > 0 && Runs(s, steps)
    ensures var t := After(s, steps);
      && t.started - |t.log| <= 1
      && t.started - s.started <= 1 + (t.invalidations - s.invalidations) + (t.now - s.now) / s.ttl
  {
    RunKeepsInv(s, steps);
    RunKeepsSpaced(s, s, steps);
    SpacedFetches(s, After(s, steps));
  }

  // The bound is attained: one failing fetch after another, `q` a full ttl
  // apart and `k` right after an invalidation.

  const FETCH: seq<Step> := [Call, Return(None), Cache, Finish]

  function Busy(ttl: nat, k: nat, q: nat): seq<Step>
    decreases k + q
  {
    if k > 0 then Busy(ttl, k - 1, q) + ([Drop] + FETCH)
    else if q > 0 then Busy(ttl, k, q - 1) + ([Tick(ttl)] + FETCH)
    else FETCH
  }

  lemma {:induction false} RunsConcat(s: State, a: seq<Step>, b: seq<Step>)
    requires Runs(s, a) && Runs(After(s, a), b)
    ensures Runs(s, a + b) && After(s, a + b) == After(After(s, a), b)
    decreases |a|
  {
    if a == [] {
      assert a + b == b;
    } else {
      assert (a + b)[0] == a[0] && (a + b)[1..] == a[1..] + b;
      RunsConcat(Next(s, a[0]), a[1..], b);
    }
  }

  lemma OneFetch(s: State)
    requires s.armed && s.inFlight.None? && !CacheFresh(s)
    ensures Runs(s, FETCH)
    ensures var t := After(s, FETCH);
      && t.started == s.started + 1 && t.invalidations == s.invalidations && t.now == s.now
      && t.inFlight.None? && t.armed && t.ttl == s.ttl
      && t.cached.Some? && t.cached.value.fetchedAt == t.now
  {
    var s1 := Next(s, Call);
    var s2 := Next(s1, Return(None));
    var s3 := Next(s2, Cache);
    var s4 := Next(s3, Finish);
    assert FETCH[1..] == [Return(None), Cache, Finish];
    assert FETCH[1..][1..] == [Cache, Finish];
    assert FETCH[1..][1..][1..] == [Finish];
    assert FETCH[1..][1..][1..][1..] == [];
    assert Runs(s4, []) && After(s4, []) == s4;
    assert Runs(s3, [Finish]) && After(s3, [Finish]) == s4;
    assert Runs(s2, [Cache, Finish]) && After(s2, [Cache, Finish]) == s4;
    assert Runs(s1, [Return(None), Cache, Finish]) && After(s1, [Return(None), Cache, Finish]) == s4;
  }

  lemma {:induction false} TheBoundIsAttained(fallback: string, ttl: nat, now: int, k: nat, q: nat)
    requires ttl > 0
    ensures var s := Initial(true, fallback, ttl, now);
      && Runs(s, Busy(ttl, k, q))
      && var t := After(s, Busy(ttl, k, q));
         && t.invalidations == k && t.now == now + q * ttl
         && t.started == 1 + k + q
         && t.inFlight.None? && t.armed && t.ttl == ttl
         && t.cached.Some? && t.cached.value.fetchedAt == t.now
    decreases k + q
  {
    var s := Initial(true, fallback, ttl, now);
    if k == 0 && q == 0 {
      OneFetch(s);
    } else {
      var step := if k > 0 then Drop else Tick(ttl);
      var earlier := if k > 0 then Busy(ttl, k - 1, q) else Busy(ttl, k, q - 1);
      if k > 0 {
        TheBoundIsAttained(fallback, ttl, now, k - 1, q);
      } else {
        TheBoundIsAttained(fallback, ttl, now, k, q - 1);
      }
      var t := After(s, earlier);
      var u := Next(t, step);
      OneFetch(u);
      assert ([step] + FETCH)[1..] == FETCH;
      assert Runs(t, [step] + FETCH) && After(t, [step] + FETCH) == After(u, FETCH);
      RunsConcat(s, earlier, [step] + FETCH);
    }
  }

  // ---------------------------------------------------------------------------
  // The resolver over mutable state
  // ---------------------------------------------------------------------------

  /** The variables `createDbPasswordResolver` closes over. `clock` is the
      injected `now()`; `started` numbers the promises `inFlight` has held. */
  class Resolver {
    const armed: bool
    const fallback: string
    const ttl: int
    var clock: int
    var cached: Option<Cached>
    var lastKnownGood: Option<string>
    var inFlight: Option<Flight>
    var started: nat
    ghost var invalidations: nat
    ghost var log: seq<Option<string>>
    ghost var cachedFrom: nat

    ghost function Contents(): State
      reads this
    {
      State(armed, fallback, ttl, clock, cached, lastKnownGood, inFlight, started, invalidations, log, cachedFrom)
    }

    constructor (masterSecretArn: Option<string>, fallback: string, ttl: int, clock: int)
      ensures Contents() == Initial(masterSecretArn.Some? && masterSecretArn.value != "", fallback, ttl, clock)
    {
      armed := masterSecretArn.Some? && masterSecretArn.value != "";
      this.fallback, this.ttl, this.clock := fallback, ttl, clock;
      cached, lastKnownGood, inFlight := None, None, None;
      started, invalidations, log, cachedFrom := 0, 0, [], 0;
    }

    method ResolvePassword() returns (answer: Answer)
      modifies this`inFlight, this`started
      ensures (Contents(), answer) == Resolve(old(Contents()))
    {
      if !armed { return Now(fallback); }
      if cached.Some? && clock - cached.value.fetchedAt < ttl { return Now(cached.value.password); }
      if inFlight.None? {
        inFlight := Some(Fetching);
        started := started + 1;
      }
      return OnFetch(started - 1);
    }

    method SecretArrives(secret: Option<string>)
      requires inFlight == Some(Fetching)
      modifies this`inFlight, this`lastKnownGood, this`log
      ensures Contents() == FetchReturns(old(Contents()), secret)
    {
      if secret.Some? && secret.value != "" {
        lastKnownGood := secret;
        inFlight := Some(Returned(secret.value));
        log := log + [secret];
      } else {
        inFlight := Some(Returned(if lastKnownGood.Some? then lastKnownGood.value else fallback));
        log := log + [secret];
      }
    }

    method CachePassword()
      requires inFlight.Some? && inFlight.value.Returned?
      modifies this`inFlight, this`cached, this`cachedFrom
      ensures Contents() == FetchCaches(old(Contents()))
    {
      var password := inFlight.value.password;
      cached := Some(Cached(password, clock));
      inFlight := Some(Settled(password));
      cachedFrom := |log|;
    }

    method FinishFetch()
      requires inFlight.Some? && inFlight.value.Settled?
      modifies this`inFlight
      ensures Contents() == Next(old(Contents()), Finish)
    {
      inFlight := None;
    }

    method InvalidateCache()
      modifies this`cached, this`invalidations
      ensures Contents() == Invalidate(old(Contents()))
    {
      if armed {
        cached := None;
        invalidations := invalidations + 1;
      }
    }
  }
}
