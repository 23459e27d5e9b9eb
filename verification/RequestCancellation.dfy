/**
 * Request-scoped cancellation of database queries
 * (apps/api/src/db/request-cancellation.util.ts).
 *
 * A request owns any number of postgres.js queries, named by their index. The
 * environment (the handler, the connection pool, the client, the timers) drives
 * it one `Step` at a time, in any order the JavaScript event loop allows: the
 * abort event and the admission timers are event-loop callbacks, so they run
 * only once every settled query's promise reaction has run (`Quiet`).
 */
module RequestCancellation {
  import opened Wrappers

  datatype Policy = BeforeStart | Always

  datatype Reason = ClientGone | AdmissionTimeout

  /** A thrown value. `CancelError(q)` is the object the driver rejects query `q`
      with when it is cancelled while still queued. */
  datatype Thrown =
    | Primitive
    | CancelError(query: nat)
    | ErrorObject(id: nat, code: Option<string>, cause: Option<Thrown>)

  datatype Outcome = Pending | Fulfilled | Rejected(err: Thrown)

  /** One query: the driver's own fields (`executed`, `held` for a set `state`,
      `outcome`), whether the driver was ever handed it, and the variables the
      instrumentation closes over when it tracks it. `cancels` counts the calls
      of the instrumentation's `cancel`. */
  datatype Query = Query(
    executed: bool,
    handedOff: bool,
    held: bool,
    outcome: Outcome,
    policy: Policy,
    tracked: bool,
    observed: bool,
    cancelledFor: Option<Reason>,
    cancels: nat)

  const FRESH_QUERY := Query(false, false, false, Pending, BeforeStart, false, false, None, 0)

  const QUERY_CANCELED := "57014"

  /** The request context plus everything the instrumentation keeps for it. */
  datatype State = State(
    policy: Policy,
    dbStarted: bool,
    cancelReason: Option<Reason>,
    aborted: bool,
    queries: seq<Query>,
    live: set<nat>,
    listeners: seq<nat>,
    timers: set<nat>,
    attributed: map<Thrown, Reason>)

  function Initial(policy: Policy): State {
    State(policy, false, None, false, [], {}, [], {}, map[])
  }

  // ---------------------------------------------------------------------------
  // The instrumentation
  // ---------------------------------------------------------------------------

  predicate Known(s: State, q: nat) {
    q < |s.queries|
  }

  /** Some live query of the request holds a connection, or one did. */
  predicate Started(s: State) {
    s.dbStarted || exists q :: q in s.live && Known(s, q) && s.queries[q].held
  }

  function Without(listeners: seq<nat>, q: nat): (r: seq<nat>)
    ensures |r| <= |listeners|
    ensures forall p :: p in r <==> p in listeners && p != q
  {
    if listeners == [] then []
    else if listeners[0] == q then Without(listeners[1..], q)
    else [listeners[0]] + Without(listeners[1..], q)
  }

  function Cleanup(s: State, q: nat): State {
    s.(timers := s.timers - {q}, listeners := Without(s.listeners, q), live := s.live - {q})
  }

  /** The driver's `cancel()`: a query without a connection leaves the pool queue
      and is rejected at once; a running one is only asked to stop. */
  function DriverCancel(query: Query, q: nat): Query {
    if query.held || !query.outcome.Pending? then query
    else query.(outcome := Rejected(CancelError(q)))
  }

  function Cancel(s: State, q: nat, reason: Reason): State
    requires Known(s, q)
  {
    var query := s.queries[q];
    var marked := query.(cancelledFor := Some(reason), cancels := query.cancels + 1);
    Cleanup(s, q).(
      dbStarted := s.dbStarted || query.held,
      cancelReason := if s.cancelReason.None? then Some(reason) else s.cancelReason,
      queries := s.queries[q := DriverCancel(marked, q)])
  }

  predicate CancellableOnAbort(s: State, q: nat)
    requires Known(s, q)
  {
    if s.queries[q].held then s.queries[q].policy.Always? else !Started(s)
  }

  function OnAbort(s: State, q: nat): (r: State)
    requires Known(s, q)
    ensures |r.queries| == |s.queries| && |r.listeners| <= |s.listeners|
    ensures forall p :: p in r.listeners ==> p in s.listeners
  {
    if CancellableOnAbort(s, q) then Cancel(s, q, ClientGone) else s
  }

  /** The request's policy is read once, when the query is handed to `track`. */
  function Stamp(s: State, q: nat): State
    requires Known(s, q)
  {
    s.(queries := s.queries[q := s.queries[q].(policy := s.policy)])
  }

  function Enroll(s: State, q: nat): State
    requires Known(s, q)
  {
    s.(live := s.live + {q}, queries := s.queries[q := s.queries[q].(policy := s.policy, tracked := true)])
  }

  /** Whether the query was cancelled before it reached the driver. */
  function Track(s: State, q: nat): (State, bool)
    requires Known(s, q)
  {
    if s.policy.BeforeStart? && Started(s) then (Stamp(s, q), false)
    else
      var t := Enroll(s, q);
      if s.aborted then
        if CancellableOnAbort(t, q) then (Cancel(t, q, ClientGone), true) else (Cleanup(t, q), false)
      else
        var heard := t.(listeners := t.listeners + [q]);
        (if Started(heard) then heard else heard.(timers := heard.timers + {q}), false)
  }

  /** The patched `Query.prototype.handle`. The driver's own `handle` queues a
      query at most once, guarded by `executed`. */
  function Handle(s: State, q: nat): State
    requires Known(s, q)
  {
    if s.queries[q].executed then s
    else
      var (t, cut) := Track(s, q);
      if cut then t.(queries := t.queries[q := t.queries[q].(executed := true)])
      else t.(queries := t.queries[q := t.queries[q].(executed := true, handedOff := true)])
  }

  /** The settlement reaction registered by `track`. */
  function Observe(s: State, q: nat): State
    requires Known(s, q)
  {
    var query := s.queries[q];
    var noted :=
      if query.outcome.Rejected? && query.cancelledFor.Some? && !query.outcome.err.Primitive?
      then s.(attributed := s.attributed[query.outcome.err := query.cancelledFor.value])
      else s;
    Cleanup(noted, q).(
      dbStarted := s.dbStarted || query.held,
      queries := s.queries[q := query.(observed := true)])
  }

  predicate ListenersKnown(s: State) {
    forall q | q in s.listeners :: q < |s.queries|
  }

  /** The abort event: every listener once, in registration order. */
  function Dispatch(s: State): State
    requires ListenersKnown(s)
    decreases |s.listeners|
  {
    if s.listeners == [] then s
    else
      assert s.listeners[0] in s.listeners;
      var popped := s.(listeners := s.listeners[1..]);
      assert ListenersKnown(popped) by {
        assert forall q :: q in popped.listeners ==> q in s.listeners;
      }
      Dispatch(OnAbort(popped, s.listeners[0]))
  }

  function TimerFires(s: State, q: nat): State
    requires Known(s, q)
  {
    var t := s.(timers := s.timers - {q});
    if !s.queries[q].held && !Started(t) then Cancel(t, q, AdmissionTimeout) else t
  }

  // ---------------------------------------------------------------------------
  // Steps and runs
  // ---------------------------------------------------------------------------

  datatype Step =
    | Create
    | HandleStep(q: nat)
    | Acquire(q: nat)
    | Settle(q: nat, outcome: Outcome)
    | ObserveStep(q: nat)
    | Abort
    | Timer(q: nat)
    | SetPolicy(policy: Policy)

  /** No settled query's promise reaction is still waiting to run. */
  predicate Quiet(s: State) {
    forall q :: 0 <= q < |s.queries| && s.queries[q].tracked && !s.queries[q].outcome.Pending? ==> s.queries[q].observed
  }

  function Code(err: Thrown): Option<string> {
    match err
    case Primitive => None
    case CancelError(_) => Some(QUERY_CANCELED)
    case ErrorObject(_, code, _) => code
  }

  function Cause(err: Thrown): Option<Thrown> {
    if err.ErrorObject? then err.cause else None
  }

  /** The error, or its cause, carries SQLSTATE 57014. */
  predicate Canceled(err: Thrown) {
    Code(err) == Some(QUERY_CANCELED) ||
    (Cause(err).Some? && Code(Cause(err).value) == Some(QUERY_CANCELED))
  }

  /** What the driver may settle a query with: any error, but a 57014 is an error
      object of that query's own. */
  predicate DriverMaySettle(s: State, outcome: Outcome) {
    match outcome
    case Pending => false
    case Fulfilled => true
    case Rejected(err) =>
      !err.CancelError? &&
      (Canceled(err) ==> forall p :: 0 <= p < |s.queries| ==> s.queries[p].outcome != outcome)
  }

  predicate Enabled(s: State, step: Step) {
    match step
    case Create => true
    case SetPolicy(_) => true
    case HandleStep(q) => Known(s, q)
    case Acquire(q) => Known(s, q) && s.queries[q].handedOff && !s.queries[q].held && s.queries[q].outcome.Pending?
    case Settle(q, outcome) =>
      Known(s, q) && s.queries[q].handedOff && s.queries[q].outcome.Pending? && DriverMaySettle(s, outcome)
    case ObserveStep(q) =>
      Known(s, q) && s.queries[q].tracked && !s.queries[q].outcome.Pending? && !s.queries[q].observed
    case Abort => !s.aborted && Quiet(s) && ListenersKnown(s)
    case Timer(q) => Known(s, q) && q in s.timers && Quiet(s)
  }

  function Next(s: State, step: Step): State
    requires Enabled(s, step)
  {
    match step
    case Create => s.(queries := s.queries + [FRESH_QUERY])
    case SetPolicy(policy) => s.(policy := policy)
    case HandleStep(q) => Handle(s, q)
    case Acquire(q) => s.(queries := s.queries[q := s.queries[q].(held := true)])
    case Settle(q, outcome) => s.(queries := s.queries[q := s.queries[q].(outcome := outcome)])
    case ObserveStep(q) => Observe(s, q)
    case Abort => Dispatch(s.(aborted := true))
    case Timer(q) => TimerFires(s, q)
  }

  predicate Runs(s: State, steps: seq<Step>)
    decreases |steps|
  {
    steps == [] || (Enabled(s, steps[0]) && Runs(Next(s, steps[0]), steps[1..]))
  }

  function After(s: State, steps: seq<Step>): State
    requires Runs(s, steps)
    decreases |steps|
  {
    if steps == [] then s else After(Next(s, steps[0]), steps[1..])
  }

  // ---------------------------------------------------------------------------
  // The invariant
  // ---------------------------------------------------------------------------

  predicate QueryInv(s: State, q: nat)
    requires Known(s, q)
  {
    QueryOk(s.queries[q], q, q in s.live, Started(s))
  }

  predicate QueryOk(query: Query, q: nat, live: bool, started: bool) {
    && (query.held ==> query.handedOff && started)
    && (query.handedOff ==> query.executed)
    && (!query.executed ==> query == FRESH_QUERY)
    && (live ==> query.tracked && query.executed && query.handedOff && query.cancels == 0 && !query.observed)
    && (query.handedOff && query.outcome.Pending? && !live ==> started)
    && (query.cancels <= 1 && (query.cancels == 1 <==> query.cancelledFor.Some?))
    && (query.cancelledFor.Some? ==> query.tracked && (query.held || query.outcome == Rejected(CancelError(q))))
    && (query.cancelledFor.Some? && query.policy.BeforeStart? ==> !query.held)
    && (query.executed && !query.handedOff ==> query.outcome == Rejected(CancelError(q)) && query.cancelledFor.Some?)
    && (query.outcome.Rejected? && query.outcome.err.CancelError? ==> query.outcome.err.query == q)
    && (query.observed ==> query.tracked && !query.outcome.Pending?)
  }

  /** The error registry says exactly which 57014 rejections were the
      instrumentation's doing. */
  predicate RegistryInv(s: State) {
    && (forall e :: e in s.attributed ==>
          !e.Primitive? && exists q :: 0 <= q < |s.queries| && Attributes(s.queries[q], e, s.attributed[e]))
    && (forall q :: 0 <= q < |s.queries| ==> Registered(s.queries[q], s.attributed))
    && (forall p, q :: 0 <= p < |s.queries| && 0 <= q < |s.queries| ==>
          SharesCanceled(s.queries[p], s.queries[q]) ==> p == q)
  }

  /** A cancelled query whose 57014 rejection was observed is in the registry,
      under its own reason. */
  predicate Registered(query: Query, attributed: map<Thrown, Reason>) {
    query.observed && query.outcome.Rejected? && query.cancelledFor.Some? && Canceled(query.outcome.err) ==>
      query.outcome.err in attributed && attributed[query.outcome.err] == query.cancelledFor.value
  }

  predicate SharesCanceled(p: Query, q: Query) {
    p.outcome.Rejected? && q.outcome == p.outcome && Canceled(p.outcome.err)
  }

  /** Query `q` was cancelled for `reason` and its observed rejection is `e`. */
  predicate Attributes(query: Query, e: Thrown, reason: Reason) {
    query.observed && query.outcome == Rejected(e) && query.cancelledFor == Some(reason)
  }

  /** A live query still hears the abort event until it has fired, and still has
      its admission timer until the request starts. */
  predicate Armed(s: State, q: nat) {
    && (s.aborted || q in s.listeners)
    && (Started(s) || q in s.timers)
  }

  predicate Inv(s: State) {
    && (forall q | q in s.live :: q < |s.queries|)
    && (forall q | q in s.listeners :: q in s.live)
    && (forall q | q in s.timers :: q in s.live)
    && (forall q | q in s.live :: Armed(s, q))
    && (forall q :: 0 <= q < |s.queries| ==> QueryInv(s, q))
    && RegistryInv(s)
  }

  // ---------------------------------------------------------------------------
  // Every step keeps the invariant
  // ---------------------------------------------------------------------------

  /** What one call of `cancel` does, as the callers' guards allow it. */
  predicate MayCancel(s: State, q: nat)
    requires Known(s, q)
  {
    && s.queries[q].tracked && s.queries[q].cancels == 0 && !s.queries[q].observed
    && s.queries[q].cancelledFor.None? && s.queries[q].outcome.Pending?
    && (if s.queries[q].held then s.queries[q].policy.Always? else !Started(s))
  }

  lemma CancelKeepsStarted(s: State, q: nat, reason: Reason)
    requires Known(s, q) && Started(s)
    ensures Started(Cancel(s, q, reason))
  {
    if !s.dbStarted {
      var p :| p in s.live && Known(s, p) && s.queries[p].held;
      var t := Cancel(s, q, reason);
      if p != q {
        assert p in t.live && Known(t, p) && t.queries[p].held;
      }
    }
  }

  lemma CancelKeepsInv(s: State, q: nat, reason: Reason)
    requires Inv(s) && Known(s, q) && MayCancel(s, q) && q in s.live
    ensures Inv(Cancel(s, q, reason))
  {
    var t := Cancel(s, q, reason);
    if Started(s) { CancelKeepsStarted(s, q, reason); }
    forall p | 0 <= p < |t.queries| ensures QueryInv(t, p) {
      assert QueryInv(s, p);
    }
    forall p | 0 <= p < |t.queries| && p != q ensures !SharesCanceled(t.queries[q], t.queries[p]) {
      assert QueryInv(s, p);
    }
    RegistryFrame(s, t, q);
  }

  /** A change to one query that has not been observed keeps the registry true,
      so long as it shares no 57014 with another query. */
  lemma RegistryFrame(s: State, t: State, q: nat)
    requires RegistryInv(s) && t.attributed == s.attributed
    requires q < |t.queries| && |s.queries| <= |t.queries| <= |s.queries| + 1
    requires |t.queries| > |s.queries| ==> q == |s.queries|
    requires forall p :: 0 <= p < |t.queries| && p != q ==> t.queries[p] == s.queries[p]
    requires q < |s.queries| ==> !s.queries[q].observed
    requires !t.queries[q].observed
    requires forall p :: 0 <= p < |t.queries| && p != q ==> !SharesCanceled(t.queries[q], t.queries[p])
    ensures RegistryInv(t)
  {
    forall e | e in t.attributed
      ensures exists p :: 0 <= p < |t.queries| && Attributes(t.queries[p], e, t.attributed[e])
    {
      var p :| 0 <= p < |s.queries| && Attributes(s.queries[p], e, s.attributed[e]);
      assert Attributes(t.queries[p], e, t.attributed[e]);
    }
    forall p, r | 0 <= p < |t.queries| && 0 <= r < |t.queries| && SharesCanceled(t.queries[p], t.queries[r])
      ensures p == r
    {
      if p == q && r != q {
        assert !SharesCanceled(t.queries[q], t.queries[r]);
      } else if r == q && p != q {
        assert !SharesCanceled(t.queries[q], t.queries[p]);
      } else if p != q {
        assert SharesCanceled(s.queries[p], s.queries[r]);
      }
    }
  }

  /** What one step may do to query `q`: nothing is undone, and a cancel happens
      at most once, to an unsettled query, for the reasons the policy allows. */
  predicate QueryAdvances(s: State, t: State, q: nat)
    requires Known(s, q) && Known(t, q)
  {
    var a, b := s.queries[q], t.queries[q];
    && (a.held ==> b.held)
    && (a.observed ==> b.observed)
    && (!a.outcome.Pending? ==> b.outcome == a.outcome)
    && (a.executed ==> b.executed && b.handedOff == a.handedOff && b.policy == a.policy)
    && (if b.cancels == a.cancels then b.cancelledFor == a.cancelledFor
        else a.cancels == 0 && b.cancels == 1 && a.outcome.Pending?
             && (if a.held then a.policy.Always? else !Started(s)))
    && (Started(s) && !a.executed && b.executed ==> b.handedOff && b.cancels == 0 && (s.aborted ==> q !in t.live))
    && (a.executed && q in t.live ==> q in s.live)
    && (a.executed && a.cancels != b.cancels ==> q in s.live)
  }

  predicate Advances(s: State, t: State) {
    && |s.queries| <= |t.queries|
    && (Started(s) ==> Started(t))
    && (s.aborted ==> t.aborted)
    && (forall q :: 0 <= q < |s.queries| ==> QueryAdvances(s, t, q))
    && (forall q :: |s.queries| <= q < |t.queries| ==> t.queries[q] == FRESH_QUERY)
  }

  lemma OnAbortKeeps(s: State, q: nat)
    requires Inv(s) && Known(s, q) && q in s.live && s.queries[q].outcome.Pending?
    ensures Inv(OnAbort(s, q)) && Advances(s, OnAbort(s, q)) && SameHolds(s, OnAbort(s, q))
    ensures forall p :: p in OnAbort(s, q).listeners ==> OnAbort(s, q).queries[p] == s.queries[p]
  {
    assert QueryInv(s, q);
    if CancellableOnAbort(s, q) {
      CancelKeepsInv(s, q, ClientGone);
      if Started(s) { CancelKeepsStarted(s, q, ClientGone); }
    }
  }

  predicate SameHolds(s: State, t: State) {
    && |s.queries| == |t.queries|
    && forall q :: 0 <= q < |s.queries| ==>
         && t.queries[q].held == s.queries[q].held && t.queries[q].executed == s.queries[q].executed
         && t.queries[q].observed == s.queries[q].observed
  }

  lemma SameHeld(s: State, t: State)
    requires s.dbStarted == t.dbStarted && s.live == t.live && |s.queries| == |t.queries|
    requires forall q :: 0 <= q < |s.queries| ==> s.queries[q].held == t.queries[q].held
    ensures Started(s) == Started(t)
  {
    if !s.dbStarted && Started(s) {
      var q :| q in s.live && Known(s, q) && s.queries[q].held;
      assert q in t.live && Known(t, q);
    }
    if !t.dbStarted && Started(t) {
      var q :| q in t.live && Known(t, q) && t.queries[q].held;
      assert q in s.live && Known(s, q);
    }
  }

  lemma AdvancesTwice(s: State, mid: State, t: State)
    requires Advances(s, mid) && Advances(mid, t) && |s.queries| == |mid.queries| == |t.queries|
    requires Inv(s) && SameHolds(s, mid)
    ensures Advances(s, t)
  {
    forall p | 0 <= p < |s.queries| ensures QueryAdvances(s, t, p) {
      assert QueryInv(s, p);
      assert QueryAdvances(s, mid, p) && QueryAdvances(mid, t, p);
    }
  }

  /** Listeners are not part of what advances. */
  lemma AdvancesFrom(s: State, popped: State, t: State)
    requires popped == s.(listeners := popped.listeners) && Started(popped) == Started(s) && Advances(popped, t)
    ensures Advances(s, t)
  {
    forall p | 0 <= p < |s.queries| ensures QueryAdvances(s, t, p) {
      assert QueryAdvances(popped, t, p);
    }
  }

  /** Unregistering a listener while the abort event runs keeps the invariant. */
  lemma PoppedKeepsInv(s: State, popped: State)
    requires Inv(s) && s.aborted && s.listeners != [] && popped == s.(listeners := s.listeners[1..])
    ensures Inv(popped) && Started(popped) == Started(s)
  {
    assert forall p :: p in popped.listeners ==> p in s.listeners;
    SameHeld(s, popped);
    forall p | 0 <= p < |s.queries| ensures QueryInv(popped, p) { assert QueryInv(s, p); }
    forall p | p in s.live ensures Armed(popped, p) { assert Armed(s, p); }
  }

  lemma {:induction false} DispatchKeeps(s: State)
    requires Inv(s) && ListenersKnown(s) && s.aborted
    requires forall q | q in s.listeners :: s.queries[q].outcome.Pending?
    ensures Inv(Dispatch(s)) && Advances(s, Dispatch(s)) && SameHolds(s, Dispatch(s))
    decreases |s.listeners|
  {
    if s.listeners != [] {
      var q := s.listeners[0];
      assert q in s.listeners;
      var popped := s.(listeners := s.listeners[1..]);
      assert forall p :: p in popped.listeners ==> p in s.listeners;
      PoppedKeepsInv(s, popped);
      OnAbortKeeps(popped, q);
      var next := OnAbort(popped, q);
      DispatchKeeps(next);
      AdvancesTwice(popped, next, Dispatch(next));
      AdvancesFrom(s, popped, Dispatch(next));
    }
  }

  /** Every outcome of a first `handle`, spelled out: `t` differs from `s` in
      query `q` only, which is now executed. It was handed off untouched, or cut
      because the request had not started. */
  predicate Handled(s: State, t: State, q: nat)
    requires Known(s, q)
  {
    && |t.queries| == |s.queries| && t.aborted == s.aborted && t.attributed == s.attributed
    && (forall p :: 0 <= p < |s.queries| && p != q ==> t.queries[p] == s.queries[p])
    && HandledLists(s, t, q)
    && HandledQuery(t.queries[q], q, q in t.live, Started(s))
    && (q in t.live <==> !s.aborted && !(s.policy.BeforeStart? && Started(s)))
    && t.queries[q].policy == s.policy
  }

  predicate HandledLists(s: State, t: State, q: nat) {
    && t.live - {q} == s.live
    && (forall p :: p in s.listeners ==> p in t.listeners) && s.timers <= t.timers
    && (forall p :: p in t.listeners ==> p in t.live) && (forall p :: p in t.timers ==> p in t.live)
    && (q in t.live ==> q in t.listeners && (q in t.timers <==> !Started(s)))
  }

  predicate HandledQuery(b: Query, q: nat, live: bool, started: bool) {
    && b.executed && !b.held && !b.observed
    && (live ==> b.tracked && b.handedOff)
    && if b.handedOff
       then b.cancels == 0 && b.cancelledFor.None? && b.outcome.Pending? && (live || started)
       else !started && b.tracked && b.cancels == 1 && b.cancelledFor == Some(ClientGone)
            && b.outcome == Rejected(CancelError(q))
  }

  lemma EnrollStarted(s: State, q: nat)
    requires Known(s, q) && !s.queries[q].held
    ensures Started(Enroll(s, q)) == Started(s)
  {
    var t := Enroll(s, q);
    if Started(s) && !s.dbStarted {
      var p :| p in s.live && Known(s, p) && s.queries[p].held;
      assert p in t.live && Known(t, p) && t.queries[p].held;
    }
    if Started(t) && !t.dbStarted {
      var p :| p in t.live && Known(t, p) && t.queries[p].held;
      assert p in s.live && Known(s, p) && s.queries[p].held;
    }
  }

  lemma HandleEffect(s: State, q: nat)
    requires Inv(s) && Known(s, q) && !s.queries[q].executed
    ensures Handled(s, Handle(s, q), q)
  {
    assert QueryInv(s, q);
    assert q !in s.live;
    if s.policy.BeforeStart? && Started(s) {
    } else if s.aborted {
      HandleEffectGone(s, q);
    } else {
      HandleEffectHeard(s, q);
    }
  }

  lemma HandleEffectGone(s: State, q: nat)
    requires Known(s, q) && s.queries[q] == FRESH_QUERY && q !in s.live
    requires (forall p | p in s.listeners :: p in s.live) && (forall p | p in s.timers :: p in s.live)
    requires s.aborted && !(s.policy.BeforeStart? && Started(s))
    ensures Handled(s, Handle(s, q), q)
  {
    EnrollStarted(s, q);
    var enrolled := Enroll(s, q);
    assert enrolled.live - {q} == s.live && enrolled.timers - {q} == s.timers;
  }

  lemma HandleEffectHeard(s: State, q: nat)
    requires Known(s, q) && s.queries[q] == FRESH_QUERY && q !in s.live
    requires (forall p | p in s.listeners :: p in s.live) && (forall p | p in s.timers :: p in s.live)
    requires !s.aborted && !(s.policy.BeforeStart? && Started(s))
    ensures Handled(s, Handle(s, q), q)
  {
    EnrollStarted(s, q);
    var enrolled := Enroll(s, q);
    SameHeld(enrolled, enrolled.(listeners := enrolled.listeners + [q]));
  }

  lemma HandleKeeps(s: State, q: nat)
    requires Inv(s) && Known(s, q)
    ensures Inv(Handle(s, q)) && Advances(s, Handle(s, q))
  {
    if !s.queries[q].executed {
      HandleEffect(s, q);
      HandleKeepsStarted(s, q);
      HandleKeepsQueries(s, q, Handle(s, q));
      HandleKeepsRegistry(s, q, Handle(s, q));
      HandleKeepsArmed(s, q, Handle(s, q));
    }
  }

  lemma HandleKeepsQueries(s: State, q: nat, t: State)
    requires Inv(s) && Known(s, q) && !s.queries[q].executed
    requires Handled(s, t, q) && Started(t) == Started(s)
    ensures forall p :: 0 <= p < |t.queries| ==> QueryInv(t, p) && QueryAdvances(s, t, p)
  {
    forall p | 0 <= p < |t.queries| ensures QueryInv(t, p) && QueryAdvances(s, t, p) {
      assert QueryInv(s, p);
      assert p != q ==> (p in t.live <==> p in s.live);
    }
  }

  lemma HandleKeepsRegistry(s: State, q: nat, t: State)
    requires Inv(s) && Known(s, q) && !s.queries[q].executed && Handled(s, t, q)
    ensures RegistryInv(t)
  {
    assert QueryInv(s, q);
    forall p | 0 <= p < |t.queries| && p != q ensures !SharesCanceled(t.queries[q], t.queries[p]) {
      assert QueryInv(s, p);
    }
    RegistryFrame(s, t, q);
  }

  lemma HandleKeepsArmed(s: State, q: nat, t: State)
    requires Inv(s) && Known(s, q) && Handled(s, t, q) && Started(t) == Started(s)
    ensures forall p | p in t.live :: p < |t.queries| && Armed(t, p)
  {
    forall p | p in t.live ensures p < |t.queries| && Armed(t, p) {
      if p != q { assert p in s.live && Armed(s, p); }
    }
  }

  lemma HandleKeepsStarted(s: State, q: nat)
    requires Inv(s) && Known(s, q) && !s.queries[q].executed
    ensures Started(Handle(s, q)) == Started(s)
  {
    assert QueryInv(s, q);
    var t := Handle(s, q);
    if Started(s) && !s.dbStarted {
      var p :| p in s.live && Known(s, p) && s.queries[p].held;
      assert p in t.live && Known(t, p) && t.queries[p].held;
    }
    if Started(t) && !t.dbStarted {
      var p :| p in t.live && Known(t, p) && t.queries[p].held;
      assert p in s.live && Known(s, p) && s.queries[p].held;
    }
  }

  lemma ObserveKeeps(s: State, q: nat)
    requires Inv(s) && Enabled(s, ObserveStep(q))
    ensures Inv(Observe(s, q)) && Advances(s, Observe(s, q))
  {
    var t := Observe(s, q);
    assert QueryInv(s, q);
    ObserveKeepsStarted(s, q);
    forall p | 0 <= p < |t.queries| ensures QueryInv(t, p) && QueryAdvances(s, t, p) {
      assert QueryInv(s, p);
    }
    ObserveKeepsRegistry(s, q);
  }

  lemma ObserveKeepsStarted(s: State, q: nat)
    requires Known(s, q)
    ensures Started(s) ==> Started(Observe(s, q))
    ensures s.queries[q].held ==> Started(Observe(s, q))
  {
    var t := Observe(s, q);
    if Started(s) && !t.dbStarted {
      var p :| p in s.live && Known(s, p) && s.queries[p].held;
      assert p in t.live && Known(t, p) && t.queries[p].held;
    }
  }

  lemma ObserveKeepsRegistry(s: State, q: nat)
    requires Inv(s) && Enabled(s, ObserveStep(q))
    ensures RegistryInv(Observe(s, q))
  {
    var t := Observe(s, q);
    forall e | e in t.attributed
      ensures !e.Primitive? && exists p :: 0 <= p < |t.queries| && Attributes(t.queries[p], e, t.attributed[e])
    {
      ObserveKeepsAttribution(s, q, e);
    }
    forall p | 0 <= p < |t.queries| ensures Registered(t.queries[p], t.attributed) {
      ObserveKeepsRegistered(s, q, p);
    }
    forall p, r | 0 <= p < |t.queries| && 0 <= r < |t.queries| && SharesCanceled(t.queries[p], t.queries[r])
      ensures p == r
    {
      assert SharesCanceled(s.queries[p], s.queries[r]);
    }
  }

  lemma ObserveKeepsAttribution(s: State, q: nat, e: Thrown)
    requires Inv(s) && Enabled(s, ObserveStep(q)) && e in Observe(s, q).attributed
    ensures var t := Observe(s, q);
      !e.Primitive? && exists p :: 0 <= p < |t.queries| && Attributes(t.queries[p], e, t.attributed[e])
  {
    var t := Observe(s, q);
    if s.queries[q].outcome == Rejected(e) && s.queries[q].cancelledFor.Some? && !e.Primitive? {
      assert Attributes(t.queries[q], e, t.attributed[e]);
    } else {
      var p :| 0 <= p < |s.queries| && Attributes(s.queries[p], e, s.attributed[e]);
      assert Attributes(t.queries[p], e, t.attributed[e]);
    }
  }

  lemma ObserveKeepsRegistered(s: State, q: nat, p: nat)
    requires Inv(s) && Enabled(s, ObserveStep(q)) && Known(s, p)
    ensures Registered(Observe(s, q).queries[p], Observe(s, q).attributed)
  {
    assert Registered(s.queries[p], s.attributed);
    assert SharesCanceled(s.queries[p], s.queries[q]) ==> p == q;
  }

  lemma TimerKeeps(s: State, q: nat)
    requires Inv(s) && Enabled(s, Timer(q))
    ensures Inv(TimerFires(s, q)) && Advances(s, TimerFires(s, q))
  {
    var fired := s.(timers := s.timers - {q});
    SameHeld(s, fired);
    assert QueryInv(s, q);
    if !s.queries[q].held && !Started(fired) {
      assert fired.timers - {q} == s.timers - {q};
      assert Cancel(fired, q, AdmissionTimeout) == Cancel(s, q, AdmissionTimeout);
      CancelKeepsInv(s, q, AdmissionTimeout);
    } else {
      forall p | 0 <= p < |s.queries| ensures QueryInv(fired, p) { assert QueryInv(s, p); }
      forall p | p in s.live ensures Armed(fired, p) { assert Armed(s, p); }
    }
  }

  /** The driver acquires a connection for, or settles, query `q`. */
  lemma DriverKeeps(s: State, step: Step)
    requires Inv(s) && (step.Acquire? || step.Settle?) && Enabled(s, step)
    ensures Inv(Next(s, step)) && Advances(s, Next(s, step))
  {
    var t, q := Next(s, step), step.q;
    assert QueryInv(s, q);
    DriverKeepsStarted(s, step);
    forall p | 0 <= p < |t.queries| ensures QueryInv(t, p) && QueryAdvances(s, t, p) {
      assert QueryInv(s, p);
    }
    forall p | 0 <= p < |t.queries| && p != q ensures !SharesCanceled(t.queries[q], t.queries[p]) {
      assert QueryInv(s, p);
    }
    RegistryFrame(s, t, q);
  }

  lemma DriverKeepsStarted(s: State, step: Step)
    requires Inv(s) && (step.Acquire? || step.Settle?) && Enabled(s, step)
    ensures Started(s) ==> Started(Next(s, step))
    ensures step.Acquire? ==> Started(Next(s, step))
  {
    var t, q := Next(s, step), step.q;
    assert QueryInv(s, q);
    if Started(s) && !s.dbStarted {
      var p :| p in s.live && Known(s, p) && s.queries[p].held;
      assert p in t.live && Known(t, p) && t.queries[p].held;
    }
    if step.Acquire? && !Started(s) {
      assert q in t.live && Known(t, q) && t.queries[q].held;
    }
  }

  lemma CreateKeeps(s: State)
    requires Inv(s)
    ensures Inv(Next(s, Create)) && Advances(s, Next(s, Create))
  {
    var t, q := Next(s, Create), |s.queries|;
    CreateKeepsStarted(s);
    forall p | 0 <= p < |t.queries| ensures QueryInv(t, p) {
      if p < |s.queries| { assert QueryInv(s, p); }
    }
    forall p | 0 <= p < |s.queries| ensures QueryAdvances(s, t, p) {
      assert QueryInv(s, p);
    }
    RegistryFrame(s, t, q);
  }

  lemma CreateKeepsStarted(s: State)
    requires forall q | q in s.live :: q < |s.queries|
    ensures Started(Next(s, Create)) == Started(s)
  {
    var t := Next(s, Create);
    if Started(s) && !s.dbStarted {
      var p :| p in s.live && Known(s, p) && s.queries[p].held;
      assert p in t.live && Known(t, p) && t.queries[p].held;
    }
    if Started(t) && !t.dbStarted {
      var p :| p in t.live && Known(t, p) && t.queries[p].held;
      assert p in s.live && Known(s, p) && s.queries[p].held;
    }
  }

  lemma SetPolicyKeeps(s: State, policy: Policy)
    requires Inv(s)
    ensures Inv(s.(policy := policy)) && Advances(s, s.(policy := policy))
  {
    var t := s.(policy := policy);
    SameHeld(s, t);
    forall p | 0 <= p < |s.queries| ensures QueryInv(t, p) { assert QueryInv(s, p); }
  }

  /** When the abort event fires, every listener's query is still unsettled. */
  lemma GoneKeepsInv(s: State, gone: State)
    requires Inv(s) && Enabled(s, Abort) && gone == s.(aborted := true)
    ensures Inv(gone) && Started(gone) == Started(s)
    ensures forall q | q in gone.listeners :: gone.queries[q].outcome.Pending?
  {
    SameHeld(s, gone);
    forall p | 0 <= p < |s.queries| ensures QueryInv(gone, p) { assert QueryInv(s, p); }
    forall q | q in gone.listeners ensures gone.queries[q].outcome.Pending? { assert QueryInv(s, q); }
  }

  lemma AbortKeeps(s: State)
    requires Inv(s) && Enabled(s, Abort)
    ensures Inv(Next(s, Abort)) && Advances(s, Next(s, Abort))
  {
    var gone := s.(aborted := true);
    GoneKeepsInv(s, gone);
    DispatchKeeps(gone);
    var t := Dispatch(gone);
    forall p | 0 <= p < |s.queries| ensures QueryAdvances(s, t, p) {
      assert QueryAdvances(gone, t, p);
    }
  }

  /** Every step, in every interleaving, keeps the invariant and undoes nothing. */
  lemma StepKeeps(s: State, step: Step)
    requires Inv(s) && Enabled(s, step)
    ensures Inv(Next(s, step)) && Advances(s, Next(s, step))
  {
    match step
    case Create => CreateKeeps(s);
    case SetPolicy(policy) => SetPolicyKeeps(s, policy);
    case HandleStep(q) => HandleKeeps(s, q);
    case Acquire(_) => DriverKeeps(s, step);
    case Settle(_, _) => DriverKeeps(s, step);
    case ObserveStep(q) => ObserveKeeps(s, q);
    case Abort => AbortKeeps(s);
    case Timer(q) => TimerKeeps(s, q);
  }

  lemma InitialInv(policy: Policy)
    ensures Inv(Initial(policy))
  {
  }

  /** What a whole run keeps: the invariant, a started request, an aborted
      signal, and everything about a query that never changes back. */
  lemma {:induction false} RunKeeps(s: State, steps: seq<Step>)
    requires Inv(s) && Runs(s, steps)
    ensures var t := After(s, steps);
      && Inv(t) && |s.queries| <= |t.queries|
      && (Started(s) ==> Started(t)) && (s.aborted ==> t.aborted)
      && (forall q :: 0 <= q < |s.queries| ==> Persists(s.queries[q], t.queries[q]))
    decreases |steps|
  {
    if steps != [] {
      StepKeeps(s, steps[0]);
      var next := Next(s, steps[0]);
      RunKeeps(next, steps[1..]);
      forall q | 0 <= q < |s.queries| ensures Persists(s.queries[q], After(s, steps).queries[q]) {
        assert QueryAdvances(s, next, q);
        assert Persists(next.queries[q], After(next, steps[1..]).queries[q]);
      }
    }
  }

  predicate Persists(a: Query, b: Query) {
    && (a.held ==> b.held)
    && (!a.outcome.Pending? ==> b.outcome == a.outcome && (a.observed ==> b.observed))
    && (a.executed ==> b.executed && b.handedOff == a.handedOff && b.policy == a.policy)
    && (a.cancels == 1 ==> b.cancels == 1 && b.cancelledFor == a.cancelledFor)
    && (!a.outcome.Pending? ==> b.cancels == a.cancels)
  }

  // ---------------------------------------------------------------------------
  // What the request's own flags stand for
  // ---------------------------------------------------------------------------

  /** Some query of the request holds, or held, a connection. */
  predicate SomeHeld(s: State) {
    exists q :: 0 <= q < |s.queries| && s.queries[q].held
  }

  predicate SomeCut(s: State, reason: Reason) {
    exists q :: 0 <= q < |s.queries| && s.queries[q].cancelledFor == Some(reason)
  }

  /** With the driver under "always", and not settled. */
  predicate AlwaysPending(query: Query) {
    query.handedOff && query.outcome.Pending? && query.policy.Always?
  }

  /** The flags say no more than happened: `dbStarted` rests on a query that held a
      connection, the request's cancel reason on a query cut for it; and until the
      client leaves, every pending query under "always" is live. */
  predicate History(s: State) {
    && (s.dbStarted ==> SomeHeld(s))
    && (s.cancelReason.Some? ==> SomeCut(s, s.cancelReason.value))
    && (forall q :: 0 <= q < |s.queries| && s.queries[q].cancelledFor.Some? ==> s.cancelReason.Some?)
    && (forall q :: 0 <= q < |s.queries| && AlwaysPending(s.queries[q]) && !s.aborted ==> q in s.live)
  }

  predicate NewlyCut(a: Query, b: Query) {
    a.cancelledFor.None? && b.cancelledFor.Some?
  }

  /** How a step moves the flags. */
  predicate Moves(s: State, t: State) {
    && (t.dbStarted ==> s.dbStarted || SomeHeld(s))
    && (s.cancelReason.Some? ==> t.cancelReason == s.cancelReason)
    && (s.cancelReason.None? && t.cancelReason.Some? ==> SomeCut(t, t.cancelReason.value))
    && (forall q :: 0 <= q < |s.queries| && q < |t.queries| && NewlyCut(s.queries[q], t.queries[q]) ==>
          t.cancelReason.Some?)
  }

  lemma HistoryCarries(s: State, t: State)
    requires Inv(s) && Advances(s, t)
    ensures SomeHeld(s) ==> SomeHeld(t)
    ensures forall reason :: SomeCut(s, reason) ==> SomeCut(t, reason)
    ensures forall q :: 0 <= q < |s.queries| && s.queries[q].cancelledFor.Some? ==>
              t.queries[q].cancelledFor == s.queries[q].cancelledFor
  {
    forall q | 0 <= q < |s.queries|
      ensures s.queries[q].held ==> t.queries[q].held
      ensures s.queries[q].cancelledFor.Some? ==> t.queries[q].cancelledFor == s.queries[q].cancelledFor
    {
      assert QueryInv(s, q) && QueryAdvances(s, t, q);
    }
    if SomeHeld(s) {
      var q :| 0 <= q < |s.queries| && s.queries[q].held;
      assert t.queries[q].held;
    }
    forall reason | SomeCut(s, reason) ensures SomeCut(t, reason) {
      var q :| 0 <= q < |s.queries| && s.queries[q].cancelledFor == Some(reason);
      assert t.queries[q].cancelledFor == Some(reason);
    }
  }

  lemma CancelMoves(s: State, q: nat, reason: Reason)
    requires Known(s, q)
    ensures Moves(s, Cancel(s, q, reason))
  {
    assert Cancel(s, q, reason).queries[q].cancelledFor == Some(reason);
  }

  lemma {:induction false} DispatchMoves(s: State)
    requires Inv(s) && ListenersKnown(s) && s.aborted
    requires forall q | q in s.listeners :: s.queries[q].outcome.Pending?
    ensures Moves(s, Dispatch(s))
    decreases |s.listeners|
  {
    if s.listeners != [] {
      var q := s.listeners[0];
      assert q in s.listeners;
      var popped := s.(listeners := s.listeners[1..]);
      assert forall p :: p in popped.listeners ==> p in s.listeners;
      PoppedKeepsInv(s, popped);
      OnAbortKeeps(popped, q);
      var next := OnAbort(popped, q);
      OnAbortMoves(popped, q);
      DispatchMoves(next);
      DispatchKeeps(next);
      HistoryCarries(next, Dispatch(next));
      MovesTwice(popped, next, Dispatch(next));
      MovesFrom(s, popped, Dispatch(next));
    }
  }

  lemma OnAbortMoves(s: State, q: nat)
    requires Known(s, q)
    ensures Moves(s, OnAbort(s, q))
  {
    if CancellableOnAbort(s, q) { CancelMoves(s, q, ClientGone); }
  }

  /** Listeners are not part of what moves. */
  lemma MovesFrom(s: State, popped: State, t: State)
    requires popped == s.(listeners := popped.listeners) && Moves(popped, t)
    ensures Moves(s, t)
  {
    assert SomeHeld(popped) == SomeHeld(s);
  }

  lemma MovesTwice(s: State, mid: State, t: State)
    requires Moves(s, mid) && Moves(mid, t) && SameHolds(s, mid) && |mid.queries| == |t.queries|
    requires forall reason :: SomeCut(mid, reason) ==> SomeCut(t, reason)
    ensures Moves(s, t)
  {
    if SomeHeld(mid) {
      var q :| 0 <= q < |mid.queries| && mid.queries[q].held;
      assert s.queries[q].held;
    }
  }

  lemma StepMoves(s: State, step: Step)
    requires Inv(s) && Enabled(s, step)
    ensures Moves(s, Next(s, step))
  {
    match step
    case Create =>
    case SetPolicy(_) =>
    case Acquire(_) =>
    case Settle(_, _) =>
    case ObserveStep(_) =>
    case HandleStep(q) => HandleMoves(s, q);
    case Timer(q) =>
      var fired := s.(timers := s.timers - {q});
      assert SomeHeld(fired) == SomeHeld(s);
      if !s.queries[q].held && !Started(fired) { CancelMoves(fired, q, AdmissionTimeout); }
    case Abort =>
      var gone := s.(aborted := true);
      GoneKeepsInv(s, gone);
      DispatchMoves(gone);
      assert SomeHeld(gone) == SomeHeld(s);
  }

  lemma HandleMoves(s: State, q: nat)
    requires Inv(s) && Known(s, q)
    ensures Moves(s, Handle(s, q))
  {
    if !s.queries[q].executed {
      assert QueryInv(s, q);
      HandleEffect(s, q);
      var t := Handle(s, q);
      if t.queries[q].cancelledFor.Some? {
        assert t.cancelReason.Some?;
        if s.cancelReason.None? { assert t.queries[q].cancelledFor == t.cancelReason; }
      }
    }
  }

  /** Only a handle, a settlement or an abort changes who is pending and live. */
  lemma StepKeepsAlways(s: State, step: Step, q: nat)
    requires Inv(s) && History(s) && Enabled(s, step) && Known(Next(s, step), q)
    requires AlwaysPending(Next(s, step).queries[q]) && !Next(s, step).aborted
    ensures q in Next(s, step).live
  {
    StepKeeps(s, step);
    match step
    case Create => assert q < |s.queries|;
    case SetPolicy(_) =>
    case Acquire(_) =>
    case Settle(_, _) =>
    case ObserveStep(_) =>
    case HandleStep(p) =>
      if !s.queries[p].executed { HandleEffect(s, p); }
      assert QueryInv(s, p);
    case Timer(p) => SameHeld(s, s.(timers := s.timers - {p}));
    case Abort => AbortHolds(s);
  }

  lemma StepKeepsHistory(s: State, step: Step)
    requires Inv(s) && History(s) && Enabled(s, step)
    ensures History(Next(s, step))
  {
    var t := Next(s, step);
    StepKeeps(s, step);
    StepMoves(s, step);
    HistoryCarries(s, t);
    forall q | 0 <= q < |t.queries| && AlwaysPending(t.queries[q]) && !t.aborted ensures q in t.live {
      StepKeepsAlways(s, step, q);
    }
  }

  lemma {:induction false} RunKeepsHistory(s: State, steps: seq<Step>)
    requires Inv(s) && History(s) && Runs(s, steps)
    ensures Inv(After(s, steps)) && History(After(s, steps))
    ensures s.cancelReason.Some? ==> After(s, steps).cancelReason == s.cancelReason
    decreases |steps|
  {
    if steps != [] {
      StepKeeps(s, steps[0]);
      StepMoves(s, steps[0]);
      StepKeepsHistory(s, steps[0]);
      RunKeepsHistory(Next(s, steps[0]), steps[1..]);
    }
  }

  /** The state of a request after a run from its beginning. */
  lemma Reached(policy: Policy, steps: seq<Step>)
    requires Runs(Initial(policy), steps)
    ensures Inv(After(Initial(policy), steps)) && History(After(Initial(policy), steps))
  {
    InitialInv(policy);
    RunKeepsHistory(Initial(policy), steps);
  }

  lemma StartedIsHeld(s: State)
    requires Inv(s) && History(s)
    ensures Started(s) <==> SomeHeld(s)
  {
    if SomeHeld(s) {
      var q :| 0 <= q < |s.queries| && s.queries[q].held;
      assert QueryInv(s, q);
    }
  }

  // ---------------------------------------------------------------------------
  // Main results
  // ---------------------------------------------------------------------------

  /** In any run, `hasStarted` answers true exactly when some query of the request
      holds, or held, a connection. */
  lemma StartedExactly(policy: Policy, steps: seq<Step>)
    requires Runs(Initial(policy), steps)
    ensures var s := After(Initial(policy), steps);
      Started(s) <==> exists q :: 0 <= q < |s.queries| && s.queries[q].held
  {
    Reached(policy, steps);
    StartedIsHeld(After(Initial(policy), steps));
  }

  /** The request's cancel reason is that of its first cut, and stays it. */
  lemma FirstReasonStands(policy: Policy, before: seq<Step>, after: seq<Step>)
    requires Runs(Initial(policy), before) && Runs(After(Initial(policy), before), after)
    ensures var s := After(Initial(policy), before);
      && (s.cancelReason.None? <==> forall q :: 0 <= q < |s.queries| ==> s.queries[q].cancels == 0)
      && (s.cancelReason.Some? ==>
            && After(s, after).cancelReason == s.cancelReason
            && exists q :: 0 <= q < |s.queries| && s.queries[q].cancelledFor == s.cancelReason)
  {
    Reached(policy, before);
    var s := After(Initial(policy), before);
    RunKeepsHistory(s, after);
    forall q | 0 <= q < |s.queries| ensures s.queries[q].cancels == 0 <==> s.queries[q].cancelledFor.None? {
      assert QueryInv(s, q);
    }
  }

  /** The abort event cuts a query of the request, whichever it is, exactly when it
      is with the driver, unsettled and not cut yet, and is either in flight under
      "always" or waiting while no query ever held a connection. It is cut as
      abandoned by the client; waiting, it is rejected at once, in flight it is left
      to the driver, and nothing else about it changes. */
  lemma DisconnectCutsEachExactly(policy: Policy, steps: seq<Step>, q: nat)
    requires Runs(Initial(policy), steps)
    requires var s := After(Initial(policy), steps); Enabled(s, Abort) && Known(s, q)
    ensures var s := After(Initial(policy), steps);
      var a, t := s.queries[q], Next(s, Abort);
      && Known(t, q)
      && (t.queries[q] != a <==>
            && a.handedOff && a.outcome.Pending? && a.cancels == 0
            && if a.held then a.policy.Always? else forall p :: 0 <= p < |s.queries| ==> !s.queries[p].held)
      && (t.queries[q] != a ==>
            t.queries[q] == a.(cancelledFor := Some(ClientGone), cancels := 1,
                               outcome := if a.held then Pending else Rejected(CancelError(q))))
  {
    Reached(policy, steps);
    var s := After(Initial(policy), steps);
    AbortCuts(s, q);
  }

  lemma AbortCuts(s: State, q: nat)
    requires Inv(s) && History(s) && Enabled(s, Abort) && Known(s, q)
    ensures var a, t := s.queries[q], Next(s, Abort);
      && Known(t, q)
      && (t.queries[q] != a <==>
            && a.handedOff && a.outcome.Pending? && a.cancels == 0
            && if a.held then a.policy.Always? else !SomeHeld(s))
      && (t.queries[q] != a ==>
            t.queries[q] == a.(cancelledFor := Some(ClientGone), cancels := 1,
                               outcome := if a.held then Pending else Rejected(CancelError(q))))
  {
    var gone := s.(aborted := true);
    GoneKeepsInv(s, gone);
    AbortKeeps(s);
    StartedIsHeld(s);
    assert QueryInv(s, q);
    if q in s.live {
      assert Armed(s, q);
      if if s.queries[q].held then s.queries[q].policy.Always? else !Started(s) {
        DispatchCuts(gone, q);
        assert QueryInv(Next(s, Abort), q);
      } else {
        DispatchSpares(gone, q);
      }
    } else {
      assert q !in s.listeners;
      DispatchLeavesAlone(gone, q);
    }
  }

  /** A query that may not be cut is not touched by the abort event. */
  lemma {:induction false} DispatchSpares(s: State, q: nat)
    requires Inv(s) && ListenersKnown(s) && s.aborted && Known(s, q)
    requires forall p | p in s.listeners :: s.queries[p].outcome.Pending?
    requires !(if s.queries[q].held then s.queries[q].policy.Always? else !Started(s))
    ensures Known(Dispatch(s), q) && Dispatch(s).queries[q] == s.queries[q]
    decreases |s.listeners|
  {
    if s.listeners != [] {
      var head := s.listeners[0];
      assert head in s.listeners;
      var popped := s.(listeners := s.listeners[1..]);
      assert forall p :: p in popped.listeners ==> p in s.listeners;
      PoppedKeepsInv(s, popped);
      OnAbortKeeps(popped, head);
      DispatchSpares(OnAbort(popped, head), q);
    }
  }

  /** A request that stays "before-start" never has a query cut in flight. */
  lemma BeforeStartNeverCutsInFlight(steps: seq<Step>, q: nat)
    requires Runs(Initial(BeforeStart), steps)
    requires forall i :: 0 <= i < |steps| ==> steps[i] != SetPolicy(Always)
    requires Known(After(Initial(BeforeStart), steps), q)
    ensures var query := After(Initial(BeforeStart), steps).queries[q];
      && query.policy.BeforeStart?
      && (query.cancels != 0 ==> !query.held && query.outcome == Rejected(CancelError(q)))
  {
    Reached(BeforeStart, steps);
    StaysBeforeStart(Initial(BeforeStart), steps);
    assert QueryInv(After(Initial(BeforeStart), steps), q);
  }

  predicate AllBeforeStart(s: State) {
    s.policy.BeforeStart? && forall q :: 0 <= q < |s.queries| ==> s.queries[q].policy.BeforeStart?
  }

  lemma {:induction false} StaysBeforeStart(s: State, steps: seq<Step>)
    requires Inv(s) && AllBeforeStart(s) && Runs(s, steps)
    requires forall i :: 0 <= i < |steps| ==> steps[i] != SetPolicy(Always)
    ensures AllBeforeStart(After(s, steps))
    decreases |steps|
  {
    if steps != [] {
      var next := Next(s, steps[0]);
      assert steps[0] != SetPolicy(Always);
      StepKeeps(s, steps[0]);
      StepKeepsPolicy(s, steps[0]);
      forall q | 0 <= q < |next.queries| ensures next.queries[q].policy.BeforeStart? {
        if q < |s.queries| { assert s.queries[q].policy.BeforeStart?; }
      }
      StaysBeforeStart(next, steps[1..]);
    }
  }

  /** A query's policy is the request's when it was handed over, and no other step
      changes the request's. */
  lemma StepKeepsPolicy(s: State, step: Step)
    requires Inv(s) && Enabled(s, step)
    ensures var t := Next(s, step);
      && (t.policy == if step.SetPolicy? then step.policy else s.policy)
      && |s.queries| <= |t.queries|
      && forall q :: 0 <= q < |s.queries| ==>
           t.queries[q].policy ==
             if step == HandleStep(q) && !s.queries[q].executed then s.policy else s.queries[q].policy
  {
    StepKeeps(s, step);
    if step.HandleStep? && !s.queries[step.q].executed { HandleEffect(s, step.q); }
    if step.Abort? { DispatchKeepsPolicy(s.(aborted := true)); }
  }

  lemma {:induction false} DispatchKeepsPolicy(s: State)
    requires ListenersKnown(s)
    ensures Dispatch(s).policy == s.policy && |Dispatch(s).queries| == |s.queries|
    ensures forall q :: 0 <= q < |s.queries| ==> Dispatch(s).queries[q].policy == s.queries[q].policy
    decreases |s.listeners|
  {
    if s.listeners != [] {
      assert s.listeners[0] in s.listeners;
      var popped := s.(listeners := s.listeners[1..]);
      assert forall p :: p in popped.listeners ==> p in s.listeners;
      DispatchKeepsPolicy(OnAbort(popped, s.listeners[0]));
    }
  }

  /** In any run from a fresh request, once a query has held a connection the
      request reads as started, then and ever after. */
  lemma HeldMeansStartedForever(policy: Policy, before: seq<Step>, after: seq<Step>, q: nat)
    requires Runs(Initial(policy), before) && Runs(After(Initial(policy), before), after)
    requires Known(After(Initial(policy), before), q) && After(Initial(policy), before).queries[q].held
    ensures Started(After(Initial(policy), before))
    ensures Started(After(After(Initial(policy), before), after))
  {
    InitialInv(policy);
    RunKeeps(Initial(policy), before);
    var s := After(Initial(policy), before);
    assert QueryInv(s, q);
    RunKeeps(s, after);
  }

  /** "before-start": once any query of the request has held a connection, no
      query, present or future, is cancelled any more. */
  lemma {:induction false} BeforeStartNeverCutsAStartedRequest(s: State, steps: seq<Step>, holder: nat, q: nat)
    requires Inv(s) && Runs(s, steps)
    requires Known(s, holder) && s.queries[holder].held
    requires var t := After(s, steps);
      Known(t, q) && t.queries[q].policy.BeforeStart? && t.queries[q].cancels != 0
    ensures Known(s, q) && s.queries[q].cancels != 0
    decreases |steps|
  {
    if steps != [] {
      var next := Next(s, steps[0]);
      StepKeeps(s, steps[0]);
      assert QueryInv(s, holder);
      assert QueryAdvances(s, next, holder);
      BeforeStartNeverCutsAStartedRequest(next, steps[1..], holder, q);
      if Known(s, q) {
        assert QueryInv(s, q) && QueryInv(next, q) && QueryAdvances(s, next, q);
        RunKeeps(next, steps[1..]);
        assert Persists(next.queries[q], After(next, steps[1..]).queries[q]);
      }
    }
  }

  /** A request that has started spares every query issued later, under either
      policy: it reaches the driver, it is cut only while it holds a connection,
      and never when the client had already gone. So the ROLLBACK that follows a
      statement cut in flight always hands its connection back. */
  lemma {:induction false} LaterQueriesReachTheDriver(s: State, steps: seq<Step>, holder: nat, q: nat)
    requires Inv(s) && Runs(s, steps)
    requires Known(s, holder) && s.queries[holder].held
    requires Known(s, q) ==> !s.queries[q].executed
    requires Known(After(s, steps), q) && After(s, steps).queries[q].executed
    ensures var query := After(s, steps).queries[q];
      && query.handedOff
      && (query.cancels != 0 ==> query.held && query.policy.Always?)
      && (s.aborted ==> query.cancels == 0)
  {
    assert QueryInv(s, holder);
    if Known(s, q) { assert QueryInv(s, q); }
    SparedFor(s, steps, s.aborted, q);
    assert QueryInv(After(s, steps), q) by { RunKeeps(s, steps); }
  }

  /** The part of a started request's state that spares a later query. */
  predicate Spared(s: State, gone: bool, q: nat) {
    && Started(s) && (gone ==> s.aborted)
    && (Known(s, q) && s.queries[q].executed ==>
          && s.queries[q].handedOff
          && (s.queries[q].cancels != 0 ==> s.queries[q].held)
          && (gone ==> q !in s.live && s.queries[q].cancels == 0))
  }

  lemma {:induction false} SparedFor(s: State, steps: seq<Step>, gone: bool, q: nat)
    requires Inv(s) && Runs(s, steps) && Spared(s, gone, q)
    ensures Inv(After(s, steps)) && Spared(After(s, steps), gone, q)
    decreases |steps|
  {
    if steps != [] {
      var next := Next(s, steps[0]);
      StepKeeps(s, steps[0]);
      if Known(s, q) { assert QueryInv(s, q) && QueryInv(next, q) && QueryAdvances(s, next, q); }
      SparedFor(next, steps[1..], gone, q);
    }
  }

  /** A step cancels a query only if it is unsettled and not cancelled yet, and
      then only in flight under "always" or queued in a request not yet started. */
  lemma CancelsOnlyWhatMayBeCut(s: State, step: Step, q: nat)
    requires Inv(s) && Enabled(s, step)
    requires Known(s, q) && Known(Next(s, step), q)
    requires Next(s, step).queries[q].cancels != s.queries[q].cancels
    ensures s.queries[q].cancels == 0 && Next(s, step).queries[q].cancels == 1
    ensures s.queries[q].outcome.Pending?
    ensures if s.queries[q].held then s.queries[q].policy.Always? else !Started(s)
  {
    StepKeeps(s, step);
    assert QueryAdvances(s, Next(s, step), q);
  }

  /** In any run a query is cancelled at most once, never after it settled, and
      one cancelled before hand-off never reaches the driver. */
  lemma CutAtMostOnceAndNeverLate(s: State, steps: seq<Step>, q: nat)
    requires Inv(s) && Runs(s, steps) && Known(s, q)
    ensures Known(After(s, steps), q)
    ensures After(s, steps).queries[q].cancels <= 1
    ensures !s.queries[q].outcome.Pending? ==> After(s, steps).queries[q].cancels == s.queries[q].cancels
    ensures s.queries[q].cancels == 1 && !s.queries[q].handedOff ==> !After(s, steps).queries[q].handedOff
  {
    RunKeeps(s, steps);
    assert Persists(s.queries[q], After(s, steps).queries[q]);
    assert QueryInv(s, q) && QueryInv(After(s, steps), q);
  }

  /** The abort event is not a no-op: it cuts a listening query exactly when the
      query is in flight under "always", or queued in a request not yet started. */
  lemma DisconnectCutsExactly(s: State, q: nat)
    requires Inv(s) && Enabled(s, Abort) && q in s.live
    ensures var t := Next(s, Abort);
      Known(t, q) &&
      (t.queries[q].cancelledFor == Some(ClientGone) <==>
        if s.queries[q].held then s.queries[q].policy.Always? else !Started(s))
  {
    assert QueryInv(s, q) && Armed(s, q);
    var gone := s.(aborted := true);
    SameHeld(s, gone);
    AbortKeeps(s);
    assert QueryAdvances(s, Next(s, Abort), q);
    if if s.queries[q].held then s.queries[q].policy.Always? else !Started(s) {
      DispatchCuts(gone, q);
    }
  }

  lemma {:induction false} DispatchCuts(s: State, q: nat)
    requires ListenersKnown(s) && q in s.listeners
    requires forall p | p in s.listeners :: p in s.live
    requires if s.queries[q].held then s.queries[q].policy.Always? else !Started(s)
    requires s.queries[q].outcome.Pending? && s.queries[q].cancels == 0
    ensures Known(Dispatch(s), q)
    ensures Dispatch(s).queries[q] == s.queries[q].(
              cancelledFor := Some(ClientGone), cancels := 1,
              outcome := if s.queries[q].held then Pending else Rejected(CancelError(q)))
    decreases |s.listeners|
  {
    var head := s.listeners[0];
    assert head in s.listeners;
    var popped := s.(listeners := s.listeners[1..]);
    assert forall p :: p in popped.listeners ==> p in s.listeners;
    SameHeld(s, popped);
    var next := OnAbort(popped, head);
    if head == q {
      DispatchLeavesAlone(next, q);
    } else {
      assert q in popped.listeners && q in next.listeners;
      if !Started(s) { assert popped.live == s.live && !popped.queries[head].held; }
      DispatchCuts(next, q);
    }
  }

  lemma {:induction false} DispatchLeavesAlone(s: State, q: nat)
    requires ListenersKnown(s) && Known(s, q) && q !in s.listeners
    ensures Known(Dispatch(s), q) && Dispatch(s).queries[q] == s.queries[q]
    decreases |s.listeners|
  {
    if s.listeners != [] {
      assert s.listeners[0] in s.listeners;
      var popped := s.(listeners := s.listeners[1..]);
      assert forall p :: p in popped.listeners ==> p in s.listeners;
      DispatchLeavesAlone(OnAbort(popped, s.listeners[0]), q);
    }
  }

  /** The admission deadline cuts the query exactly when it is still queued and
      the request has not started; and until it starts, every live query has one. */
  lemma DeadlineCutsExactly(s: State, q: nat)
    requires Inv(s) && q in s.live
    ensures !Started(s) ==> q in s.timers
    ensures Enabled(s, Timer(q)) ==>
      var t := Next(s, Timer(q));
      Known(t, q) && (t.queries[q].cancelledFor == Some(AdmissionTimeout) <==> !s.queries[q].held && !Started(s))
  {
    assert QueryInv(s, q) && Armed(s, q);
    SameHeld(s, s.(timers := s.timers - {q}));
  }

  /** A query issued after the client left is withheld from the driver exactly
      when the request has not started. */
  lemma LateQueryIsWithheldExactly(s: State, q: nat)
    requires Inv(s) && Known(s, q) && !s.queries[q].executed && s.aborted
    ensures Handle(s, q).queries[q].handedOff <==> Started(s)
  {
    HandleEffect(s, q);
    assert QueryInv(s, q);
  }

  // ---------------------------------------------------------------------------
  // Mapping an error back to its cancellation
  // ---------------------------------------------------------------------------

  datatype ApiError = ApiError(status: int, code: string)

  /** `unwrapPgError(err).code`: the cause's own code when there is a cause. */
  function UnwrapCode(err: Thrown): Option<string> {
    Code(if Cause(err).Some? then Cause(err).value else err)
  }

  function Lookup(attributed: map<Thrown, Reason>, err: Thrown): Option<Reason> {
    if !err.Primitive? && err in attributed then Some(attributed[err]) else None
  }

  function ApiErrorFor(reason: Reason): ApiError {
    match reason
    case AdmissionTimeout => ApiError(503, "DB_ADMISSION_TIMEOUT")
    case ClientGone => ApiError(499, "REQUEST_ABANDONED")
  }

  function ToDbCancellationApiError(attributed: map<Thrown, Reason>, err: Thrown): Option<ApiError> {
    if UnwrapCode(err) != Some(QUERY_CANCELED) then None
    else
      var own := Lookup(attributed, err);
      var reason := if own.None? && Cause(err).Some? then Lookup(attributed, Cause(err).value) else own;
      if reason.None? then None else Some(ApiErrorFor(reason.value))
  }

  /** Some query was cancelled for `reason`, and its observed rejection is `err`. */
  predicate CutFor(s: State, err: Thrown, reason: Reason) {
    exists q :: 0 <= q < |s.queries| && Attributes(s.queries[q], err, reason)
  }

  lemma LookupIsCutFor(s: State, err: Thrown, reason: Reason)
    requires Inv(s) && Canceled(err)
    ensures Lookup(s.attributed, err) == Some(reason) <==> CutFor(s, err, reason)
  {
    if CutFor(s, err, reason) {
      var q :| 0 <= q < |s.queries| && Attributes(s.queries[q], err, reason);
      assert Registered(s.queries[q], s.attributed);
    }
  }

  lemma MapsByReason(s: State, err: Thrown, reason: Reason)
    requires Inv(s)
    ensures ToDbCancellationApiError(s.attributed, err) == Some(ApiErrorFor(reason)) <==>
            UnwrapCode(err) == Some(QUERY_CANCELED)
            && (CutFor(s, err, reason)
                || ((forall r :: !CutFor(s, err, r))
                    && Cause(err).Some? && CutFor(s, Cause(err).value, reason)))
  {
    if UnwrapCode(err) == Some(QUERY_CANCELED) {
      forall r ensures Lookup(s.attributed, err) == Some(r) <==> CutFor(s, err, r) {
        LookupIsCutFor(s, err, r);
      }
      if Cause(err).Some? {
        LookupIsCutFor(s, Cause(err).value, reason);
      }
      var own := Lookup(s.attributed, err);
      if own.Some? { assert CutFor(s, err, own.value); }
    }
  }

  /** The error, or the cause it wraps, has SQLSTATE 57014. */
  predicate Is57014(err: Thrown) {
    var inner := if err.ErrorObject? && err.cause.Some? then err.cause.value else err;
    inner.CancelError? || (inner.ErrorObject? && inner.code == Some("57014"))
  }

  /** The answer says 503 for a request that waited too long, 499 for one whose
      client left, and nothing else. */
  predicate Says(answer: Option<ApiError>, waited: bool, left: bool) {
    && (answer == Some(ApiError(503, "DB_ADMISSION_TIMEOUT")) <==> waited)
    && (answer == Some(ApiError(499, "REQUEST_ABANDONED")) <==> left)
    && (answer.None? <==> !waited && !left)
  }

  /** `err` is the observed rejection of a query cut for `reason`, or is nobody's
      and wraps one that is. */
  predicate CutOrWraps(s: State, err: Thrown, reason: Reason) {
    CutFor(s, err, reason)
    || ((forall r :: !CutFor(s, err, r)) && err.ErrorObject? && err.cause.Some? && CutFor(s, err.cause.value, reason))
  }

  /** The mapping answers 503 or 499 exactly for a 57014 that is, or wraps, the
      rejection of a query the instrumentation cancelled, by that query's own
      reason. A later genuine timeout is nobody's cancellation and maps to nothing. */
  lemma MapsExactlyItsOwnCancellations(s: State, err: Thrown)
    requires Inv(s)
    ensures Says(ToDbCancellationApiError(s.attributed, err),
                 Is57014(err) && CutOrWraps(s, err, AdmissionTimeout), Is57014(err) && CutOrWraps(s, err, ClientGone))
  {
    MapsByReason(s, err, AdmissionTimeout);
    MapsByReason(s, err, ClientGone);
    assert Is57014(err) <==> UnwrapCode(err) == Some("57014");
    var answer := ToDbCancellationApiError(s.attributed, err);
    assert answer.Some? ==>
      answer == Some(ApiErrorFor(AdmissionTimeout)) || answer == Some(ApiErrorFor(ClientGone));
  }

  /** A handler's own reaction to a rejection runs after the instrumentation's,
      which was registered first. So the handler of query `q` maps the error it was
      thrown, bare or wrapped, to the reason `q` was cancelled for, and to nothing
      when `q` was not cancelled. */
  lemma HandlerSeesItsOwnReason(s: State, q: nat, err: Thrown, thrown: Thrown)
    requires Inv(s) && Known(s, q) && s.queries[q].outcome == Rejected(err)
    requires s.queries[q].tracked ==> s.queries[q].observed
    requires err.CancelError? || (err.ErrorObject? && err.code == Some("57014") && err.cause.None?)
    requires thrown == err
             || (thrown.ErrorObject? && thrown.cause == Some(err)
                 && forall p :: 0 <= p < |s.queries| ==> s.queries[p].outcome != Rejected(thrown))
    ensures Says(ToDbCancellationApiError(s.attributed, thrown),
                 s.queries[q].cancelledFor == Some(AdmissionTimeout), s.queries[q].cancelledFor == Some(ClientGone))
  {
    assert QueryInv(s, q);
    forall reason ensures CutFor(s, err, reason) <==> s.queries[q].cancelledFor == Some(reason) {
      if s.queries[q].cancelledFor == Some(reason) { assert Attributes(s.queries[q], err, reason); }
      if CutFor(s, err, reason) {
        var p :| 0 <= p < |s.queries| && Attributes(s.queries[p], err, reason);
        assert SharesCanceled(s.queries[p], s.queries[q]);
      }
    }
    forall reason ensures Lookup(s.attributed, err) == Some(reason) <==> CutFor(s, err, reason) {
      LookupIsCutFor(s, err, reason);
    }
    if thrown != err {
      forall reason ensures Lookup(s.attributed, thrown) != Some(reason) {
        LookupIsCutFor(s, thrown, reason);
      }
    }
    OptionExt(Lookup(s.attributed, err), s.queries[q].cancelledFor);
  }

  lemma OptionExt(a: Option<Reason>, b: Option<Reason>)
    requires forall reason :: a == Some(reason) <==> b == Some(reason)
    ensures a == b
  {
    if a.Some? { assert b == Some(a.value); }
    if b.Some? { assert a == Some(b.value); }
  }

  /** Some query was cancelled for `reason` and rejected with `err`. */
  predicate WasCut(s: State, err: Thrown, reason: Reason) {
    exists q :: 0 <= q < |s.queries|
      && s.queries[q].outcome == Rejected(err) && s.queries[q].cancelledFor == Some(reason)
  }

  predicate WasCutOrWraps(s: State, err: Thrown, reason: Reason) {
    WasCut(s, err, reason)
    || ((forall r :: !WasCut(s, err, r)) && err.ErrorObject? && err.cause.Some? && WasCut(s, err.cause.value, reason))
  }

  /** With no reaction waiting, the exact mapping is by cancellation alone. */
  lemma QuietMapsExactlyItsOwnCancellations(s: State, err: Thrown)
    requires Inv(s) && Quiet(s)
    ensures Says(ToDbCancellationApiError(s.attributed, err),
                 Is57014(err) && WasCutOrWraps(s, err, AdmissionTimeout),
                 Is57014(err) && WasCutOrWraps(s, err, ClientGone))
  {
    forall e, r ensures WasCut(s, e, r) <==> CutFor(s, e, r) {
      QuietCutsAreObserved(s, e, r);
    }
    MapsExactlyItsOwnCancellations(s, err);
  }

  lemma QuietCutsAreObserved(s: State, err: Thrown, reason: Reason)
    requires Inv(s) && Quiet(s)
    ensures WasCut(s, err, reason) <==> CutFor(s, err, reason)
  {
    if WasCut(s, err, reason) {
      var q :| 0 <= q < |s.queries| && s.queries[q].outcome == Rejected(err)
               && s.queries[q].cancelledFor == Some(reason);
      assert QueryInv(s, q);
      assert Attributes(s.queries[q], err, reason);
    }
    if CutFor(s, err, reason) {
      var q :| 0 <= q < |s.queries| && Attributes(s.queries[q], err, reason);
      assert s.queries[q].outcome == Rejected(err) && s.queries[q].cancelledFor == Some(reason);
    }
  }

  /** From the deadline to the answer: the admission timer of a query still waiting
      while none ever held a connection ends as 503. */
  lemma AdmissionTimeoutEndsAs503(policy: Policy, steps: seq<Step>, q: nat)
    requires Runs(Initial(policy), steps)
    requires var s := After(Initial(policy), steps);
      Enabled(s, Timer(q)) && forall p :: 0 <= p < |s.queries| ==> !s.queries[p].held
    ensures var t := Next(After(Initial(policy), steps), Timer(q));
      && Enabled(t, ObserveStep(q))
      && var u := Next(t, ObserveStep(q));
         && Known(u, q) && u.queries[q].outcome.Rejected?
         && ToDbCancellationApiError(u.attributed, u.queries[q].outcome.err)
            == Some(ApiError(503, "DB_ADMISSION_TIMEOUT"))
  {
    Reached(policy, steps);
    var s := After(Initial(policy), steps);
    StartedIsHeld(s);
    assert QueryInv(s, q);
    SameHeld(s, s.(timers := s.timers - {q}));
    StepKeeps(s, Timer(q));
    var t := Next(s, Timer(q));
    StepKeeps(t, ObserveStep(q));
    var u := Next(t, ObserveStep(q));
    HandlerSeesItsOwnReason(u, q, u.queries[q].outcome.err, u.queries[q].outcome.err);
  }

  /** From the disconnect to the answer: a query still waiting while none ever held
      a connection ends as 499. */
  lemma DisconnectEndsAs499(policy: Policy, steps: seq<Step>, q: nat)
    requires Runs(Initial(policy), steps)
    requires var s := After(Initial(policy), steps);
      && Enabled(s, Abort) && Known(s, q) && s.queries[q].handedOff && s.queries[q].outcome.Pending?
      && s.queries[q].cancels == 0 && forall p :: 0 <= p < |s.queries| ==> !s.queries[p].held
    ensures var t := Next(After(Initial(policy), steps), Abort);
      && Enabled(t, ObserveStep(q))
      && var u := Next(t, ObserveStep(q));
         && Known(u, q) && u.queries[q].outcome.Rejected?
         && ToDbCancellationApiError(u.attributed, u.queries[q].outcome.err) == Some(ApiError(499, "REQUEST_ABANDONED"))
  {
    Reached(policy, steps);
    var s := After(Initial(policy), steps);
    AbortCuts(s, q);
    StepKeeps(s, Abort);
    var t := Next(s, Abort);
    assert QueryInv(s, q) && QueryInv(t, q);
    assert QueryAdvances(s, t, q);
    AbortHolds(s);
    StepKeeps(t, ObserveStep(q));
    var u := Next(t, ObserveStep(q));
    HandlerSeesItsOwnReason(u, q, u.queries[q].outcome.err, u.queries[q].outcome.err);
  }

  /** The abort event neither gives nor takes a connection. */
  lemma AbortHolds(s: State)
    requires Inv(s) && Enabled(s, Abort)
    ensures SameHolds(s, Next(s, Abort)) && Next(s, Abort).aborted
  {
    var gone := s.(aborted := true);
    GoneKeepsInv(s, gone);
    DispatchKeeps(gone);
  }

  /** And one cut in flight, once the driver rejects it with a 57014 of its own. */
  lemma InFlightDisconnectEndsAs499(policy: Policy, steps: seq<Step>, q: nat, err: Thrown)
    requires Runs(Initial(policy), steps)
    requires var s := After(Initial(policy), steps);
      && Enabled(s, Abort) && Known(s, q) && s.queries[q].held && s.queries[q].outcome.Pending?
      && s.queries[q].cancels == 0 && s.queries[q].policy.Always?
    requires err.ErrorObject? && err.code == Some("57014") && err.cause.None?
    requires Enabled(Next(After(Initial(policy), steps), Abort), Settle(q, Rejected(err)))
    ensures var t := Next(Next(After(Initial(policy), steps), Abort), Settle(q, Rejected(err)));
      && Enabled(t, ObserveStep(q))
      && ToDbCancellationApiError(Next(t, ObserveStep(q)).attributed, err) == Some(ApiError(499, "REQUEST_ABANDONED"))
  {
    Reached(policy, steps);
    var s := After(Initial(policy), steps);
    assert QueryInv(s, q);
    AbortCuts(s, q);
    AbortHolds(s);
    StepKeeps(s, Abort);
    var r := Next(s, Abort);
    assert QueryInv(r, q);
    StepKeeps(r, Settle(q, Rejected(err)));
    var t := Next(r, Settle(q, Rejected(err)));
    StepKeeps(t, ObserveStep(q));
    var u := Next(t, ObserveStep(q));
    HandlerSeesItsOwnReason(u, q, err, err);
  }

  /** Reading the registry twice with the same error never gives two answers. */
  lemma OneReasonPerError(s: State, err: Thrown, r1: Reason, r2: Reason)
    requires Inv(s) && Canceled(err) && CutFor(s, err, r1) && CutFor(s, err, r2)
    ensures r1 == r2
  {
    LookupIsCutFor(s, err, r1);
    LookupIsCutFor(s, err, r2);
  }

  // ---------------------------------------------------------------------------
  // The instrumentation over mutable state
  // ---------------------------------------------------------------------------

  /** One request context with the collections the instrumentation mutates. */
  class Instrumentation {
    var policy: Policy
    var dbStarted: bool
    var cancelReason: Option<Reason>
    var aborted: bool
    var queries: seq<Query>
    var live: set<nat>
    var listeners: seq<nat>
    var timers: set<nat>
    var attributed: map<Thrown, Reason>

    ghost function Contents(): State
      reads this
    {
      State(policy, dbStarted, cancelReason, aborted, queries, live, listeners, timers, attributed)
    }

    constructor (policy: Policy)
      ensures Contents() == Initial(policy)
    {
      this.policy, dbStarted, cancelReason, aborted := policy, false, None, false;
      queries, live, listeners, timers, attributed := [], {}, [], {}, map[];
    }

    method HasStarted() returns (started: bool)
      requires forall q | q in live :: q < |queries|
      ensures started == Started(Contents())
    {
      if dbStarted { return true; }
      var rest := live;
      while rest != {}
        invariant rest <= live
        invariant forall q | q in live - rest :: !queries[q].held
        decreases rest
      {
        var q :| q in rest;
        if queries[q].held {
          assert q in Contents().live && Known(Contents(), q) && Contents().queries[q].held;
          return true;
        }
        rest := rest - {q};
      }
      return false;
    }

    method CleanupQuery(q: nat)
      modifies this
      ensures Contents() == Cleanup(old(Contents()), q)
    {
      timers := timers - {q};
      listeners := Without(listeners, q);
      live := live - {q};
    }

    method CancelQuery(q: nat, reason: Reason)
      requires Known(Contents(), q)
      modifies this
      ensures Contents() == Cancel(old(Contents()), q, reason)
    {
      CleanupQuery(q);
      if queries[q].held { dbStarted := true; }
      queries := queries[q := queries[q].(cancelledFor := Some(reason), cancels := queries[q].cancels + 1)];
      if cancelReason.None? { cancelReason := Some(reason); }
      queries := queries[q := DriverCancel(queries[q], q)];
    }

    method IsCancellableOnAbort(q: nat) returns (cancellable: bool)
      requires Known(Contents(), q)
      requires forall p | p in live :: p < |queries|
      ensures cancellable == CancellableOnAbort(Contents(), q)
    {
      if queries[q].held { return queries[q].policy.Always?; }
      var started := HasStarted();
      return !started;
    }

    method AbortQuery(q: nat)
      requires Known(Contents(), q)
      requires forall p | p in live :: p < |queries|
      modifies this
      ensures Contents() == OnAbort(old(Contents()), q)
    {
      var cancellable := IsCancellableOnAbort(q);
      if cancellable { CancelQuery(q, ClientGone); }
    }

    method TrackQuery(q: nat) returns (cut: bool)
      requires Known(Contents(), q)
      requires forall p | p in live :: p < |queries|
      modifies this
      ensures (Contents(), cut) == Track(old(Contents()), q)
    {
      ghost var before := Contents();
      var started := HasStarted();
      queries := queries[q := queries[q].(policy := policy)];
      if policy.BeforeStart? && started { return false; }
      live := live + {q};
      queries := queries[q := queries[q].(tracked := true)];
      assert Contents() == Enroll(before, q);
      if aborted {
        var cancellable := IsCancellableOnAbort(q);
        if cancellable {
          CancelQuery(q, ClientGone);
          return true;
        }
        CleanupQuery(q);
        return false;
      }
      listeners := listeners + [q];
      started := HasStarted();
      if !started { timers := timers + {q}; }
      return false;
    }

    method HandleQuery(q: nat)
      requires Known(Contents(), q)
      requires forall p | p in live :: p < |queries|
      modifies this
      ensures Contents() == Handle(old(Contents()), q)
    {
      if queries[q].executed { return; }
      var cut := TrackQuery(q);
      queries := queries[q := queries[q].(executed := true)];
      if !cut { queries := queries[q := queries[q].(handedOff := true)]; }
    }

    method QuerySettled(q: nat)
      requires Known(Contents(), q)
      modifies this
      ensures Contents() == Observe(old(Contents()), q)
    {
      var query := queries[q];
      if query.outcome.Rejected? && query.cancelledFor.Some? && !query.outcome.err.Primitive? {
        attributed := attributed[query.outcome.err := query.cancelledFor.value];
      }
      if query.held { dbStarted := true; }
      CleanupQuery(q);
      queries := queries[q := query.(observed := true)];
    }

    method ClientDisconnects()
      requires ListenersKnown(Contents())
      requires forall p | p in live :: p < |queries|
      modifies this
      ensures Contents() == Dispatch(old(Contents()).(aborted := true))
    {
      aborted := true;
      while listeners != []
        invariant ListenersKnown(Contents())
        invariant forall p | p in live :: p < |queries|
        invariant Dispatch(Contents()) == Dispatch(old(Contents()).(aborted := true))
        decreases |listeners|
      {
        var q := listeners[0];
        assert q in listeners;
        ghost var before := Contents();
        listeners := listeners[1..];
        assert forall p :: p in listeners ==> p in before.listeners;
        AbortQuery(q);
      }
    }

    method AdmissionDeadline(q: nat)
      requires Known(Contents(), q)
      requires forall p | p in live :: p < |queries|
      modifies this
      ensures Contents() == TimerFires(old(Contents()), q)
    {
      timers := timers - {q};
      if !queries[q].held {
        var started := HasStarted();
        if !started { CancelQuery(q, AdmissionTimeout); }
      }
    }
  }
}
