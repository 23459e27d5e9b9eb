/**
 * Waiting on a CloudFormation stack operation, and changing a deployed stack's
 * parameters (packages/devops-cli/src/stacks.ts).
 */
module Stacks {
  import opened Arithmetic
  import opened Wrappers

  // ---------------------------------------------------------------------------
  // The operation's own events
  // ---------------------------------------------------------------------------

  datatype Event = Event(token: Option<string>, logicalResourceId: string, resourceType: string, status: string)

  const STACK_TYPE := "AWS::CloudFormation::Stack"

  const STACK_FAILED := {
    "UPDATE_ROLLBACK_COMPLETE", "UPDATE_ROLLBACK_FAILED", "UPDATE_FAILED", "ROLLBACK_COMPLETE", "ROLLBACK_FAILED"
  }

  /** How an operation ends badly. */
  predicate Bad(status: string) {
    || status == "UPDATE_ROLLBACK_COMPLETE" || status == "UPDATE_ROLLBACK_FAILED" || status == "UPDATE_FAILED"
    || status == "ROLLBACK_COMPLETE" || status == "ROLLBACK_FAILED"
  }

  predicate Mine(e: Event, stack: string, token: string) {
    e.token == Some(token) && e.logicalResourceId == stack && e.resourceType == STACK_TYPE
  }

  /** The status of the first matching event, "" when there is none. Events come
      newest first. */
  function StatusOf(events: seq<Event>, stack: string, token: string): string {
    if events == [] then ""
    else if Mine(events[0], stack, token) then events[0].status
    else StatusOf(events[1..], stack, token)
  }

  predicate HasMine(events: seq<Event>, stack: string, token: string) {
    events != [] && (Mine(events[0], stack, token) || HasMine(events[1..], stack, token))
  }

  /** A stack-level event of the operation that carries the token. */
  predicate IsOwn(e: Event, stack: string, token: string) {
    && e.token == Some(token)
    && e.logicalResourceId == stack
    && e.resourceType == "AWS::CloudFormation::Stack"
  }

  /** Event `i` is the newest of its kind, and has that status. */
  predicate NewestAt(log: seq<Event>, stack: string, token: string, i: nat, status: string) {
    && i < |log| && IsOwn(log[i], stack, token) && log[i].status == status
    && forall j :: 0 <= j < i ==> !IsOwn(log[j], stack, token)
  }

  /** The newest own event, where there is one, is the one whose status is read. */
  lemma {:induction false} StatusIsTheNewest(log: seq<Event>, stack: string, token: string)
    ensures HasMine(log, stack, token) <==> exists i :: 0 <= i < |log| && IsOwn(log[i], stack, token)
    ensures HasMine(log, stack, token) ==> exists i: nat :: NewestAt(log, stack, token, i, StatusOf(log, stack, token))
    ensures !HasMine(log, stack, token) ==> StatusOf(log, stack, token) == ""
    decreases |log|
  {
    if log == [] {
    } else if IsOwn(log[0], stack, token) {
      assert NewestAt(log, stack, token, 0, StatusOf(log, stack, token));
    } else {
      var rest := log[1..];
      StatusIsTheNewest(rest, stack, token);
      assert forall j :: 0 < j < |log| ==> log[j] == rest[j - 1];
      assert forall j :: 0 <= j < |rest| ==> rest[j] == log[j + 1];
      if HasMine(rest, stack, token) {
        var i: nat :| NewestAt(rest, stack, token, i, StatusOf(rest, stack, token));
        assert NewestAt(log, stack, token, i + 1, StatusOf(log, stack, token));
      }
    }
  }

  /** Foreign events anywhere in the log say nothing about this operation. */
  lemma {:induction false} ForeignEventsAreInvisible(before: seq<Event>, foreign: seq<Event>, after: seq<Event>,
                                                     stack: string, token: string)
    requires forall i :: 0 <= i < |foreign| ==> !IsOwn(foreign[i], stack, token)
    ensures StatusOf(before + foreign + after, stack, token) == StatusOf(before + after, stack, token)
    decreases |before|, |foreign|
  {
    if before != [] {
      assert (before + foreign + after)[1..] == before[1..] + foreign + after;
      assert (before + after)[1..] == before[1..] + after;
      ForeignEventsAreInvisible(before[1..], foreign, after, stack, token);
    } else if foreign != [] {
      assert !IsOwn(foreign[0], stack, token);
      assert forall i :: 0 <= i < |foreign[1..]| ==> foreign[1..][i] == foreign[i + 1];
      assert (before + foreign + after)[1..] == before + foreign[1..] + after;
      ForeignEventsAreInvisible(before, foreign[1..], after, stack, token);
    } else {
      assert before + foreign + after == before + after;
    }
  }

  /** One page of the log, its newest events, speaks for the whole log as soon as
      it holds any event of this operation. */
  lemma {:induction false} PageSpeaksForTheLog(log: seq<Event>, page: nat, stack: string, token: string)
    requires page <= |log|
    ensures HasMine(log[..page], stack, token) ==>
              HasMine(log, stack, token) && StatusOf(log[..page], stack, token) == StatusOf(log, stack, token)
    ensures !HasMine(log[..page], stack, token) ==> StatusOf(log[..page], stack, token) == ""
    decreases |log|
  {
    if page > 0 {
      assert log[..page][0] == log[0] && log[..page][1..] == log[1..][..page - 1];
      PageSpeaksForTheLog(log[1..], page - 1, stack, token);
    }
  }

  // ---------------------------------------------------------------------------
  // The wait loop
  // ---------------------------------------------------------------------------

  /** Read `k` sees the newest `page(k)` events of `log(k)`, or fails; it takes
      `latency(k)` ms, and the sleep after it overruns by `overrun(k)` ms. */
  datatype Env = Env(
    log: nat -> seq<Event>,
    page: nat -> nat,
    fails: nat -> bool,
    latency: nat -> nat,
    overrun: nat -> nat)

  datatype Outcome = Complete | EndedBadly(status: string) | TimedOut(status: string) | ReadFailed

  function Page(env: Env, k: nat): seq<Event> {
    var log := env.log(k);
    log[..if env.page(k) < |log| then env.page(k) else |log|]
  }

  function SeenAt(env: Env, stack: string, token: string, k: nat): string {
    StatusOf(Page(env, k), stack, token)
  }

  /** The newest stack-level event of the operation, in the whole log as it was at
      read `k`, has that status. */
  predicate NewestSays(env: Env, stack: string, token: string, k: nat, status: string) {
    exists i: nat :: i < |env.log(k)| && NewestAt(env.log(k), stack, token, i, status)
  }

  /** Some event of the operation showed in one of the first `n` reads. */
  predicate Showed(env: Env, stack: string, token: string, n: nat) {
    exists k, i :: 0 <= k < n && 0 <= i < |env.log(k)| && env.log(k)[i].token == Some(token)
  }

  /** The clock right after read `k` returned. */
  function ReadAt(env: Env, start: int, pollMs: nat, k: nat): int {
    if k == 0 then start + env.latency(0)
    else ReadAt(env, start, pollMs, k - 1) + pollMs + env.overrun(k - 1) + env.latency(k)
  }

  predicate Undecided(status: string) {
    status != "UPDATE_COMPLETE" && !Bad(status)
  }

  /** Reads 0 to `k - 1` were made, decided nothing and came before the deadline. */
  predicate Waiting(env: Env, stack: string, token: string, start: int, pollMs: nat, deadline: int, k: nat) {
    k > 0 ==>
      && !env.fails(k - 1) && Undecided(SeenAt(env, stack, token, k - 1))
      && ReadAt(env, start, pollMs, k - 1) <= deadline
      && Waiting(env, stack, token, start, pollMs, deadline, k - 1)
  }

  lemma {:induction false} ReadsAreSpaced(env: Env, start: int, pollMs: nat, k: nat)
    ensures ReadAt(env, start, pollMs, k) >= start + k * pollMs
  {
    if k > 0 {
      ReadsAreSpaced(env, start, pollMs, k - 1);
      assert k * pollMs == (k - 1) * pollMs + pollMs;
    }
  }

  method PollEvents(env: Env, stack: string, token: string, start: int, pollMs: nat, deadline: int)
    returns (outcome: Outcome, polls: nat)
    requires pollMs > 0
    ensures polls > 0 && Waiting(env, stack, token, start, pollMs, deadline, polls - 1)
    ensures var k := polls - 1;
      match outcome
      case ReadFailed => env.fails(k)
      case Complete => !env.fails(k) && SeenAt(env, stack, token, k) == "UPDATE_COMPLETE"
      case EndedBadly(status) => !env.fails(k) && SeenAt(env, stack, token, k) == status && Bad(status)
      case TimedOut(status) =>
        && !env.fails(k) && SeenAt(env, stack, token, k) == status && Undecided(status)
        && ReadAt(env, start, pollMs, k) > deadline
  {
    var now := start;
    polls := 0;
    while true
      invariant Waiting(env, stack, token, start, pollMs, deadline, polls)
      invariant ReadAt(env, start, pollMs, polls) == now + env.latency(polls)
      decreases deadline - now
    {
      now := now + env.latency(polls);
      polls := polls + 1;
      if env.fails(polls - 1) { return ReadFailed, polls; }
      var status := StatusOf(Page(env, polls - 1), stack, token);
      if status == "UPDATE_COMPLETE" { return Complete, polls; }
      if status in STACK_FAILED { return EndedBadly(status), polls; }
      if now > deadline { return TimedOut(status), polls; }
      now := now + pollMs + env.overrun(polls - 1);
    }
  }

  /** The wait succeeds only when the newest stack-level event of this very
      operation is UPDATE_COMPLETE, whatever other operations log and however
      little of the log a read shows; it fails as soon as that event says so; and
      it makes at most floor(wait / poll) + 2 polls. */
  method WaitForStackOperation(env: Env, stack: string, token: string, start: int, pollMs: nat, waitMs: nat)
    returns (outcome: Outcome, polls: nat)
    requires pollMs > 0
    ensures 0 < polls <= waitMs / pollMs + 2
    ensures outcome.Complete? ==> NewestSays(env, stack, token, polls - 1, "UPDATE_COMPLETE")
    ensures outcome.EndedBadly? ==> NewestSays(env, stack, token, polls - 1, outcome.status) && Bad(outcome.status)
    ensures !Showed(env, stack, token, polls) ==> outcome.ReadFailed? || outcome == TimedOut("")
    ensures outcome.TimedOut? ==> ReadAt(env, start, pollMs, polls - 1) > start + waitMs
    ensures outcome.ReadFailed? ==> env.fails(polls - 1)
    ensures !env.fails(polls - 1) && SeenAt(env, stack, token, polls - 1) == "UPDATE_COMPLETE" ==> outcome.Complete?
    ensures Waiting(env, stack, token, start, pollMs, start + waitMs, polls - 1)
  {
    outcome, polls := PollEvents(env, stack, token, start, pollMs, start + waitMs);
    var log := env.log(polls - 1);
    PageSpeaksForTheLog(log, |Page(env, polls - 1)|, stack, token);
    StatusIsTheNewest(log, stack, token);
    assert log[..|Page(env, polls - 1)|] == Page(env, polls - 1);
    StatusIsTheNewest(Page(env, polls - 1), stack, token);
    if polls > 1 {
      ReadsAreSpaced(env, start, pollMs, polls - 2);
      QuotientBound(polls - 2, pollMs, waitMs);
    }
  }

  // ---------------------------------------------------------------------------
  // Changing parameters
  // ---------------------------------------------------------------------------

  /** The names every JavaScript object inherits: `in` finds them on any record. */
  const INHERITED := {
    "constructor", "hasOwnProperty", "isPrototypeOf", "propertyIsEnumerable", "toLocaleString", "toString", "valueOf",
    "__proto__", "__defineGetter__", "__defineSetter__", "__lookupGetter__", "__lookupSetter__"
  }

  /** JavaScript's `key in record`. */
  predicate In(key: string, record: map<string, string>) {
    key in record || key in INHERITED
  }

  /** One parameter of the request. `NotText` is an inherited member sent as a value. */
  datatype Parameter = NewValue(value: string) | NotText | UsePreviousValue

  predicate Refuses(current: map<string, string>, overrides: map<string, string>) {
    exists key :: key in overrides && !In(key, current)
  }

  function Request(current: map<string, string>, overrides: map<string, string>): map<string, Parameter> {
    map key | key in current ::
      if key in overrides then NewValue(overrides[key])
      else if key in INHERITED then NotText
      else UsePreviousValue
  }

  /** What the service makes of the request on the parameters deployed when it
      arrives; None where the value is not text. */
  function Apply(deployed: map<string, string>, request: map<string, Parameter>): map<string, Option<string>> {
    map key | key in request ::
      match request[key]
      case NewValue(value) => Some(value)
      case NotText => None
      case UsePreviousValue => if key in deployed then Some(deployed[key]) else None
  }

  /** The deployed parameters with the overrides laid over them. */
  function Overlay(deployed: map<string, string>, overrides: map<string, string>): map<string, Option<string>> {
    map key | key in deployed + overrides :: Some((deployed + overrides)[key])
  }

  /** No override is outside the template, and no parameter left alone carries an
      inherited name. */
  predicate PlainNames(current: map<string, string>, overrides: map<string, string>) {
    && overrides.Keys <= current.Keys
    && forall key :: key in current && key !in overrides ==> key !in INHERITED
  }

  /** The request asks for exactly the parameters deployed when it arrives, even if
      they moved since they were read, overlaid with the overrides, exactly when
      the names are plain. */
  lemma RequestIsTheOverlayExactly(current: map<string, string>, overrides: map<string, string>)
    ensures (forall deployed: map<string, string> :: deployed.Keys == current.Keys ==>
               Apply(deployed, Request(current, overrides)) == Overlay(deployed, overrides))
            <==> PlainNames(current, overrides)
  {
    if PlainNames(current, overrides) {
      forall deployed: map<string, string> | deployed.Keys == current.Keys
        ensures Apply(deployed, Request(current, overrides)) == Overlay(deployed, overrides)
      {
        PlainNamesOverlay(current, overrides, deployed);
      }
    } else {
      OddNamesDoNot(current, overrides);
    }
  }

  lemma PlainNamesOverlay(current: map<string, string>, overrides: map<string, string>, deployed: map<string, string>)
    requires PlainNames(current, overrides) && deployed.Keys == current.Keys
    ensures Apply(deployed, Request(current, overrides)) == Overlay(deployed, overrides)
  {
    var asked, wanted := Apply(deployed, Request(current, overrides)), Overlay(deployed, overrides);
    assert asked.Keys == current.Keys && wanted.Keys == current.Keys;
    forall key | key in current ensures asked[key] == wanted[key] {
    }
  }

  lemma OddNamesDoNot(current: map<string, string>, overrides: map<string, string>)
    requires !PlainNames(current, overrides)
    ensures Apply(current, Request(current, overrides)) != Overlay(current, overrides)
  {
    var asked, wanted := Apply(current, Request(current, overrides)), Overlay(current, overrides);
    assert asked.Keys == current.Keys && wanted.Keys == current.Keys + overrides.Keys;
    if overrides.Keys <= current.Keys {
      var key :| key in current && key !in overrides && key in INHERITED;
      assert asked[key] == None && wanted[key] == Some(current[key]);
    } else {
      var key :| key in overrides && key !in current;
      assert key in wanted.Keys && key !in asked.Keys;
    }
  }

  datatype Reply = Accepted | NoUpdates | Rejected(message: string)

  datatype UpdateError = UnknownParameter(key: string) | UpdateFailed(message: string) | WaitFailed(outcome: Outcome)

  /** `sent` is the request, if one was made, and `polls` the reads of the log that
      followed. An unknown key is refused before any request; otherwise exactly one
      request is made, and its own operation is waited on only when it was accepted.
      It reports a change only when the newest stack-level event of that operation
      is UPDATE_COMPLETE. */
  method UpdateBackendParams(current: map<string, string>, overrides: map<string, string>, order: seq<string>,
                             reply: Reply, env: Env, stack: string, token: string, start: int, pollMs: nat, waitMs: nat)
    returns (r: Result<bool, UpdateError>, sent: Option<map<string, Parameter>>, polls: nat)
    requires forall key :: key in order <==> key in overrides
    requires pollMs > 0
    ensures sent.None? <==> Refuses(current, overrides)
    ensures sent.Some? ==> sent.value == Request(current, overrides)
    ensures sent.None? ==> r.Err? && r.error.UnknownParameter? && r.error.key in overrides && r.error.key !in current
    ensures polls > 0 <==> sent.Some? && reply.Accepted?
    ensures polls <= waitMs / pollMs + 2
    ensures r == Ok(false) <==> sent.Some? && reply.NoUpdates?
    ensures r == Ok(true) ==> polls > 0 && NewestSays(env, stack, token, polls - 1, "UPDATE_COMPLETE")
    ensures polls > 0 && !env.fails(polls - 1) && SeenAt(env, stack, token, polls - 1) == "UPDATE_COMPLETE" ==>
      r == Ok(true)
    ensures r == Ok(true) ==> Showed(env, stack, token, polls)
    ensures polls > 0 && r != Ok(true) ==>
      && r.Err? && r.error.WaitFailed?
      && match r.error.outcome
         case Complete => false
         case ReadFailed => env.fails(polls - 1)
         case EndedBadly(status) => NewestSays(env, stack, token, polls - 1, status) && Bad(status)
         case TimedOut(_) => ReadAt(env, start, pollMs, polls - 1) > start + waitMs
  {
    sent, polls := None, 0;
    for i := 0 to |order|
      invariant forall j :: 0 <= j < i ==> In(order[j], current)
    {
      if !In(order[i], current) {
        return Err(UnknownParameter(order[i])), None, 0;
      }
    }
    sent := Some(Request(current, overrides));
    match reply {
      case NoUpdates => return Ok(false), sent, 0;
      case Rejected(message) => return Err(UpdateFailed(message)), sent, 0;
      case Accepted =>
    }
    var outcome: Outcome;
    outcome, polls := WaitForStackOperation(env, stack, token, start, pollMs, waitMs);
    if outcome.Complete? { return Ok(true), sent, polls; }
    return Err(WaitFailed(outcome)), sent, polls;
  }

  /** An override is refused exactly when it names no deployed parameter and nothing
      every object inherits. */
  lemma RefusesExactly(current: map<string, string>, overrides: map<string, string>)
    ensures Refuses(current, overrides) <==>
              exists key :: key in overrides && key !in current
                && key !in {"constructor", "hasOwnProperty", "isPrototypeOf", "propertyIsEnumerable", "toLocaleString",
                            "toString", "valueOf", "__proto__", "__defineGetter__", "__defineSetter__",
                            "__lookupGetter__", "__lookupSetter__"}
  {
  }

  /** An override under an inherited name is neither refused nor sent. */
  lemma InheritedNameIsDropped()
    ensures var current, overrides := map["DesiredCount" := "1"], map["toString" := "2"];
      && !Refuses(current, overrides)
      && Request(current, overrides) == map["DesiredCount" := UsePreviousValue]
  {
    var current, overrides := map["DesiredCount" := "1"], map["toString" := "2"];
    assert "toString" in INHERITED && "DesiredCount" !in INHERITED;
    assert forall key :: key in overrides ==> key == "toString";
    assert Request(current, overrides)["DesiredCount"] == UsePreviousValue;
  }
}
