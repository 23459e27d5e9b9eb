/**
 * One job's row and its queue entry, as the jobs worker moves them
 * (apps/api/src/queues/jobs.worker.ts).
 *
 * BullMQ and the database are the environment: an entry is delivered, its
 * execution ends in band, dies without a word, or is failed by the stall
 * limit, and an operator may put it back on a queue, in any order. A status
 * write persists before it publishes (job-events.service.ts), so every write
 * that opens or closes an attempt carries whether its publish succeeded.
 */
module JobsWorker {
  import opened Wrappers

  datatype Status = Queued | Active | Completed | Failed | Stalled | Cancelled | AwaitingConfirmation

  predicate Terminal(status: Status) {
    status.Completed? || status.Failed? || status.Cancelled?
  }

  datatype Note = Message(text: string) | TotalFailure(count: int)

  datatype Row = Row(status: Status, progress: nat, attempts: nat, lostExecutions: nat, error: Option<Note>)

  /** `Running` is the queue's own `active`: delivered and not yet ended. */
  datatype Phase = Waiting | Running | Done | Dead

  datatype Entry = Entry(attemptsMade: nat, attempts: Option<nat>, attemptOffset: nat, phase: Phase)

  datatype Thrown = Unrecoverable(message: string) | ApiRefusal(code: string, message: string) | Other(message: string)

  /** What a processor returned; a count is absent when it is not a number. */
  datatype BatchResult = BatchResult(recordsSucceeded: Option<int>, recordsFailed: Option<int>)

  datatype Outcome = Returned(result: BatchResult) | Threw(err: Thrown)

  /** How an attempt ends in band: what the processor did, and whether the
      success write and the failure write, if made, also published. */
  datatype Ending = Ending(outcome: Outcome, published: bool, failurePublished: bool)

  /** Who last moved the row out of `active`; in band, whether the execution lived
      past a published closing write, to where the hook runs. */
  datatype Closer = Nobody | InBand(reachedHook: bool) | OutOfBand

  /** `running` says the worker is executing the job. The counters and `closer`
      are bookkeeping for the properties. `hooks` lists the terminal statuses the
      portal was notified of. */
  datatype World = World(
    row: Row,
    entry: Entry,
    running: bool,
    bulkTransform: bool,
    portalId: Option<string>,
    hooks: seq<Status>,
    deliveries: nat,
    inBand: nat,
    outOfBand: nat,
    missedReads: nat,
    closer: Closer)

  // ---------------------------------------------------------------------------
  // The worker's pure parts
  // ---------------------------------------------------------------------------

  const FIELD_MAPPING_DELETE_IN_VIEW := "FIELD_MAPPING_DELETE_IN_VIEW"

  function AsFinal(err: Thrown): Thrown {
    if err.ApiRefusal? && err.code == FIELD_MAPPING_DELETE_IN_VIEW then Unrecoverable(err.message) else err
  }

  function Budget(entry: Entry): nat {
    if entry.attempts.Some? then entry.attempts.value else 1
  }

  function StatusForFailedAttempt(entry: Entry, err: Thrown): Status {
    if err.Unrecoverable? then Failed
    else if entry.attemptsMade + 1 >= Budget(entry) then Failed
    else Queued
  }

  /** Failed only when nothing succeeded and something failed. */
  function ClassifyBatchOutcome(result: BatchResult): Status {
    if result.recordsSucceeded == Some(0) && result.recordsFailed.Some? && result.recordsFailed.value > 0
    then Failed else Completed
  }

  function NotifyTerminal(w: World, status: Status): World {
    if Notifies(w) then w.(hooks := w.hooks + [status]) else w
  }

  /** A bulk_transform job whose portal id is not missing or empty. */
  predicate Notifies(w: World) {
    w.bulkTransform && w.portalId.Some? && w.portalId.value != ""
  }

  // ---------------------------------------------------------------------------
  // The worker's steps
  // ---------------------------------------------------------------------------

  /** Pre-read and opening write. An unreadable row is not a reason to stop. */
  function Open(w: World, readOk: bool): World {
    if readOk && Terminal(w.row.status) then w.(entry := w.entry.(phase := Done))
    else
      var lost := if readOk && w.row.status.Active? then w.row.lostExecutions + 1 else w.row.lostExecutions;
      w.(row := w.row.(status := Active, progress := 0, error := None, lostExecutions := lost,
                       attempts := w.entry.attemptOffset + w.entry.attemptsMade + 1),
         entry := w.entry.(phase := Running),
         running := true,
         deliveries := w.deliveries + 1,
         missedReads := if !readOk && w.row.status.Active? then w.missedReads + 1 else w.missedReads,
         closer := Nobody)
  }

  function PublishError(): Thrown { Other("publish failed") }

  /** The opening write persisted but did not publish. It stands outside the try
      block, so the execution throws with no catch block run, and the `failed`
      handler, if it can read the row, writes after the queue counted the attempt. */
  function OpeningThrows(w: World, handlerReadOk: bool): World {
    OnFailed(w.(entry := QueueFails(w.entry, PublishError()), running := false), PublishError(), handlerReadOk)
  }

  /** BullMQ's own accounting of an execution that threw. */
  function QueueFails(entry: Entry, err: Thrown): Entry {
    var retries := !err.Unrecoverable? && entry.attemptsMade + 1 < Budget(entry);
    entry.(attemptsMade := entry.attemptsMade + 1, phase := if retries then Waiting else Dead)
  }

  /** The catch block, then the queue, then the `failed` event's handler. */
  function Fail(w: World, thrown: Thrown, published: bool): World {
    var err := AsFinal(thrown);
    var status := StatusForFailedAttempt(w.entry, err);
    var written := w.(row := w.row.(status := status, error := Some(Message(thrown.message))),
                      closer := InBand(published));
    var notified := if published && status.Failed? then NotifyTerminal(written, Failed) else written;
    var rethrown := if published then err else PublishError();
    var counted := notified.(entry := QueueFails(w.entry, rethrown), running := false, inBand := w.inBand + 1);
    OnFailed(counted, rethrown, true)
  }

  /** The success write. */
  function Written(w: World, result: BatchResult): World {
    var outcome := ClassifyBatchOutcome(result);
    var failedCount := if result.recordsFailed.Some? then result.recordsFailed.value else 0;
    w.(row := w.row.(status := outcome, progress := 100,
                     error := if outcome.Failed? then Some(TotalFailure(failedCount)) else w.row.error),
       closer := InBand(true))
  }

  /** The execution ends in band. */
  function Close(w: World, ending: Ending): World {
    match ending.outcome
    case Threw(err) => Fail(w, err, ending.failurePublished)
    case Returned(result) =>
      var written := Written(w, result);
      if !ending.published then Fail(written, PublishError(), ending.failurePublished)
      else
        var notified := NotifyTerminal(written, written.row.status);
        notified.(entry := w.entry.(phase := Done), running := false, inBand := w.inBand + 1)
  }

  /** The process dies once the ending's closing writes have persisted: before the
      hook, or after it and before the queue hears. */
  function DieClosing(w: World, ending: Ending, pastHook: bool): World {
    var t := Close(w, ending);
    if pastHook then t.(entry := w.entry) else t.(entry := w.entry, hooks := w.hooks, closer := InBand(false))
  }

  predicate Handled(status: Status) {
    Terminal(status) || status.Queued?
  }

  /** The queue's `failed` event. It fires for every failed attempt, so it writes
      only to a row the catch block did not already move. `readOk` says the handler
      could read the row and write it. */
  function OnFailed(w: World, err: Thrown, readOk: bool): World {
    if !readOk || Handled(w.row.status) then w
    else
      var text := if err.Unrecoverable? then err.message else "Attempt ended out-of-band (" + err.message + ")";
      w.(row := w.row.(status := StatusForFailedAttempt(w.entry, err), error := Some(Message(text))),
         outOfBand := if w.row.status.Active? then w.outOfBand + 1 else w.outOfBand,
         closer := OutOfBand)
  }

  // ---------------------------------------------------------------------------
  // Steps and runs
  // ---------------------------------------------------------------------------

  datatype Step =
    | Deliver(readOk: bool, published: bool, handlerReadOk: bool)
    | End(ending: Ending)
    | Die
    | DieAfterWrite(ending: Ending, pastHook: bool)
    | StallLimit(readOk: bool)
    | Redispatch(attempts: Option<nat>, attemptOffset: nat)

  const STALLED := Unrecoverable("job stalled more than allowable limit")

  predicate Enabled(w: World, step: Step) {
    match step
    case Deliver(_, _, _) => !w.running && (w.entry.phase.Waiting? || w.entry.phase.Running?)
    case End(_) => w.running
    case Die => w.running
    case DieAfterWrite(_, _) => w.running
    case StallLimit(_) => !w.running && w.entry.phase.Running?
    case Redispatch(_, _) => !w.running
  }

  function DeliverTo(w: World, readOk: bool, published: bool, handlerReadOk: bool): World {
    var t := Open(w, readOk);
    if t.running && !published then OpeningThrows(t, handlerReadOk) else t
  }

  function Next(w: World, step: Step): World
    requires Enabled(w, step)
  {
    match step
    case Deliver(readOk, published, handlerReadOk) => DeliverTo(w, readOk, published, handlerReadOk)
    case End(ending) => Close(w, ending)
    case Die => w.(running := false)
    case DieAfterWrite(ending, pastHook) => DieClosing(w, ending, pastHook)
    case StallLimit(readOk) => OnFailed(w.(entry := w.entry.(phase := Dead)), STALLED, readOk)
    case Redispatch(attempts, offset) => w.(entry := Entry(0, attempts, offset, Waiting))
  }

  predicate Runs(w: World, steps: seq<Step>)
    decreases |steps|
  {
    steps == [] || (Enabled(w, steps[0]) && Runs(Next(w, steps[0]), steps[1..]))
  }

  function After(w: World, steps: seq<Step>): World
    requires Runs(w, steps)
    decreases |steps|
  {
    if steps == [] then w else After(Next(w, steps[0]), steps[1..])
  }

  predicate ReadsOk(steps: seq<Step>) {
    forall i :: 0 <= i < |steps| ==> (steps[i].Deliver? ==> steps[i].readOk)
  }

  /** A row just inserted, its entry on the queue. */
  predicate Fresh(w: World) {
    && w.row == Row(Queued, 0, 0, 0, None)
    && w.entry.attemptsMade == 0 && w.entry.phase.Waiting?
    && !w.running && w.hooks == [] && w.closer.Nobody?
    && w.deliveries == 0 && w.inBand == 0 && w.outOfBand == 0 && w.missedReads == 0
  }

  // ---------------------------------------------------------------------------
  // Conservation of executions
  // ---------------------------------------------------------------------------

  /** Every delivery that reached `active` is closed in band, closed out of band,
      counted lost, missed by a failed pre-read, or still active. */
  predicate Conserved(w: World) {
    && (w.running ==> w.row.status.Active? && w.entry.phase.Running?)
    && (w.row.status.Active? || Handled(w.row.status))
    && w.deliveries == w.inBand + w.outOfBand + w.row.lostExecutions + w.missedReads
                       + (if w.row.status.Active? then 1 else 0)
  }

  /** The status an attempt's ending leaves on the row, whatever was published. */
  function ClosingStatus(entry: Entry, ending: Ending): Status {
    match ending.outcome
    case Threw(err) => StatusForFailedAttempt(entry, AsFinal(err))
    case Returned(result) =>
      if ending.published then ClassifyBatchOutcome(result) else StatusForFailedAttempt(entry, PublishError())
  }

  /** What a failed attempt's ending does to the row, the ledger and the hooks. */
  lemma FailEffect(w: World, thrown: Thrown, published: bool)
    ensures var t, status := Fail(w, thrown, published), StatusForFailedAttempt(w.entry, AsFinal(thrown));
      && t.row.status == status && Handled(status)
      && t.row.attempts == w.row.attempts && t.row.lostExecutions == w.row.lostExecutions
      && !t.running && t.deliveries == w.deliveries && t.missedReads == w.missedReads
      && t.inBand == w.inBand + 1 && t.outOfBand == w.outOfBand
      && t.bulkTransform == w.bulkTransform && t.portalId == w.portalId
      && t.closer == InBand(published)
      && t.hooks == if published && status.Failed? && Notifies(w)
                    then w.hooks + [status] else w.hooks
  {
  }

  /** What closing an attempt does to the row, the ledger and the hooks. */
  lemma CloseEffect(w: World, ending: Ending)
    ensures var t, status := Close(w, ending), ClosingStatus(w.entry, ending);
      && t.row.status == status && Handled(status)
      && t.row.attempts == w.row.attempts && t.row.lostExecutions == w.row.lostExecutions
      && !t.running && t.deliveries == w.deliveries && t.missedReads == w.missedReads
      && t.inBand == w.inBand + 1 && t.outOfBand == w.outOfBand
      && t.bulkTransform == w.bulkTransform && t.portalId == w.portalId
      && t.closer.InBand?
      && t.hooks == if t.closer.reachedHook && Terminal(status) && Notifies(w)
                    then w.hooks + [status] else w.hooks
  {
    match ending.outcome
    case Threw(err) => FailEffect(w, err, ending.failurePublished);
    case Returned(result) =>
      if !ending.published { FailEffect(Written(w, result), PublishError(), ending.failurePublished); }
  }

  /** The failure the queue is told of, if any. */
  function Rethrown(ending: Ending): Option<Thrown> {
    if ending.outcome.Returned? && ending.published then None
    else if !ending.failurePublished || ending.outcome.Returned? then Some(PublishError())
    else Some(AsFinal(ending.outcome.err))
  }

  lemma CloseQueueEffect(w: World, ending: Ending)
    ensures Close(w, ending).entry ==
            if Rethrown(ending).None? then w.entry.(phase := Done) else QueueFails(w.entry, Rethrown(ending).value)
  {
  }

  lemma StepConserves(w: World, step: Step)
    requires Conserved(w) && Enabled(w, step)
    ensures Conserved(Next(w, step))
  {
    if step.End? || step.DieAfterWrite? { CloseEffect(w, step.ending); }
  }

  /** Over any run, the ledger balances; with readable rows, without correction. */
  lemma {:induction false} ExecutionsAreConserved(w: World, steps: seq<Step>)
    requires Fresh(w) && Runs(w, steps)
    ensures var t := After(w, steps);
      && Conserved(t)
      && (ReadsOk(steps) ==>
            t.deliveries == t.inBand + t.outOfBand + t.row.lostExecutions + (if t.row.status.Active? then 1 else 0))
      && (t.deliveries == t.inBand + t.outOfBand + t.row.lostExecutions + (if t.row.status.Active? then 1 else 0)
          <==> t.missedReads == 0)
  {
    RunConserves(w, steps);
  }

  lemma {:induction false} RunConserves(w: World, steps: seq<Step>)
    requires Conserved(w) && Runs(w, steps)
    ensures Conserved(After(w, steps))
    ensures ReadsOk(steps) ==> After(w, steps).missedReads == w.missedReads
    decreases |steps|
  {
    if steps != [] {
      var next := Next(w, steps[0]);
      StepConserves(w, steps[0]);
      StepMisses(w, steps[0]);
      RunConserves(next, steps[1..]);
      if ReadsOk(steps) { RestReads(steps); }
    }
  }

  /** Only a delivery whose pre-read fails misses an active row. */
  lemma StepMisses(w: World, step: Step)
    requires Enabled(w, step)
    ensures (step.Deliver? ==> step.readOk) ==> Next(w, step).missedReads == w.missedReads
  {
    if step.End? || step.DieAfterWrite? { CloseEffect(w, step.ending); }
  }

  lemma RestReads(steps: seq<Step>)
    requires steps != [] && ReadsOk(steps)
    ensures (steps[0].Deliver? ==> steps[0].readOk) && ReadsOk(steps[1..])
  {
  }

  /** The handler leaves a handled row alone, and handles any row it can read,
      so repeating it changes nothing. */
  lemma FailedHandlerIsIdempotent(w: World, first: Thrown, second: Thrown, readOk: bool)
    ensures Handled(w.row.status) ==> OnFailed(w, first, readOk) == w
    ensures OnFailed(OnFailed(w, first, true), second, readOk) == OnFailed(w, first, true)
  {
  }

  // ---------------------------------------------------------------------------
  // What each delivery and ending leaves behind, field by field
  // ---------------------------------------------------------------------------

  /** A delivery whose pre-read finds the row completed, failed or cancelled ends at
      once and changes nothing but the queue; any other starts a clean attempt, its
      number counting those an earlier queue spent, and counts the execution lost
      whose row it finds still active. */
  lemma DeliveryOpens(w: World, readOk: bool)
    requires !w.running
    ensures var t, status := DeliverTo(w, readOk, true, true), w.row.status;
      if readOk && (status == Completed || status == Failed || status == Cancelled)
      then t == w.(entry := w.entry.(phase := Done))
      else
        && t.running && t.entry == w.entry.(phase := Running) && t.hooks == w.hooks
        && t.row == Row(Active, 0, w.entry.attemptOffset + w.entry.attemptsMade + 1,
                        w.row.lostExecutions + (if readOk && status == Active then 1 else 0), None)
  {
  }

  /** An error no retry can change: an unrecoverable one, or the refusal to delete a
      field mapping that a view uses. */
  predicate Final(err: Thrown) {
    err.Unrecoverable? || (err.ApiRefusal? && err.code == "FIELD_MAPPING_DELETE_IN_VIEW")
  }

  /** The attempts the queue gives an entry: one, when none is set. */
  function Allowed(entry: Entry): nat {
    match entry.attempts
    case None => 1
    case Some(n) => n
  }

  /** A published attempt that threw: a final error, or the last attempt, leaves the
      row failed and the entry dead; any other leaves them pending and waiting. The
      row carries the error's own message either way, and the portal of a
      bulk_transform job hears of a failed one. */
  lemma ThrownAttemptEnds(w: World, err: Thrown, processorPublished: bool)
    ensures var t := Close(w, Ending(Threw(err), processorPublished, true));
      var over := Final(err) || w.entry.attemptsMade + 1 >= Allowed(w.entry);
      && t.row == w.row.(status := if over then Failed else Queued, error := Some(Message(err.message)))
      && t.entry == w.entry.(attemptsMade := w.entry.attemptsMade + 1, phase := if over then Dead else Waiting)
      && t.hooks == w.hooks + (if over && w.bulkTransform && w.portalId.Some? && w.portalId.value != ""
                               then [Failed] else [])
      && !t.running
  {
  }

  /** A published attempt that returned: failed, and said so with the count, exactly
      when it reports no success and some failure; otherwise completed. The queue is
      done, and the portal of a bulk_transform job hears which. */
  lemma ReturnedAttemptEnds(w: World, succeeded: Option<int>, failed: Option<int>, failurePublished: bool)
    ensures var t := Close(w, Ending(Returned(BatchResult(succeeded, failed)), true, failurePublished));
      var total := succeeded == Some(0) && failed.Some? && failed.value > 0;
      && t.row == w.row.(status := if total then Failed else Completed, progress := 100,
                         error := if total then Some(TotalFailure(failed.value)) else w.row.error)
      && t.entry == w.entry.(phase := Done)
      && t.hooks == w.hooks + (if w.bulkTransform && w.portalId.Some? && w.portalId.value != ""
                               then [if total then Failed else Completed] else [])
      && !t.running
  {
  }

  /** A write that does not publish is, to the queue, one more error it may retry. */
  lemma UnpublishedAttemptEnds(w: World, ending: Ending)
    requires !ending.failurePublished && (ending.outcome.Threw? || !ending.published)
    ensures var t := Close(w, ending);
      && t.entry == w.entry.(attemptsMade := w.entry.attemptsMade + 1,
                             phase := if w.entry.attemptsMade + 1 >= Allowed(w.entry) then Dead else Waiting)
      && t.hooks == w.hooks && !t.running
      && t.row.status == (if w.entry.attemptsMade + 1 >= Allowed(w.entry)
                             || (ending.outcome.Threw? && Final(ending.outcome.err)) then Failed else Queued)
  {
  }

  /** A success whose write did not publish is recorded as a failed attempt after all,
      with the publish error as its reason. */
  lemma UnpublishedSuccessFails(w: World, result: BatchResult)
    ensures var t := Close(w, Ending(Returned(result), false, true));
      var over := w.entry.attemptsMade + 1 >= Allowed(w.entry);
      && t.row == w.row.(status := if over then Failed else Queued, progress := 100,
                         error := Some(Message("publish failed")))
      && t.entry.phase == if over then Dead else Waiting
  {
  }

  /** The `failed` handler writes exactly the rows the catch block did not move: one
      neither completed, failed, cancelled nor pending. An exhausted stall limit is
      final and told in its own words; any other reason is framed. */
  lemma FailedHandlerWritesExactly(w: World, err: Thrown)
    ensures var t := OnFailed(w, err, true);
      if w.row.status in {Completed, Failed, Cancelled, Queued} then t == w
      else
        && t.entry == w.entry && t.hooks == w.hooks
        && t.row == w.row.(
             status := if err.Unrecoverable? || w.entry.attemptsMade + 1 >= Allowed(w.entry) then Failed else Queued,
             error := Some(Message(if err.Unrecoverable? then err.message
                                   else "Attempt ended out-of-band (" + err.message + ")")))
    ensures OnFailed(w, err, false) == w
  {
  }

  /** A stalled execution past its limit fails the row it left active, whatever was
      left of the budget. */
  lemma StallLimitFails(w: World)
    requires Enabled(w, StallLimit(true)) && w.row.status == Active
    ensures var t := Next(w, StallLimit(true));
      && t.row.status == Failed && t.row.error == Some(Message("job stalled more than allowable limit"))
      && t.entry.phase == Dead
  {
  }

  // ---------------------------------------------------------------------------
  // A terminal row stays terminal, and the hook fires at most once
  // ---------------------------------------------------------------------------

  lemma {:induction false} TerminalForever(w: World, steps: seq<Step>)
    requires Conserved(w) && Terminal(w.row.status) && Runs(w, steps) && ReadsOk(steps)
    ensures var t := After(w, steps);
      t.row == w.row && t.hooks == w.hooks && t.deliveries == w.deliveries && t.closer == w.closer
    decreases |steps|
  {
    if steps != [] {
      StepConserves(w, steps[0]);
      TerminalForever(Next(w, steps[0]), steps[1..]);
    }
  }

  /** The portal was notified exactly when the row was closed for good in band by
      an execution that lived past a write that published, and then once, with the
      row's own status. */
  predicate HookInv(w: World) {
    && Conserved(w)
    && (Handled(w.row.status) && w.deliveries > 0 <==> !w.closer.Nobody?)
    && (w.closer.OutOfBand? ==> w.hooks == [])
    && w.hooks == (if w.closer == InBand(true) && Terminal(w.row.status) && Notifies(w)
                   then [w.row.status] else [])
  }

  lemma StepKeepsHooks(w: World, step: Step)
    requires HookInv(w) && Enabled(w, step) && (step.Deliver? ==> step.readOk)
    ensures HookInv(Next(w, step))
  {
    StepConserves(w, step);
    if step.End? || step.DieAfterWrite? { CloseEffect(w, step.ending); }
  }

  lemma {:induction false} RunKeepsHooks(w: World, steps: seq<Step>)
    requires HookInv(w) && Runs(w, steps) && ReadsOk(steps)
    ensures HookInv(After(w, steps))
    decreases |steps|
  {
    if steps != [] {
      StepKeepsHooks(w, steps[0]);
      RunKeepsHooks(Next(w, steps[0]), steps[1..]);
    }
  }

  lemma FreshHooks(w: World)
    requires Fresh(w)
    ensures HookInv(w)
  {
  }

  /** From a fresh row, over any run whose pre-reads succeed, the hook fires at
      most once and with the row's final status, whatever the rest of the run does. */
  lemma HookFiresAtMostOnce(w: World, steps: seq<Step>, more: seq<Step>)
    requires Fresh(w) && Runs(w, steps) && ReadsOk(steps)
    requires Runs(After(w, steps), more) && ReadsOk(more)
    ensures var t := After(w, steps);
      && |t.hooks| <= 1
      && (t.hooks != [] ==>
            && Terminal(t.row.status) && t.hooks == [t.row.status]
            && After(t, more).row == t.row && After(t, more).hooks == t.hooks)
  {
    FreshHooks(w);
    RunKeepsHooks(w, steps);
    var t := After(w, steps);
    if t.hooks != [] { TerminalForever(t, more); }
  }

  /** A process that dies between the closing write of a bulk_transform job and its
      hook leaves the portal waiting for good: the row is terminal, so every
      re-delivery is skipped. */
  lemma DeathBeforeTheHookIsSilent(w: World, ending: Ending, steps: seq<Step>)
    requires HookInv(w) && w.running && Terminal(ClosingStatus(w.entry, ending))
    requires Runs(DieClosing(w, ending, false), steps) && ReadsOk(steps)
    ensures var t := After(DieClosing(w, ending, false), steps);
      t.row.status == ClosingStatus(w.entry, ending) && t.hooks == []
  {
    CloseEffect(w, ending);
    StepConserves(w, DieAfterWrite(ending, false));
    TerminalForever(DieClosing(w, ending, false), steps);
  }

  // ---------------------------------------------------------------------------
  // Row and queue agree, over any run
  // ---------------------------------------------------------------------------

  /** The row is terminal exactly when the queue is finished with the entry. */
  predicate InStep(w: World) {
    Terminal(w.row.status) <==> w.entry.phase.Done? || w.entry.phase.Dead?
  }

  predicate ThrewFinal(ending: Ending) {
    ending.outcome.Threw? && Final(ending.outcome.err)
  }

  /** The steps that part a row and an entry that were in step, by what the step
      can see before it is taken. */
  predicate Parts(w: World, step: Step) {
    var made, budget := w.entry.attemptsMade, Budget(w.entry);
    match step
    case Deliver(_, published, handlerReadOk) =>
      !published && (if handlerReadOk then made + 2 == budget else made + 1 >= budget)
    case End(ending) => ThrewFinal(ending) && !ending.failurePublished && made + 1 < budget
    case Die => false
    case DieAfterWrite(ending, _) => Terminal(ClosingStatus(w.entry, ending))
    case StallLimit(readOk) => !readOk || w.row.status.Queued?
    case Redispatch(_, _) => Terminal(w.row.status)
  }

  lemma StepStaysInStepExactly(w: World, step: Step)
    requires Conserved(w) && InStep(w) && Enabled(w, step)
    ensures InStep(Next(w, step)) <==> !Parts(w, step)
  {
    if step.End? || step.DieAfterWrite? {
      CloseEffect(w, step.ending);
      CloseQueueEffect(w, step.ending);
    }
  }

  predicate InStepThroughout(w: World, steps: seq<Step>)
    requires Runs(w, steps)
    decreases |steps|
  {
    InStep(w) && (steps == [] || InStepThroughout(Next(w, steps[0]), steps[1..]))
  }

  predicate NoneParts(w: World, steps: seq<Step>)
    requires Runs(w, steps)
    decreases |steps|
  {
    steps == [] || (!Parts(w, steps[0]) && NoneParts(Next(w, steps[0]), steps[1..]))
  }

  /** Over every run of every step there is, row and queue stay in step throughout
      exactly when none of the steps parts them. */
  lemma RunStaysInStepExactly(w: World, steps: seq<Step>)
    requires Fresh(w) && Runs(w, steps)
    ensures InStepThroughout(w, steps) <==> NoneParts(w, steps)
  {
    InStepAlong(w, steps);
  }

  lemma {:induction false} InStepAlong(w: World, steps: seq<Step>)
    requires Conserved(w) && InStep(w) && Runs(w, steps)
    ensures InStepThroughout(w, steps) <==> NoneParts(w, steps)
    decreases |steps|
  {
    if steps != [] {
      var next := Next(w, steps[0]);
      StepConserves(w, steps[0]);
      StepStaysInStepExactly(w, steps[0]);
      if InStep(next) {
        InStepAlong(next, steps[1..]);
      } else {
        assert !InStepThroughout(next, steps[1..]);
      }
    }
  }

  /** A terminal row whose entry is still on the queue is back in step after the
      next delivery that can read it; a row left open with its entry dead changes
      no more until an operator puts it back on a queue. */
  lemma PartedRowsHealOrStrand(w: World, step: Step)
    requires Conserved(w) && !InStep(w) && Enabled(w, step)
    ensures Terminal(w.row.status) && step.Deliver? && step.readOk ==>
              InStep(Next(w, step)) && Next(w, step).row == w.row
    ensures !Terminal(w.row.status) ==> step.Redispatch?
  {
  }

  // ---------------------------------------------------------------------------
  // Row and queue agree, attempt by attempt
  // ---------------------------------------------------------------------------

  predicate QueueWillRetry(w: World) {
    w.entry.phase.Waiting?
  }

  /** One delivery as far as its ending: in band, or thrown by its opening write. */
  datatype Try = Opened(readOk: bool, ending: Ending) | Unopened(readOk: bool, handlerReadOk: bool)

  function Attempt(w: World, try_: Try): World {
    match try_
    case Opened(readOk, ending) => Close(Open(w, readOk), ending)
    case Unopened(readOk, handlerReadOk) => OpeningThrows(Open(w, readOk), handlerReadOk)
  }

  predicate Agrees(w: World) {
    Terminal(w.row.status) <==> !QueueWillRetry(w)
  }

  /** The attempt that parts row and queue, with `made` counted before it: the
      write of an error no retry can change does not publish while attempts are
      left; or the opening write does not publish and one attempt is left, or the
      handler cannot record that and none is. */
  predicate Splits(try_: Try, made: nat, budget: nat) {
    match try_
    case Opened(_, ending) => ThrewFinal(ending) && !ending.failurePublished && made + 1 < budget
    case Unopened(_, handlerReadOk) => if handlerReadOk then made + 2 == budget else made + 1 >= budget
  }

  /** No retry can change this ending. */
  predicate Decisive(try_: Try) {
    try_.Opened? && ((try_.ending.outcome.Returned? && try_.ending.published) || ThrewFinal(try_.ending))
  }

  /** A retry follows the attempt, with `made` counted before it. */
  predicate Retried(try_: Try, made: nat, budget: nat) {
    !Decisive(try_) && made + 1 < budget
  }

  /** Somebody wrote how the attempt ended. */
  predicate Recorded(try_: Try) {
    try_.Opened? || try_.handlerReadOk
  }

  /** What an attempt from `w` to `t` does to the row, the entry and the ledger. */
  predicate Follows(w: World, t: World, try_: Try) {
    var made, budget := w.entry.attemptsMade, Budget(w.entry);
    && (if Recorded(try_) then Handled(t.row.status) else t.row.status.Active?)
    && t.deliveries == w.deliveries + 1
    && t.row.attempts == w.entry.attemptOffset + made + 1
    && Budget(t.entry) == budget && t.entry.attemptOffset == w.entry.attemptOffset
    && (QueueWillRetry(t) ==> t.entry.attemptsMade == made + 1)
    && (!Splits(try_, made, budget) ==>
          && (QueueWillRetry(t) <==> Retried(try_, made, budget))
          && (Terminal(t.row.status) <==> !Retried(try_, made, budget)))
  }

  lemma AttemptEffect(w: World, try_: Try)
    requires !Terminal(w.row.status) && QueueWillRetry(w)
    ensures Follows(w, Attempt(w, try_), try_)
  {
    if try_.Opened? {
      CloseEffect(Open(w, try_.readOk), try_.ending);
      CloseQueueEffect(Open(w, try_.readOk), try_.ending);
    }
  }

  /** One attempt on a waiting entry: the row ends terminal exactly when the queue
      is finished with it, exactly when the attempt does not split them. */
  lemma AttemptAgreesExactly(w: World, try_: Try)
    requires !Terminal(w.row.status) && QueueWillRetry(w)
    ensures var t := Attempt(w, try_);
      && (Terminal(t.row.status) || t.row.status == if Recorded(try_) then Queued else Active)
      && (Agrees(t) <==> !Splits(try_, w.entry.attemptsMade, Budget(w.entry)))
  {
    AttemptEffect(w, try_);
    if try_.Opened? {
      CloseEffect(Open(w, try_.readOk), try_.ending);
      CloseQueueEffect(Open(w, try_.readOk), try_.ending);
    }
  }

  /** The witnesses: the row says failed and the queue retries, twice; and the row
      says active and the queue is finished with it. */
  lemma UnpublishedWritesSplitRowAndQueue()
    ensures var w := World(Row(Queued, 0, 0, 0, None), Entry(0, Some(2), 0, Waiting),
                           false, true, Some("p"), [], 0, 0, 0, 0, Nobody);
      var final := Attempt(w, Opened(true, Ending(Threw(Unrecoverable("no adapter")), true, false)));
      var opening := Attempt(w, Unopened(true, true));
      var last := World(w.row, Entry(0, None, 0, Waiting), false, true, Some("p"), [], 0, 0, 0, 0, Nobody);
      var unrecorded := Attempt(last, Unopened(true, false));
      && Fresh(w)
      && final.row.status == Failed && QueueWillRetry(final) && final.hooks == []
      && opening.row.status == Failed && QueueWillRetry(opening) && opening.hooks == []
      && Fresh(last) && unrecorded.row.status == Active && unrecorded.entry.phase == Dead
  {
  }

  /** The index of the last attempt the budget and the endings allow, or the
      number of attempts when every one of them leaves another. */
  function LastAttempt(tries: seq<Try>, budget: nat, made: nat): (i: nat)
    ensures i <= |tries|
  {
    if tries == [] then 0
    else if !Retried(tries[0], made, budget) then 0
    else 1 + LastAttempt(tries[1..], budget, made + 1)
  }

  lemma {:induction false} LastAttemptAt(tries: seq<Try>, budget: nat, made: nat, j: nat)
    requires j <= LastAttempt(tries, budget, made) && j < |tries|
    ensures j < LastAttempt(tries, budget, made) <==> Retried(tries[j], made + j, budget)
  {
    if !Retried(tries[0], made, budget) {
      assert LastAttempt(tries, budget, made) == 0;
    } else if j > 0 {
      LastAttemptAt(tries[1..], budget, made + 1, j - 1);
    }
  }

  /** It is the first attempt no retry follows. */
  lemma LastAttemptIsTheFirstUnretried(tries: seq<Try>, budget: nat, made: nat)
    ensures var i := LastAttempt(tries, budget, made);
      && (i < |tries| ==> !Retried(tries[i], made + i, budget))
      && forall j :: 0 <= j < i ==> Retried(tries[j], made + j, budget)
  {
    var i := LastAttempt(tries, budget, made);
    if i < |tries| { LastAttemptAt(tries, budget, made, i); }
    forall j | 0 <= j < i ensures Retried(tries[j], made + j, budget) {
      LastAttemptAt(tries, budget, made, j);
    }
  }

  /** The attempts, one after another, for as long as the queue delivers. */
  function Attempts(w: World, tries: seq<Try>): World
    decreases |tries|
  {
    if tries == [] || !QueueWillRetry(w) then w else Attempts(Attempt(w, tries[0]), tries[1..])
  }

  lemma AttemptsUnroll(w: World, tries: seq<Try>, k: nat)
    requires QueueWillRetry(w) && 0 < k <= |tries|
    ensures Attempts(w, tries[..k]) == Attempts(Attempt(w, tries[0]), tries[1..][..k - 1])
  {
    assert tries[..k][0] == tries[0] && tries[..k][1..] == tries[1..][..k - 1];
  }

  /** None of the attempts up to the last one splits row and queue. */
  predicate NoneSplits(tries: seq<Try>, budget: nat, made: nat) {
    tries == [] ||
    (!Splits(tries[0], made, budget)
     && (!Retried(tries[0], made, budget) || NoneSplits(tries[1..], budget, made + 1)))
  }

  lemma SplitsShift(tries: seq<Try>, budget: nat, made: nat)
    requires tries != []
    ensures forall i :: 0 < i < |tries| ==>
              Splits(tries[i], made + i, budget) == Splits(tries[1..][i - 1], made + 1 + (i - 1), budget)
    ensures forall i :: 0 <= i < |tries[1..]| ==>
              Splits(tries[1..][i], made + 1 + i, budget) == Splits(tries[i + 1], made + (i + 1), budget)
  {
  }

  /** Index by index: exactly when none up to the last attempt does. */
  lemma {:induction false} NoneSplitsExactly(tries: seq<Try>, budget: nat, made: nat)
    ensures NoneSplits(tries, budget, made) <==>
              forall i :: 0 <= i < |tries| && i <= LastAttempt(tries, budget, made) ==>
                !Splits(tries[i], made + i, budget)
    decreases |tries|
  {
    if tries == [] {
      assert NoneSplits(tries, budget, made);
    } else if !Retried(tries[0], made, budget) {
      assert LastAttempt(tries, budget, made) == 0;
      assert Splits(tries[0], made, budget) == Splits(tries[0], made + 0, budget);
    } else {
      var rest := tries[1..];
      NoneSplitsExactly(rest, budget, made + 1);
      assert LastAttempt(tries, budget, made) == 1 + LastAttempt(rest, budget, made + 1);
      SplitsShift(tries, budget, made);
    }
  }

  /** For any budget and any attempts none of which splits row and queue: every
      attempt before the last leaves the row open and counted, queued exactly when
      somebody recorded how it ended; the last one, and no earlier one, makes it
      terminal, and then nothing further runs. */
  lemma {:induction false} RowTurnsTerminalOnTheLastAttempt(w: World, tries: seq<Try>, k: nat)
    requires !Terminal(w.row.status) && QueueWillRetry(w) && k <= |tries|
    requires w.row.attempts == w.entry.attemptOffset + w.entry.attemptsMade
    requires NoneSplits(tries, Budget(w.entry), w.entry.attemptsMade)
    ensures var last := LastAttempt(tries, Budget(w.entry), w.entry.attemptsMade);
      var t := Attempts(w, tries[..k]);
      if k <= last then
        && !Terminal(t.row.status) && QueueWillRetry(t)
        && (k > 0 ==> t.row.status == if Recorded(tries[k - 1]) then Queued else Active)
        && t.row.attempts == w.row.attempts + k && t.deliveries == w.deliveries + k
        && t.entry.attemptsMade == w.entry.attemptsMade + k
      else
        && Terminal(t.row.status) && !QueueWillRetry(t)
        && t.row.attempts == w.row.attempts + last + 1 && t.deliveries == w.deliveries + last + 1
    decreases k, 1
  {
    if k > 0 {
      AttemptEffect(w, tries[0]);
      AttemptsUnroll(w, tries, k);
      RestTurnsTerminal(w, Attempt(w, tries[0]), tries, k);
    }
  }

  /** The attempts after the first, from the world `next` it leaves. */
  lemma {:induction false} RestTurnsTerminal(w: World, next: World, tries: seq<Try>, k: nat)
    requires w.row.attempts == w.entry.attemptOffset + w.entry.attemptsMade && 0 < k <= |tries|
    requires NoneSplits(tries, Budget(w.entry), w.entry.attemptsMade) && Follows(w, next, tries[0])
    ensures var last := LastAttempt(tries, Budget(w.entry), w.entry.attemptsMade);
      var t := Attempts(next, tries[1..][..k - 1]);
      if k <= last then
        && !Terminal(t.row.status) && QueueWillRetry(t)
        && t.row.status == (if Recorded(tries[k - 1]) then Queued else Active)
        && t.row.attempts == w.row.attempts + k && t.deliveries == w.deliveries + k
        && t.entry.attemptsMade == w.entry.attemptsMade + k
      else
        && Terminal(t.row.status) && !QueueWillRetry(t)
        && t.row.attempts == w.row.attempts + last + 1 && t.deliveries == w.deliveries + last + 1
    decreases k, 0
  {
    if QueueWillRetry(next) {
      RowTurnsTerminalOnTheLastAttempt(next, tries[1..], k - 1);
    }
  }

  /** Over any attempts on an open row: row and queue agree after every one of
      them exactly when none that the queue delivers splits them. */
  lemma {:induction false} AttemptsAgreeExactly(w: World, tries: seq<Try>)
    requires !Terminal(w.row.status) && QueueWillRetry(w)
    ensures (forall k :: 0 <= k <= |tries| ==> Agrees(Attempts(w, tries[..k]))) <==>
              NoneSplits(tries, Budget(w.entry), w.entry.attemptsMade)
    decreases |tries|
  {
    if tries == [] {
      assert forall k :: 0 <= k <= |tries| ==> tries[..k] == [];
    } else {
      var next, budget, made := Attempt(w, tries[0]), Budget(w.entry), w.entry.attemptsMade;
      AttemptEffect(w, tries[0]);
      AttemptAgreesExactly(w, tries[0]);
      assert tries[..0] == [];
      forall k | 0 < k <= |tries| ensures Attempts(w, tries[..k]) == Attempts(next, tries[1..][..k - 1]) {
        AttemptsUnroll(w, tries, k);
      }
      if Splits(tries[0], made, budget) {
        assert tries[1..][..0] == [];
        assert !Agrees(Attempts(w, tries[..1]));
      } else if QueueWillRetry(next) {
        AttemptsAgreeExactly(next, tries[1..]);
        ShiftByOne(w, tries, next);
      }
    }
  }

  /** The prefixes of the attempts agree when those of the rest do. */
  lemma ShiftByOne(w: World, tries: seq<Try>, next: World)
    requires tries != [] && Agrees(Attempts(w, tries[..0]))
    requires forall k :: 0 < k <= |tries| ==> Attempts(w, tries[..k]) == Attempts(next, tries[1..][..k - 1])
    ensures (forall k :: 0 <= k <= |tries| ==> Agrees(Attempts(w, tries[..k]))) <==>
              (forall k :: 0 <= k <= |tries[1..]| ==> Agrees(Attempts(next, tries[1..][..k])))
  {
    if forall k :: 0 <= k <= |tries| ==> Agrees(Attempts(w, tries[..k])) {
      forall k | 0 <= k <= |tries[1..]| ensures Agrees(Attempts(next, tries[1..][..k])) {
        assert Agrees(Attempts(w, tries[..k + 1]));
      }
    }
    if forall k :: 0 <= k <= |tries[1..]| ==> Agrees(Attempts(next, tries[1..][..k])) {
      forall k | 0 <= k <= |tries| ensures Agrees(Attempts(w, tries[..k])) {
        if k > 0 { assert Agrees(Attempts(next, tries[1..][..k - 1])); }
      }
    }
  }

  // ---------------------------------------------------------------------------
  // The worker over mutable state
  // ---------------------------------------------------------------------------

  /** The row and the queue entry as the worker's callbacks rewrite them. */
  class Worker {
    var row: Row
    var entry: Entry
    var running: bool
    const bulkTransform: bool
    const portalId: Option<string>
    var hooks: seq<Status>
    ghost var deliveries: nat
    ghost var inBand: nat
    ghost var outOfBand: nat
    ghost var missedReads: nat
    ghost var closer: Closer

    ghost function Contents(): World
      reads this
    {
      World(row, entry, running, bulkTransform, portalId, hooks, deliveries, inBand, outOfBand, missedReads, closer)
    }

    constructor (attempts: Option<nat>, attemptOffset: nat, bulkTransform: bool, portalId: Option<string>)
      ensures Fresh(Contents())
      ensures Contents().entry == Entry(0, attempts, attemptOffset, Waiting)
      ensures this.bulkTransform == bulkTransform && this.portalId == portalId
    {
      row, entry := Row(Queued, 0, 0, 0, None), Entry(0, attempts, attemptOffset, Waiting);
      running, hooks, this.bulkTransform, this.portalId := false, [], bulkTransform, portalId;
      deliveries, inBand, outOfBand, missedReads, closer := 0, 0, 0, 0, Nobody;
    }

    /** The top of an execution; `skipped` when the row is already terminal. */
    method OpenExecution(readOk: bool, published: bool, handlerReadOk: bool) returns (skipped: bool)
      requires !running
      modifies this
      ensures Contents() == DeliverTo(old(Contents()), readOk, published, handlerReadOk)
      ensures skipped <==> readOk && Terminal(old(row.status))
    {
      var lostExecutions := row.lostExecutions;
      if readOk {
        if Terminal(row.status) {
          entry := entry.(phase := Done);
          return true;
        } else if row.status.Active? {
          lostExecutions := lostExecutions + 1;
        }
      } else if row.status.Active? {
        missedReads := missedReads + 1;
      }
      row := row.(status := Active, progress := 0, error := None,
                  attempts := entry.attemptOffset + entry.attemptsMade + 1,
                  lostExecutions := lostExecutions);
      entry, running := entry.(phase := Running), true;
      deliveries, closer := deliveries + 1, Nobody;
      assert Contents() == Open(old(Contents()), readOk);
      if !published { OpeningThrew(handlerReadOk); }
      return false;
    }

    method OpeningThrew(handlerReadOk: bool)
      modifies this
      ensures Contents() == OpeningThrows(old(Contents()), handlerReadOk)
    {
      entry, running := QueueFails(entry, PublishError()), false;
      FailedEvent(PublishError(), handlerReadOk);
    }

    method RunTerminalHook(status: Status)
      modifies this`hooks
      ensures Contents() == NotifyTerminal(old(Contents()), status)
    {
      if bulkTransform && portalId.Some? && portalId.value != "" { hooks := hooks + [status]; }
    }

    /** The try block, once the processor has settled. */
    method CloseExecution(ending: Ending)
      modifies this
      ensures Contents() == Close(old(Contents()), ending)
    {
      var thrown := PublishError();
      match ending.outcome {
        case Threw(err) => thrown := err;
        case Returned(result) =>
          var outcome := ClassifyBatchOutcome(result);
          row := row.(status := outcome, progress := 100);
          if outcome.Failed? {
            var failed := if result.recordsFailed.Some? then result.recordsFailed.value else 0;
            row := row.(error := Some(TotalFailure(failed)));
          }
          closer := InBand(true);
          if ending.published {
            RunTerminalHook(outcome);
            entry, running, inBand := entry.(phase := Done), false, inBand + 1;
            return;
          }
      }
      FailExecution(thrown, ending.failurePublished);
    }

    /** The catch block. */
    method FailExecution(thrown: Thrown, published: bool)
      modifies this
      ensures Contents() == Fail(old(Contents()), thrown, published)
    {
      var err := AsFinal(thrown);
      var status := StatusForFailedAttempt(entry, err);
      row := row.(status := status, error := Some(Message(thrown.message)));
      closer := InBand(published);
      var rethrown := PublishError();
      if published {
        if status.Failed? { RunTerminalHook(Failed); }
        rethrown := err;
      }
      entry, running, inBand := QueueFails(entry, rethrown), false, inBand + 1;
      FailedEvent(rethrown, true);
    }

    method FailedEvent(err: Thrown, readOk: bool)
      modifies this
      ensures Contents() == OnFailed(old(Contents()), err, readOk)
    {
      if !readOk { return; }
      if Handled(row.status) { return; }
      if row.status.Active? { outOfBand := outOfBand + 1; }
      var text := if err.Unrecoverable? then err.message else "Attempt ended out-of-band (" + err.message + ")";
      row := row.(status := StatusForFailedAttempt(entry, err), error := Some(Message(text)));
      closer := OutOfBand;
    }
  }
}
