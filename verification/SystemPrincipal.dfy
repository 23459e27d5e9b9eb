/**
 * The write-once system principal (apps/api/src/db/system-principal.util.ts).
 *
 * Any number of booting tasks run `ensureSystemPrincipal` against one table
 * that holds at most one row, one SQL statement at a time in any interleaving;
 * a migration may create the table and record a principal in between.
 */
module SystemPrincipal {
  import opened Wrappers

  /** `Absent` before migration 0134; the primary key allows one row. */
  datatype Table = Absent | Empty | Recorded(id: string)

  /** Where a boot stands between two of its statements. */
  datatype Phase =
    | Probing
    | Selecting
    | Inserting
    | Reprobing
    | Reselecting
    | Succeeded
    | Refused(recorded: string)
    | Crashed

  datatype Boot = Boot(systemId: string, phase: Phase)

  // ---------------------------------------------------------------------------
  // The statements
  // ---------------------------------------------------------------------------

  /** `SELECT id ... LIMIT 1`. */
  function Select(table: Table): Option<string> {
    if table.Recorded? then Some(table.id) else None
  }

  /** `INSERT ... ON CONFLICT DO NOTHING`; fails when the table is missing. */
  function Insert(table: Table, systemId: string): Result<Table, ()> {
    match table
    case Absent => Err(())
    case Empty => Ok(Recorded(systemId))
    case Recorded(_) => Ok(table)
  }

  /** The first assertion: a recorded principal decides, none is recorded next. */
  function AfterFirstRead(systemId: string, recorded: Option<string>): Phase {
    match recorded
    case None => Inserting
    case Some(id) => if id == systemId then Succeeded else Refused(id)
  }

  /** The assertion after recording. */
  function AfterSecondRead(systemId: string, recorded: Option<string>): Phase {
    if recorded.Some? && recorded.value != systemId then Refused(recorded.value) else Succeeded
  }

  /** One statement of a boot. */
  function Statement(table: Table, boot: Boot): (Table, Boot) {
    var id := boot.systemId;
    match boot.phase
    case Probing => (table, boot.(phase := if table.Absent? then AfterFirstRead(id, None) else Selecting))
    case Selecting => (table, boot.(phase := AfterFirstRead(id, Select(table))))
    case Inserting =>
      (match Insert(table, id)
       case Err(_) => (table, boot.(phase := Crashed))
       case Ok(t) => (t, boot.(phase := Reprobing)))
    case Reprobing => (table, boot.(phase := if table.Absent? then AfterSecondRead(id, None) else Reselecting))
    case Reselecting => (table, boot.(phase := AfterSecondRead(id, Select(table))))
    case _ => (table, boot)
  }

  predicate Finished(phase: Phase) {
    phase.Succeeded? || phase.Refused? || phase.Crashed?
  }

  // ---------------------------------------------------------------------------
  // Interleavings
  // ---------------------------------------------------------------------------

  datatype State = State(table: Table, boots: seq<Boot>)

  datatype Step = Run(boot: nat) | Start(systemId: string) | Migrate(principal: string) | Delete

  predicate Enabled(s: State, step: Step) {
    match step
    case Run(i) => i < |s.boots|
    case Start(_) => true
    case Migrate(_) => s.table.Absent?
    case Delete => s.table.Recorded?
  }

  function Next(s: State, step: Step): State
    requires Enabled(s, step)
  {
    match step
    case Run(i) =>
      var (table, boot) := Statement(s.table, s.boots[i]);
      State(table, s.boots[i := boot])
    case Start(systemId) => s.(boots := s.boots + [Boot(systemId, Probing)])
    case Migrate(principal) => s.(table := Recorded(principal))
    case Delete => s.(table := Empty)
  }

  predicate Runs(s: State, steps: seq<Step>)
    decreases |steps|
  {
    steps == [] || (Enabled(s, steps[0]) && Runs(Next(s, steps[0]), steps[1..]))
  }

  function After(s: State, steps: seq<Step>): State
    requires Runs(s, steps)
    decreases |steps|
  {
    if steps == [] then s else After(Next(s, steps[0]), steps[1..])
  }

  predicate NoDeletes(steps: seq<Step>) {
    forall i :: 0 <= i < |steps| ==> !steps[i].Delete?
  }

  // ---------------------------------------------------------------------------
  // Agreement
  // ---------------------------------------------------------------------------

  /** A boot past its insert, or past its own read of the row, has the row's word. */
  predicate BootInv(table: Table, boot: Boot) {
    match boot.phase
    case Probing => true
    case Selecting => !table.Absent?
    case Inserting => true
    case Reprobing => table.Recorded?
    case Reselecting => table.Recorded?
    case Succeeded => table == Recorded(boot.systemId)
    case Refused(id) => table == Recorded(id) && id != boot.systemId
    case Crashed => true
  }

  predicate Inv(s: State) {
    forall i :: 0 <= i < |s.boots| ==> BootInv(s.table, s.boots[i])
  }

  /** The recorded principal is write-once. */
  predicate Grows(before: Table, after: Table) {
    && (before.Recorded? ==> after == before)
    && (before.Empty? ==> !after.Absent?)
  }

  lemma StepKeeps(s: State, step: Step)
    requires Inv(s) && Enabled(s, step) && !step.Delete?
    ensures Inv(Next(s, step)) && Grows(s.table, Next(s, step).table)
  {
    var t := Next(s, step);
    forall i | 0 <= i < |t.boots| ensures BootInv(t.table, t.boots[i]) {
      if i < |s.boots| { assert BootInv(s.table, s.boots[i]); }
    }
  }

  lemma {:induction false} RunKeeps(s: State, steps: seq<Step>)
    requires Inv(s) && Runs(s, steps) && NoDeletes(steps)
    ensures var t := After(s, steps);
      Inv(t) && Grows(s.table, t.table) && |s.boots| <= |t.boots|
    decreases |steps|
  {
    if steps != [] {
      StepKeeps(s, steps[0]);
      RunKeeps(Next(s, steps[0]), steps[1..]);
    }
  }

  /** In any interleaving without deletes, on a table that is empty, recorded or
      not there yet: the recorded principal never changes, every boot that
      succeeds carries it, and every boot refused carries another. */
  lemma BootsAgree(table: Table, before: seq<Step>, after: seq<Step>, i: nat)
    requires Runs(State(table, []), before) && Runs(After(State(table, []), before), after)
    requires NoDeletes(before) && NoDeletes(after)
    ensures var s := After(State(table, []), before);
      var t := After(s, after);
      && (s.table.Recorded? ==> t.table == s.table)
      && (i < |t.boots| ==>
            && (t.boots[i].phase.Succeeded? ==> t.table == Recorded(t.boots[i].systemId))
            && (t.boots[i].phase.Refused? ==>
                  t.table.Recorded? && t.table.id == t.boots[i].phase.recorded != t.boots[i].systemId))
  {
    RunKeeps(State(table, []), before);
    var s := After(State(table, []), before);
    RunKeeps(s, after);
    if i < |After(s, after).boots| {
      assert BootInv(After(s, after).table, After(s, after).boots[i]);
    }
  }

  /** A finished boot did not crash, on a table that exists; then it succeeds
      exactly when its id is the one recorded. */
  lemma FinishedBootIsDecided(table: Table, steps: seq<Step>, i: nat)
    requires !table.Absent? && Runs(State(table, []), steps) && NoDeletes(steps)
    requires var t := After(State(table, []), steps);
      i < |t.boots| && Finished(t.boots[i].phase)
    ensures var t := After(State(table, []), steps);
      && t.table.Recorded?
      && (t.boots[i].phase.Succeeded? <==> t.table.id == t.boots[i].systemId)
      && (t.boots[i].phase == Refused(t.table.id) <==> t.table.id != t.boots[i].systemId)
  {
    NoCrash(State(table, []), steps);
    RunKeeps(State(table, []), steps);
    var t := After(State(table, []), steps);
    assert BootInv(t.table, t.boots[i]);
  }

  predicate NobodyCrashed(s: State) {
    !s.table.Absent? && forall i :: 0 <= i < |s.boots| ==> !s.boots[i].phase.Crashed?
  }

  lemma {:induction false} NoCrash(s: State, steps: seq<Step>)
    requires NobodyCrashed(s) && Runs(s, steps)
    ensures NobodyCrashed(After(s, steps))
    decreases |steps|
  {
    if steps != [] {
      NoCrash(Next(s, steps[0]), steps[1..]);
    }
  }

  /** Boots configured alike, on an empty table or one that records their id,
      are never refused: whatever has finished has succeeded. */
  lemma {:induction false} BootsAlikeAllSucceed(s: State, steps: seq<Step>, systemId: string)
    requires AllAlike(s, systemId) && Runs(s, steps) && NoDeletes(steps)
    requires forall i :: 0 <= i < |steps| ==> (steps[i].Start? ==> steps[i].systemId == systemId)
    ensures AllAlike(After(s, steps), systemId)
    ensures forall i :: 0 <= i < |After(s, steps).boots| && Finished(After(s, steps).boots[i].phase) ==>
              After(s, steps).boots[i].phase.Succeeded?
    decreases |steps|
  {
    if steps != [] {
      BootsAlikeAllSucceed(Next(s, steps[0]), steps[1..], systemId);
    }
  }

  predicate AllAlike(s: State, systemId: string) {
    && (s.table.Empty? || s.table == Recorded(systemId))
    && forall i :: 0 <= i < |s.boots| ==>
         s.boots[i].systemId == systemId && !s.boots[i].phase.Refused? && !s.boots[i].phase.Crashed?
  }

  /** A boot runs at most five statements, so it always finishes. */
  function Remaining(phase: Phase): nat {
    match phase
    case Probing => 5
    case Selecting => 4
    case Inserting => 3
    case Reprobing => 2
    case Reselecting => 1
    case _ => 0
  }

  lemma EveryStatementAdvances(table: Table, boot: Boot)
    ensures Remaining(Statement(table, boot).1.phase) < Remaining(boot.phase) || Finished(boot.phase)
    ensures Finished(boot.phase) <==> Remaining(boot.phase) == 0
  {
  }

  lemma Cons(s: State, step: Step, rest: seq<Step>)
    requires Enabled(s, step) && Runs(Next(s, step), rest)
    ensures Runs(s, [step] + rest) && After(s, [step] + rest) == After(Next(s, step), rest)
  {
    assert ([step] + rest)[1..] == rest;
  }

  /** Why deletes are excluded: one between a boot's insert and its second read
      lets the boot succeed under an id that is not recorded. */
  lemma ADeleteUnguardsABoot(id: string)
    ensures exists steps :: Runs(State(Empty, [Boot(id, Inserting)]), steps)
              && After(State(Empty, [Boot(id, Inserting)]), steps) == State(Empty, [Boot(id, Succeeded)])
  {
    var s0 := State(Empty, [Boot(id, Inserting)]);
    var s1 := Next(s0, Run(0));
    var s2 := Next(s1, Delete);
    var s3 := Next(s2, Run(0));
    var s4 := Next(s3, Run(0));
    assert s4 == State(Empty, [Boot(id, Succeeded)]);
    assert Runs(s4, []) && After(s4, []) == s4;
    Cons(s3, Run(0), []);
    Cons(s2, Run(0), [Run(0)] + []);
    Cons(s1, Delete, [Run(0)] + ([Run(0)] + []));
    Cons(s0, Run(0), [Delete] + ([Run(0)] + ([Run(0)] + [])));
  }

  // ---------------------------------------------------------------------------
  // The boot over the shared table
  // ---------------------------------------------------------------------------

  /** The database, shared with other tasks and with the migration. */
  class Database {
    var table: Table

    constructor (table: Table)
      ensures this.table == table
    {
      this.table := table;
    }

    /** Anything other tasks and the migration may do between two statements. */
    method Others(insert: Option<string>, migrate: Option<string>)
      modifies this
      ensures Grows(old(table), table)
      ensures insert.None? && migrate.None? ==> table == old(table)
    {
      if table.Absent? && migrate.Some? { table := Recorded(migrate.value); }
      if table.Empty? && insert.Some? { table := Recorded(insert.value); }
    }

    method ReadSystemPrincipal(insert: Option<string>, migrate: Option<string>) returns (recorded: Option<string>)
      modifies this
      ensures Grows(old(table), table)
      ensures recorded.Some? ==> table == Recorded(recorded.value)
      ensures old(table).Recorded? ==> recorded == Some(old(table).id)
      ensures insert.None? && migrate.None? ==> table == old(table) && recorded == Select(old(table))
    {
      if table.Absent? { return None; }
      Others(insert, migrate);
      recorded := Select(table);
    }

    method RecordSystemPrincipal(systemId: string) returns (ok: bool)
      modifies this
      ensures Grows(old(table), table)
      ensures ok <==> !old(table).Absent?
      ensures ok ==> table == if old(table).Recorded? then old(table) else Recorded(systemId)
      ensures !ok ==> table == old(table)
    {
      match Insert(table, systemId) {
        case Err(_) => return false;
        case Ok(t) => table := t;
      }
      return true;
    }

    /** The whole boot check, under arbitrary interference before every statement. */
    method EnsureSystemPrincipal(systemId: string, inserts: seq<Option<string>>, migrations: seq<Option<string>>)
      returns (end: Phase)
      requires |inserts| == 5 && |migrations| == 5
      modifies this
      ensures Grows(old(table), table)
      ensures end.Succeeded? ==> table == Recorded(systemId)
      ensures end.Refused? ==> table == Recorded(end.recorded) && end.recorded != systemId
      ensures end.Crashed? ==> old(table).Absent?
      ensures Finished(end)
      ensures (forall i :: 0 <= i < 5 ==> inserts[i].None? && migrations[i].None?) ==>
                match old(table)
                case Absent => end.Crashed? && table.Absent?
                case Empty => end.Succeeded? && table == Recorded(systemId)
                case Recorded(id) => table == old(table) && end == (if id == systemId then Succeeded else Refused(id))
    {
      Others(inserts[0], migrations[0]);
      var recorded := ReadSystemPrincipal(inserts[1], migrations[1]);
      if recorded.Some? && recorded.value != systemId { return Refused(recorded.value); }
      if recorded.Some? { return Succeeded; }
      Others(inserts[2], migrations[2]);
      var ok := RecordSystemPrincipal(systemId);
      if !ok { return Crashed; }
      Others(inserts[3], migrations[3]);
      recorded := ReadSystemPrincipal(inserts[4], migrations[4]);
      if recorded.Some? && recorded.value != systemId { return Refused(recorded.value); }
      return Succeeded;
    }
  }
}
