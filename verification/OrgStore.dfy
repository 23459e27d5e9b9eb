/**
 * The admin store's organization updates and their audit trail
 * (packages/admin-cli/src/store.ts). `updateOrg` runs in one transaction with
 * the organization's row locked, so for that row a run is a sequence of whole
 * calls. The stations are not locked: each read of them sees the table as it is
 * at that moment, which may be another than the write's.
 */
module OrgStore {
  import opened Wrappers

  datatype Org = Org(
    name: string,
    timezone: string,
    defaultStationId: Option<string>,
    tier: string,
    updated: Option<int>,
    updatedBy: Option<string>,
    deleted: Option<int>)

  datatype Station = Station(organizationId: string, name: string, deleted: bool)

  /** A field left out of the patch is None; `defaultStationId` may be given as null. */
  datatype OrgPatch = OrgPatch(name: Option<string>, timezone: Option<string>, defaultStationId: Option<Option<string>>)

  datatype Change<T> = Change(from: T, to: T)

  datatype OrgChanges = OrgChanges(
    name: Option<Change<string>>,
    timezone: Option<Change<string>>,
    defaultStationId: Option<Change<Option<string>>>,
    stationNames: Option<Change<Option<string>>>)

  datatype Audited =
    | NameField(name: Change<string>)
    | StationField(station: Change<Option<string>>, names: Change<Option<string>>)

  datatype AuditEntry = AuditEntry(organizationId: string, principal: string, created: int, field: Audited)

  datatype StoreError = NotFound(what: string)

  type Stations = map<string, Station>

  /** The stations as `updateOrg` saw them: when it checked the new default, and
      when it looked up the name of the old one. */
  datatype Reads = Reads(check: Stations, from: Stations)

  /** `users` maps the auth0 id of each live user to the user's id. */
  datatype State = State(
    orgs: map<string, Org>,
    stations: Stations,
    users: map<string, string>,
    tiers: set<string>,
    audit: seq<AuditEntry>)

  // ---------------------------------------------------------------------------
  // The operations
  // ---------------------------------------------------------------------------

  predicate LiveOrg(s: State, id: string) {
    id in s.orgs && s.orgs[id].deleted.None?
  }

  predicate LiveStation(stations: Stations, stationId: string, orgId: string) {
    stationId in stations && stations[stationId].organizationId == orgId && !stations[stationId].deleted
  }

  /** The name of a live station of the organization; an empty id names none. */
  function StationName(stations: Stations, stationId: Option<string>, orgId: string): Option<string> {
    if stationId.Some? && stationId.value != "" && LiveStation(stations, stationId.value, orgId)
    then Some(stations[stationId.value].name) else None
  }

  /** The patch names a station that has to be checked. */
  predicate NamesStation(patch: OrgPatch) {
    patch.defaultStationId.Some? && patch.defaultStationId.value.Some? && patch.defaultStationId.value.value != ""
  }

  function Moved<T(==)>(patched: Option<T>, current: T): Option<Change<T>> {
    if patched.Some? && patched.value != current then Some(Change(current, patched.value)) else None
  }

  function ChangesOf(s: State, saw: Reads, id: string, patch: OrgPatch): OrgChanges
    requires id in s.orgs
  {
    var current := s.orgs[id];
    var station := Moved(patch.defaultStationId, current.defaultStationId);
    OrgChanges(
      Moved(patch.name, current.name),
      Moved(patch.timezone, current.timezone),
      station,
      if station.None? then None
      else Some(Change(
        StationName(saw.from, station.value.from, id),
        StationName(saw.check, station.value.to, id))))
  }

  const NO_CHANGES := OrgChanges(None, None, None, None)

  function Given<T>(patched: Option<T>, current: T): T {
    if patched.Some? then patched.value else current
  }

  function Patched(org: Org, patch: OrgPatch, actor: string, now: int): Org {
    org.(name := Given(patch.name, org.name),
         timezone := Given(patch.timezone, org.timezone),
         defaultStationId := Given(patch.defaultStationId, org.defaultStationId),
         updated := Some(now), updatedBy := Some(actor))
  }

  function Entries(s: State, id: string, changes: OrgChanges, actor: string, now: int): seq<AuditEntry> {
    var principal := if actor in s.users then s.users[actor] else actor;
    (if changes.name.Some? then [AuditEntry(id, principal, now, NameField(changes.name.value))] else [])
    + (if changes.defaultStationId.Some? && changes.stationNames.Some?
       then [AuditEntry(id, principal, now, StationField(changes.defaultStationId.value, changes.stationNames.value))]
       else [])
  }

  function UpdateOrg(s: State, saw: Reads, id: string, patch: OrgPatch, actor: string, now: int)
    : (State, Result<OrgChanges, StoreError>)
  {
    if !LiveOrg(s, id) then (s, Err(NotFound(id)))
    else if NamesStation(patch) && !LiveStation(saw.check, patch.defaultStationId.value.value, id)
    then (s, Err(NotFound(patch.defaultStationId.value.value)))
    else
      var changes := ChangesOf(s, saw, id, patch);
      if changes == NO_CHANGES then (s, Ok(changes))
      else (s.(orgs := s.orgs[id := Patched(s.orgs[id], patch, actor, now)],
               audit := s.audit + Entries(s, id, changes, actor, now)), Ok(changes))
  }

  /** `seen` is the live row an earlier read found; the write finds its own.
      Returns the previous tier. */
  function SetTier(s: State, seen: Option<Org>, id: string, tier: string, actor: string, now: int)
    : (State, Result<string, StoreError>)
  {
    if tier !in s.tiers then (s, Err(NotFound(tier)))
    else if seen.None? then (s, Err(NotFound(id)))
    else if !LiveOrg(s, id) then (s, Ok(seen.value.tier))
    else (s.(orgs := s.orgs[id := s.orgs[id].(tier := tier, updated := Some(now), updatedBy := Some(actor))]),
          Ok(seen.value.tier))
  }

  function SoftDelete(s: State, id: string, now: int): (State, Result<(), StoreError>) {
    if !LiveOrg(s, id) then (s, Err(NotFound(id)))
    else (s.(orgs := s.orgs[id := s.orgs[id].(deleted := Some(now))]), Ok(()))
  }

  // ---------------------------------------------------------------------------
  // Runs
  // ---------------------------------------------------------------------------

  /** The store's calls, and what others may do to stations, users and tiers. */
  datatype Step =
    | Update(id: string, saw: Reads, patch: OrgPatch, actor: string, now: int)
    | Tier(id: string, seen: Option<Org>, tier: string, actor: string, now: int)
    | Delete(id: string, now: int)
    | Elsewhere(stations: Stations, users: map<string, string>, tiers: set<string>)

  function Next(s: State, step: Step): State {
    match step
    case Update(id, saw, patch, actor, now) => UpdateOrg(s, saw, id, patch, actor, now).0
    case Tier(id, seen, tier, actor, now) => SetTier(s, seen, id, tier, actor, now).0
    case Delete(id, now) => SoftDelete(s, id, now).0
    case Elsewhere(stations, users, tiers) => s.(stations := stations, users := users, tiers := tiers)
  }

  function After(s: State, steps: seq<Step>): State
    decreases |steps|
  {
    if steps == [] then s else After(Next(s, steps[0]), steps[1..])
  }

  // ---------------------------------------------------------------------------
  // Replaying the audit trail
  // ---------------------------------------------------------------------------

  /** The name change an entry records for the organization, if it does. */
  function NameChange(entry: AuditEntry, id: string): seq<Change<string>> {
    if entry.organizationId == id && entry.field.NameField? then [entry.field.name] else []
  }

  function StationChange(entry: AuditEntry, id: string): seq<Change<Option<string>>> {
    if entry.organizationId == id && entry.field.StationField? then [entry.field.station] else []
  }

  /** The organization's own name changes in the log, oldest first. */
  function NameTrail(log: seq<AuditEntry>, id: string): seq<Change<string>> {
    if log == [] then [] else NameChange(log[0], id) + NameTrail(log[1..], id)
  }

  function StationTrail(log: seq<AuditEntry>, id: string): seq<Change<Option<string>>> {
    if log == [] then [] else StationChange(log[0], id) + StationTrail(log[1..], id)
  }

  /** Each change starts where the one before it ended, the first at `first` and
      the last at `last`, and every one of them moves. */
  predicate Chain<T(==)>(trail: seq<Change<T>>, first: T, last: T) {
    if trail == [] then first == last
    else trail[0].from == first && trail[0].to != first && Chain(trail[1..], trail[0].to, last)
  }

  function Replay<T>(trail: seq<Change<T>>, first: T): T {
    if trail == [] then first else Replay(trail[1..], trail[0].to)
  }

  lemma {:induction false} ChainReplays<T>(trail: seq<Change<T>>, first: T, last: T)
    requires Chain(trail, first, last)
    ensures Replay(trail, first) == last
  {
    if trail != [] { ChainReplays(trail[1..], trail[0].to, last); }
  }

  lemma {:induction false} ChainConcat<T>(a: seq<Change<T>>, b: seq<Change<T>>, first: T, mid: T, last: T)
    requires Chain(a, first, mid) && Chain(b, mid, last)
    ensures Chain(a + b, first, last)
  {
    if a == [] {
      assert a + b == b;
    } else {
      assert (a + b)[0] == a[0] && (a + b)[1..] == a[1..] + b;
      ChainConcat(a[1..], b, a[0].to, mid, last);
    }
  }

  lemma {:induction false} NameTrailConcat(a: seq<AuditEntry>, b: seq<AuditEntry>, id: string)
    ensures NameTrail(a + b, id) == NameTrail(a, id) + NameTrail(b, id)
  {
    if a == [] {
      assert a + b == b;
    } else {
      assert (a + b)[0] == a[0] && (a + b)[1..] == a[1..] + b;
      NameTrailConcat(a[1..], b, id);
    }
  }

  lemma {:induction false} StationTrailConcat(a: seq<AuditEntry>, b: seq<AuditEntry>, id: string)
    ensures StationTrail(a + b, id) == StationTrail(a, id) + StationTrail(b, id)
  {
    if a == [] {
      assert a + b == b;
    } else {
      assert (a + b)[0] == a[0] && (a + b)[1..] == a[1..] + b;
      StationTrailConcat(a[1..], b, id);
    }
  }

  /** A step keeps every organization and only appends to the log; the entries
      are an accepted update's own. */
  lemma StepAppends(s: State, step: Step)
    ensures s.orgs.Keys <= Next(s, step).orgs.Keys
    ensures Next(s, step).audit == s.audit + StepEntries(s, step)
  {
  }

  function StepEntries(s: State, step: Step): seq<AuditEntry> {
    if step.Update? && UpdateOrg(s, step.saw, step.id, step.patch, step.actor, step.now).1.Ok?
    then Entries(s, step.id, ChangesOf(s, step.saw, step.id, step.patch), step.actor, step.now)
    else []
  }

  /** One call's own entries carry the row from its old values to its new ones. */
  lemma StepTrails(s: State, step: Step, id: string)
    requires id in s.orgs
    ensures id in Next(s, step).orgs
    ensures Chain(NameTrail(StepEntries(s, step), id), s.orgs[id].name, Next(s, step).orgs[id].name)
    ensures Chain(StationTrail(StepEntries(s, step), id),
                  s.orgs[id].defaultStationId, Next(s, step).orgs[id].defaultStationId)
  {
    if step.Update? && UpdateOrg(s, step.saw, step.id, step.patch, step.actor, step.now).1.Ok? {
      UpdateTrails(s, step.saw, step.id, step.patch, step.actor, step.now, id);
    }
  }

  lemma UpdateTrails(s: State, saw: Reads, of: string, patch: OrgPatch, actor: string, now: int, id: string)
    requires UpdateOrg(s, saw, of, patch, actor, now).1.Ok? && id in s.orgs
    ensures of in s.orgs && id in UpdateOrg(s, saw, of, patch, actor, now).0.orgs
    ensures var before, after := s.orgs[id], UpdateOrg(s, saw, of, patch, actor, now).0.orgs[id];
      var entries := Entries(s, of, ChangesOf(s, saw, of, patch), actor, now);
      && Chain(NameTrail(entries, id), before.name, after.name)
      && Chain(StationTrail(entries, id), before.defaultStationId, after.defaultStationId)
  {
    UpdateMoves(s, saw, of, patch, actor, now, id);
    var before, after := s.orgs[id], UpdateOrg(s, saw, of, patch, actor, now).0.orgs[id];
    var changes := ChangesOf(s, saw, of, patch);
    EntryTrails(s, of, changes, actor, now, id);
    ChainOfOne(if of == id then changes.name else None, before.name, after.name);
    ChainOfOne(if of == id then changes.defaultStationId else None, before.defaultStationId, after.defaultStationId);
  }

  /** `change` is what there is to record between `before` and `after`. */
  predicate Records<T(==)>(change: Option<Change<T>>, before: T, after: T) {
    if change.Some? then change.value == Change(before, after) && before != after else after == before
  }

  lemma ChainOfOne<T>(change: Option<Change<T>>, before: T, after: T)
    requires Records(change, before, after)
    ensures Chain(if change.Some? then [change.value] else [], before, after)
  {
  }

  /** The row before and after an accepted update, by its changes. */
  lemma UpdateMoves(s: State, saw: Reads, of: string, patch: OrgPatch, actor: string, now: int, id: string)
    requires UpdateOrg(s, saw, of, patch, actor, now).1.Ok? && id in s.orgs
    ensures of in s.orgs && id in UpdateOrg(s, saw, of, patch, actor, now).0.orgs
    ensures var before, after := s.orgs[id], UpdateOrg(s, saw, of, patch, actor, now).0.orgs[id];
      var changes := ChangesOf(s, saw, of, patch);
      && Records(if of == id then changes.name else None, before.name, after.name)
      && Records(if of == id then changes.defaultStationId else None, before.defaultStationId, after.defaultStationId)
  {
  }

  lemma EntryTrails(s: State, of: string, changes: OrgChanges, actor: string, now: int, id: string)
    requires changes.defaultStationId.Some? <==> changes.stationNames.Some?
    ensures NameTrail(Entries(s, of, changes, actor, now), id)
            == if of == id && changes.name.Some? then [changes.name.value] else []
    ensures StationTrail(Entries(s, of, changes, actor, now), id)
            == if of == id && changes.defaultStationId.Some? then [changes.defaultStationId.value] else []
  {
    var principal := if actor in s.users then s.users[actor] else actor;
    var named := if changes.name.Some? then [AuditEntry(of, principal, now, NameField(changes.name.value))] else [];
    var moved := if changes.defaultStationId.Some?
      then [AuditEntry(of, principal, now, StationField(changes.defaultStationId.value, changes.stationNames.value))]
      else [];
    assert Entries(s, of, changes, actor, now) == named + moved;
    NameTrailConcat(named, moved, id);
    StationTrailConcat(named, moved, id);
  }

  /** Over any run, the entries an organization's updates recorded form an
      unbroken chain for its name and for its default station, and replaying them
      from the row they started from gives the row there is now. */
  lemma AuditReplays(s: State, steps: seq<Step>, id: string)
    requires id in s.orgs
    ensures id in After(s, steps).orgs && s.audit <= After(s, steps).audit
    ensures var t := After(s, steps);
      var entries := t.audit[|s.audit|..];
      && Chain(NameTrail(entries, id), s.orgs[id].name, t.orgs[id].name)
      && Replay(NameTrail(entries, id), s.orgs[id].name) == t.orgs[id].name
      && Chain(StationTrail(entries, id), s.orgs[id].defaultStationId, t.orgs[id].defaultStationId)
      && Replay(StationTrail(entries, id), s.orgs[id].defaultStationId) == t.orgs[id].defaultStationId
  {
    RunAppends(s, steps);
    NamesAlong(s, steps, id);
    StationsAlong(s, steps, id);
    var t := After(s, steps);
    var entries := t.audit[|s.audit|..];
    assert entries == EntriesAlong(s, steps);
    ChainReplays(NameTrail(entries, id), s.orgs[id].name, t.orgs[id].name);
    ChainReplays(StationTrail(entries, id), s.orgs[id].defaultStationId, t.orgs[id].defaultStationId);
  }

  function EntriesAlong(s: State, steps: seq<Step>): seq<AuditEntry>
    decreases |steps|
  {
    if steps == [] then [] else StepEntries(s, steps[0]) + EntriesAlong(Next(s, steps[0]), steps[1..])
  }

  lemma {:induction false} RunAppends(s: State, steps: seq<Step>)
    ensures s.orgs.Keys <= After(s, steps).orgs.Keys
    ensures After(s, steps).audit == s.audit + EntriesAlong(s, steps)
    decreases |steps|
  {
    if steps != [] {
      StepAppends(s, steps[0]);
      RunAppends(Next(s, steps[0]), steps[1..]);
    }
  }

  lemma {:induction false} NamesAlong(s: State, steps: seq<Step>, id: string)
    requires id in s.orgs && id in After(s, steps).orgs
    ensures Chain(NameTrail(EntriesAlong(s, steps), id), s.orgs[id].name, After(s, steps).orgs[id].name)
    decreases |steps|
  {
    if steps != [] {
      var mid := Next(s, steps[0]);
      StepTrails(s, steps[0], id);
      NamesAlong(mid, steps[1..], id);
      NameTrailConcat(StepEntries(s, steps[0]), EntriesAlong(mid, steps[1..]), id);
      ChainConcat(NameTrail(StepEntries(s, steps[0]), id), NameTrail(EntriesAlong(mid, steps[1..]), id),
                  s.orgs[id].name, mid.orgs[id].name, After(mid, steps[1..]).orgs[id].name);
    }
  }

  lemma {:induction false} StationsAlong(s: State, steps: seq<Step>, id: string)
    requires id in s.orgs && id in After(s, steps).orgs
    ensures Chain(StationTrail(EntriesAlong(s, steps), id),
                  s.orgs[id].defaultStationId, After(s, steps).orgs[id].defaultStationId)
    decreases |steps|
  {
    if steps != [] {
      var mid := Next(s, steps[0]);
      StepTrails(s, steps[0], id);
      StationsAlong(mid, steps[1..], id);
      StationTrailConcat(StepEntries(s, steps[0]), EntriesAlong(mid, steps[1..]), id);
      ChainConcat(StationTrail(StepEntries(s, steps[0]), id), StationTrail(EntriesAlong(mid, steps[1..]), id),
                  s.orgs[id].defaultStationId, mid.orgs[id].defaultStationId,
                  After(mid, steps[1..]).orgs[id].defaultStationId);
    }
  }

  // ---------------------------------------------------------------------------
  // What one update writes
  // ---------------------------------------------------------------------------

  /** The patch asks for nothing the row does not already say. */
  predicate AsksNothing(org: Org, patch: OrgPatch) {
    && (patch.name.None? || patch.name.value == org.name)
    && (patch.timezone.None? || patch.timezone.value == org.timezone)
    && (patch.defaultStationId.None? || patch.defaultStationId.value == org.defaultStationId)
  }

  /** The row the patch asks for: each field given, the others as they are. */
  predicate AsAsked(before: Org, after: Org, patch: OrgPatch) {
    && after.name == (match patch.name case None => before.name case Some(name) => name)
    && after.timezone == (match patch.timezone case None => before.timezone case Some(zone) => zone)
    && after.defaultStationId == (match patch.defaultStationId case None => before.defaultStationId case Some(id) => id)
    && after.tier == before.tier && after.deleted == before.deleted
  }

  /** An update is refused exactly for an organization that is missing or deleted, or
      for a non-empty station that, when checked, is missing, deleted or another's. */
  lemma UpdateRefusesExactly(s: State, saw: Reads, id: string, patch: OrgPatch, actor: string, now: int)
    ensures var (t, r) := UpdateOrg(s, saw, id, patch, actor, now);
      && (r.Err? ==> t == s)
      && (id !in s.orgs || s.orgs[id].deleted.Some? ==> r == Err(NotFound(id)))
      && (id in s.orgs && s.orgs[id].deleted.None? ==>
            match patch.defaultStationId
            case Some(Some(st)) =>
              if st != "" && (st !in saw.check || saw.check[st].deleted || saw.check[st].organizationId != id)
              then r == Err(NotFound(st)) else r.Ok?
            case _ => r.Ok?)
  {
  }

  /** An accepted update appends, when the name moved, its entry, then, when the
      default station moved, its: each with the old value and the new, the time of the
      call, and the operator's own user when their id is one's, else the id itself. */
  lemma UpdateRecordsExactly(s: State, saw: Reads, id: string, patch: OrgPatch, actor: string, now: int)
    requires UpdateOrg(s, saw, id, patch, actor, now).1.Ok?
    ensures id in s.orgs && id in UpdateOrg(s, saw, id, patch, actor, now).0.orgs
    ensures var t := UpdateOrg(s, saw, id, patch, actor, now).0;
      var before, after := s.orgs[id], t.orgs[id];
      var who := if actor in s.users then s.users[actor] else actor;
      var named := before.name != after.name;
      var moved := before.defaultStationId != after.defaultStationId;
      && |t.audit| == |s.audit| + (if named then 1 else 0) + (if moved then 1 else 0)
      && t.audit[..|s.audit|] == s.audit
      && (named ==> t.audit[|s.audit|] == AuditEntry(id, who, now, NameField(Change(before.name, after.name))))
      && (moved ==>
            var entry := t.audit[|t.audit| - 1];
            && entry.organizationId == id && entry.principal == who && entry.created == now && entry.field.StationField?
            && entry.field.station == Change(before.defaultStationId, after.defaultStationId))
  {
  }

  /** Deleting marks exactly a live organization, and nothing else. */
  lemma DeleteMarksExactly(s: State, id: string, now: int)
    ensures var (t, r) := SoftDelete(s, id, now);
      if id in s.orgs && s.orgs[id].deleted.None?
      then r == Ok(()) && t == s.(orgs := s.orgs[id := s.orgs[id].(deleted := Some(now))])
      else r == Err(NotFound(id)) && t == s
  {
  }

  /** Setting a tier is refused exactly for an unknown tier or an organization the
      earlier read did not find; it changes nothing but the tier and the stamp. */
  lemma TierWritesExactly(s: State, seen: Option<Org>, id: string, tier: string, actor: string, now: int)
    ensures var (t, r) := SetTier(s, seen, id, tier, actor, now);
      && (tier !in s.tiers ==> r == Err(NotFound(tier)) && t == s)
      && (tier in s.tiers && seen.None? ==> r == Err(NotFound(id)) && t == s)
      && (tier in s.tiers && seen.Some? ==>
            && r == Ok(seen.value.tier)
            && t == if id in s.orgs && s.orgs[id].deleted.None?
                    then s.(orgs := s.orgs[id :=
                      s.orgs[id].(tier := tier, updated := Some(now), updatedBy := Some(actor))])
                    else s)
  {
  }

  /** An accepted update writes nothing exactly when it asks for nothing; else it
      writes the row it was asked for, stamped, touches no other organization,
      and records one entry for each of name and default station that moved. */
  lemma UpdateWritesExactlyTheChange(s: State, saw: Reads, id: string, patch: OrgPatch, actor: string, now: int)
    requires UpdateOrg(s, saw, id, patch, actor, now).1.Ok?
    ensures var (t, r) := UpdateOrg(s, saw, id, patch, actor, now);
      && LiveOrg(s, id)
      && (r.value == NO_CHANGES <==> AsksNothing(s.orgs[id], patch))
      && (AsksNothing(s.orgs[id], patch) ==> t == s)
      && (!AsksNothing(s.orgs[id], patch) ==>
            && t.orgs.Keys == s.orgs.Keys
            && (forall other :: other in s.orgs && other != id ==> t.orgs[other] == s.orgs[other])
            && t.orgs[id].updatedBy == Some(actor) && t.orgs[id].updated == Some(now)
            && AsAsked(s.orgs[id], t.orgs[id], patch)
            && |t.audit| == |s.audit| + (if t.orgs[id].name != s.orgs[id].name then 1 else 0)
                 + (if t.orgs[id].defaultStationId != s.orgs[id].defaultStationId then 1 else 0))
  {
  }

  /** Sending an accepted update again, by anyone, changes and records nothing; it is
      refused exactly when the station it names was lost in between. */
  lemma RepeatedUpdateIsANoOp(s: State, saw: Reads, id: string, patch: OrgPatch, actor: string, now: int,
                              later: Reads, again: string, at: int)
    requires UpdateOrg(s, saw, id, patch, actor, now).1.Ok?
    ensures var t := UpdateOrg(s, saw, id, patch, actor, now).0;
      var (u, r) := UpdateOrg(t, later, id, patch, again, at);
      && u == t
      && (r == Ok(NO_CHANGES) <==> r.Ok?)
      && (r.Ok? <==> !NamesStation(patch) || LiveStation(later.check, patch.defaultStationId.value.value, id))
  {
    UpdateWritesExactlyTheChange(s, saw, id, patch, actor, now);
  }

  /** The patch that puts back what an update moved. */
  function Back(before: Org, changes: OrgChanges): OrgPatch {
    OrgPatch(
      if changes.name.Some? then Some(before.name) else None,
      if changes.timezone.Some? then Some(before.timezone) else None,
      if changes.defaultStationId.Some? then Some(before.defaultStationId) else None)
  }

  /** An accepted update can be undone exactly when it did not move the default
      station away from one that is no longer live; undoing it then puts back the
      name, the timezone and the station, and records as many changes again. */
  lemma UndoneExactly(s: State, saw: Reads, id: string, patch: OrgPatch, actor: string, now: int,
                      later: Reads, again: string, at: int)
    requires UpdateOrg(s, saw, id, patch, actor, now).1.Ok?
    ensures id in s.orgs
    ensures var (t, done) := UpdateOrg(s, saw, id, patch, actor, now);
      var before, changes := s.orgs[id], done.value;
      var (u, r) := UpdateOrg(t, later, id, Back(before, changes), again, at);
      && (r.Ok? <==> changes.defaultStationId.None? || before.defaultStationId.None?
                     || before.defaultStationId.value == ""
                     || LiveStation(later.check, before.defaultStationId.value, id))
      && (r.Err? ==> u == t)
      && (r.Ok? ==>
            && id in u.orgs
            && u.orgs[id].name == before.name && u.orgs[id].timezone == before.timezone
            && u.orgs[id].defaultStationId == before.defaultStationId
            && |u.audit| - |t.audit| == |t.audit| - |s.audit|)
  {
    UpdateWritesExactlyTheChange(s, saw, id, patch, actor, now);
  }

  /** Every default station entry a run records names the station it moves to,
      and names none exactly when it moves to none or to the empty id. */
  lemma {:induction false} RecordedStationsAreNamed(s: State, steps: seq<Step>)
    ensures forall e :: e in EntriesAlong(s, steps) && e.field.StationField? ==>
              (e.field.names.to.None? <==> e.field.station.to.None? || e.field.station.to.value == "")
    decreases |steps|
  {
    if steps == [] {
      assert EntriesAlong(s, steps) == [];
    } else {
      if steps[0].Update? { StepNamesStations(s, steps[0]); }
      RecordedStationsAreNamed(Next(s, steps[0]), steps[1..]);
    }
  }

  /** One update's entry carries the names the two stations had when each was read,
      as live stations of the organization. */
  lemma StepNamesStations(s: State, step: Step)
    requires step.Update?
    ensures forall e :: e in StepEntries(s, step) && e.field.StationField? ==>
              && (e.field.names.to.None? <==> e.field.station.to.None? || e.field.station.to.value == "")
              && NamedBy(step.saw.check, step.id, e.field.station.to, e.field.names.to)
              && NamedBy(step.saw.from, step.id, e.field.station.from, e.field.names.from)
  {
  }

  /** The recorded name is the station's, exactly when it is a live station of the
      organization under a non-empty id; else there is none. */
  predicate NamedBy(stations: Stations, id: string, station: Option<string>, name: Option<string>) {
    if station.Some? && station.value != "" && station.value in stations
       && stations[station.value].organizationId == id && !stations[station.value].deleted
    then name == Some(stations[station.value].name) else name.None?
  }

  // ---------------------------------------------------------------------------
  // The default station, with stations changing under the update
  // ---------------------------------------------------------------------------

  /** What others may do to the stations while an update holds its organization's
      row: a delete is soft, and an id is used once. */
  datatype StationStep =
    | Open(stationId: string, station: Station)
    | Rename(stationId: string, name: string)
    | Remove(stationId: string)

  function StationNext(stations: Stations, step: StationStep): Stations {
    var of := step.stationId;
    match step
    case Open(_, station) => if of in stations then stations else stations[of := station]
    case Rename(_, name) => if of in stations then stations[of := stations[of].(name := name)] else stations
    case Remove(_) => if of in stations then stations[of := stations[of].(deleted := true)] else stations
  }

  function Meanwhile(stations: Stations, steps: seq<StationStep>): Stations
    decreases |steps|
  {
    if steps == [] then stations else Meanwhile(StationNext(stations, steps[0]), steps[1..])
  }

  lemma {:induction false} StaysRemoved(stations: Stations, steps: seq<StationStep>, stationId: string)
    requires stationId in stations && stations[stationId].deleted
    ensures stationId in Meanwhile(stations, steps) && Meanwhile(stations, steps)[stationId].deleted
    decreases |steps|
  {
    if steps != [] { StaysRemoved(StationNext(stations, steps[0]), steps[1..], stationId); }
  }

  lemma {:induction false} SurvivesExactly(stations: Stations, steps: seq<StationStep>,
                                           stationId: string, orgId: string)
    requires LiveStation(stations, stationId, orgId)
    ensures LiveStation(Meanwhile(stations, steps), stationId, orgId) <==> Remove(stationId) !in steps
    decreases |steps|
  {
    if steps != [] {
      var next := StationNext(stations, steps[0]);
      assert steps == [steps[0]] + steps[1..];
      if steps[0] == Remove(stationId) {
        StaysRemoved(next, steps[1..], stationId);
      } else {
        SurvivesExactly(next, steps[1..], stationId, orgId);
      }
    }
  }

  /** A default station that any step moves was none, or a live station of the
      organization when it was checked, exactly when the patch does not carry the
      empty id (or that was one): the check skips it, the write does not. */
  lemma CheckedStationIsLiveUnlessEmpty(s: State, step: Step, id: string)
    requires id in s.orgs
    requires Next(s, step).orgs[id].defaultStationId != s.orgs[id].defaultStationId
    ensures var written := Next(s, step).orgs[id].defaultStationId;
      && step.Update? && step.id == id && step.patch.defaultStationId == Some(written)
      && ((written.None? || LiveStation(step.saw.check, written.value, id)) <==>
            (step.patch.defaultStationId != Some(Some("")) || LiveStation(step.saw.check, "", id)))
  {
  }

  /** It is none, or a live station of the organization, when it is written exactly
      when it is none, or was checked and not removed since. */
  lemma WrittenStationIsLiveExactly(s: State, between: seq<StationStep>, step: Step, id: string)
    requires step.Update? && id in s.orgs
    requires s.stations == Meanwhile(step.saw.check, between)
    requires Next(s, step).orgs[id].defaultStationId != s.orgs[id].defaultStationId
    ensures var t := Next(s, step);
      var written := t.orgs[id].defaultStationId;
      (written.None? || LiveStation(t.stations, written.value, id)) <==>
        written.None?
        || (if written.value == "" then LiveStation(s.stations, "", id) else Remove(written.value) !in between)
  {
    CheckedStationIsLiveUnlessEmpty(s, step, id);
    var written := Next(s, step).orgs[id].defaultStationId;
    if written.Some? && written.value != "" {
      SurvivesExactly(step.saw.check, between, written.value, id);
    }
  }

  /** The witnesses: a removal between the check and the write leaves a deleted
      station as the default, and the empty id needs no removal. */
  lemma RemovedStationIsWritten()
    ensures var org := Org("Harborview", "UTC", None, "standard", None, None, None);
      var checked := map["st" := Station("o", "Main", false)];
      var s := State(map["o" := org], Meanwhile(checked, [Remove("st")]), map[], {}, []);
      var t := UpdateOrg(s, Reads(checked, checked), "o", OrgPatch(None, None, Some(Some("st"))), "sub", 1).0;
      "o" in t.orgs && t.orgs["o"].defaultStationId == Some("st") && !LiveStation(t.stations, "st", "o")
  {
    var checked := map["st" := Station("o", "Main", false)];
    assert [Remove("st")][1..] == [];
    assert Meanwhile(checked, [Remove("st")]) == map["st" := Station("o", "Main", true)];
  }

  lemma EmptyStationIdIsWritten()
    ensures var org := Org("Harborview", "UTC", None, "standard", None, None, None);
      var s := State(map["o" := org], map[], map[], {}, []);
      var t := UpdateOrg(s, Reads(map[], map[]), "o", OrgPatch(None, None, Some(Some(""))), "sub", 1).0;
      "o" in t.orgs && t.orgs["o"].defaultStationId == Some("") && !LiveStation(t.stations, "", "o")
  {
  }

  /** A tier reported as set is the live organization's tier exactly when the
      organization was not deleted between the read and the write. */
  lemma ReportedTierIsSetExactly(s: State, seen: Option<Org>, id: string, tier: string, actor: string, now: int)
    requires SetTier(s, seen, id, tier, actor, now).1.Ok?
    ensures var t := SetTier(s, seen, id, tier, actor, now).0;
      && (LiveOrg(t, id) && t.orgs[id].tier == tier <==> LiveOrg(s, id))
      && (!LiveOrg(s, id) ==> t == s)
  {
  }

  /** A deleted organization's row never changes again. */
  lemma {:induction false} DeletedOrgIsFrozen(s: State, steps: seq<Step>, id: string)
    requires id in s.orgs && s.orgs[id].deleted.Some?
    ensures id in After(s, steps).orgs && After(s, steps).orgs[id] == s.orgs[id]
    decreases |steps|
  {
    if steps != [] {
      DeletedOrgIsFrozen(Next(s, steps[0]), steps[1..], id);
    }
  }

  // ---------------------------------------------------------------------------
  // The store over mutable tables
  // ---------------------------------------------------------------------------

  class Store {
    var orgs: map<string, Org>
    var stations: Stations
    var users: map<string, string>
    var tiers: set<string>
    var audit: seq<AuditEntry>

    ghost function Contents(): State
      reads this
    {
      State(orgs, stations, users, tiers, audit)
    }

    constructor (orgs: map<string, Org>, stations: Stations, users: map<string, string>,
                 tiers: set<string>)
      ensures Contents() == State(orgs, stations, users, tiers, [])
    {
      this.orgs, this.stations, this.users, this.tiers, audit := orgs, stations, users, tiers, [];
    }

    /** One read of the station table, as it is at that moment. */
    method SelectStationName(seen: Stations, stationId: Option<string>, orgId: string) returns (name: Option<string>)
      ensures name == StationName(seen, stationId, orgId)
    {
      if stationId.None? || stationId.value == "" { return None; }
      var id := stationId.value;
      if id in seen && seen[id].organizationId == orgId && !seen[id].deleted {
        return Some(seen[id].name);
      }
      return None;
    }

    method UpdateOrganization(id: string, saw: Reads, patch: OrgPatch, actor: string, now: int)
      returns (r: Result<OrgChanges, StoreError>)
      modifies this`orgs, this`audit
      ensures (Contents(), r) == UpdateOrg(old(Contents()), saw, id, patch, actor, now)
    {
      if id !in orgs || orgs[id].deleted.Some? { return Err(NotFound(id)); }
      var current := orgs[id];
      var toName := None;
      if NamesStation(patch) {
        toName := SelectStationName(saw.check, patch.defaultStationId.value, id);
        if toName.None? { return Err(NotFound(patch.defaultStationId.value.value)); }
      }
      var changes := NO_CHANGES;
      if patch.name.Some? && patch.name.value != current.name {
        changes := changes.(name := Some(Change(current.name, patch.name.value)));
      }
      if patch.timezone.Some? && patch.timezone.value != current.timezone {
        changes := changes.(timezone := Some(Change(current.timezone, patch.timezone.value)));
      }
      var from := current.defaultStationId;
      if patch.defaultStationId.Some? && patch.defaultStationId.value != from {
        var fromName := SelectStationName(saw.from, from, id);
        changes := changes.(defaultStationId := Some(Change(from, patch.defaultStationId.value)),
                            stationNames := Some(Change(fromName, toName)));
      }
      if changes == NO_CHANGES { return Ok(changes); }

      var entries := BuildEntries(id, changes, actor, now);
      orgs := orgs[id := Patched(current, patch, actor, now)];
      audit := audit + entries;
      return Ok(changes);
    }

    method BuildEntries(id: string, changes: OrgChanges, actor: string, now: int) returns (entries: seq<AuditEntry>)
      ensures entries == Entries(Contents(), id, changes, actor, now)
    {
      var principal := if actor in users then users[actor] else actor;
      entries := [];
      if changes.name.Some? {
        entries := entries + [AuditEntry(id, principal, now, NameField(changes.name.value))];
      }
      if changes.defaultStationId.Some? && changes.stationNames.Some? {
        var field := StationField(changes.defaultStationId.value, changes.stationNames.value);
        entries := entries + [AuditEntry(id, principal, now, field)];
      }
    }

    /** `seen` is what the earlier `getOrg` returned; the update's own filter decides
        whether it writes. */
    method SetOrganizationTier(id: string, seen: Option<Org>, tier: string, actor: string, now: int)
      returns (r: Result<string, StoreError>)
      modifies this`orgs
      ensures (Contents(), r) == SetTier(old(Contents()), seen, id, tier, actor, now)
    {
      if tier !in tiers { return Err(NotFound(tier)); }
      if seen.None? { return Err(NotFound(id)); }
      if id in orgs && orgs[id].deleted.None? {
        orgs := orgs[id := orgs[id].(tier := tier, updated := Some(now), updatedBy := Some(actor))];
      }
      return Ok(seen.value.tier);
    }

    method SoftDeleteOrganization(id: string, now: int) returns (r: Result<(), StoreError>)
      modifies this`orgs
      ensures (Contents(), r) == SoftDelete(old(Contents()), id, now)
    {
      if id !in orgs || orgs[id].deleted.Some? { return Err(NotFound(id)); }
      orgs := orgs[id := orgs[id].(deleted := Some(now))];
      return Ok(());
    }
  }
}
