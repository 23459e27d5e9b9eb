/**
 * The admin store's membership rows and the current organization they select
 * (packages/admin-cli/src/store.ts, apps/api/src/services/application.service.ts).
 *
 * The selector orders a user's live memberships by last login, descending. The
 * API sorts nulls last; the store's comments assume PostgreSQL's default, nulls
 * first. The results below hold for both, and say where they part.
 */
module MemberStore {
  import opened Wrappers

  datatype Member = Member(organizationId: string, userId: string, deleted: bool, lastLogin: Option<int>)

  datatype State = State(members: seq<Member>, liveOrgs: set<string>, liveUsers: set<string>)

  datatype StoreError = NotFound | Conflict

  // ---------------------------------------------------------------------------
  // The operations
  // ---------------------------------------------------------------------------

  predicate Of(m: Member, org: string, user: string) {
    m.organizationId == org && m.userId == user
  }

  /** A row of the pair, deleted or not; its index, or the number of rows. */
  function Find(members: seq<Member>, org: string, user: string): (i: nat)
    ensures i <= |members|
    ensures i < |members| ==> Of(members[i], org, user)
    ensures i == |members| ==> forall j :: 0 <= j < |members| ==> !Of(members[j], org, user)
  {
    if members == [] then 0
    else if Of(members[0], org, user) then 0
    else
      assert forall j :: 0 < j < |members| ==> members[j] == members[1..][j - 1];
      1 + Find(members[1..], org, user)
  }

  /** What `addMember` decides from what it read, before it writes. */
  datatype Decision = Refuse(error: StoreError) | Revive(row: nat) | Insert

  function AddCheck(s: State, org: string, user: string): Decision {
    if org !in s.liveOrgs || user !in s.liveUsers then Refuse(NotFound)
    else
      var i := Find(s.members, org, user);
      if i == |s.members| then Insert
      else if !s.members[i].deleted then Refuse(Conflict)
      else Revive(i)
  }

  function AddWrite(s: State, decision: Decision, org: string, user: string): State {
    match decision
    case Refuse(_) => s
    case Insert => s.(members := s.members + [Member(org, user, false, Some(0))])
    case Revive(i) =>
      if i < |s.members|
      then s.(members := s.members[i := s.members[i].(deleted := false, lastLogin := Some(0))])
      else s
  }

  function AddMember(s: State, org: string, user: string): (State, Result<(), StoreError>) {
    var decision := AddCheck(s, org, user);
    (AddWrite(s, decision, org, user), if decision.Refuse? then Err(decision.error) else Ok(()))
  }

  predicate LiveRow(m: Member, org: string, user: string) {
    Of(m, org, user) && !m.deleted
  }

  /** An `UPDATE` of every live row of the pair. */
  function UpdateLive(members: seq<Member>, org: string, user: string, set_: Member -> Member): (r: seq<Member>)
    ensures |r| == |members|
    ensures forall i :: 0 <= i < |r| ==> r[i] == if LiveRow(members[i], org, user) then set_(members[i]) else members[i]
  {
    seq(|members|, i requires 0 <= i < |members| =>
      if LiveRow(members[i], org, user) then set_(members[i]) else members[i])
  }

  predicate HasLiveRow(s: State, org: string, user: string) {
    exists i :: 0 <= i < |s.members| && LiveRow(s.members[i], org, user)
  }

  function RemoveMember(s: State, org: string, user: string): (State, Result<(), StoreError>) {
    if !HasLiveRow(s, org, user) then (s, Err(NotFound))
    else (s.(members := UpdateLive(s.members, org, user, (m: Member) => m.(deleted := true))), Ok(()))
  }

  function SwitchMember(s: State, org: string, user: string, now: int): (State, Result<(), StoreError>) {
    if !HasLiveRow(s, org, user) then (s, Err(NotFound))
    else (s.(members := UpdateLive(s.members, org, user, (m: Member) => m.(lastLogin := Some(now)))), Ok(()))
  }

  // ---------------------------------------------------------------------------
  // The selector
  // ---------------------------------------------------------------------------

  datatype Nulls = NullsFirst | NullsLast

  /** `a` sorts strictly before `b` under `last_login DESC`. */
  predicate Beats(nulls: Nulls, a: Option<int>, b: Option<int>) {
    if a.Some? && b.Some? then a.value > b.value
    else if nulls.NullsFirst? then a.None? && b.Some?
    else a.Some? && b.None?
  }

  predicate LiveOf(m: Member, user: string) {
    m.userId == user && !m.deleted
  }

  predicate First(members: seq<Member>, nulls: Nulls, user: string, i: nat) {
    && i < |members| && LiveOf(members[i], user)
    && forall j :: 0 <= j < |members| && LiveOf(members[j], user) ==>
         !Beats(nulls, members[j].lastLogin, members[i].lastLogin)
  }

  /** `LIMIT 1` may answer `org`: one of its rows comes first, or ties for it. */
  predicate Current(s: State, nulls: Nulls, user: string, org: string) {
    exists i :: 0 <= i < |s.members| && s.members[i].organizationId == org && First(s.members, nulls, user, i)
  }

  // ---------------------------------------------------------------------------
  // Runs
  // ---------------------------------------------------------------------------

  datatype Step =
    | Add(org: string, user: string)
    | Remove(org: string, user: string)
    | Switch(org: string, user: string, now: int)
    | Elsewhere(liveOrgs: set<string>, liveUsers: set<string>)

  function Next(s: State, step: Step): State {
    match step
    case Add(org, user) => AddMember(s, org, user).0
    case Remove(org, user) => RemoveMember(s, org, user).0
    case Switch(org, user, now) => SwitchMember(s, org, user, now).0
    case Elsewhere(liveOrgs, liveUsers) => s.(liveOrgs := liveOrgs, liveUsers := liveUsers)
  }

  function After(s: State, steps: seq<Step>): State
    decreases |steps|
  {
    if steps == [] then s else After(Next(s, steps[0]), steps[1..])
  }

  /** At most one row for each organization and user. */
  predicate OneRowEach(members: seq<Member>) {
    forall i, j :: 0 <= i < j < |members| ==>
      !(members[i].organizationId == members[j].organizationId && members[i].userId == members[j].userId)
  }

  lemma StepKeepsOneRowEach(s: State, step: Step)
    requires OneRowEach(s.members)
    ensures OneRowEach(Next(s, step).members)
  {
  }

  /** Over any run of whole calls there is at most one row each, no row is ever
      dropped or re-owned, and no call leaves a null last login it did not find. */
  lemma {:induction false} RunKeepsRows(s: State, steps: seq<Step>)
    requires OneRowEach(s.members)
    ensures var t := After(s, steps);
      && OneRowEach(t.members) && |s.members| <= |t.members|
      && (forall i :: 0 <= i < |s.members| ==> Of(t.members[i], s.members[i].organizationId, s.members[i].userId))
      && (forall i :: 0 <= i < |t.members| && t.members[i].lastLogin.None? ==>
            i < |s.members| && s.members[i].lastLogin.None?)
    decreases |steps|
  {
    if steps != [] {
      StepKeepsOneRowEach(s, steps[0]);
      RunKeepsRows(Next(s, steps[0]), steps[1..]);
    }
  }

  /** A write decided on an earlier read keeps one row each exactly when it does
      not insert next to a row that appeared since. */
  lemma StaleDecisionMakesTwinsExactly(s: State, decision: Decision, org: string, user: string)
    requires OneRowEach(s.members)
    ensures OneRowEach(AddWrite(s, decision, org, user).members) <==>
              !(decision.Insert? && Find(s.members, org, user) < |s.members|)
  {
    var t := AddWrite(s, decision, org, user);
    if decision.Insert? && Find(s.members, org, user) < |s.members| {
      var i := Find(s.members, org, user);
      assert Of(t.members[i], org, user) && Of(t.members[|s.members|], org, user);
    }
  }

  /** Two `addMember` calls that both read before either writes. */
  lemma InterleavedAddsMakeTwins()
    ensures var s := State([], {"o"}, {"u"});
      var first, second := AddCheck(s, "o", "u"), AddCheck(s, "o", "u");
      var t := AddWrite(AddWrite(s, first, "o", "u"), second, "o", "u");
      !OneRowEach(t.members)
  {
    var s := State([], {"o"}, {"u"});
    var t := AddWrite(AddWrite(s, Insert, "o", "u"), Insert, "o", "u");
    assert AddCheck(s, "o", "u") == Insert;
    assert t.members == [Member("o", "u", false, Some(0)), Member("o", "u", false, Some(0))];
    assert t.members[0] == t.members[1];
  }

  // ---------------------------------------------------------------------------
  // What each call answers and writes
  // ---------------------------------------------------------------------------

  /** A membership of the pair that is not deleted. */
  predicate IsMember(s: State, org: string, user: string) {
    exists i :: 0 <= i < |s.members|
      && s.members[i].organizationId == org && s.members[i].userId == user && !s.members[i].deleted
  }

  /** Adding is refused exactly for an organization or user that is not live, or for
      a member already; otherwise the pair has one live membership, never entered,
      in the place of its old row or as a new one, and no other row has changed. */
  lemma AddWritesExactly(s: State, org: string, user: string)
    requires OneRowEach(s.members)
    ensures var (t, r) := AddMember(s, org, user);
      && (r == Err(NotFound) <==> org !in s.liveOrgs || user !in s.liveUsers)
      && (r == Err(Conflict) <==> org in s.liveOrgs && user in s.liveUsers && IsMember(s, org, user))
      && (r.Err? ==> t == s)
      && (r.Ok? ==>
            && t.liveOrgs == s.liveOrgs && t.liveUsers == s.liveUsers && |s.members| <= |t.members|
            && (|t.members| == |s.members| <==>
                  exists i :: 0 <= i < |s.members| && s.members[i].organizationId == org && s.members[i].userId == user)
            && forall i :: 0 <= i < |t.members| ==>
                 if t.members[i].organizationId == org && t.members[i].userId == user
                 then t.members[i] == Member(org, user, false, Some(0))
                 else i < |s.members| && t.members[i] == s.members[i])
  {
    var i := Find(s.members, org, user);
    if i < |s.members| { assert Of(s.members[i], org, user); }
  }

  /** Removing succeeds exactly for a member, whose membership it deletes. */
  lemma RemoveWritesExactly(s: State, org: string, user: string)
    ensures var (t, r) := RemoveMember(s, org, user);
      && (r.Ok? <==> IsMember(s, org, user)) && (r.Err? ==> r == Err(NotFound) && t == s)
      && t.liveOrgs == s.liveOrgs && t.liveUsers == s.liveUsers && |t.members| == |s.members|
      && forall i :: 0 <= i < |s.members| ==>
           var m := s.members[i];
           t.members[i] ==
             if m.organizationId == org && m.userId == user then m.(deleted := true) else m
  {
    if HasLiveRow(s, org, user) {
      var i :| 0 <= i < |s.members| && LiveRow(s.members[i], org, user);
      assert s.members[i].organizationId == org;
    }
    if IsMember(s, org, user) {
      var i :| 0 <= i < |s.members|
        && s.members[i].organizationId == org && s.members[i].userId == user && !s.members[i].deleted;
      assert LiveRow(s.members[i], org, user);
    }
    forall i | 0 <= i < |s.members|
      ensures s.members[i].organizationId == org && s.members[i].userId == user && s.members[i].deleted ==>
                s.members[i] == s.members[i].(deleted := true)
    {
    }
    if !IsMember(s, org, user) {
      forall i | 0 <= i < |s.members| && s.members[i].organizationId == org && s.members[i].userId == user
        ensures s.members[i].deleted
      {
      }
    }
  }

  /** Switching succeeds exactly for a member, and stamps that membership alone. */
  lemma SwitchWritesExactly(s: State, org: string, user: string, now: int)
    ensures var (t, r) := SwitchMember(s, org, user, now);
      && (r.Ok? <==> IsMember(s, org, user)) && (r.Err? ==> r == Err(NotFound) && t == s)
      && t.liveOrgs == s.liveOrgs && t.liveUsers == s.liveUsers && |t.members| == |s.members|
      && forall i :: 0 <= i < |s.members| ==>
           var m := s.members[i];
           t.members[i] ==
             if m.organizationId == org && m.userId == user && !m.deleted then m.(lastLogin := Some(now)) else m
  {
    if HasLiveRow(s, org, user) {
      var i :| 0 <= i < |s.members| && LiveRow(s.members[i], org, user);
      assert s.members[i].organizationId == org;
    }
    if IsMember(s, org, user) {
      var i :| 0 <= i < |s.members|
        && s.members[i].organizationId == org && s.members[i].userId == user && !s.members[i].deleted;
      assert LiveRow(s.members[i], org, user);
    }
  }

  /** As the API sorts, the current organization is that of a live membership no
      other live one was entered later than, and never one without a login while
      another has one. */
  lemma CurrentIsTheLatestEntered(s: State, user: string, org: string)
    ensures Current(s, NullsLast, user, org) <==>
              exists i :: 0 <= i < |s.members|
                && s.members[i].organizationId == org && s.members[i].userId == user && !s.members[i].deleted
                && forall j :: 0 <= j < |s.members| && s.members[j].userId == user && !s.members[j].deleted ==>
                     match s.members[j].lastLogin
                     case None => true
                     case Some(at) => s.members[i].lastLogin.Some? && at <= s.members[i].lastLogin.value
  {
    if Current(s, NullsLast, user, org) {
      var i :| 0 <= i < |s.members| && s.members[i].organizationId == org && First(s.members, NullsLast, user, i);
      forall j | 0 <= j < |s.members| && s.members[j].userId == user && !s.members[j].deleted
        ensures match s.members[j].lastLogin
          case None => true
          case Some(at) => s.members[i].lastLogin.Some? && at <= s.members[i].lastLogin.value
      {
        assert LiveOf(s.members[j], user);
      }
      assert LiveOf(s.members[i], user);
    }
  }

  // ---------------------------------------------------------------------------
  // What each call does to the current organization
  // ---------------------------------------------------------------------------

  ghost predicate SameCurrent(s: State, t: State, nulls: Nulls, user: string) {
    forall org :: Current(t, nulls, user, org) <==> Current(s, nulls, user, org)
  }

  /** The added row: where it is, and that nothing else changed. */
  lemma AddedRow(s: State, org: string, user: string) returns (i: nat)
    requires OneRowEach(s.members) && AddMember(s, org, user).1.Ok?
    ensures var t := AddMember(s, org, user).0.members;
      && i < |t| && t[i] == Member(org, user, false, Some(0))
      && |s.members| <= |t| <= |s.members| + 1 && (|t| > |s.members| ==> i == |s.members|)
      && (forall j :: 0 <= j < |s.members| && j != i ==> t[j] == s.members[j])
      && (i < |s.members| ==> s.members[i].deleted)
      && !HasLiveRow(s, org, user)
  {
    i := Find(s.members, org, user);
    var t := AddMember(s, org, user).0.members;
    if i < |s.members| {
      assert Of(s.members[i], org, user);
      assert AddCheck(s, org, user) == Revive(i);
    }
  }

  /** Adding a member, new or revived, leaves the user's current organization
      alone exactly when some live membership already sorts before a login of 0. */
  lemma AddKeepsCurrentExactly(s: State, nulls: Nulls, org: string, user: string)
    requires OneRowEach(s.members) && AddMember(s, org, user).1.Ok?
    ensures SameCurrent(s, AddMember(s, org, user).0, nulls, user) <==>
              exists i :: 0 <= i < |s.members|
                && LiveOf(s.members[i], user) && Beats(nulls, s.members[i].lastLogin, Some(0))
  {
    var t := AddMember(s, org, user).0;
    var added := AddedRow(s, org, user);
    if exists i :: 0 <= i < |s.members| && LiveOf(s.members[i], user) && Beats(nulls, s.members[i].lastLogin, Some(0)) {
      var best :| 0 <= best < |s.members| && LiveOf(s.members[best], user)
                  && Beats(nulls, s.members[best].lastLogin, Some(0));
      assert best != added;
      assert t.members[best] == s.members[best];
      forall o ensures Current(t, nulls, user, o) <==> Current(s, nulls, user, o) {
        AddedRowNeverWins(s, t, nulls, user, added, best, o);
      }
    } else {
      assert First(t.members, nulls, user, added) by {
        forall j | 0 <= j < |t.members| && LiveOf(t.members[j], user)
          ensures !Beats(nulls, t.members[j].lastLogin, Some(0))
        {
          if j != added { assert t.members[j] == s.members[j]; }
        }
      }
      assert Current(t, nulls, user, org);
      assert !Current(s, nulls, user, org);
    }
  }

  lemma AddedRowNeverWins(s: State, t: State, nulls: Nulls, user: string, added: nat, best: nat, o: string)
    requires added < |t.members| && |s.members| <= |t.members| <= |s.members| + 1
    requires |t.members| > |s.members| ==> added == |s.members|
    requires forall j :: 0 <= j < |s.members| && j != added ==> t.members[j] == s.members[j]
    requires added < |s.members| ==> s.members[added].deleted
    requires t.members[added].lastLogin == Some(0) && best != added
    requires best < |s.members| && LiveOf(s.members[best], user) && Beats(nulls, s.members[best].lastLogin, Some(0))
    ensures Current(t, nulls, user, o) <==> Current(s, nulls, user, o)
  {
    if Current(s, nulls, user, o) {
      var i :| 0 <= i < |s.members| && s.members[i].organizationId == o && First(s.members, nulls, user, i);
      assert i != added;
      assert First(t.members, nulls, user, i) by {
        forall j | 0 <= j < |t.members| && LiveOf(t.members[j], user)
          ensures !Beats(nulls, t.members[j].lastLogin, t.members[i].lastLogin)
        {
          assert !Beats(nulls, s.members[best].lastLogin, s.members[i].lastLogin);
          if j != added { assert t.members[j] == s.members[j]; }
        }
      }
    }
    if Current(t, nulls, user, o) {
      var i :| 0 <= i < |t.members| && t.members[i].organizationId == o && First(t.members, nulls, user, i);
      assert t.members[best] == s.members[best];
      assert i != added;
      assert First(s.members, nulls, user, i) by {
        forall j | 0 <= j < |s.members| && LiveOf(s.members[j], user)
          ensures !Beats(nulls, s.members[j].lastLogin, s.members[i].lastLogin)
        {
          assert j != added && t.members[j] == s.members[j];
        }
      }
    }
  }

  /** With nulls last, the promise that adding a member never moves the user
      fails for a user whose memberships were never entered. */
  lemma AddMovesANeverEnteredUser()
    ensures var s := State([Member("home", "u", false, None)], {"home", "new"}, {"u"});
      var t := AddMember(s, "new", "u").0;
      && Current(s, NullsLast, "u", "home") && !Current(t, NullsLast, "u", "home")
      && SameCurrent(s, t, NullsFirst, "u")
  {
    var s := State([Member("home", "u", false, None)], {"home", "new"}, {"u"});
    var t := AddMember(s, "new", "u").0;
    assert AddCheck(s, "new", "u") == Insert;
    assert First(s.members, NullsLast, "u", 0);
    assert t.members == [Member("home", "u", false, None), Member("new", "u", false, Some(0))];
    assert LiveOf(t.members[1], "u") && Beats(NullsLast, t.members[1].lastLogin, t.members[0].lastLogin);
    assert LiveOf(s.members[0], "u") && Beats(NullsFirst, s.members[0].lastLogin, Some(0));
    AddKeepsCurrentExactly(s, NullsFirst, "new", "u");
  }

  /** Switching makes the organization the user's only possible current one
      exactly when the clock sorts before every other live membership's login. */
  lemma SwitchMakesCurrentExactly(s: State, nulls: Nulls, org: string, user: string, now: int)
    requires OneRowEach(s.members) && SwitchMember(s, org, user, now).1.Ok?
    ensures (forall o :: Current(SwitchMember(s, org, user, now).0, nulls, user, o) <==> o == org) <==>
            (forall j :: 0 <= j < |s.members| && LiveOf(s.members[j], user) && s.members[j].organizationId != org ==>
               Beats(nulls, Some(now), s.members[j].lastLogin))
  {
    var t := SwitchMember(s, org, user, now).0;
    var row :| 0 <= row < |s.members| && LiveRow(s.members[row], org, user);
    assert forall j :: 0 <= j < |s.members| && j != row ==> t.members[j] == s.members[j];
    assert t.members[row] == s.members[row].(lastLogin := Some(now));
    if j :| 0 <= j < |s.members| && LiveOf(s.members[j], user) && s.members[j].organizationId != org
            && !Beats(nulls, Some(now), s.members[j].lastLogin)
    {
      NotBeatenStaysCurrent(t, nulls, org, user, row, j);
    } else {
      BeatsAllIsCurrent(t, nulls, org, user, row);
    }
  }

  /** The switched row wins when it beats every other organization's row. */
  lemma BeatsAllIsCurrent(t: State, nulls: Nulls, org: string, user: string, row: nat)
    requires OneRowEach(t.members) && row < |t.members| && LiveRow(t.members[row], org, user)
    requires forall j :: 0 <= j < |t.members| && LiveOf(t.members[j], user) && t.members[j].organizationId != org ==>
               Beats(nulls, t.members[row].lastLogin, t.members[j].lastLogin)
    ensures forall o :: Current(t, nulls, user, o) <==> o == org
  {
    assert First(t.members, nulls, user, row);
    forall o | Current(t, nulls, user, o) ensures o == org {
      var i :| 0 <= i < |t.members| && t.members[i].organizationId == o && First(t.members, nulls, user, i);
      assert !Beats(nulls, t.members[row].lastLogin, t.members[i].lastLogin);
    }
  }

  /** Another organization's row it does not beat leaves it not the only one. */
  lemma NotBeatenStaysCurrent(t: State, nulls: Nulls, org: string, user: string, row: nat, j: nat)
    requires OneRowEach(t.members) && row < |t.members| && LiveRow(t.members[row], org, user)
    requires j < |t.members| && LiveOf(t.members[j], user) && t.members[j].organizationId != org
    requires !Beats(nulls, t.members[row].lastLogin, t.members[j].lastLogin)
    ensures !(forall o :: Current(t, nulls, user, o) <==> o == org)
  {
    if Current(t, nulls, user, org) {
      var i :| 0 <= i < |t.members| && t.members[i].organizationId == org && First(t.members, nulls, user, i);
      assert i == row;
      assert First(t.members, nulls, user, j) by {
        forall k | 0 <= k < |t.members| && LiveOf(t.members[k], user)
          ensures !Beats(nulls, t.members[k].lastLogin, t.members[j].lastLogin)
        {
          assert !Beats(nulls, t.members[k].lastLogin, t.members[row].lastLogin);
          assert !Beats(nulls, t.members[j].lastLogin, t.members[row].lastLogin);
        }
      }
      assert Current(t, nulls, user, t.members[j].organizationId);
    }
  }

  /** Removing a membership the user is not in leaves the current one alone. */
  lemma RemoveKeepsCurrent(s: State, nulls: Nulls, org: string, user: string)
    requires OneRowEach(s.members) && RemoveMember(s, org, user).1.Ok?
    ensures !Current(RemoveMember(s, org, user).0, nulls, user, org)
    ensures !Current(s, nulls, user, org) ==> SameCurrent(s, RemoveMember(s, org, user).0, nulls, user)
  {
    var t := RemoveMember(s, org, user).0;
    var row :| 0 <= row < |s.members| && LiveRow(s.members[row], org, user);
    assert forall j :: 0 <= j < |s.members| && j != row ==> t.members[j] == s.members[j];
    assert t.members[row] == s.members[row].(deleted := true);
    if !Current(s, nulls, user, org) {
      assert !First(s.members, nulls, user, row);
      var best :| 0 <= best < |s.members| && LiveOf(s.members[best], user)
                  && Beats(nulls, s.members[best].lastLogin, s.members[row].lastLogin);
      forall o ensures Current(t, nulls, user, o) <==> Current(s, nulls, user, o) {
        RemovedRowNeverWon(s, t, nulls, user, row, best, o);
      }
    }
  }

  lemma RemovedRowNeverWon(s: State, t: State, nulls: Nulls, user: string, row: nat, best: nat, o: string)
    requires row < |s.members| == |t.members| && best < |s.members|
    requires forall j :: 0 <= j < |s.members| && j != row ==> t.members[j] == s.members[j]
    requires LiveOf(s.members[row], user) && t.members[row] == s.members[row].(deleted := true)
    requires LiveOf(s.members[best], user) && Beats(nulls, s.members[best].lastLogin, s.members[row].lastLogin)
    ensures Current(t, nulls, user, o) <==> Current(s, nulls, user, o)
  {
    assert best != row && t.members[best] == s.members[best];
    if Current(s, nulls, user, o) {
      var i :| 0 <= i < |s.members| && s.members[i].organizationId == o && First(s.members, nulls, user, i);
      assert i != row;
      assert First(t.members, nulls, user, i) by {
        forall j | 0 <= j < |t.members| && LiveOf(t.members[j], user)
          ensures !Beats(nulls, t.members[j].lastLogin, t.members[i].lastLogin)
        {
          assert j != row && t.members[j] == s.members[j];
        }
      }
    }
    if Current(t, nulls, user, o) {
      var i :| 0 <= i < |t.members| && t.members[i].organizationId == o && First(t.members, nulls, user, i);
      assert i != row;
      assert First(s.members, nulls, user, i) by {
        forall j | 0 <= j < |s.members| && LiveOf(s.members[j], user)
          ensures !Beats(nulls, s.members[j].lastLogin, s.members[i].lastLogin)
        {
          assert !Beats(nulls, t.members[best].lastLogin, t.members[i].lastLogin);
          if j != row { assert t.members[j] == s.members[j]; }
        }
      }
    }
  }

  // ---------------------------------------------------------------------------
  // The store over a mutable table
  // ---------------------------------------------------------------------------

  class Store {
    var members: seq<Member>
    var liveOrgs: set<string>
    var liveUsers: set<string>

    ghost function Contents(): State
      reads this
    {
      State(members, liveOrgs, liveUsers)
    }

    constructor (liveOrgs: set<string>, liveUsers: set<string>)
      ensures Contents() == State([], liveOrgs, liveUsers)
    {
      members, this.liveOrgs, this.liveUsers := [], liveOrgs, liveUsers;
    }

    method Add(org: string, user: string) returns (r: Result<(), StoreError>)
      modifies this`members
      ensures (Contents(), r) == AddMember(old(Contents()), org, user)
    {
      if org !in liveOrgs { return Err(NotFound); }
      if user !in liveUsers { return Err(NotFound); }
      var existing := Find(members, org, user);
      if existing < |members| && !members[existing].deleted { return Err(Conflict); }
      if existing < |members| {
        members := members[existing := members[existing].(deleted := false, lastLogin := Some(0))];
        return Ok(());
      }
      members := members + [Member(org, user, false, Some(0))];
      return Ok(());
    }

    /** `UPDATE ... RETURNING id`: the rows touched, then not-found on none. */
    method Remove(org: string, user: string) returns (r: Result<(), StoreError>)
      modifies this`members
      ensures (Contents(), r) == RemoveMember(old(Contents()), org, user)
    {
      var returned := exists i :: 0 <= i < |members| && LiveRow(members[i], org, user);
      var updated := UpdateLive(members, org, user, (m: Member) => m.(deleted := true));
      if !returned {
        assert updated == members;
        return Err(NotFound);
      }
      members := updated;
      return Ok(());
    }

    method Switch(org: string, user: string, now: int) returns (r: Result<(), StoreError>)
      modifies this`members
      ensures (Contents(), r) == SwitchMember(old(Contents()), org, user, now)
    {
      var returned := exists i :: 0 <= i < |members| && LiveRow(members[i], org, user);
      if !returned { return Err(NotFound); }
      members := UpdateLive(members, org, user, (m: Member) => m.(lastLogin := Some(now)));
      return Ok(());
    }
  }
}
