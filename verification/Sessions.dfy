/**
 * The cached sessions that login, logout and getToken share
 * (packages/cli-env/src/auth0.ts).
 *
 * Every read-modify-write of the credentials file runs between two awaits, so
 * in one process it is one step; getToken's refresh spans two. Calls of any
 * environments interleave freely. A read may fail on an intact file, and then
 * reads as no sessions too: `readOk` says whether it succeeded.
 */
module Sessions {
  import opened Wrappers

  const EXPIRY_SLACK_MS: int := 60000

  datatype Session = Session(accessToken: string, refreshToken: string, expiresAt: int)

  /** A missing or corrupt file reads as no sessions. */
  datatype File = Missing | Corrupt | Valid(creds: map<string, Session>)

  function Read(file: File): map<string, Session> {
    if file.Valid? then file.creds else map[]
  }

  /** What a call reads: nothing, when its read fails. */
  function Seen(file: File, readOk: bool): map<string, Session> {
    if readOk then Read(file) else map[]
  }

  /** A getToken call waiting for its refresh, with the entry it started from. */
  datatype Refresh = Refresh(env: string, entry: Session)

  datatype State = State(file: File, pending: map<nat, Refresh>)

  datatype Reply = Reply(accessToken: string, refreshToken: Option<string>, expiresInS: int)

  datatype TokenResult = Cached(accessToken: string) | Refreshing | NotAuthorized

  // ---------------------------------------------------------------------------
  // The calls
  // ---------------------------------------------------------------------------

  function LoginSucceeds(s: State, env: string, session: Session, readOk: bool): State {
    s.(file := Valid(Seen(s.file, readOk)[env := session]))
  }

  function Logout(s: State, env: string, readOk: bool): State {
    var creds := Seen(s.file, readOk);
    if env in creds then s.(file := Valid(creds - {env})) else s
  }

  function GetToken(s: State, call: nat, env: string, now: int, readOk: bool): (State, TokenResult) {
    var creds := Seen(s.file, readOk);
    if env !in creds then (s, NotAuthorized)
    else if creds[env].expiresAt - EXPIRY_SLACK_MS > now then (s, Cached(creds[env].accessToken))
    else (s.(pending := s.pending[call := Refresh(env, creds[env])]), Refreshing)
  }

  /** The refresh answered. A success is written over what the file holds now. */
  function RefreshReturns(s: State, call: nat, reply: Option<Reply>, now: int, readOk: bool): State
    requires call in s.pending
  {
    var refresh := s.pending[call];
    var rest := s.pending - {call};
    match reply
    case None => s.(pending := rest)
    case Some(r) =>
      var kept := if r.refreshToken.Some? then r.refreshToken.value else refresh.entry.refreshToken;
      var session := Session(r.accessToken, kept, now + r.expiresInS * 1000);
      State(Valid(Seen(s.file, readOk)[refresh.env := session]), rest)
  }

  // ---------------------------------------------------------------------------
  // Interleavings
  // ---------------------------------------------------------------------------

  /** `env` is the environment the call is about; `call` names a getToken. */
  datatype Step =
    | Login(env: string, readOk: bool, session: Session)
    | Leave(env: string, readOk: bool)
    | Ask(env: string, readOk: bool, call: nat, now: int)
    | Answered(env: string, readOk: bool, call: nat, reply: Option<Reply>, now: int)

  predicate Enabled(s: State, step: Step) {
    match step
    case Login(_, _, _) => true
    case Leave(_, _) => true
    case Ask(_, _, call, _) => call !in s.pending
    case Answered(env, _, call, _, _) => call in s.pending && s.pending[call].env == env
  }

  function Next(s: State, step: Step): State
    requires Enabled(s, step)
  {
    match step
    case Login(env, readOk, session) => LoginSucceeds(s, env, session, readOk)
    case Leave(env, readOk) => Logout(s, env, readOk)
    case Ask(env, readOk, call, now) => GetToken(s, call, env, now, readOk).0
    case Answered(_, readOk, call, reply, now) => RefreshReturns(s, call, reply, now, readOk)
  }

  predicate Runs(s: State, steps: seq<Step>)
    decreases |steps|
  {
    steps == [] || (Enabled(s, steps[0]) && Runs(Next(s, steps[0]), steps[1..]))
  }

  function After(s: State, steps: seq<Step>): State
    requires Runs(s, steps)
    decreases |steps|
  {
    if steps == [] then s else After(Next(s, steps[0]), steps[1..])
  }

  function SessionOf(s: State, env: string): Option<Session> {
    if s.file.Valid? && env in s.file.creds then Some(s.file.creds[env]) else None
  }

  // ---------------------------------------------------------------------------
  // What each call answers and writes
  // ---------------------------------------------------------------------------

  /** A token is served from the file exactly while it has more than a minute to
      live; a session nearer its end is refreshed, from the very session read; and
      without one the caller is not authorized. */
  lemma TokenIsServedExactly(s: State, call: nat, env: string, now: int, readOk: bool)
    ensures var (t, r) := GetToken(s, call, env, now, readOk);
      match if readOk then SessionOf(s, env) else None
      case None => r == NotAuthorized && t == s
      case Some(session) =>
        if now < session.expiresAt - 60000 then r == Cached(session.accessToken) && t == s
        else r == Refreshing && t == s.(pending := s.pending[call := Refresh(env, session)])
  {
  }

  /** An answered refresh leaves the session it granted, keeping the refresh token it
      started from when none came with it; a refused one leaves the file alone. */
  lemma RefreshStoresExactly(s: State, call: nat, reply: Option<Reply>, now: int, readOk: bool)
    requires call in s.pending
    ensures var t := RefreshReturns(s, call, reply, now, readOk);
      var Refresh(env, entry) := s.pending[call];
      && t.pending == s.pending - {call}
      && match reply
         case None => t.file == s.file
         case Some(r) =>
           SessionOf(t, env) == Some(Session(
             r.accessToken,
             match r.refreshToken case None => entry.refreshToken case Some(token) => token,
             now + 1000 * r.expiresInS))
  {
  }

  /** A login leaves the session it was granted, and a logout that can read the file
      leaves none. */
  lemma LoginStoresAndLogoutClears(s: State, env: string, session: Session, readOk: bool)
    ensures SessionOf(LoginSucceeds(s, env, session, readOk), env) == Some(session)
    ensures SessionOf(Logout(s, env, true), env).None?
    ensures Logout(s, env, false) == s
  {
  }

  // ---------------------------------------------------------------------------
  // Environments do not interfere
  // ---------------------------------------------------------------------------

  /** The steps about one environment, in order. */
  function Project(steps: seq<Step>, env: string): seq<Step> {
    if steps == [] then []
    else (if steps[0].env == env then [steps[0]] else []) + Project(steps[1..], env)
  }

  /** The states agree on everything about one environment. */
  ghost predicate Agree(s: State, t: State, env: string) {
    && SessionOf(s, env) == SessionOf(t, env)
    && (forall call :: call in t.pending ==> t.pending[call].env == env)
    && (forall call :: call in s.pending && s.pending[call].env == env ==>
          call in t.pending && t.pending[call] == s.pending[call])
    && (forall call :: call in t.pending ==> call in s.pending && t.pending[call] == s.pending[call])
  }

  /** The call writes the file after its read of it failed. */
  predicate WritesBlind(step: Step) {
    !step.readOk && (step.Login? || (step.Answered? && step.reply.Some?))
  }

  /** A call leaves another environment's session alone exactly when that has none
      or the call does not write after a failed read; otherwise it drops it. */
  lemma OthersAreUntouchedExactly(s: State, step: Step, env: string)
    requires Enabled(s, step) && step.env != env
    ensures SessionOf(Next(s, step), env) == SessionOf(s, env) <==> SessionOf(s, env).None? || !WritesBlind(step)
    ensures SessionOf(s, env).Some? && WritesBlind(step) ==> SessionOf(Next(s, step), env).None?
  {
  }

  /** Over any run of other environments' calls, a session survives, unchanged,
      exactly when none of them writes after a failed read. */
  lemma {:induction false} SessionSurvivesExactly(s: State, steps: seq<Step>, env: string)
    requires Runs(s, steps) && SessionOf(s, env).Some? && forall i :: 0 <= i < |steps| ==> steps[i].env != env
    ensures SessionOf(After(s, steps), env) == SessionOf(s, env) <==>
              forall i :: 0 <= i < |steps| ==> !WritesBlind(steps[i])
    decreases |steps|
  {
    if steps != [] {
      var next, rest := Next(s, steps[0]), steps[1..];
      OthersAreUntouchedExactly(s, steps[0], env);
      assert steps == [steps[0]] + rest;
      if WritesBlind(steps[0]) {
        StaysLost(next, rest, env);
      } else {
        SessionSurvivesExactly(next, rest, env);
      }
    }
  }

  /** Other environments' calls never bring a session back. */
  lemma {:induction false} StaysLost(s: State, steps: seq<Step>, env: string)
    requires Runs(s, steps) && SessionOf(s, env).None? && forall i :: 0 <= i < |steps| ==> steps[i].env != env
    ensures SessionOf(After(s, steps), env).None?
    decreases |steps|
  {
    if steps != [] {
      OthersAreUntouchedExactly(s, steps[0], env);
      StaysLost(Next(s, steps[0]), steps[1..], env);
    }
  }

  lemma StepsAgree(s: State, t: State, step: Step, env: string)
    requires Agree(s, t, env) && Enabled(s, step)
    ensures step.env != env && !WritesBlind(step) ==> Agree(Next(s, step), t, env)
    ensures step.env == env ==> Enabled(t, step) && Agree(Next(s, step), Next(t, step), env)
  {
  }

  /** Whatever the other environments' calls do in between, short of writing after
      a failed read, an environment's session is the one its own calls alone would
      have left: none is lost to a concurrent login, logout or refresh of another. */
  lemma {:induction false} EnvironmentsDoNotInterfere(s: State, t: State, steps: seq<Step>, env: string)
    requires Agree(s, t, env) && Runs(s, steps)
    requires forall i :: 0 <= i < |steps| && steps[i].env != env ==> !WritesBlind(steps[i])
    ensures Runs(t, Project(steps, env))
    ensures SessionOf(After(s, steps), env) == SessionOf(After(t, Project(steps, env)), env)
    decreases |steps|
  {
    if steps != [] {
      var step, rest := steps[0], steps[1..];
      StepsAgree(s, t, step, env);
      if step.env == env {
        EnvironmentsDoNotInterfere(Next(s, step), Next(t, step), rest, env);
        assert Project(steps, env)[0] == step && Project(steps, env)[1..] == Project(rest, env);
      } else {
        EnvironmentsDoNotInterfere(Next(s, step), t, rest, env);
        assert Project(steps, env) == Project(rest, env);
      }
    }
  }

  // ---------------------------------------------------------------------------
  // Logging out
  // ---------------------------------------------------------------------------

  ghost predicate RefreshUnderWay(s: State, env: string) {
    exists call :: call in s.pending && s.pending[call].env == env
  }

  /** A logged-out environment can hold a session without a login exactly when
      one of its refreshes was under way at the logout, or the logout could not
      read the session it was to clear. */
  lemma LogoutHoldsExactly(s: State, env: string, readOk: bool)
    ensures (exists steps :: NoLogin(steps, env) && Runs(Logout(s, env, readOk), steps)
               && SessionOf(After(Logout(s, env, readOk), steps), env).Some?)
            <==> RefreshUnderWay(s, env) || (!readOk && SessionOf(s, env).Some?)
  {
    var out := Logout(s, env, readOk);
    if !readOk && SessionOf(s, env).Some? {
      var steps: seq<Step> := [];
      assert NoLogin(steps, env) && Runs(out, steps) && After(out, steps) == out;
    } else if RefreshUnderWay(s, env) {
      var call :| call in s.pending && s.pending[call].env == env;
      var step := Answered(env, true, call, Some(Reply("token", None, 3600)), 0);
      var steps := [step];
      assert steps[1..] == [];
      assert NoLogin(steps, env) && Runs(out, steps);
      assert SessionOf(After(out, steps), env).Some?;
    } else {
      forall steps | NoLogin(steps, env) && Runs(out, steps)
        ensures SessionOf(After(out, steps), env).None?
      {
        StaysLoggedOut(out, steps, env);
      }
    }
  }

  predicate NoLogin(steps: seq<Step>, env: string) {
    forall i :: 0 <= i < |steps| ==> !(steps[i].Login? && steps[i].env == env)
  }

  lemma {:induction false} StaysLoggedOut(s: State, steps: seq<Step>, env: string)
    requires Runs(s, steps) && NoLogin(steps, env)
    requires SessionOf(s, env).None? && !RefreshUnderWay(s, env)
    ensures SessionOf(After(s, steps), env).None?
    decreases |steps|
  {
    if steps != [] {
      var next := Next(s, steps[0]);
      assert !(steps[0].Login? && steps[0].env == env);
      assert forall call :: call in next.pending && next.pending[call].env == env ==>
               call in s.pending && s.pending[call].env == env;
      StaysLoggedOut(next, steps[1..], env);
    }
  }

  // ---------------------------------------------------------------------------
  // The calls over the mutable file
  // ---------------------------------------------------------------------------

  class CredentialsStore {
    var file: File
    var pending: map<nat, Refresh>

    ghost function Contents(): State
      reads this
    {
      State(file, pending)
    }

    constructor (file: File)
      ensures Contents() == State(file, map[])
    {
      this.file, pending := file, map[];
    }

    /** A missing or corrupt file, and a read that fails, are no sessions. */
    method ReadCredentials(readOk: bool) returns (creds: map<string, Session>)
      ensures creds == Seen(file, readOk)
    {
      if !readOk { return map[]; }
      match file {
        case Valid(c) => return c;
        case _ => return map[];
      }
    }

    method CacheLogin(env: string, session: Session, readOk: bool)
      modifies this`file
      ensures Contents() == LoginSucceeds(old(Contents()), env, session, readOk)
    {
      var creds := ReadCredentials(readOk);
      creds := creds[env := session];
      file := Valid(creds);
    }

    method ClearSession(env: string, readOk: bool)
      modifies this`file
      ensures Contents() == Logout(old(Contents()), env, readOk)
    {
      var creds := ReadCredentials(readOk);
      if env in creds {
        creds := creds - {env};
        file := Valid(creds);
      }
    }

    method RequestToken(call: nat, env: string, now: int, readOk: bool) returns (r: TokenResult)
      modifies this`pending
      ensures (Contents(), r) == GetToken(old(Contents()), call, env, now, readOk)
    {
      var creds := ReadCredentials(readOk);
      if env !in creds { return NotAuthorized; }
      var entry := creds[env];
      if entry.expiresAt - EXPIRY_SLACK_MS > now { return Cached(entry.accessToken); }
      pending := pending[call := Refresh(env, entry)];
      return Refreshing;
    }

    /** The rest of getToken: re-read, since another call may have written. */
    method StoreRefreshed(call: nat, reply: Option<Reply>, now: int, readOk: bool)
      returns (accessToken: Option<string>)
      requires call in pending
      modifies this`file, this`pending
      ensures Contents() == RefreshReturns(old(Contents()), call, reply, now, readOk)
      ensures accessToken == if reply.Some? then Some(reply.value.accessToken) else None
      ensures accessToken.Some? ==>
        SessionOf(Contents(), old(pending[call].env)).Some?
        && SessionOf(Contents(), old(pending[call].env)).value.accessToken == accessToken.value
    {
      var refresh := pending[call];
      pending := pending - {call};
      if reply.None? { return None; }
      var next := ReadCredentials(readOk);
      var kept := if reply.value.refreshToken.Some? then reply.value.refreshToken.value else refresh.entry.refreshToken;
      next := next[refresh.env := Session(reply.value.accessToken, kept, now + reply.value.expiresInS * 1000)];
      file := Valid(next);
      return Some(next[refresh.env].accessToken);
    }
  }
}
