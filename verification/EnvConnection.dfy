/**
 * The lazily opened database handle of an environment connection and the
 * tunnels behind it (packages/cli-env/src/connection.ts). Opening a tunnel is
 * awaited, so any number of `db()` calls and a `dispose()` may overlap.
 */
module EnvConnection {
  import opened Wrappers

  /** A handle over a tunnel, or over the local DATABASE_URL. */
  datatype Handle = Tunneled(tunnel: nat) | Local

  /** Tunnels are numbered as they open; `names` says what each was opened for and
      `closes` counts its closes. */
  datatype State = State(
    aws: bool,
    handle: Option<Handle>,
    handleName: Option<string>,
    tunnels: seq<nat>,
    opening: map<nat, Option<string>>,
    launched: nat,
    names: seq<Option<string>>,
    closes: seq<nat>)

  function Initial(aws: bool): State {
    State(aws, None, None, [], map[], 0, [], [])
  }

  datatype DbResult = Handed(handle: Handle) | Opening | NotConfigured

  // ---------------------------------------------------------------------------
  // The calls
  // ---------------------------------------------------------------------------

  function Db(s: State, call: nat, dbName: Option<string>, databaseUrl: Option<string>): (State, DbResult) {
    if s.handle.Some? && s.handleName == dbName then (s, Handed(s.handle.value))
    else if !s.aws then
      if databaseUrl.None? || databaseUrl.value == "" then (s, NotConfigured)
      else (s.(handle := Some(Local)), Handed(Local))
    else (s.(opening := s.opening[call := dbName]), Opening)
  }

  /** The tunnel of a pending call is ready, or failed to open. */
  function TunnelSettles(s: State, call: nat, ready: bool): State
    requires call in s.opening
  {
    var rest := s.opening - {call};
    if !ready then s.(opening := rest)
    else s.(opening := rest, tunnels := s.tunnels + [s.launched], launched := s.launched + 1,
            names := s.names + [s.opening[call]], closes := s.closes + [0],
            handle := Some(Tunneled(s.launched)), handleName := s.opening[call])
  }

  function CloseAll(closes: seq<nat>, tunnels: seq<nat>): (r: seq<nat>)
    ensures |r| == |closes|
    decreases |tunnels|
  {
    if tunnels == [] then closes
    else if tunnels[0] < |closes| then CloseAll(closes[tunnels[0] := closes[tunnels[0]] + 1], tunnels[1..])
    else CloseAll(closes, tunnels[1..])
  }

  function Dispose(s: State): State {
    s.(tunnels := [], handle := None, closes := CloseAll(s.closes, s.tunnels))
  }

  /** Without AWS a configured URL is handed out at once, and a missing or empty one
      refused, and no tunnel is opened. */
  lemma LocalNeedsNoTunnel(s: State, call: nat, dbName: Option<string>, databaseUrl: Option<string>)
    requires !s.aws && (s.handle.None? || s.handle.value.Local?)
    ensures var (t, r) := Db(s, call, dbName, databaseUrl);
      && t.opening == s.opening && t.tunnels == s.tunnels
      && (databaseUrl.Some? && databaseUrl.value != "" ==> r == Handed(Local) && t.handle == Some(Local))
      && (s.handle.None? && (databaseUrl.None? || databaseUrl.value == "") ==> r == NotConfigured && t == s)
  {
  }

  /** With AWS a call gets the open handle of its own database or starts a tunnel for
      it, which, once ready, is what it gets; a tunnel that fails leaves no trace. */
  lemma TunnelIsHandedOut(s: State, call: nat, dbName: Option<string>, databaseUrl: Option<string>)
    requires s.aws && call !in s.opening
    ensures var (t, r) := Db(s, call, dbName, databaseUrl);
      if s.handle.Some? && s.handleName == dbName then r == Handed(s.handle.value) && t == s
      else
        && r == Opening && call in t.opening && t.handle == s.handle
        && TunnelSettles(t, call, false).tunnels == s.tunnels && TunnelSettles(t, call, false).opening == s.opening
        && var ready := TunnelSettles(t, call, true);
           && ready.handle == Some(Tunneled(s.launched)) && ready.handleName == dbName
           && ready.tunnels == s.tunnels + [s.launched] && ready.opening == s.opening
  {
    var t := Db(s, call, dbName, databaseUrl).0;
    if t != s { assert t.opening - {call} == s.opening; }
  }

  // ---------------------------------------------------------------------------
  // Interleavings
  // ---------------------------------------------------------------------------

  datatype Step =
    | Ask(call: nat, dbName: Option<string>, databaseUrl: Option<string>)
    | Settle(call: nat, ready: bool)
    | Close

  predicate Enabled(s: State, step: Step) {
    match step
    case Ask(call, _, _) => call !in s.opening
    case Settle(call, _) => call in s.opening
    case Close => true
  }

  function Next(s: State, step: Step): State
    requires Enabled(s, step)
  {
    match step
    case Ask(call, dbName, databaseUrl) => Db(s, call, dbName, databaseUrl).0
    case Settle(call, ready) => TunnelSettles(s, call, ready)
    case Close => Dispose(s)
  }

  predicate Runs(s: State, steps: seq<Step>)
    decreases |steps|
  {
    steps == [] || (Enabled(s, steps[0]) && Runs(Next(s, steps[0]), steps[1..]))
  }

  function After(s: State, steps: seq<Step>): State
    requires Runs(s, steps)
    decreases |steps|
  {
    if steps == [] then s else After(Next(s, steps[0]), steps[1..])
  }

  /** Each call of `db()` comes when none before it is still opening a tunnel. */
  predicate Awaited(s: State, steps: seq<Step>)
    requires Runs(s, steps)
    decreases |steps|
  {
    steps == [] || ((steps[0].Ask? ==> s.opening == map[]) && Awaited(Next(s, steps[0]), steps[1..]))
  }

  /** All calls are for one database. */
  predicate OneName(s: State, steps: seq<Step>, name: Option<string>) {
    && (forall i :: 0 <= i < |steps| && steps[i].Ask? ==> steps[i].dbName == name)
    && (forall call :: call in s.opening ==> s.opening[call] == name)
    && (s.handle.Some? ==> s.handleName == name)
  }

  /** The tunnels open or opening never number more than one. */
  predicate OneTunnel(s: State, steps: seq<Step>)
    requires Runs(s, steps)
    decreases |steps|
  {
    |s.tunnels| + |s.opening| <= 1 && (steps == [] || OneTunnel(Next(s, steps[0]), steps[1..]))
  }

  /** Every tunnel ever opened is listed once and not closed, or closed once and
      not listed; and where tunnels are used, the handle is the tunnel opened last
      of those still open, under that tunnel's name. */
  predicate Inv(s: State) {
    && |s.closes| == s.launched == |s.names|
    && (forall i, j :: 0 <= i < j < |s.tunnels| ==> s.tunnels[i] != s.tunnels[j])
    && (forall t | t in s.tunnels :: t < s.launched)
    && (forall t :: 0 <= t < s.launched ==> s.closes[t] == if t in s.tunnels then 0 else 1)
    && (s.handle.Some? && s.handle.value.Tunneled? ==> s.handle.value.tunnel in s.tunnels)
    && (s.aws ==> Latest(s))
    && (!s.aws ==> s.opening == map[] && s.tunnels == [])
  }

  predicate Latest(s: State)
    requires |s.names| == s.launched && forall t | t in s.tunnels :: t < s.launched
  {
    if s.tunnels == [] then s.handle.None?
    else
      assert s.tunnels[|s.tunnels| - 1] in s.tunnels;
      var last := s.tunnels[|s.tunnels| - 1];
      s.handle == Some(Tunneled(last)) && s.handleName == s.names[last]
  }

  lemma InitialInv(aws: bool)
    ensures Inv(Initial(aws))
  {
  }

  lemma {:induction false} CloseAllClosesEach(closes: seq<nat>, tunnels: seq<nat>, t: nat)
    requires t < |closes|
    requires forall i, j :: 0 <= i < j < |tunnels| ==> tunnels[i] != tunnels[j]
    ensures CloseAll(closes, tunnels)[t] == closes[t] + (if t in tunnels then 1 else 0)
    decreases |tunnels|
  {
    if tunnels != [] {
      var head, rest := tunnels[0], tunnels[1..];
      assert forall i :: 0 <= i < |rest| ==> rest[i] == tunnels[i + 1];
      assert t in tunnels <==> t == head || t in rest;
      assert head !in rest;
      CloseAllClosesEach(if head < |closes| then closes[head := closes[head] + 1] else closes, rest, t);
    }
  }

  lemma StepKeepsInv(s: State, step: Step)
    requires Inv(s) && Enabled(s, step)
    ensures Inv(Next(s, step))
  {
    assert forall i :: 0 <= i < |s.tunnels| ==> s.tunnels[i] in s.tunnels;
    if step.Close? {
      forall t | 0 <= t < s.launched ensures Next(s, step).closes[t] == 1 {
        CloseAllClosesEach(s.closes, s.tunnels, t);
      }
    }
  }

  lemma {:induction false} RunKeepsInv(s: State, steps: seq<Step>)
    requires Inv(s) && Runs(s, steps)
    ensures Inv(After(s, steps)) && After(s, steps).aws == s.aws
    decreases |steps|
  {
    if steps != [] {
      StepKeepsInv(s, steps[0]);
      RunKeepsInv(Next(s, steps[0]), steps[1..]);
    }
  }

  /** In any interleaving from a fresh connection no tunnel is lost or closed twice,
      and a dispose at any moment leaves every tunnel ever opened closed once. */
  lemma NoTunnelIsLost(aws: bool, steps: seq<Step>)
    requires Runs(Initial(aws), steps)
    ensures var t := After(Initial(aws), steps);
      && Inv(t)
      && Dispose(t).launched == t.launched
      && forall i :: 0 <= i < t.launched ==> t.closes[i] <= 1 && Dispose(t).closes[i] == 1
  {
    InitialInv(aws);
    RunKeepsInv(Initial(aws), steps);
    StepKeepsInv(After(Initial(aws), steps), Close);
  }

  /** Asking again for the database in use opens nothing. */
  lemma RepeatedCallsReuse(s: State, call: nat, again: nat, databaseUrl: Option<string>)
    requires Inv(s) && s.aws && call in s.opening
    ensures var t := TunnelSettles(s, call, true);
      Db(t, again, s.opening[call], databaseUrl) == (t, Handed(Tunneled(s.launched)))
  {
  }

  /** Calls for one database share one tunnel throughout a run, disposes and failed
      openings included, exactly when no call comes while one is still opening. */
  lemma OneTunnelExactly(name: Option<string>, steps: seq<Step>)
    requires Runs(Initial(true), steps)
    requires forall i :: 0 <= i < |steps| && steps[i].Ask? ==> steps[i].dbName == name
    ensures OneTunnel(Initial(true), steps) <==> Awaited(Initial(true), steps)
  {
    InitialInv(true);
    OneTunnelFrom(Initial(true), name, steps);
  }

  lemma {:induction false} OneTunnelFrom(s: State, name: Option<string>, steps: seq<Step>)
    requires Inv(s) && s.aws && Runs(s, steps) && OneName(s, steps, name) && |s.tunnels| + |s.opening| <= 1
    ensures OneTunnel(s, steps) <==> Awaited(s, steps)
    decreases |steps|
  {
    if steps != [] {
      var step, rest := steps[0], steps[1..];
      var next := Next(s, step);
      StepKeepsInv(s, step);
      StepKeepsOneName(s, name, steps);
      StepUses(s, step);
      if step.Ask? && s.opening != map[] {
        OpeningIsAlone(s);
        if |rest| > 0 { assert OneTunnel(next, rest) ==> |next.tunnels| + |next.opening| <= 1; }
      } else {
        OneTunnelFrom(next, name, rest);
      }
    }
  }

  lemma StepKeepsOneName(s: State, name: Option<string>, steps: seq<Step>)
    requires Inv(s) && s.aws && Runs(s, steps) && steps != [] && OneName(s, steps, name)
    ensures OneName(Next(s, steps[0]), steps[1..], name)
  {
    assert steps[0].Ask? ==> steps[0].dbName == name;
    assert forall i :: 0 <= i < |steps[1..]| ==> steps[1..][i] == steps[i + 1];
  }

  lemma OpeningIsAlone(s: State)
    requires Inv(s) && s.aws && s.opening != map[] && |s.tunnels| + |s.opening| <= 1
    ensures s.tunnels == [] && s.handle.None? && |s.opening| == 1
  {
    assert |s.opening| > 0;
  }

  /** How a step moves the number of tunnels open or opening. */
  lemma StepUses(s: State, step: Step)
    requires Inv(s) && s.aws && Enabled(s, step)
    ensures var t := Next(s, step);
      match step
      case Ask(_, dbName, _) =>
        |t.tunnels| == |s.tunnels|
        && |t.opening| == |s.opening| + (if s.handle.Some? && s.handleName == dbName then 0 else 1)
      case Settle(_, ready) =>
        |t.opening| == |s.opening| - 1 && |t.tunnels| == |s.tunnels| + (if ready then 1 else 0)
      case Close => |t.opening| == |s.opening| && t.tunnels == []
  {
    if step.Settle? { assert s.opening.Keys == (s.opening - {step.call}).Keys + {step.call}; }
  }

  /** At any moment of any run, asking for a database opens a tunnel exactly when
      the tunnel opened last, of those still open, is not for that database. */
  lemma AskOpensExactly(steps: seq<Step>, call: nat, dbName: Option<string>, databaseUrl: Option<string>)
    requires Runs(Initial(true), steps)
    ensures var s := After(Initial(true), steps);
      && Inv(s)
      && (Db(s, call, dbName, databaseUrl).1 == Opening <==>
            s.tunnels == [] || s.names[s.tunnels[|s.tunnels| - 1]] != dbName)
  {
    InitialInv(true);
    RunKeepsInv(Initial(true), steps);
    var s := After(Initial(true), steps);
    if s.tunnels != [] { assert s.tunnels[|s.tunnels| - 1] in s.tunnels; }
  }

  /** Every tunnel asks for the same local port. As long as that keeps a second one
      from getting ready while one is open, no more than one ever is, whatever the
      calls; so an override gets its tunnel only after a dispose. */
  lemma {:induction false} ExclusivePortKeepsOne(s: State, steps: seq<Step>)
    requires |s.tunnels| <= 1 && Runs(s, steps) && PortExclusive(s, steps)
    ensures |After(s, steps).tunnels| <= 1
    decreases |steps|
  {
    if steps != [] { ExclusivePortKeepsOne(Next(s, steps[0]), steps[1..]); }
  }

  predicate PortExclusive(s: State, steps: seq<Step>)
    requires Runs(s, steps)
    decreases |steps|
  {
    steps == [] ||
    ((steps[0].Settle? && steps[0].ready ==> s.tunnels == []) && PortExclusive(Next(s, steps[0]), steps[1..]))
  }

  /** Where the port does admit a second one, going back to a database opens another
      tunnel to it, each call awaited. */
  lemma ReturningOpensAgain(a: string, b: string)
    requires a != b
    ensures exists steps ::
      Runs(Initial(true), steps) && Awaited(Initial(true), steps)
      && After(Initial(true), steps).tunnels == [0, 1, 2]
      && After(Initial(true), steps).names == [Some(a), Some(b), Some(a)]
  {
    var s0 := Initial(true);
    var s2 := OpenOne(s0, a);
    var s4 := OpenOne(s2, b);
    var s6 := OpenOne(s4, a);
    var third := [Ask(0, Some(a), None), Settle(0, true)];
    var second := [Ask(0, Some(b), None), Settle(0, true)] + third;
    var steps := [Ask(0, Some(a), None), Settle(0, true)] + second;
    AwaitedOpening(s4, third, []);
    AwaitedOpening(s2, second, third);
    AwaitedOpening(s0, steps, second);
    assert After(s0, steps) == s6;
  }

  function OpenOne(s: State, name: string): State
    requires s.opening == map[] && s.aws && !(s.handle.Some? && s.handleName == Some(name))
  {
    TunnelSettles(Db(s, 0, Some(name), None).0, 0, true).(opening := map[])
  }

  lemma AwaitedOpening(s: State, steps: seq<Step>, rest: seq<Step>)
    requires |steps| >= 2 && steps[2..] == rest && steps[0].Ask? && steps[1] == Settle(steps[0].call, true)
    requires s.opening == map[] && Db(s, steps[0].call, steps[0].dbName, steps[0].databaseUrl).1 == Opening
    requires var t := Next(Next(s, steps[0]), steps[1]); Runs(t, rest) && Awaited(t, rest)
    ensures Next(Next(s, steps[0]), steps[1]).opening == map[]
    ensures Runs(s, steps) && Awaited(s, steps)
            && After(s, steps) == After(Next(Next(s, steps[0]), steps[1]), rest)
  {
    assert steps[1..][0] == steps[1] && steps[1..][1..] == rest;
    assert Runs(Next(s, steps[0]), steps[1..]);
  }

  predicate NoAsk(steps: seq<Step>) {
    forall i :: 0 <= i < |steps| ==> !steps[i].Ask?
  }

  /** A disposed connection can come to hold an open tunnel without being asked
      again exactly when one was still opening. */
  lemma DisposeIsFinalExactly(s: State)
    requires Inv(s)
    ensures (exists steps :: NoAsk(steps) && Runs(Dispose(s), steps) && After(Dispose(s), steps).tunnels != [])
            <==> s.opening != map[]
  {
    var d := Dispose(s);
    if s.opening != map[] {
      var call :| call in s.opening;
      var steps := [Settle(call, true)];
      assert steps[1..] == [];
      var next := Next(d, steps[0]);
      assert Runs(next, []) && After(next, []) == next && |next.tunnels| == 1;
      assert NoAsk(steps) && Runs(d, steps) && After(d, steps) == next;
    } else {
      forall steps | NoAsk(steps) && Runs(d, steps) ensures After(d, steps).tunnels == [] {
        StaysDisposed(d, steps);
      }
    }
  }

  lemma {:induction false} StaysDisposed(s: State, steps: seq<Step>)
    requires s.opening == map[] && s.tunnels == [] && NoAsk(steps) && Runs(s, steps)
    ensures After(s, steps).tunnels == []
    decreases |steps|
  {
    if steps != [] {
      assert !steps[0].Ask?;
      StaysDisposed(Next(s, steps[0]), steps[1..]);
    }
  }

  // ---------------------------------------------------------------------------
  // The closure over mutable variables
  // ---------------------------------------------------------------------------

  class Connection {
    const aws: bool
    var handle: Option<Handle>
    var handleName: Option<string>
    var tunnels: seq<nat>
    var opening: map<nat, Option<string>>
    var launched: nat
    ghost var names: seq<Option<string>>
    var closes: seq<nat>

    ghost function Contents(): State
      reads this
    {
      State(aws, handle, handleName, tunnels, opening, launched, names, closes)
    }

    constructor (aws: bool)
      ensures Contents() == Initial(aws)
    {
      this.aws, handle, handleName, tunnels := aws, None, None, [];
      opening, launched, names, closes := map[], 0, [], [];
    }

    method Request(call: nat, dbName: Option<string>, databaseUrl: Option<string>) returns (r: DbResult)
      modifies this`handle, this`opening
      ensures (Contents(), r) == Db(old(Contents()), call, dbName, databaseUrl)
    {
      if handle.Some? && handleName == dbName { return Handed(handle.value); }
      if !aws {
        if databaseUrl.None? || databaseUrl.value == "" { return NotConfigured; }
        handle := Some(Local);
        return Handed(Local);
      }
      opening := opening[call := dbName];
      return Opening;
    }

    method TunnelOpened(call: nat) returns (h: Handle)
      requires call in opening
      modifies this
      ensures Contents() == TunnelSettles(old(Contents()), call, true)
      ensures handle == Some(h) && h == Tunneled(old(launched))
    {
      var tunnel := launched;
      launched, names, closes := launched + 1, names + [opening[call]], closes + [0];
      tunnels := tunnels + [tunnel];
      h := Tunneled(tunnel);
      handle := Some(h);
      handleName := opening[call];
      opening := opening - {call};
    }

    /** `tunnels.splice(0)`, then each of them closed. */
    method DisposeAll()
      modifies this
      ensures Contents() == Dispose(old(Contents()))
    {
      var open := tunnels;
      tunnels := [];
      handle := None;
      while open != []
        invariant tunnels == [] && handle == None && handleName == old(handleName)
        invariant opening == old(opening) && launched == old(launched) && names == old(names)
        invariant CloseAll(closes, open) == CloseAll(old(closes), old(tunnels))
        decreases |open|
      {
        var t := open[0];
        open := open[1..];
        if t < |closes| { closes := closes[t := closes[t] + 1]; }
      }
    }
  }
}
