/** `DebugLauncherService`: finding the game in the process table, tearing
    down a previous launch, and the polling that decides the outcome of a
    launch. The operating system is an oracle: the nth process-table query,
    clock reading, port probe and signal each have a fixed answer, and the
    `Os` object counts how many of each have been used. */
module Launcher {
  import opened Wrappers
  import opened Text
  import opened CommandLine

  const GAME_NAME: string := "gzdoom"
  const GAME_START_TIMEOUT: int := 15000
  const CONNECTION_TIMEOUT: int := 15000
  const DEFAULT_PORT_TIMEOUT: int := 15000
  const MAX_SWEEPS: nat := 5

  datatype DebugLaunchState =
    | Success
    | LauncherError
    | GameFailedToStart
    | GameExitedBeforeOpening
    | MultipleGamesRunning
    | Cancelled

  datatype ProcessInfo = ProcessInfo(pid: int, name: string, cmd: string)

  /** What `kill` did: delivered the signal (true), did not (false), or
      threw. */
  datatype KillOutcome = Delivered | NotDelivered | Threw

  datatype Target = LauncherProcess | GameProcess(pid: int)
  datatype SignalKind = Terminate | ForceKill
  datatype Signal = Signal(target: Target, kind: SignalKind)

  /** The answers of the operating system. `cancelled` and `exitCode` are
      indexed by the number of clock readings taken so far, so they describe
      the world at that moment; `killOutcome` by the number of signals sent. */
  datatype Oracle = Oracle(
    table: nat -> seq<ProcessInfo>,
    portTable: int -> seq<ProcessInfo>,
    openFiles: int -> seq<Option<string>>,
    clock: nat -> int,
    portOpen: (int, nat) -> bool,
    cancelled: nat -> bool,
    exitCode: nat -> Option<int>,
    killOutcome: nat -> KillOutcome,
    spawnPipes: bool)

  /** How much of the oracle has been used, and the signals sent. */
  datatype Trace = Trace(queries: nat, readings: nat, probes: nat, signals: seq<Signal>)

  /** Time passes between two readings of the clock. */
  ghost predicate Ticking(o: Oracle) {
    forall j: nat, k: nat :: j < k ==> o.clock(j) < o.clock(k)
  }

  /** The readings left before the clock passes `deadline`, counting the
      next one. */
  function Budget(o: Oracle, readings: nat, deadline: int): nat {
    if o.clock(readings) <= deadline then (deadline + 1 - o.clock(readings)) as nat else 0
  }

  // ---- the process table -------------------------------------------------

  predicate IsGame(p: ProcessInfo) {
    Lower(p.name) == GAME_NAME
  }

  /** `getGameIsRunning`: some process in the table is named gzdoom in any
      case. */
  predicate GameIsRunning(list: seq<ProcessInfo>) {
    list != [] && (GameIsRunning(list[..|list| - 1]) || IsGame(list[|list| - 1]))
  }

  /** `getGamePIDs`: the PIDs of the processes named gzdoom in any case, in
      table order. */
  function GamePIDs(list: seq<ProcessInfo>): (pids: seq<int>)
    ensures |pids| <= |list|
  {
    if list == [] then []
    else
      var p := list[|list| - 1];
      GamePIDs(list[..|list| - 1]) + (if IsGame(p) then [p.pid] else [])
  }

  lemma {:induction false} GamePIDsExactly(list: seq<ProcessInfo>, pid: int)
    ensures pid in GamePIDs(list) <==> exists i :: 0 <= i < |list| && IsGame(list[i]) && list[i].pid == pid
    decreases |list|
  {
    if list != [] {
      var init := list[..|list| - 1];
      GamePIDsExactly(init, pid);
      if exists i :: 0 <= i < |init| && IsGame(init[i]) && init[i].pid == pid {
        var i :| 0 <= i < |init| && IsGame(init[i]) && init[i].pid == pid;
        assert list[i] == init[i];
      }
    }
  }

  /** A game is running exactly when some entry of the table is a game. */
  lemma {:induction false} RunningExactly(list: seq<ProcessInfo>)
    ensures GameIsRunning(list) <==> exists i :: 0 <= i < |list| && IsGame(list[i])
    decreases |list|
  {
    if list != [] {
      var init := list[..|list| - 1];
      RunningExactly(init);
      if exists i :: 0 <= i < |init| && IsGame(init[i]) {
        var i :| 0 <= i < |init| && IsGame(init[i]);
        assert list[i] == init[i];
      }
      if exists i :: 0 <= i < |list| && IsGame(list[i]) {
        var i :| 0 <= i < |list| && IsGame(list[i]);
        if i < |init| {
          assert init[i] == list[i];
        }
      }
    }
  }

  /** A game is running exactly when there are game PIDs to kill. */
  lemma {:induction false} RunningIffPIDs(list: seq<ProcessInfo>)
    ensures GameIsRunning(list) <==> |GamePIDs(list)| > 0
    decreases |list|
  {
    if list != [] {
      RunningIffPIDs(list[..|list| - 1]);
    }
  }

  // ---- tearing down ------------------------------------------------------

  /** `process.kill` on each PID, in order. */
  function Signals(pids: seq<int>, kind: SignalKind): (r: seq<Signal>)
    ensures |r| == |pids|
  {
    if pids == [] then [] else Signals(pids[..|pids| - 1], kind) + [Signal(GameProcess(pids[|pids| - 1]), kind)]
  }

  /** The signals of a sweep go to the game processes, one each, in order. */
  lemma {:induction false} SignalsInOrder(pids: seq<int>, kind: SignalKind)
    ensures forall i :: 0 <= i < |pids| ==> Signals(pids, kind)[i] == Signal(GameProcess(pids[i]), kind)
    decreases |pids|
  {
    if pids != [] {
      SignalsInOrder(pids[..|pids| - 1], kind);
    }
  }

  /** The launcher is sent the default signal and, only when that reports
      the signal undelivered, SIGKILL; a throw ends the attempt. */
  function KillLauncher(o: Oracle, t: Trace): Trace {
    var first := t.(signals := t.signals + [Signal(LauncherProcess, Terminate)]);
    if o.killOutcome(|t.signals|) == NotDelivered
    then first.(signals := first.signals + [Signal(LauncherProcess, ForceKill)])
    else first
  }

  /** The kill sweeps, from `retries` sweeps done with `pids` still found:
      every game process is signalled, the default signal on the first sweep
      and SIGKILL after it, then the table is queried again, until no game
      is found or five sweeps are done. */
  function Sweeps(o: Oracle, t: Trace, pids: seq<int>, retries: nat): Trace
    decreases MAX_SWEEPS - retries
  {
    if |pids| == 0 || retries >= MAX_SWEEPS then t
    else
      var kind := if retries == 0 then Terminate else ForceKill;
      Sweeps(o, t.(signals := t.signals + Signals(pids, kind), queries := t.queries + 1),
             GamePIDs(o.table(t.queries)), retries + 1)
  }

  lemma {:induction false} SweepUnfolds(o: Oracle, t: Trace, pids: seq<int>, retries: nat)
    requires |pids| > 0 && retries < MAX_SWEEPS
    ensures var kind := if retries == 0 then Terminate else ForceKill;
      Sweeps(o, t, pids, retries)
      == Sweeps(o, t.(signals := t.signals + Signals(pids, kind), queries := t.queries + 1), GamePIDs(o.table(t.queries)), retries + 1)
  {
  }

  /** `tearDownAfterDebug`: the launcher is stopped if one is held, then the
      game processes are swept. */
  function TearDown(o: Oracle, t: Trace, held: bool): Trace {
    SweepIfRunning(o, if held then KillLauncher(o, t) else t)
  }

  /** Sweeps if the table shows a game, after querying it again for the
      PIDs. */
  function SweepIfRunning(o: Oracle, t: Trace): Trace {
    if GameIsRunning(o.table(t.queries))
    then Sweeps(o, t.(queries := t.queries + 2), GamePIDs(o.table(t.queries + 1)), 0)
    else t.(queries := t.queries + 1)
  }

  lemma {:induction false} SweepIfRunningSweeps(o: Oracle, t: Trace, pids: seq<int>)
    requires GameIsRunning(o.table(t.queries)) && pids == GamePIDs(o.table(t.queries + 1))
    ensures SweepIfRunning(o, t) == Sweeps(o, t.(queries := t.queries + 2), pids, 0)
  {
  }

  /** At most five sweeps: each sweep makes one query, and the clock and the
      port are never used. */
  lemma {:induction false} SweepsBounded(o: Oracle, t: Trace, pids: seq<int>, retries: nat)
    requires retries <= MAX_SWEEPS
    ensures var u := Sweeps(o, t, pids, retries);
      t.queries <= u.queries <= t.queries + (MAX_SWEEPS - retries)
      && u.readings == t.readings && u.probes == t.probes
    decreases MAX_SWEEPS - retries
  {
    if |pids| > 0 && retries < MAX_SWEEPS {
      var kind := if retries == 0 then Terminate else ForceKill;
      var t1 := t.(signals := t.signals + Signals(pids, kind), queries := t.queries + 1);
      SweepsBounded(o, t1, GamePIDs(o.table(t.queries)), retries + 1);
    }
  }

  /** Every sweep after the first only sends SIGKILL to game processes. */
  lemma {:induction false} LaterSweepsForceKill(o: Oracle, t: Trace, pids: seq<int>, retries: nat)
    requires 1 <= retries <= MAX_SWEEPS
    ensures var u := Sweeps(o, t, pids, retries);
      |u.signals| >= |t.signals| && u.signals[..|t.signals|] == t.signals
      && forall i :: |t.signals| <= i < |u.signals| ==> u.signals[i].kind == ForceKill && u.signals[i].target.GameProcess?
    decreases MAX_SWEEPS - retries
  {
    if |pids| > 0 && retries < MAX_SWEEPS {
      var t1 := t.(signals := t.signals + Signals(pids, ForceKill), queries := t.queries + 1);
      LaterSweepsForceKill(o, t1, GamePIDs(o.table(t.queries)), retries + 1);
      SignalsInOrder(pids, ForceKill);
      var u := Sweeps(o, t1, GamePIDs(o.table(t.queries)), retries + 1);
      assert u.signals[..|t.signals|] == u.signals[..|t1.signals|][..|t.signals|];
      forall i | |t.signals| <= i < |u.signals|
        ensures u.signals[i].kind == ForceKill && u.signals[i].target.GameProcess?
      {
        if i < |t1.signals| {
          assert u.signals[i] == t1.signals[i];
        }
      }
    }
  }

  /** The first sweep sends the default signal to every game process found,
      in table order; everything after it is SIGKILL. */
  lemma {:induction false} FirstSweepTerminates(o: Oracle, t: Trace, pids: seq<int>)
    requires |pids| > 0
    ensures var u := Sweeps(o, t, pids, 0);
      var n := |t.signals| + |pids|;
      |u.signals| >= n && u.signals[..n] == t.signals + Signals(pids, Terminate)
      && forall i :: n <= i < |u.signals| ==> u.signals[i].kind == ForceKill
  {
    var t1 := t.(signals := t.signals + Signals(pids, Terminate), queries := t.queries + 1);
    LaterSweepsForceKill(o, t1, GamePIDs(o.table(t.queries)), 1);
  }

  /** A game that survives every sweep is given up on after exactly five. */
  lemma {:induction false} SweepsGiveUp(o: Oracle, t: Trace, pids: seq<int>, retries: nat)
    requires retries <= MAX_SWEEPS && |pids| > 0
    requires forall k :: t.queries <= k < t.queries + (MAX_SWEEPS - retries) ==> GameIsRunning(o.table(k))
    ensures Sweeps(o, t, pids, retries).queries == t.queries + (MAX_SWEEPS - retries)
    decreases MAX_SWEEPS - retries
  {
    if retries < MAX_SWEEPS {
      RunningIffPIDs(o.table(t.queries));
      var t1 := t.(signals := t.signals + Signals(pids, if retries == 0 then Terminate else ForceKill), queries := t.queries + 1);
      SweepsGiveUp(o, t1, GamePIDs(o.table(t.queries)), retries + 1);
    }
  }

  /** Sweeps stop as soon as the table shows no game. */
  lemma {:induction false} SweepsStopWhenGone(o: Oracle, t: Trace, pids: seq<int>)
    requires |pids| > 0 && !GameIsRunning(o.table(t.queries))
    ensures Sweeps(o, t, pids, 0) == t.(signals := t.signals + Signals(pids, Terminate), queries := t.queries + 1)
  {
    RunningIffPIDs(o.table(t.queries));
  }

  // ---- polling -----------------------------------------------------------

  /** `processExitedWithError`: no launcher process is held, or it has exited
      with a non-zero code. */
  predicate ExitedWithError(held: bool, exitCode: Option<int>) {
    !held || (exitCode.Some? && exitCode.value != 0)
  }

  /** The first loop of `runLauncher`: until cancelled, query the table and
      read the clock; stop when the game runs or the deadline has passed, and
      fail when the launcher has exited with an error meanwhile. The boolean
      is whether `launcherError` was returned. */
  function WaitForGame(o: Oracle, t: Trace, deadline: int): (Trace, bool)
    requires Ticking(o)
    decreases Budget(o, t.readings, deadline)
  {
    if o.cancelled(t.readings) then (t, false)
    else
      var running := GameIsRunning(o.table(t.queries));
      var timedOut := o.clock(t.readings) > deadline;
      var t1 := t.(queries := t.queries + 1, readings := t.readings + 1);
      if !running && !timedOut then
        if ExitedWithError(true, o.exitCode(t1.readings)) then (t1, true)
        else WaitForGame(o, t1, deadline)
      else (t1, false)
  }

  /** The second loop of `runLauncher`: until cancelled, query the table and
      read the clock; give up after the deadline, report the game gone, or
      probe the port until it opens. Cancellation leaves the result false,
      which is reported as `gameFailedToStart`. */
  function WaitForConnection(o: Oracle, t: Trace, port: int, deadline: int): (Trace, DebugLaunchState)
    requires Ticking(o)
    decreases Budget(o, t.readings, deadline)
  {
    if o.cancelled(t.readings) then (t, GameFailedToStart)
    else
      var running := GameIsRunning(o.table(t.queries));
      var timedOut := o.clock(t.readings) > deadline;
      var t1 := t.(queries := t.queries + 1, readings := t.readings + 1);
      if timedOut then (t1, GameFailedToStart)
      else if !running then (t1, if ExitedWithError(true, o.exitCode(t1.readings)) then LauncherError else GameFailedToStart)
      else if o.portOpen(port, t1.probes) then (t1.(probes := t1.probes + 1), Success)
      else WaitForConnection(o, t1.(probes := t1.probes + 1), port, deadline)
  }

  lemma {:induction false} GameWaitStep(o: Oracle, t: Trace, deadline: int)
    requires Ticking(o) && !o.cancelled(t.readings)
    ensures var t1 := t.(queries := t.queries + 1, readings := t.readings + 1);
      WaitForGame(o, t, deadline)
      == if !GameIsRunning(o.table(t.queries)) && o.clock(t.readings) <= deadline then
           if ExitedWithError(true, o.exitCode(t1.readings)) then (t1, true) else WaitForGame(o, t1, deadline)
         else (t1, false)
  {
  }

  lemma {:induction false} ConnectionWaitStep(o: Oracle, t: Trace, port: int, deadline: int)
    requires Ticking(o) && !o.cancelled(t.readings)
    ensures var t1 := t.(queries := t.queries + 1, readings := t.readings + 1);
      WaitForConnection(o, t, port, deadline)
      == if o.clock(t.readings) > deadline then (t1, GameFailedToStart)
         else if !GameIsRunning(o.table(t.queries)) then
           (t1, if ExitedWithError(true, o.exitCode(t1.readings)) then LauncherError else GameFailedToStart)
         else if o.portOpen(port, t1.probes) then (t1.(probes := t1.probes + 1), Success)
         else WaitForConnection(o, t1.(probes := t1.probes + 1), port, deadline)
  {
  }

  /** What `runLauncher` leaves behind: the outcome, the trace, whether a
      launcher process is held, and the recorded game PID. */
  datatype Run = Run(state: DebugLaunchState, trace: Trace, launcher: bool, gamePID: Option<int>)

  /** `runLauncher`: tear down, spawn, wait for the game, check there is
      exactly one, then wait for its debug port. */
  function RunLauncherSpec(o: Oracle, t: Trace, held: bool, port: int): Run
    requires Ticking(o)
  {
    Spawned(o, TearDown(o, t, held), port)
  }

  /** `runLauncher` once the teardown is done: spawn, then wait for the game
      from the current time. */
  function Spawned(o: Oracle, t1: Trace, port: int): Run
    requires Ticking(o)
  {
    if !o.spawnPipes then Run(LauncherError, t1, true, None)
    else AfterGameWait(o, FirstWait(o, t1), port)
  }

  /** The first loop, started right after the clock reading that sets its
      deadline. */
  function FirstWait(o: Oracle, t1: Trace): (Trace, bool)
    requires Ticking(o)
  {
    WaitForGame(o, t1.(readings := t1.readings + 1), o.clock(t1.readings) + GAME_START_TIMEOUT)
  }

  /** The rest of `runLauncher` once the first loop has ended: a launcher
      error, a cancellation, the wrong number of games, or the port wait. */
  function AfterGameWait(o: Oracle, w: (Trace, bool), port: int): Run
    requires Ticking(o)
  {
    var t2 := w.0;
    if w.1 then Run(LauncherError, t2, true, None)
    else if o.cancelled(t2.readings) then Run(Cancelled, TearDown(o, t2, true), false, None)
    else
      var pids := GamePIDs(o.table(t2.queries));
      var t3 := t2.(queries := t2.queries + 1);
      if |pids| == 0 then Run(GameFailedToStart, t3, true, None)
      else if |pids| > 1 then Run(MultipleGamesRunning, t3, true, None)
      else
        var deadline := o.clock(t3.readings) + CONNECTION_TIMEOUT;
        var c := WaitForConnection(o, t3.(readings := t3.readings + 1), port, deadline);
        Run(c.1, c.0, true, Some(pids[0]))
  }

  lemma {:induction false} OneGameThenPortWait(o: Oracle, t: Trace, port: int)
    requires Ticking(o) && !o.cancelled(t.readings) && |GamePIDs(o.table(t.queries))| == 1
    ensures var t3 := t.(queries := t.queries + 1, readings := t.readings + 1);
      var c := WaitForConnection(o, t3, port, o.clock(t.readings) + CONNECTION_TIMEOUT);
      AfterGameWait(o, (t, false), port) == Run(c.1, c.0, true, Some(GamePIDs(o.table(t.queries))[0]))
  {
  }

  /** `waitForPort`'s loop: read the clock, give up past the deadline, probe,
      and stop when the port is open or the callback, asked after a failed
      probe, says to stop waiting. */
  function PortWait(o: Oracle, t: Trace, port: int, deadline: int, keepWaiting: nat -> bool): (Trace, bool)
    requires Ticking(o)
    decreases Budget(o, t.readings, deadline)
  {
    var t1 := t.(readings := t.readings + 1);
    if o.clock(t.readings) > deadline then (t1, false)
    else
      var t2 := t1.(probes := t1.probes + 1);
      if o.portOpen(port, t1.probes) then (t2, true)
      else if !keepWaiting(t1.probes) then (t2, false)
      else PortWait(o, t2, port, deadline, keepWaiting)
  }

  /** `getLaunchCommandFromRunningProcess`: the process on the port, or else
      the first found by name; its command line split into command and
      arguments, and the working directory `lsof` reports, if any. */
  function RunningCommand(o: Oracle, t: Trace, port: int): (Option<LaunchCommand>, Trace) {
    var byPort := o.portTable(port);
    var (procs, t1) := if |byPort| == 0 then (o.table(t.queries), t.(queries := t.queries + 1)) else (byPort, t);
    if |procs| == 0 then (None, t1)
    else
      var files := o.openFiles(procs[0].pid);
      (Some(FromArgv(Tokenize(procs[0].cmd), if |files| == 0 then None else Some(files[0].GetOr("")))), t1)
  }

  // ---- properties of the polling ------------------------------------------

  lemma {:induction false} WaitForGameMakesNoProbes(o: Oracle, t: Trace, deadline: int)
    requires Ticking(o)
    ensures var (u, _) := WaitForGame(o, t, deadline); u.probes == t.probes && u.signals == t.signals
    decreases Budget(o, t.readings, deadline)
  {
    if !o.cancelled(t.readings) {
      var t1 := t.(queries := t.queries + 1, readings := t.readings + 1);
      if !GameIsRunning(o.table(t.queries)) && o.clock(t.readings) <= deadline && !ExitedWithError(true, o.exitCode(t1.readings)) {
        WaitForGameMakesNoProbes(o, t1, deadline);
      }
    }
  }

  lemma {:induction false} TearDownMakesNoProbes(o: Oracle, t: Trace, held: bool)
    ensures TearDown(o, t, held).probes == t.probes && TearDown(o, t, held).readings == t.readings
  {
    SweepIfRunningNoProbes(o, if held then KillLauncher(o, t) else t);
  }

  lemma {:induction false} SweepIfRunningNoProbes(o: Oracle, t: Trace)
    ensures SweepIfRunning(o, t).probes == t.probes && SweepIfRunning(o, t).readings == t.readings
  {
    if GameIsRunning(o.table(t.queries)) {
      SweepsBounded(o, t.(queries := t.queries + 2), GamePIDs(o.table(t.queries + 1)), 0);
    }
  }

  /** The port wait ends in success only on an open probe, and otherwise in
      a timeout, a vanished game reported as a launcher error exactly when
      the launcher exited with an error, or cancellation. */
  lemma {:induction false} ConnectionOutcome(o: Oracle, t: Trace, port: int, deadline: int)
    requires Ticking(o)
    ensures var (u, state) := WaitForConnection(o, t, port, deadline);
      state in {Success, LauncherError, GameFailedToStart}
      && (state == Success ==> u.probes > t.probes && o.portOpen(port, u.probes - 1))
      && (state == LauncherError ==> u.readings > 0 && ExitedWithError(true, o.exitCode(u.readings)))
      && u.probes >= t.probes
    decreases Budget(o, t.readings, deadline)
  {
    if !o.cancelled(t.readings) {
      var t1 := t.(queries := t.queries + 1, readings := t.readings + 1);
      if o.clock(t.readings) <= deadline && GameIsRunning(o.table(t.queries)) && !o.portOpen(port, t1.probes) {
        ConnectionOutcome(o, t1.(probes := t1.probes + 1), port, deadline);
      }
    }
  }

  /** The facts about an outcome `r` of a launch whose first probe would be
      number `probes`: never `gameExitedBeforeOpening`; success only with a
      game PID and a probe that found the port open; cancellation and too
      many games before any probe and without a game PID; and a cancelled
      launch holds no launcher. */
  predicate OutcomeFacts(o: Oracle, r: Run, probes: nat, port: int) {
    r.state != GameExitedBeforeOpening
    && (r.state == Success ==> r.gamePID.Some? && r.trace.probes > probes && o.portOpen(port, r.trace.probes - 1))
    && (r.state == Cancelled || r.state == MultipleGamesRunning ==> r.trace.probes == probes && r.gamePID.None?)
    && (r.state == Cancelled ==> !r.launcher)
  }

  /** The outcomes after the first loop: only a port probe that found the
      port open is success, and a cancellation or a wrong game count stops
      before any probe. */
  lemma {:induction false} AfterGameWaitOutcome(o: Oracle, w: (Trace, bool), port: int)
    requires Ticking(o)
    ensures OutcomeFacts(o, AfterGameWait(o, w, port), w.0.probes, port)
  {
    var t2 := w.0;
    if !w.1 {
      if o.cancelled(t2.readings) {
        TearDownMakesNoProbes(o, t2, true);
      } else {
        var t3 := t2.(queries := t2.queries + 1);
        ConnectionOutcome(o, t3.(readings := t3.readings + 1), port, o.clock(t3.readings) + CONNECTION_TIMEOUT);
      }
    }
  }

  /** The outcomes from the spawn on, against the trace the teardown left:
      the first loop makes no probe, and a missing output pipe ends the
      launch at once. */
  lemma {:induction false} SpawnedOutcome(o: Oracle, t1: Trace, port: int)
    requires Ticking(o)
    ensures OutcomeFacts(o, Spawned(o, t1, port), t1.probes, port)
    ensures !o.spawnPipes ==> Spawned(o, t1, port) == Run(LauncherError, t1, true, None)
  {
    if o.spawnPipes {
      WaitForGameMakesNoProbes(o, t1.(readings := t1.readings + 1), o.clock(t1.readings) + GAME_START_TIMEOUT);
      AfterGameWaitOutcome(o, FirstWait(o, t1), port);
    }
  }

  /** `gameExitedBeforeOpening` is never the outcome of a launch. */
  lemma {:induction false} NeverExitedBeforeOpening(o: Oracle, t: Trace, held: bool, port: int)
    requires Ticking(o)
    ensures RunLauncherSpec(o, t, held, port).state != GameExitedBeforeOpening
  {
    SpawnedOutcome(o, TearDown(o, t, held), port);
  }

  /** A launch succeeds only with exactly one game process, recorded as the
      game PID, and a port probe that found the port open. */
  lemma {:induction false} SuccessNeedsOneGameAndOpenPort(o: Oracle, t: Trace, held: bool, port: int)
    requires Ticking(o)
    ensures var r := RunLauncherSpec(o, t, held, port);
      r.state == Success ==>
        r.gamePID.Some? && r.trace.probes > t.probes && o.portOpen(port, r.trace.probes - 1)
  {
    TearDownMakesNoProbes(o, t, held);
    SpawnedOutcome(o, TearDown(o, t, held), port);
  }

  /** More than one game ends the launch before any port probe; a missing
      output pipe ends it right after the teardown. */
  lemma {:induction false} WrongGameCountBeforeProbing(o: Oracle, t: Trace, held: bool, port: int)
    requires Ticking(o)
    ensures var r := RunLauncherSpec(o, t, held, port);
      (r.state == MultipleGamesRunning ==> r.trace.probes == t.probes && r.gamePID.None?)
      && (!o.spawnPipes ==> r.state == LauncherError && r.trace == TearDown(o, t, held))
  {
    TearDownMakesNoProbes(o, t, held);
    SpawnedOutcome(o, TearDown(o, t, held), port);
  }

  /** A cancelled launch tears down again: no launcher is held afterwards, no
      game PID is recorded, and the port was never probed. */
  lemma {:induction false} CancelledTearsDown(o: Oracle, t: Trace, held: bool, port: int)
    requires Ticking(o)
    ensures var r := RunLauncherSpec(o, t, held, port);
      r.state == Cancelled ==> !r.launcher && r.gamePID.None? && r.trace.probes == t.probes
  {
    TearDownMakesNoProbes(o, t, held);
    SpawnedOutcome(o, TearDown(o, t, held), port);
  }

  /** The facts about a result `r` of the port wait started at `t`: the
      clock was read; true only when the last probe found the port open;
      false only after the deadline passed or the callback said to stop. */
  predicate PortWaitFacts(o: Oracle, t: Trace, r: (Trace, bool), port: int, deadline: int, keepWaiting: nat -> bool) {
    var (u, open) := r;
    u.readings > t.readings
    && (open ==> u.probes > t.probes && o.portOpen(port, u.probes - 1))
    && (!open ==> o.clock(u.readings - 1) > deadline || (u.probes > t.probes && !keepWaiting(u.probes - 1)))
  }

  /** `waitForPort` reports true only when the last probe found the port
      open, and false only after the deadline passed or the callback said to
      stop. */
  lemma {:induction false} PortWaitResult(o: Oracle, t: Trace, port: int, deadline: int, keepWaiting: nat -> bool)
    requires Ticking(o)
    ensures PortWaitFacts(o, t, PortWait(o, t, port, deadline, keepWaiting), port, deadline, keepWaiting)
    decreases Budget(o, t.readings, deadline)
  {
    var t1 := t.(readings := t.readings + 1);
    if o.clock(t.readings) <= deadline {
      var t2 := t1.(probes := t1.probes + 1);
      if !o.portOpen(port, t1.probes) && keepWaiting(t1.probes) {
        assert PortWait(o, t, port, deadline, keepWaiting) == PortWait(o, t2, port, deadline, keepWaiting);
        PortWaitResult(o, t2, port, deadline, keepWaiting);
      }
    }
  }

  // ---- the operating system ----------------------------------------------

  class Os {
    const oracle: Oracle
    var queries: nat
    var readings: nat
    var probes: nat
    var signals: seq<Signal>

    function Observed(): Trace
      reads this
    {
      Trace(queries, readings, probes, signals)
    }

    constructor(oracle: Oracle)
      ensures this.oracle == oracle && Observed() == Trace(0, 0, 0, [])
    {
      this.oracle := oracle;
      queries := 0;
      readings := 0;
      probes := 0;
      signals := [];
    }

    /** Whether the cancellation token is set now. */
    predicate Cancelled()
      reads this
    {
      oracle.cancelled(readings)
    }

    /** The launcher's exit code now. */
    function ExitCode(): Option<int>
      reads this
    {
      oracle.exitCode(readings)
    }

    /** `findProcess('name', 'gzdoom')`. */
    method FindByName() returns (list: seq<ProcessInfo>)
      modifies this
      ensures list == oracle.table(old(queries))
      ensures Observed() == old(Observed()).(queries := old(queries) + 1)
    {
      list := oracle.table(queries);
      queries := queries + 1;
    }

    /** `new Date().getTime()`. */
    method Now() returns (ms: int)
      modifies this
      ensures ms == oracle.clock(old(readings))
      ensures Observed() == old(Observed()).(readings := old(readings) + 1)
    {
      ms := oracle.clock(readings);
      readings := readings + 1;
    }

    /** One `waitPort` probe. */
    method Probe(port: int) returns (open: bool)
      modifies this
      ensures open == oracle.portOpen(port, old(probes))
      ensures Observed() == old(Observed()).(probes := old(probes) + 1)
    {
      open := oracle.portOpen(port, probes);
      probes := probes + 1;
    }

    method Kill(target: Target, kind: SignalKind) returns (outcome: KillOutcome)
      modifies this
      ensures outcome == oracle.killOutcome(|old(signals)|)
      ensures Observed() == old(Observed()).(signals := old(signals) + [Signal(target, kind)])
    {
      outcome := oracle.killOutcome(|signals|);
      signals := signals + [Signal(target, kind)];
    }
  }

  // ---- the service -------------------------------------------------------

  class DebugLauncherService {
    /** Whether a launcher child process is held. */
    var launcherProcess: bool
    var gamePID: Option<int>

    constructor()
      ensures !launcherProcess && gamePID.None?
    {
      launcherProcess := false;
      gamePID := None;
    }

    method Reset()
      modifies this
      ensures !launcherProcess && gamePID.None?
    {
      launcherProcess := false;
      gamePID := None;
    }

    method GetGameIsRunning(os: Os) returns (running: bool)
      modifies os
      ensures running == GameIsRunning(os.oracle.table(old(os.queries)))
      ensures os.Observed() == old(os.Observed()).(queries := old(os.queries) + 1)
    {
      var processList := os.FindByName();
      running := GameIsRunning(processList);
    }

    method GetGamePIDs(os: Os) returns (pids: seq<int>)
      modifies os
      ensures pids == GamePIDs(os.oracle.table(old(os.queries)))
      ensures os.Observed() == old(os.Observed()).(queries := old(os.queries) + 1)
    {
      var processList := os.FindByName();
      pids := GamePIDs(processList);
    }

    predicate ProcessExitedWithError(os: Os)
      reads this, os
    {
      ExitedWithError(launcherProcess, os.ExitCode())
    }

    method GetLaunchCommandFromRunningProcess(os: Os, port: int) returns (r: Option<LaunchCommand>)
      modifies os
      ensures (r, os.Observed()) == RunningCommand(os.oracle, old(os.Observed()), port)
    {
      var process := os.oracle.portTable(port);
      if |process| == 0 {
        process := os.FindByName();
        if |process| == 0 {
          return None;
        }
      }
      var argv := SplitCommandLine(process[0].cmd);
      var launchCommand := FromArgv(argv, None);
      var thing := os.oracle.openFiles(process[0].pid);
      if |thing| == 0 {
        return Some(launchCommand);
      }
      launchCommand := launchCommand.(cwd := Some(thing[0].GetOr("")));
      return Some(launchCommand);
    }

    method TearDownAfterDebug(os: Os) returns (r: bool)
      modifies this, os
      ensures r && !launcherProcess && gamePID.None?
      ensures os.Observed() == TearDown(os.oracle, old(os.Observed()), old(launcherProcess))
    {
      StopLauncher(os);
      SweepRunningGames(os);
      Reset();
      return true;
    }

    /** The part of `tearDownAfterDebug` after the launcher is stopped. */
    method SweepRunningGames(os: Os)
      modifies os
      ensures os.Observed() == SweepIfRunning(os.oracle, old(os.Observed()))
    {
      ghost var t := os.Observed();
      var running := GetGameIsRunning(os);
      if running {
        var pids := GetGamePIDs(os);
        assert os.Observed() == t.(queries := t.queries + 2);
        SweepIfRunningSweeps(os.oracle, t, pids);
        SweepGames(os, pids);
      } else {
        assert os.Observed() == t.(queries := t.queries + 1);
      }
    }

    /** The launcher's termination: `SIGTERM`, then `SIGKILL` when the first
        signal was not delivered; the handle is dropped once a signal is
        delivered. */
    method StopLauncher(os: Os)
      modifies this, os
      ensures os.Observed() == if old(launcherProcess) then KillLauncher(os.oracle, old(os.Observed())) else old(os.Observed())
    {
      if launcherProcess {
        var outcome := os.Kill(LauncherProcess, Terminate);
        if outcome == Delivered {
          Reset();
        } else if outcome == NotDelivered {
          var second := os.Kill(LauncherProcess, ForceKill);
          if second == Delivered {
            Reset();
          }
        }
      }
    }

    /** The sweeps of `tearDownAfterDebug`: signal every game PID, look
        again, and give up after `MAX_SWEEPS` rounds. */
    method SweepGames(os: Os, pids: seq<int>)
      modifies os
      ensures os.Observed() == Sweeps(os.oracle, old(os.Observed()), pids, 0)
    {
      var pids := pids;
      var retries := 0;
      ghost var goal := Sweeps(os.oracle, os.Observed(), pids, 0);
      while |pids| > 0 && retries < MAX_SWEEPS
        invariant retries <= MAX_SWEEPS
        invariant Sweeps(os.oracle, os.Observed(), pids, retries) == goal
        decreases MAX_SWEEPS - retries
      {
        var kind := if retries == 0 then Terminate else ForceKill;
        ghost var before := os.Observed();
        ghost var next := before.(signals := before.signals + Signals(pids, kind), queries := before.queries + 1);
        SweepUnfolds(os.oracle, before, pids, retries);
        SignalEach(os, pids, kind);
        retries := retries + 1;
        pids := GetGamePIDs(os);
        assert os.Observed() == next;
      }
    }

    /** One sweep's `process.kill` calls; errors are swallowed. */
    method SignalEach(os: Os, pids: seq<int>, kind: SignalKind)
      modifies os
      ensures os.Observed() == old(os.Observed()).(signals := old(os.signals) + Signals(pids, kind))
    {
      for k := 0 to |pids|
        invariant os.Observed() == old(os.Observed()).(signals := old(os.signals) + Signals(pids[..k], kind))
      {
        assert pids[..k + 1][..k] == pids[..k];
        var _ := os.Kill(GameProcess(pids[k]), kind);
      }
      assert pids[..|pids|] == pids;
    }

    method KeepSleepingUntil(os: Os, startTime: int, timeout: int) returns (keepWaiting: bool)
      modifies os
      ensures keepWaiting <==> os.oracle.clock(old(os.readings)) <= startTime + timeout
      ensures os.Observed() == old(os.Observed()).(readings := old(os.readings) + 1)
    {
      var currentTime := os.Now();
      if currentTime > startTime + timeout {
        return false;
      }
      return true;
    }

    method WaitForPort(os: Os, port: int, connectionTimeout: Option<int>, intervalCallback: Option<nat -> bool>)
      returns (result: bool)
      requires Ticking(os.oracle)
      modifies os
      ensures var t := old(os.Observed());
        var deadline := os.oracle.clock(t.readings) + connectionTimeout.GetOr(DEFAULT_PORT_TIMEOUT);
        (os.Observed(), result) == PortWait(os.oracle, t.(readings := t.readings + 1), port, deadline, intervalCallback.GetOr(_ => true))
    {
      var timeout := connectionTimeout.GetOr(DEFAULT_PORT_TIMEOUT);
      var callback := intervalCallback.GetOr(_ => true);
      result := false;
      var startTime := os.Now();
      ghost var goal := PortWait(os.oracle, os.Observed(), port, startTime + timeout, callback);
      while true
        invariant PortWait(os.oracle, os.Observed(), port, startTime + timeout, callback) == goal
        decreases Budget(os.oracle, os.readings, startTime + timeout)
      {
        var currentTime := os.Now();
        if currentTime > startTime + timeout {
          return false;
        }
        result := os.Probe(port);
        if result || !callback(os.probes - 1) {
          break;
        }
      }
      return result;
    }

    /** The first polling loop of `runLauncher`. */
    method AwaitGame(os: Os, startTime: int) returns (failed: bool)
      requires Ticking(os.oracle) && launcherProcess
      modifies os
      ensures (os.Observed(), failed) == WaitForGame(os.oracle, old(os.Observed()), startTime + GAME_START_TIMEOUT)
    {
      ghost var o := os.oracle;
      ghost var goal := WaitForGame(o, os.Observed(), startTime + GAME_START_TIMEOUT);
      while !os.Cancelled()
        invariant WaitForGame(o, os.Observed(), startTime + GAME_START_TIMEOUT) == goal
        decreases Budget(o, os.readings, startTime + GAME_START_TIMEOUT)
      {
        ghost var head := os.Observed();
        GameWaitStep(o, head, startTime + GAME_START_TIMEOUT);
        var gameIsRunning := GetGameIsRunning(os);
        var notTimedOut := KeepSleepingUntil(os, startTime, GAME_START_TIMEOUT);
        if !gameIsRunning && notTimedOut {
          if ProcessExitedWithError(os) {
            return true;
          }
        } else {
          return false;
        }
      }
      return false;
    }

    /** The second polling loop of `runLauncher`, with the outcome it
        leads to. */
    method AwaitDebugPort(os: Os, port: int, startTime: int) returns (state: DebugLaunchState)
      requires Ticking(os.oracle) && launcherProcess
      modifies os
      ensures (os.Observed(), state) == WaitForConnection(os.oracle, old(os.Observed()), port, startTime + CONNECTION_TIMEOUT)
    {
      ghost var o := os.oracle;
      ghost var goal := WaitForConnection(o, os.Observed(), port, startTime + CONNECTION_TIMEOUT);
      var result := false;
      while !os.Cancelled()
        invariant !result
        invariant WaitForConnection(o, os.Observed(), port, startTime + CONNECTION_TIMEOUT) == goal
        decreases Budget(o, os.readings, startTime + CONNECTION_TIMEOUT)
      {
        ghost var head := os.Observed();
        ConnectionWaitStep(o, head, port, startTime + CONNECTION_TIMEOUT);
        var gameIsRunning := GetGameIsRunning(os);
        var currentTime := os.Now();
        var timedOut := currentTime > startTime + CONNECTION_TIMEOUT;
        if timedOut {
          return GameFailedToStart;
        } else if !gameIsRunning {
          if ProcessExitedWithError(os) {
            return LauncherError;
          }
          return GameFailedToStart;
        } else {
          result := os.Probe(port);
          if result {
            return Success;
          }
        }
      }
      return if result then Success else GameFailedToStart;
    }

    method RunLauncher(os: Os, launcherCommand: LaunchCommand, portToCheck: int) returns (state: DebugLaunchState)
      requires Ticking(os.oracle)
      modifies this, os
      ensures Run(state, os.Observed(), launcherProcess, gamePID)
           == RunLauncherSpec(os.oracle, old(os.Observed()), old(launcherProcess), portToCheck)
    {
      var _ := TearDownAfterDebug(os);
      launcherProcess := true;
      state := Spawn(os, portToCheck);
    }

    /** The spawn and the first polling loop of `runLauncher`. */
    method Spawn(os: Os, portToCheck: int) returns (state: DebugLaunchState)
      requires Ticking(os.oracle) && launcherProcess && gamePID.None?
      modifies this, os
      ensures Run(state, os.Observed(), launcherProcess, gamePID) == Spawned(os.oracle, old(os.Observed()), portToCheck)
    {
      if !os.oracle.spawnPipes {
        return LauncherError;
      }
      ghost var t1 := os.Observed();
      var startTime := os.Now();
      var failed := AwaitGame(os, startTime);
      assert (os.Observed(), failed) == FirstWait(os.oracle, t1);
      state := AfterAwaitGame(os, failed, portToCheck);
    }

    /** What `runLauncher` does once the game has been waited for. */
    method AfterAwaitGame(os: Os, failed: bool, portToCheck: int) returns (state: DebugLaunchState)
      requires Ticking(os.oracle) && launcherProcess && gamePID.None?
      modifies this, os
      ensures Run(state, os.Observed(), launcherProcess, gamePID) == AfterGameWait(os.oracle, (old(os.Observed()), failed), portToCheck)
    {
      if failed {
        return LauncherError;
      }
      if os.Cancelled() {
        var _ := TearDownAfterDebug(os);
        return Cancelled;
      }
      ghost var t2 := os.Observed();
      var gamePIDs := GetGamePIDs(os);
      if |gamePIDs| == 0 {
        return GameFailedToStart;
      }
      if |gamePIDs| > 1 {
        return MultipleGamesRunning;
      }
      gamePID := Some(gamePIDs[0]);
      var startTime := os.Now();
      assert os.Observed() == t2.(queries := t2.queries + 1, readings := t2.readings + 1);
      OneGameThenPortWait(os.oracle, t2, portToCheck);
      state := AwaitDebugPort(os, portToCheck, startTime);
    }
  }
}
