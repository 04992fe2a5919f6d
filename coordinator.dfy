/**
 * The watch / rebuild / serve coordinator `run`: it installs the watcher,
 * generates the documentation once, then either serves forever or, in watch
 * mode, restarts the server around a regeneration after every change event.
 *
 * Threads and channels become sequential rendezvous steps: spawning the server
 * thread is a `Start`, sending the shutdown signal and waiting for the done
 * signal is a `Stop`, and every `doc::generate` is a `Build`. The change events
 * the watcher delivers, and the outcome of the regeneration each one triggers,
 * are an input sequence.
 */
module Coordinator {

  import opened Errors
  import opened Http
  import opened Paths
  import opened DocTargets
  import opened Server

  /** The parts of `DocserveOptions` the loop itself consumes. */
  datatype Options = Options(watch: bool, addr: SocketAddr)

  /**
   * The outcomes `run` gets from cargo and the watcher before the loop: the
   * workspace (its members, or the error of locating the manifest or loading
   * it), the configured target directory, installing the watcher on `src`, and
   * the first `doc::generate`.
   */
  datatype Environment = Environment(
    workspace: Fallible<seq<Package>>,
    targetDir: Fallible<Option<Path>>,
    watcher: Outcome,
    initialBuild: Outcome)

  /** One `rx_notify.recv()`: an event, with the outcome of the regeneration it leads to, or a receive error. */
  datatype Notification = Changed(rebuild: Outcome) | RecvError(message: string)

  /** The shutdown signal a server is started with: `future::empty` never fires; a oneshot is fired on `Stop`. */
  datatype Signal = NeverFires | Oneshot

  /** What the coordinator does, in order. */
  datatype Action =
    | Build(result: Outcome)
    | Start(config: ServerConfig, addr: SocketAddr, shutdown: Signal)
    | Stop

  /**
   * How `run` ends: it returns `Ok` or an error, the process exits with a code,
   * or the input runs out while `run` is blocked waiting for the next event.
   */
  datatype RunOutcome = Returned(result: Outcome) | Exited(code: int) | AwaitingEvent

  // ---- The reference definition of `run` ----

  /** The server configuration is computed once, before the loop, from the workspace and the target directory. */
  function ConfigOf(members: seq<Package>, targetDir: Option<Path>): ServerConfig
  {
    ServerConfig(DocDir(targetDir), DocumentedLibs(members))
  }

  /** True when every step before the loop succeeded: workspace, target directory, watcher, first build. */
  predicate ReadyToServe(env: Environment)
  {
    env.workspace.Ok? && env.targetDir.Ok? && env.watcher.Pass? && env.initialBuild.Pass?
  }

  /** The watch loop from one server start on: one cycle per event while regenerations succeed. */
  function WatchTrace(config: ServerConfig, addr: SocketAddr, events: seq<Notification>): seq<Action>
    decreases |events|
  {
    [Start(config, addr, Oneshot)] +
    if events == [] then []
    else match events[0]
      case RecvError(_) => []
      case Changed(rebuild) =>
        [Stop, Build(rebuild)] + (if rebuild.Pass? then WatchTrace(config, addr, events[1..]) else [])
  }

  /** How the watch loop ends. */
  function WatchOutcome(events: seq<Notification>): RunOutcome
    decreases |events|
  {
    if events == [] then AwaitingEvent
    else match events[0]
      case RecvError(_) => Exited(1)
      case Changed(rebuild) => if rebuild.Fail? then Returned(rebuild) else WatchOutcome(events[1..])
  }

  /** Everything `run` does, as a trace of actions. */
  function RunTrace(opts: Options, env: Environment, events: seq<Notification>): seq<Action>
  {
    if env.workspace.Err? || env.targetDir.Err? || env.watcher.Fail? then []
    else if env.initialBuild.Fail? then [Build(env.initialBuild)]
    else
      var config := ConfigOf(env.workspace.value, env.targetDir.value);
      [Build(env.initialBuild)] +
      if opts.watch then WatchTrace(config, opts.addr, events) else [Start(config, opts.addr, NeverFires)]
  }

  /** How `run` ends; the first failing step before the loop decides the error. */
  function RunResult(opts: Options, env: Environment, events: seq<Notification>): RunOutcome
  {
    if env.workspace.Err? then Returned(Fail(env.workspace.error))
    else if env.targetDir.Err? then Returned(Fail(env.targetDir.error))
    else if env.watcher.Fail? then Returned(env.watcher)
    else if env.initialBuild.Fail? then Returned(env.initialBuild)
    else if opts.watch then WatchOutcome(events)
    else Returned(Pass)
  }

  /**
   * Lemma: before the loop. A failing setup step returns its error with nothing
   * done; a failing first generation returns its error after that one build; in
   * standard mode `run` builds once, starts one server that is never signalled,
   * and returns Ok.
   */
  lemma BeforeTheLoop(opts: Options, env: Environment, events: seq<Notification>)
    ensures env.workspace.Err? ==>
      RunResult(opts, env, events) == Returned(Fail(env.workspace.error)) && RunTrace(opts, env, events) == []
    ensures env.workspace.Ok? && env.targetDir.Err? ==>
      RunResult(opts, env, events) == Returned(Fail(env.targetDir.error)) && RunTrace(opts, env, events) == []
    ensures env.workspace.Ok? && env.targetDir.Ok? && env.watcher.Fail? ==>
      RunResult(opts, env, events) == Returned(env.watcher) && RunTrace(opts, env, events) == []
    ensures env.workspace.Ok? && env.targetDir.Ok? && env.watcher.Pass? && env.initialBuild.Fail? ==>
      RunResult(opts, env, events) == Returned(env.initialBuild) &&
      RunTrace(opts, env, events) == [Build(env.initialBuild)]
    ensures ReadyToServe(env) && !opts.watch ==>
      RunResult(opts, env, events) == Returned(Pass) &&
      RunTrace(opts, env, events) ==
        [Build(Pass), Start(ConfigOf(env.workspace.value, env.targetDir.value), opts.addr, NeverFires)]
  {
  }

  // ---- The single-server discipline ----

  /**
   * A trace keeps the server discipline when it starts a server only while none
   * is live, stops one only while one is live, and regenerates only while none
   * is live. `live` says whether a server is running when the trace begins.
   */
  predicate Disciplined(t: seq<Action>, live: bool)
    decreases |t|
  {
    t == [] ||
    match t[0]
    case Start(_, _, _) => !live && Disciplined(t[1..], true)
    case Stop => live && Disciplined(t[1..], false)
    case Build(_) => !live && Disciplined(t[1..], false)
  }

  /** Servers started minus servers stopped. */
  function LiveServers(t: seq<Action>): int
    decreases |t|
  {
    if t == [] then 0
    else (match t[0] case Start(_, _, _) => 1 case Stop => -1 case Build(_) => 0) + LiveServers(t[1..])
  }

  /** `k` successful restart cycles: start, event, shutdown, successful regeneration. */
  function Cycles(config: ServerConfig, addr: SocketAddr, k: nat): seq<Action>
  {
    if k == 0 then [] else Cycles(config, addr, k - 1) + [Start(config, addr, Oneshot), Stop, Build(Pass)]
  }

  lemma DisciplinedCons(a: Action, t: seq<Action>, live: bool)
    ensures Disciplined([a] + t, live) <==>
      match a
      case Start(_, _, _) => !live && Disciplined(t, true)
      case Stop => live && Disciplined(t, false)
      case Build(_) => !live && Disciplined(t, false)
  {
    assert ([a] + t)[0] == a;
    assert ([a] + t)[1..] == t;
  }

  /** Lemma: the watch loop never has two servers live, and never regenerates while one is. */
  lemma {:induction false} WatchTraceDisciplined(config: ServerConfig, addr: SocketAddr, events: seq<Notification>)
    ensures Disciplined(WatchTrace(config, addr, events), false)
    decreases |events|
  {
    var start := Start(config, addr, Oneshot);
    if events == [] || events[0].RecvError? {
      DisciplinedCons(start, [], false);
    } else {
      var rebuild := events[0].rebuild;
      var rest := if rebuild.Pass? then WatchTrace(config, addr, events[1..]) else [];
      if rebuild.Pass? {
        WatchTraceDisciplined(config, addr, events[1..]);
      }
      DisciplinedCons(Build(rebuild), rest, false);
      DisciplinedCons(Stop, [Build(rebuild)] + rest, true);
      assert [Stop, Build(rebuild)] + rest == [Stop] + ([Build(rebuild)] + rest);
      DisciplinedCons(start, [Stop, Build(rebuild)] + rest, false);
    }
  }

  /** Lemma: every trace of `run` keeps the server discipline. */
  lemma RunTraceDisciplined(opts: Options, env: Environment, events: seq<Notification>)
    ensures Disciplined(RunTrace(opts, env, events), false)
  {
    var t := RunTrace(opts, env, events);
    if !(env.workspace.Err? || env.targetDir.Err? || env.watcher.Fail?) {
      if env.initialBuild.Fail? {
        DisciplinedCons(Build(env.initialBuild), [], false);
      } else {
        var config := ConfigOf(env.workspace.value, env.targetDir.value);
        var rest := if opts.watch then WatchTrace(config, opts.addr, events) else [Start(config, opts.addr, NeverFires)];
        if opts.watch {
          WatchTraceDisciplined(config, opts.addr, events);
        } else {
          DisciplinedCons(Start(config, opts.addr, NeverFires), [], false);
        }
        DisciplinedCons(Build(env.initialBuild), rest, false);
      }
    }
  }

  /**
   * Lemma: in a disciplined trace, at every point at most one server is live:
   * server lifetimes never overlap.
   */
  lemma {:induction false} DisciplinedAtMostOneServer(t: seq<Action>, live: bool)
    requires Disciplined(t, live)
    ensures forall k :: 0 <= k <= |t| ==> 0 <= (if live then 1 else 0) + LiveServers(t[..k]) <= 1
    decreases |t|
  {
    forall k | 0 <= k <= |t|
      ensures 0 <= (if live then 1 else 0) + LiveServers(t[..k]) <= 1
    {
      if k > 0 {
        var live' := match t[0] case Start(_, _, _) => true case Stop => false case Build(_) => false;
        DisciplinedAtMostOneServer(t[1..], live');
        assert t[..k][0] == t[0];
        assert t[..k][1..] == t[1..][..k - 1];
      }
    }
  }

  // ---- Restart cycles ----

  /** One step of the watch loop: how the trace goes on after the next event. */
  lemma WatchTraceStep(config: ServerConfig, addr: SocketAddr, events: seq<Notification>)
    ensures events == [] || events[0].RecvError? ==> WatchTrace(config, addr, events) == [Start(config, addr, Oneshot)]
    ensures events != [] && events[0].Changed? && events[0].rebuild.Fail? ==>
      WatchTrace(config, addr, events) == [Start(config, addr, Oneshot), Stop, Build(events[0].rebuild)]
    ensures events != [] && events[0] == Changed(Pass) ==>
      WatchTrace(config, addr, events) == [Start(config, addr, Oneshot), Stop, Build(Pass)] + WatchTrace(config, addr, events[1..])
    ensures WatchOutcome(events) ==
      if events == [] then AwaitingEvent
      else if events[0].RecvError? then Exited(1)
      else if events[0].rebuild.Fail? then Returned(events[0].rebuild)
      else WatchOutcome(events[1..])
  {
    if events != [] && events[0] == Changed(Pass) {
      var w := WatchTrace(config, addr, events[1..]);
      assert [Start(config, addr, Oneshot)] + ([Stop, Build(Pass)] + w) == [Start(config, addr, Oneshot), Stop, Build(Pass)] + w;
    }
  }

  /** True when the first `k` events each lead to a successful regeneration. */
  predicate RebuildsOkBefore(events: seq<Notification>, k: nat)
  {
    k <= |events| && forall j :: 0 <= j < k ==> events[j] == Changed(Pass)
  }

  /** Lemma: k cycles followed by a trace are k - 1 cycles followed by one more cycle and that trace. */
  lemma CyclesThen(config: ServerConfig, addr: SocketAddr, k: nat, w: seq<Action>)
    requires k > 0
    ensures Cycles(config, addr, k) + w ==
      Cycles(config, addr, k - 1) + ([Start(config, addr, Oneshot), Stop, Build(Pass)] + w)
  {
    var cycle := [Start(config, addr, Oneshot), Stop, Build(Pass)];
    assert (Cycles(config, addr, k - 1) + cycle) + w == Cycles(config, addr, k - 1) + (cycle + w);
  }

  /** Lemma: events whose regenerations succeed each contribute one full restart cycle. */
  lemma {:induction false} WatchCycles(config: ServerConfig, addr: SocketAddr, events: seq<Notification>, k: nat)
    requires RebuildsOkBefore(events, k)
    ensures WatchTrace(config, addr, events) == Cycles(config, addr, k) + WatchTrace(config, addr, events[k..])
    ensures WatchOutcome(events) == WatchOutcome(events[k..])
    decreases k
  {
    if k == 0 {
      assert events[k..] == events;
    } else {
      WatchCycles(config, addr, events, k - 1);
      var rest := events[k - 1..];
      assert rest[0] == events[k - 1] == Changed(Pass);
      assert rest[1..] == events[k..];
      WatchTraceStep(config, addr, rest);
      CyclesThen(config, addr, k, WatchTrace(config, addr, events[k..]));
    }
  }

  /** Lemma: the three ways the watch loop ends after `k` successful cycles. */
  lemma WatchLoopExit(config: ServerConfig, addr: SocketAddr, events: seq<Notification>, k: nat)
    requires RebuildsOkBefore(events, k)
    ensures k == |events| ==>
      WatchTrace(config, addr, events) == Cycles(config, addr, k) + [Start(config, addr, Oneshot)] &&
      WatchOutcome(events) == AwaitingEvent
    ensures k < |events| && events[k].RecvError? ==>
      WatchTrace(config, addr, events) == Cycles(config, addr, k) + [Start(config, addr, Oneshot)] &&
      WatchOutcome(events) == Exited(1)
    ensures k < |events| && events[k].Changed? && events[k].rebuild.Fail? ==>
      WatchTrace(config, addr, events) ==
        Cycles(config, addr, k) + [Start(config, addr, Oneshot), Stop, Build(events[k].rebuild)] &&
      WatchOutcome(events) == Returned(events[k].rebuild)
  {
    WatchCycles(config, addr, events, k);
    WatchTraceStep(config, addr, events[k..]);
    if k < |events| {
      assert events[k..][0] == events[k];
    }
  }

  /**
   * Lemma: a regeneration that fails after an event ends `run` with that error;
   * that build is the last action and no further server is started.
   */
  lemma RebuildFailureIsFatal(opts: Options, env: Environment, events: seq<Notification>, k: nat, e: Error)
    requires ReadyToServe(env) && opts.watch
    requires k < |events| && RebuildsOkBefore(events, k) && events[k] == Changed(Fail(e))
    ensures RunResult(opts, env, events) == Returned(Fail(e))
    ensures var config := ConfigOf(env.workspace.value, env.targetDir.value);
      RunTrace(opts, env, events) ==
        [Build(Pass)] + Cycles(config, opts.addr, k) + [Start(config, opts.addr, Oneshot), Stop, Build(Fail(e))]
  {
    var config := ConfigOf(env.workspace.value, env.targetDir.value);
    WatchCycles(config, opts.addr, events, k);
    WatchTraceStep(config, opts.addr, events[k..]);
    assert events[k..][0] == events[k];
  }

  /** Lemma: a watcher receive error exits the process with status 1 while the current server is still live. */
  lemma RecvErrorExits(opts: Options, env: Environment, events: seq<Notification>, k: nat)
    requires ReadyToServe(env) && opts.watch
    requires k < |events| && RebuildsOkBefore(events, k) && events[k].RecvError?
    ensures RunResult(opts, env, events) == Exited(1)
    ensures var config := ConfigOf(env.workspace.value, env.targetDir.value);
      RunTrace(opts, env, events) == [Build(Pass)] + Cycles(config, opts.addr, k) + [Start(config, opts.addr, Oneshot)]
  {
    var config := ConfigOf(env.workspace.value, env.targetDir.value);
    WatchCycles(config, opts.addr, events, k);
    WatchTraceStep(config, opts.addr, events[k..]);
    assert events[k..][0] == events[k];
  }

  /** Lemma: while every event's regeneration succeeds, `run` keeps waiting with the (k+1)-th server live. */
  lemma {:induction false} KeepsServing(opts: Options, env: Environment, events: seq<Notification>)
    requires ReadyToServe(env) && opts.watch && RebuildsOkBefore(events, |events|)
    ensures RunResult(opts, env, events) == AwaitingEvent
    ensures var config := ConfigOf(env.workspace.value, env.targetDir.value);
      RunTrace(opts, env, events) ==
        [Build(Pass)] + Cycles(config, opts.addr, |events|) + [Start(config, opts.addr, Oneshot)]
  {
    var config := ConfigOf(env.workspace.value, env.targetDir.value);
    var n := |events|;
    WatchCycles(config, opts.addr, events, n);
    assert WatchTrace(config, opts.addr, events[n..]) == [Start(config, opts.addr, Oneshot)];
  }

  /**
   * Lemma: every server in a watch-loop trace is started with the same
   * configuration and address and with a oneshot signal; every start but the
   * first comes right after a successful regeneration, and every regeneration
   * right after a shutdown.
   */
  lemma {:induction false} WatchTraceShape(config: ServerConfig, addr: SocketAddr, events: seq<Notification>)
    ensures var w := WatchTrace(config, addr, events);
      && w[0] == Start(config, addr, Oneshot)
      && (forall k :: 0 <= k < |w| && w[k].Start? ==> w[k] == Start(config, addr, Oneshot))
      && (forall k :: 0 < k < |w| && w[k].Start? ==> w[k - 1] == Build(Pass))
      && (forall k :: 0 < k < |w| && w[k].Build? ==> w[k - 1] == Stop)
    decreases |events|
  {
    var w := WatchTrace(config, addr, events);
    if events != [] && events[0].Changed? && events[0].rebuild.Pass? {
      var rest := WatchTrace(config, addr, events[1..]);
      WatchTraceShape(config, addr, events[1..]);
      assert w == [Start(config, addr, Oneshot), Stop, Build(Pass)] + rest;
      forall k | 3 <= k < |w|
        ensures w[k] == rest[k - 3]
      {
      }
    }
  }

  /**
   * Lemma: in every trace of `run`, each server is started with the one
   * configuration computed before the loop and the configured address, right
   * after a successful build; each build but the first comes right after a
   * shutdown.
   */
  lemma RunTraceShape(opts: Options, env: Environment, events: seq<Notification>)
    ensures var t := RunTrace(opts, env, events);
      && (t != [] ==> t[0] == Build(env.initialBuild))
      && (forall k :: 0 <= k < |t| && t[k].Start? ==>
            && t[k].config == ConfigOf(env.workspace.value, env.targetDir.value)
            && t[k].addr == opts.addr
            && t[k].shutdown == (if opts.watch then Oneshot else NeverFires)
            && k > 0 && t[k - 1] == Build(Pass))
      && (forall k :: 0 < k < |t| && t[k].Build? ==> t[k - 1] == Stop)
  {
    var t := RunTrace(opts, env, events);
    if ReadyToServe(env) && opts.watch {
      var config := ConfigOf(env.workspace.value, env.targetDir.value);
      var w := WatchTrace(config, opts.addr, events);
      WatchTraceShape(config, opts.addr, events);
      assert t == [Build(Pass)] + w;
      forall k | 1 <= k < |t|
        ensures t[k] == w[k - 1]
      {
      }
    }
  }

  // ---- The loop itself ----

  /**
   * The `loop` of `run`, entered after the first successful build. Each
   * iteration starts a server: in standard mode with a signal that never fires,
   * after which `run` returns `Ok`; in watch mode it then blocks on the next
   * event, sends the shutdown signal, waits for the done signal and regenerates,
   * `?` turning a failed regeneration into an error return.
   */
  method ServeLoop(opts: Options, config: ServerConfig, events: seq<Notification>)
    returns (outcome: RunOutcome, ghost trace: seq<Action>)
    ensures opts.watch ==> outcome == WatchOutcome(events)
    ensures !opts.watch ==> outcome == Returned(Pass)
    ensures trace == if opts.watch then WatchTrace(config, opts.addr, events) else [Start(config, opts.addr, NeverFires)]
  {
    trace := [];
    var i := 0;
    while true
      invariant RebuildsOkBefore(events, i)
      invariant trace == if opts.watch then Cycles(config, opts.addr, i) else []
      decreases |events| - i
    {
      if !opts.watch {
        trace := trace + [Start(config, opts.addr, NeverFires)];
        return Returned(Pass), trace;
      }
      WatchLoopExit(config, opts.addr, events, i);
      trace := trace + [Start(config, opts.addr, Oneshot)];
      if i == |events| {
        return AwaitingEvent, trace;
      }
      var event := events[i];
      if event.RecvError? {
        return Exited(1), trace;
      }
      trace := trace + [Stop, Build(event.rebuild)];
      if event.rebuild.Fail? {
        return Returned(event.rebuild), trace;
      }
      i := i + 1;
    }
  }

  /**
   * `run`: locate and load the workspace, compute the server configuration once,
   * install the watcher, generate the documentation, then enter the loop.
   */
  method Run(opts: Options, env: Environment, events: seq<Notification>)
    returns (outcome: RunOutcome, ghost trace: seq<Action>)
    ensures outcome == RunResult(opts, env, events) && trace == RunTrace(opts, env, events)
    ensures Disciplined(trace, false)
  {
    RunTraceDisciplined(opts, env, events);
    if env.workspace.Err? {
      return Returned(Fail(env.workspace.error)), [];
    }
    var members := env.workspace.value;
    if env.targetDir.Err? {
      return Returned(Fail(env.targetDir.error)), [];
    }
    var docDir := DocDir(env.targetDir.value);
    var targets := DocumentedLibs(members);
    var config := ServerConfig(docDir, targets);
    if env.watcher.Fail? {
      return Returned(env.watcher), [];
    }
    trace := [Build(env.initialBuild)];
    if env.initialBuild.Fail? {
      return Returned(env.initialBuild), trace;
    }
    ghost var rest;
    outcome, rest := ServeLoop(opts, config, events);
    trace := trace + rest;
  }
}
