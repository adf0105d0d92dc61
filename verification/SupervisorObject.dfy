/**
  The supervisor as it runs: module variables changed in place. Each method is one stretch of
  scripts/supervisor.ts between two awaits and one step of SupervisorModel; `Valid` is the
  invariant of SupervisorSafety, which every call keeps.
 */
module SupervisorObject {
  import opened Prelude
  import opened SupervisorPlan
  import opened SupervisorModel
  import opened SupervisorSafety

  /** The clock, and the server processes the system runs or has just ended. */
  datatype World = World(now: nat, next: nat, live: set<nat>, dead: set<nat>)

  /** What the specification remembers: the latest crash and the fate of every request. */
  datatype Ledger = Ledger(lastExit: nat, asks: nat, waiting: set<nat>, carried: set<nat>, served: set<nat>, dropped: set<nat>)

  class Supervisor {
    const maxCrashes: nat
    var world: World
    ghost var ledger: Ledger
    // ---- child process
    var child: Option<nat>
    var childHasPid: bool
    var childStartedAt: nat
    var stopping: bool
    var down: bool
    var consecutiveCrashes: nat
    var restartTimer: Option<nat>
    // ---- change queue
    var pending: Action
    var debounceTimer: bool
    var queuedBuild: bool
    var queuedRestart: bool
    /** Where drain() is suspended; `Idle` is `draining === false`. */
    var draining: Drain
    // ---- lifecycle
    var booted: bool
    var shutdown: Shutdown

    ghost function ProcessModel(): Process
      reads this
    {
      Process(world.now, child, childHasPid, childStartedAt, world.next, world.live, world.dead, stopping, down,
              consecutiveCrashes, restartTimer, ledger.lastExit)
    }

    ghost function QueueModel(): Changes
      reads this
    {
      Changes(pending, debounceTimer, queuedBuild, queuedRestart, draining,
              ledger.asks, ledger.waiting, ledger.carried, ledger.served, ledger.dropped)
    }

    ghost function Model(): State
      reads this
    {
      State(ProcessModel(), QueueModel(), booted, shutdown)
    }

    /** There is at most one server, and no queued work without a drain loop to take it. */
    ghost predicate Valid()
      reads this
      ensures Valid() ==> forall a, b :: a in world.live && b in world.live ==> a == b
      ensures Valid() && (queuedBuild || queuedRestart) && shutdown.Up? ==> !draining.Idle?
    {
      Inv(Model(), maxCrashes)
    }

    twostate predicate Took(e: Event)
      reads this
    {
      Enabled(old(Model()), e) && Model() == Step(old(Model()), e, maxCrashes)
    }

    twostate lemma StaysValid(e: Event)
      requires old(Valid()) && Took(e)
      ensures Valid()
    {
      StepKeeps(old(Model()), e, maxCrashes);
    }

    constructor (maxCrashes: nat)
      ensures Model() == INITIAL && this.maxCrashes == maxCrashes && Valid()
    {
      this.maxCrashes := maxCrashes;
      world := World(0, 0, {}, {});
      ledger := Ledger(0, 0, {}, {}, {}, {});
      child, childHasPid, childStartedAt, stopping, down := None, false, 0, false, false;
      consecutiveCrashes, restartTimer := 0, None;
      pending, debounceTimer, queuedBuild, queuedRestart, draining := Ignore, false, false, false, Idle;
      booted, shutdown := false, Up;
    }

    // ---- child process -----------------------------------------------------------------

    /** startServer up to its handlers; `ok` is whether the process got an id. */
    method StartServer(ok: bool)
      modifies this
      ensures Model() == old(Model()).(p := Start(old(ProcessModel()), ok))
    {
      child, childHasPid, childStartedAt := Some(world.next), ok, world.now;
      world := world.(next := world.next + 1, live := if ok then world.live + {world.next} else world.live);
    }

    /** main, after the initial build. */
    method Boot(ok: bool)
      requires Enabled(Model(), Boots(ok))
      modifies this
      ensures Took(Boots(ok))
    {
      booted := true;
      StartServer(ok);
    }

    /** The crash branch of the exit handler. */
    method OnCrash()
      modifies this
      ensures Model() == old(Model()).(p := Crash(old(ProcessModel()), maxCrashes))
    {
      child := None;
      var uptime := world.now - childStartedAt;
      if uptime >= STABLE_UPTIME_MS {
        consecutiveCrashes := 0;
      }
      consecutiveCrashes := consecutiveCrashes + 1;
      ledger := ledger.(lastExit := world.now);
      if consecutiveCrashes > maxCrashes {
        down := true;
      } else {
        restartTimer := Some(world.now + BackoffDelay(consecutiveCrashes));
      }
    }

    /** The exit handler startServer installed. */
    method OnChildExit(id: nat)
      modifies this
      ensures Model() == old(Model()).(p := Exit(old(ProcessModel()), id, old(stopping) || !old(shutdown).Up?, maxCrashes))
    {
      world := world.(dead := world.dead - {id});
      if child != Some(id) {
        return;
      }
      if stopping || !shutdown.Up? {
        child := None;
      } else {
        OnCrash();
      }
    }

    /** The exit event of process `id`: that handler, and then the promises stopServer awaits. */
    method OnExit(id: nat)
      requires Enabled(Model(), Exits(id))
      modifies this
      ensures Took(Exits(id))
    {
      OnChildExit(id);
      if draining == AwaitsExit(id) {
        draining := SawExit;
      }
      if shutdown == StopAwaitsExit(id) {
        shutdown := StopSawExit;
      }
    }

    method OnRestartTimer(ok: bool)
      requires Enabled(Model(), TimerFires(ok))
      modifies this
      ensures Took(TimerFires(ok))
    {
      restartTimer := None;
      if shutdown.Up? && child.None? {
        StartServer(ok);
      }
    }

    /** stopServer up to its await; the result is the process it waits for. */
    method BeginStop() returns (target: Option<nat>)
      modifies this
      ensures Model() == old(Model()).(p := StopBegins(old(ProcessModel())))
      ensures target == if NothingToStop(old(ProcessModel())) then None else old(child)
    {
      restartTimer := None;
      if child.None? || !childHasPid {
        child := None;
        return None;
      }
      stopping := true;
      target := child;
    }

    /** stopServer from the exit it awaited to its wait for the port, in a restart or at shutdown. */
    method OnStopExit(atShutdown: bool)
      requires Enabled(Model(), if atShutdown then ShutdownResumes else StopResumes)
      modifies this
      ensures Took(if atShutdown then ShutdownResumes else StopResumes)
    {
      child := None;
      stopping := false;
      if atShutdown {
        shutdown := StopAwaitsPort;
      } else {
        draining := Stopped;
      }
    }

    // ---- change queue -------------------------------------------------------------------

    method NoteChange(action: Action)
      requires Enabled(Model(), Notes(action))
      modifies this
      ensures Took(Notes(action))
    {
      if action.Ignore? {
        return;
      }
      pending := Merge(pending, action);
      debounceTimer := true;
    }

    /** Raising the flags and calling drain(). */
    method Raise(build: bool, restart: bool)
      modifies this
      ensures Model() == old(Model()).(q := Enqueue(old(QueueModel()), build, restart, ShuttingDown(old(Model()))))
    {
      if build {
        queuedBuild := true;
      }
      if restart {
        queuedRestart := true;
        ledger := ledger.(waiting := ledger.waiting + {ledger.asks}, asks := ledger.asks + 1);
      }
      if draining.Idle? && shutdown.Up? {
        draining := Head;
      }
    }

    method FlushPending()
      requires Enabled(Model(), Flushes)
      modifies this
      ensures Took(Flushes)
    {
      debounceTimer := false;
      var action := pending;
      pending := Ignore;
      if !action.Ignore? {
        Raise(NeedsBuild(action), NeedsRestart(action));
      }
    }

    /** pollGit, once it knows what a moved HEAD asks for. */
    method OnCommits(build: bool, restart: bool)
      requires Enabled(Model(), Commits(build, restart))
      modifies this
      ensures Took(Commits(build, restart))
    {
      Raise(build, restart);
    }

    /** The loop test of drain() and what follows it up to the next await. */
    method DrainLoop()
      requires Enabled(Model(), Loops)
      modifies this
      ensures Took(Loops)
    {
      if (queuedBuild || queuedRestart) && shutdown.Up? {
        var build, restart := queuedBuild, queuedRestart;
        queuedBuild, queuedRestart := false, false;
        ledger := ledger.(waiting := {}, carried := ledger.waiting);
        draining := if build then Building(restart) else Acting(false, restart);
      } else {
        draining := Idle;
      }
    }

    method OnBuild(ok: bool)
      requires Enabled(Model(), BuildEnds(ok))
      modifies this
      ensures Took(BuildEnds(ok))
    {
      if !ok {
        ledger := ledger.(carried := {}, dropped := ledger.dropped + ledger.carried);
        draining := Head;
        return;
      }
      draining := Acting(true, draining.restart);
    }

    /** The end of a pass: restartServer up to its await, or nothing. */
    method EndPass()
      requires Enabled(Model(), Acts)
      modifies this
      ensures Took(Acts)
    {
      if draining.restart || down || child.None? {
        var target := BeginStop();
        match target {
          case Some(id) => draining := AwaitsExit(id);
          case None => draining := Stopped;
        }
      } else {
        draining := Head;
      }
    }

    /** restartServer after stopServer. */
    method OnStopped(ok: bool)
      requires Enabled(Model(), StartsAgain(ok))
      modifies this
      ensures Took(StartsAgain(ok))
    {
      draining := Head;
      if !shutdown.Up? {
        return;
      }
      consecutiveCrashes := 0;
      down := false;
      StartServer(ok);
      ledger := ledger.(carried := {}, served := ledger.served + ledger.carried);
    }

    // ---- lifecycle -----------------------------------------------------------------------

    method OnSignal()
      requires Enabled(Model(), Signals)
      modifies this
      ensures Took(Signals)
    {
      if !shutdown.Up? {
        shutdown := Gone(true);
        return;
      }
      var target := BeginStop();
      match target {
        case Some(id) => shutdown := StopAwaitsExit(id);
        case None => shutdown := Gone(false);
      }
    }
  }
}
