/**
  The development supervisor (scripts/supervisor.ts) as a state machine: one step for each
  stretch of code between two awaits, and steps for what the world does meanwhile.
 */
module SupervisorModel {
  import opened Prelude
  import opened SupervisorPlan

  const STABLE_UPTIME_MS: nat := 15000

  /** The server process. `live` are the processes running, `dead` those whose exit event is
      still to be delivered; `spawned` says whether the child ever got a process id, and
      `lastExit` is when the latest crash was handled. */
  datatype Process = Process(
    now: nat, child: Option<nat>, spawned: bool, startedAt: nat, next: nat, live: set<nat>, dead: set<nat>,
    stopping: bool, down: bool, crashes: nat, timer: Option<nat>, lastExit: nat)

  /** Where the drain loop stands: about to test its queue, or waiting somewhere in a pass. */
  datatype Drain =
    | Idle
    | Head
    | Building(restart: bool)
    | Acting(build: bool, restart: bool)
    | AwaitsExit(target: nat)
    | SawExit
    | Stopped

  /** The change queue. Every restart request is numbered; it waits in the queue, is carried by
      a pass, and ends served by a start or dropped with a failed build. */
  datatype Changes = Changes(
    pending: Action, debounce: bool, build: bool, restart: bool, drain: Drain,
    asks: nat, waiting: set<nat>, carried: set<nat>, served: set<nat>, dropped: set<nat>)

  datatype Shutdown = Up | StopAwaitsExit(target: nat) | StopSawExit | StopAwaitsPort | Gone(forced: bool)

  datatype State = State(p: Process, q: Changes, booted: bool, shut: Shutdown)

  const INITIAL := State(
    Process(0, None, false, 0, 0, {}, {}, false, false, 0, None, 0),
    Changes(Ignore, false, false, false, Idle, 0, {}, {}, {}, {}),
    false, Up)

  datatype Event =
    | Tick(elapsed: nat)
    | Boots(ok: bool)
    | Dies(id: nat)
    | Exits(id: nat)
    | TimerFires(ok: bool)
    | Notes(action: Action)
    | Flushes
    | Commits(build: bool, restart: bool)
    | Loops
    | BuildEnds(ok: bool)
    | Acts
    | StopResumes
    | StartsAgain(ok: bool)
    | Signals
    | ShutdownResumes
    | ShutdownEnds

  predicate ShuttingDown(s: State) {
    !s.shut.Up?
  }

  predicate Enabled(s: State, e: Event) {
    && !s.shut.Gone?
    && match e
       case Tick(_) => true
       case Boots(_) => !s.booted && s.shut.Up?
       case Dies(id) => id in s.p.live
       case Exits(id) => id in s.p.dead
       case TimerFires(_) => s.p.timer.Some? && s.p.timer.value <= s.p.now
       case Notes(_) => s.booted
       case Flushes => s.q.debounce
       case Commits(build, restart) => s.booted && (build || restart)
       case Loops => s.q.drain.Head?
       case BuildEnds(_) => s.q.drain.Building?
       case Acts => s.q.drain.Acting?
       case StopResumes => s.q.drain.SawExit?
       case StartsAgain(_) => s.q.drain.Stopped?
       case Signals => true
       case ShutdownResumes => s.shut.StopSawExit?
       case ShutdownEnds => s.shut.StopAwaitsPort?
  }

  // ---- the child process -----------------------------------------------------------------

  /** startServer; without `ok` the process could not be spawned and never gets an id. */
  function Start(p: Process, ok: bool): Process {
    p.(child := Some(p.next), spawned := ok, startedAt := p.now, next := p.next + 1,
       live := if ok then p.live + {p.next} else p.live)
  }

  function CrashCount(p: Process): nat {
    (if p.now - p.startedAt >= STABLE_UPTIME_MS then 0 else p.crashes) + 1
  }

  /** The exit handler of a child nobody is stopping. */
  function Crash(p: Process, maxCrashes: nat): Process {
    if CrashCount(p) > maxCrashes then p.(child := None, crashes := CrashCount(p), down := true, lastExit := p.now)
    else p.(child := None, crashes := CrashCount(p), lastExit := p.now,
            timer := Some(p.now + BackoffDelay(CrashCount(p))))
  }

  function Exit(p: Process, id: nat, onPurpose: bool, maxCrashes: nat): Process {
    var q := p.(dead := p.dead - {id});
    if p.child != Some(id) then q
    else if onPurpose then q.(child := None)
    else Crash(q, maxCrashes)
  }

  predicate NothingToStop(p: Process) {
    p.child.None? || !p.spawned
  }

  /** stopServer up to its await. */
  function StopBegins(p: Process): Process {
    if NothingToStop(p) then p.(timer := None, child := None) else p.(timer := None, stopping := true)
  }

  /** ... and from the exit it awaited to the wait for the port. */
  function StopSeen(p: Process): Process {
    p.(child := None, stopping := false)
  }

  // ---- the change queue ------------------------------------------------------------------------

  function Enqueue(q: Changes, build: bool, restart: bool, shuttingDown: bool): Changes {
    q.(build := q.build || build, restart := q.restart || restart,
       asks := if restart then q.asks + 1 else q.asks,
       waiting := if restart then q.waiting + {q.asks} else q.waiting,
       drain := if q.drain.Idle? && !shuttingDown then Head else q.drain)
  }

  function Flush(q: Changes, shuttingDown: bool): Changes {
    var emptied := q.(pending := Ignore, debounce := false);
    if q.pending.Ignore? then emptied
    else Enqueue(emptied, NeedsBuild(q.pending), NeedsRestart(q.pending), shuttingDown)
  }

  /** The loop test, and what a pass takes with it. */
  function Loop(q: Changes, shuttingDown: bool): Changes {
    if shuttingDown || !(q.build || q.restart) then q.(drain := Idle)
    else q.(build := false, restart := false, waiting := {}, carried := q.waiting,
            drain := if q.build then Building(q.restart) else Acting(false, q.restart))
  }

  function BuildEnd(q: Changes, ok: bool): Changes
    requires q.drain.Building?
  {
    if ok then q.(drain := Acting(true, q.drain.restart))
    else q.(drain := Head, carried := {}, dropped := q.dropped + q.carried)
  }

  predicate WillRestart(s: State)
    requires s.q.drain.Acting?
  {
    s.q.drain.restart || s.p.down || s.p.child.None?
  }

  function Act(s: State): State
    requires s.q.drain.Acting?
  {
    if !WillRestart(s) then s.(q := s.q.(drain := Head))
    else s.(p := StopBegins(s.p),
            q := s.q.(drain := if NothingToStop(s.p) then Stopped else AwaitsExit(s.p.child.value)))
  }

  function StartAgain(s: State, ok: bool): State {
    if ShuttingDown(s) then s.(q := s.q.(drain := Head))
    else s.(p := Start(s.p.(crashes := 0, down := false), ok),
            q := s.q.(drain := Head, carried := {}, served := s.q.served + s.q.carried))
  }

  /** The first signal stops the server and then exits; a second one exits at once. */
  function Signal(s: State): State {
    if ShuttingDown(s) then s.(shut := Gone(true))
    else s.(p := StopBegins(s.p), shut := if NothingToStop(s.p) then Gone(false) else StopAwaitsExit(s.p.child.value))
  }

  function Resumed(d: Drain, id: nat): Drain {
    if d == AwaitsExit(id) then SawExit else d
  }

  function ShutResumed(d: Shutdown, id: nat): Shutdown {
    if d == StopAwaitsExit(id) then StopSawExit else d
  }

  function Step(s: State, e: Event, maxCrashes: nat): State
    requires Enabled(s, e)
  {
    match e
    case Tick(elapsed) => s.(p := s.p.(now := s.p.now + elapsed))
    case Boots(ok) => s.(booted := true, p := Start(s.p, ok))
    case Dies(id) => s.(p := s.p.(live := s.p.live - {id}, dead := s.p.dead + {id}))
    case Exits(id) => State(Exit(s.p, id, s.p.stopping || ShuttingDown(s), maxCrashes),
                            s.q.(drain := Resumed(s.q.drain, id)), s.booted, ShutResumed(s.shut, id))
    case TimerFires(ok) =>
      if !ShuttingDown(s) && s.p.child.None? then s.(p := Start(s.p.(timer := None), ok))
      else s.(p := s.p.(timer := None))
    case Notes(action) =>
      if action.Ignore? then s else s.(q := s.q.(pending := Merge(s.q.pending, action), debounce := true))
    case Flushes => s.(q := Flush(s.q, ShuttingDown(s)))
    case Commits(build, restart) => s.(q := Enqueue(s.q, build, restart, ShuttingDown(s)))
    case Loops => s.(q := Loop(s.q, ShuttingDown(s)))
    case BuildEnds(ok) => s.(q := BuildEnd(s.q, ok))
    case Acts => Act(s)
    case StopResumes => s.(p := StopSeen(s.p), q := s.q.(drain := Stopped))
    case StartsAgain(ok) => StartAgain(s, ok)
    case Signals => Signal(s)
    case ShutdownResumes => s.(p := StopSeen(s.p), shut := StopAwaitsPort)
    case ShutdownEnds => s.(shut := Gone(false))
  }

  // ---- runs -----------------------------------------------------------------------------------

  predicate Possible(s: State, events: seq<Event>, maxCrashes: nat)
    decreases |events|
  {
    events == [] || (Enabled(s, events[0]) && Possible(Step(s, events[0], maxCrashes), events[1..], maxCrashes))
  }

  function After(s: State, events: seq<Event>, maxCrashes: nat): State
    requires Possible(s, events, maxCrashes)
    decreases |events|
  {
    if events == [] then s else After(Step(s, events[0], maxCrashes), events[1..], maxCrashes)
  }
}
