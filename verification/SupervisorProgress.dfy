/**
  That the supervisor gets on: which events can come when, that its drain loop and its shutdown
  end, and when each thing it remembers about its server changes.
 */
module SupervisorProgress {
  import opened Prelude
  import opened SupervisorPlan
  import opened SupervisorModel
  import opened SupervisorSafety

  // ---- what can happen -------------------------------------------------------------------------

  /** Until the supervisor is gone time passes and signals come, a running process can die and a
      dead one be reported, a timer that is due fires, and files change once it has booted. */
  lemma WorldIsFree(s: State, elapsed: nat, id: nat, ok: bool, action: Action)
    requires !s.shut.Gone?
    ensures Enabled(s, Tick(elapsed)) && Enabled(s, Signals)
    ensures Enabled(s, Dies(id)) <==> id in s.p.live
    ensures Enabled(s, Exits(id)) <==> id in s.p.dead
    ensures Enabled(s, TimerFires(ok)) <==> s.p.timer.Some? && s.p.timer.value <= s.p.now
    ensures Enabled(s, Boots(ok)) <==> !s.booted && !ShuttingDown(s)
    ensures Enabled(s, Notes(action)) <==> s.booted
    ensures Enabled(s, Commits(true, ok)) && Enabled(s, Commits(ok, true)) <==> s.booted
    ensures Enabled(s, Flushes) <==> s.q.debounce
  {
  }

  /** The events by which the drain loop goes on. */
  predicate Drains(e: Event) {
    e.Loops? || e.BuildEnds? || e.Acts? || e.StopResumes? || e.StartsAgain?
  }

  /** A drain loop that is not idle can go on by exactly one kind of event, whatever its outcome,
      or waits for a process that can die or be reported. */
  lemma DrainNeverStuck(s: State, maxCrashes: nat, ok: bool)
    requires Inv(s, maxCrashes) && !s.shut.Gone?
    ensures Enabled(s, Loops) <==> s.q.drain.Head?
    ensures Enabled(s, BuildEnds(ok)) <==> s.q.drain.Building?
    ensures Enabled(s, Acts) <==> s.q.drain.Acting?
    ensures Enabled(s, StopResumes) <==> s.q.drain.SawExit?
    ensures Enabled(s, StartsAgain(ok)) <==> s.q.drain.Stopped?
    ensures s.q.drain.AwaitsExit? ==> Enabled(s, Dies(s.q.drain.target)) || Enabled(s, Exits(s.q.drain.target))
  {
  }

  /** So can a shutdown. */
  lemma ShutdownNeverStuck(s: State, maxCrashes: nat)
    requires Inv(s, maxCrashes)
    ensures Enabled(s, ShutdownResumes) <==> s.shut.StopSawExit?
    ensures Enabled(s, ShutdownEnds) <==> s.shut.StopAwaitsPort?
    ensures s.shut.StopAwaitsExit? ==> Enabled(s, Dies(s.shut.target)) || Enabled(s, Exits(s.shut.target))
  {
  }

  // ---- the drain loop ends -----------------------------------------------------------------------

  /** How far the loop is from rest. */
  function Distance(q: Changes): nat {
    (if q.build || q.restart then 10 else 0) +
    match q.drain
    case Idle => 0
    case Head => 1
    case Stopped => 2
    case SawExit => 3
    case AwaitsExit(_) => 4
    case Acting(_, _) => 5
    case Building(_) => 6
  }

  lemma DrainComesCloser(s: State, e: Event, maxCrashes: nat)
    requires Enabled(s, e) && !Raises(e)
    ensures Distance(Step(s, e, maxCrashes).q) <= Distance(s.q)
    ensures Drains(e) || (e.Exits? && s.q.drain == AwaitsExit(e.id)) ==> Distance(Step(s, e, maxCrashes).q) < Distance(s.q)
  {
  }

  function DrainSteps(events: seq<Event>): nat {
    if events == [] then 0 else (if Drains(events[0]) then 1 else 0) + DrainSteps(events[1..])
  }

  /** Without new requests the loop goes on at most sixteen times, and then it is idle. */
  lemma {:induction false} DrainEnds(s: State, events: seq<Event>, maxCrashes: nat)
    requires Possible(s, events, maxCrashes) && forall i :: 0 <= i < |events| ==> !Raises(events[i])
    ensures DrainSteps(events) + Distance(After(s, events, maxCrashes).q) <= Distance(s.q) <= 16
    decreases |events|
  {
    if events != [] {
      assert !Raises(events[0]);
      DrainComesCloser(s, events[0], maxCrashes);
      DrainEnds(Step(s, events[0], maxCrashes), events[1..], maxCrashes);
    }
  }

  /** The loop wakes exactly when something is raised outside a shutdown, and it restarts the
      server exactly when the pass asks for it or there is none. */
  lemma DrainMoves(s: State, e: Event, maxCrashes: nat)
    requires Enabled(s, e)
    ensures var t := Step(s, e, maxCrashes).q;
            && (s.q.drain.Idle? ==>
                  t.drain == if !ShuttingDown(s) && (e.Commits? || (e.Flushes? && !s.q.pending.Ignore?)) then Head else Idle)
            && (e.Loops? ==> (t.drain.Idle? <==> ShuttingDown(s) || !(s.q.build || s.q.restart)))
            && (e.BuildEnds? ==> if e.ok then t.drain == Acting(true, s.q.drain.restart) else t.drain.Head?)
            && (e.Acts? && (s.q.drain.restart || s.p.down || s.p.child.None?) ==>
                  if s.p.child.Some? && s.p.spawned then t.drain == AwaitsExit(s.p.child.value) else t.drain.Stopped?)
            && (e.Acts? && !(s.q.drain.restart || s.p.down || s.p.child.None?) ==> t.drain.Head?)
            && (e.Exits? && s.q.drain == AwaitsExit(e.id) ==> t.drain.SawExit?)
            && (e.StopResumes? ==> t.drain.Stopped?)
            && (e.StartsAgain? ==> t.drain.Head?)
            && (t.drain != s.q.drain ==> Drains(e) || Raises(e) || (e.Exits? && s.q.drain == AwaitsExit(e.id)))
  {
  }

  /** What is pending is the merge of what was noted since the last flush. */
  lemma PendingMoves(s: State, e: Event, maxCrashes: nat)
    requires Enabled(s, e)
    ensures var t := Step(s, e, maxCrashes).q;
            && t.pending == (if e.Notes? then Merge(s.q.pending, e.action) else if e.Flushes? then Ignore else s.q.pending)
            && t.debounce == (if e.Notes? && !e.action.Ignore? then true else if e.Flushes? then false else s.q.debounce)
  {
  }

  // ---- the shutdown ends ------------------------------------------------------------------------

  /** The first signal waits for a server that runs and is gone at once without one; each wait of
      the shutdown leads to the next, and the last to an ordinary exit; a second signal ends it. */
  lemma ShutdownMoves(s: State, e: Event, maxCrashes: nat)
    requires Enabled(s, e)
    ensures Step(s, e, maxCrashes).shut ==
            if e.Signals? then
              if ShuttingDown(s) then Gone(true)
              else if s.p.child.Some? && s.p.spawned then StopAwaitsExit(s.p.child.value)
              else Gone(false)
            else if e.Exits? && s.shut == StopAwaitsExit(e.id) then StopSawExit
            else if e.ShutdownResumes? then StopAwaitsPort
            else if e.ShutdownEnds? then Gone(false)
            else s.shut
  {
  }

  // ---- what is remembered about the server ------------------------------------------------------

  /** The step starts a server: at boot, when a backoff timer finds none outside a shutdown, and
      at the end of a planned restart outside a shutdown. */
  predicate StartsServer(s: State, e: Event) {
    || e.Boots?
    || (e.TimerFires? && !ShuttingDown(s) && s.p.child.None?)
    || (e.StartsAgain? && !ShuttingDown(s))
  }

  predicate Spawned(e: Event) {
    (e.Boots? && e.ok) || (e.TimerFires? && e.ok) || (e.StartsAgain? && e.ok)
  }

  /** A planned stop begins: a pass that restarts, or the first signal. */
  predicate StopsServer(s: State, e: Event)
    requires Enabled(s, e)
  {
    (e.Acts? && (s.q.drain.restart || s.p.down || s.p.child.None?)) || (e.Signals? && !ShuttingDown(s))
  }

  /** A process runs from its start to its death ... */
  lemma LiveMoves(s: State, e: Event, maxCrashes: nat, id: nat)
    requires Enabled(s, e)
    ensures id in Step(s, e, maxCrashes).p.live <==>
            (id in s.p.live && e != Dies(id)) || (StartsServer(s, e) && Spawned(e) && id == s.p.next)
    ensures Step(s, e, maxCrashes).p.next == if StartsServer(s, e) then s.p.next + 1 else s.p.next
  {
  }

  /** ... and is dead until its exit is reported. */
  lemma DeadMoves(s: State, e: Event, maxCrashes: nat, id: nat)
    requires Enabled(s, e)
    ensures id in Step(s, e, maxCrashes).p.dead <==> (id in s.p.dead && e != Exits(id)) || e == Dies(id)
  {
  }

  /** The child is the server started last, until its exit, the end of a stop, or a stop that
      finds it was never spawned. */
  lemma ChildMoves(s: State, e: Event, maxCrashes: nat)
    requires Enabled(s, e)
    ensures var t := Step(s, e, maxCrashes).p;
            && t.child == (if StartsServer(s, e) then Some(s.p.next)
                           else if (e.Exits? && s.p.child == Some(e.id)) || e.StopResumes? || e.ShutdownResumes?
                                   || (StopsServer(s, e) && !s.p.spawned) then None
                           else s.p.child)
            && t.spawned == (if StartsServer(s, e) then Spawned(e) else s.p.spawned)
            && t.stopping == (if StopsServer(s, e) && s.p.child.Some? && s.p.spawned then true
                              else if e.StopResumes? || e.ShutdownResumes? then false
                              else s.p.stopping)
  {
  }

  /** The clock, the start of the last server, and the last crash; a crash within the budget sets
      the backoff timer, and its firing or a planned stop clears it. */
  lemma TimesMove(s: State, e: Event, maxCrashes: nat)
    requires Enabled(s, e)
    ensures var t := Step(s, e, maxCrashes).p;
            && t.now == (if e.Tick? then s.p.now + e.elapsed else s.p.now)
            && t.startedAt == (if StartsServer(s, e) then s.p.now else s.p.startedAt)
            && t.lastExit == (if Crashes(s, e) then s.p.now else s.p.lastExit)
            && t.timer == (if Crashes(s, e) && t.crashes <= maxCrashes then Some(s.p.now + BackoffDelay(t.crashes))
                           else if e.TimerFires? || StopsServer(s, e) then None
                           else s.p.timer)
            && t.down == (if Crashes(s, e) && t.crashes > maxCrashes then true
                          else if Forgives(s, e) then false
                          else s.p.down)
  {
  }

  function Elapsed(events: seq<Event>): nat {
    if events == [] then 0 else (if events[0].Tick? then events[0].elapsed else 0) + Elapsed(events[1..])
  }

  /** When the last server was started, and when the last crash was handled, read off the run. */
  ghost function StartTime(s: State, events: seq<Event>, maxCrashes: nat, last: nat): nat
    requires Possible(s, events, maxCrashes)
    decreases |events|
  {
    if events == [] then last
    else StartTime(Step(s, events[0], maxCrashes), events[1..], maxCrashes, if StartsServer(s, events[0]) then s.p.now else last)
  }

  ghost function CrashTime(s: State, events: seq<Event>, maxCrashes: nat, last: nat): nat
    requires Possible(s, events, maxCrashes)
    decreases |events|
  {
    if events == [] then last
    else CrashTime(Step(s, events[0], maxCrashes), events[1..], maxCrashes, if Crashes(s, events[0]) then s.p.now else last)
  }

  /** Over every run uptimes and backoffs are measured from those moments. */
  lemma {:induction false} TimesExact(s: State, events: seq<Event>, maxCrashes: nat)
    requires Possible(s, events, maxCrashes)
    ensures var p := After(s, events, maxCrashes).p;
            && p.now == s.p.now + Elapsed(events)
            && p.startedAt == StartTime(s, events, maxCrashes, s.p.startedAt)
            && p.lastExit == CrashTime(s, events, maxCrashes, s.p.lastExit)
    decreases |events|
  {
    if events != [] {
      TimesMove(s, events[0], maxCrashes);
      TimesExact(Step(s, events[0], maxCrashes), events[1..], maxCrashes);
    }
  }

  // ---- the liveness flag ----------------------------------------------------------------------------

  /** The flag is accepted exactly from ten seconds on, and means that many, to the nearest
      millisecond. */
  lemma LivenessWindowExact(seconds: real)
    ensures LivenessWindow(seconds).Some? <==> seconds >= 10.0
    ensures seconds >= 10.0 ==> var window := LivenessWindow(seconds).value as real;
                                window - 0.5 <= seconds * 1000.0 < window + 0.5
  {
  }
}
