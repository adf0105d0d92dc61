/** What the supervisor guarantees over every interleaving of its steps. */
module SupervisorSafety {
  import opened Prelude
  import opened SupervisorPlan
  import opened SupervisorModel

  // ---- invariants --------------------------------------------------------------------------

  /** At most the current child runs; its exit event is still to come when it is not running. */
  ghost predicate Processes(p: Process) {
    && (forall id :: id in p.live ==> p.child == Some(id) && p.spawned && id !in p.dead)
    && (forall id :: id in p.dead ==> id < p.next)
    && (p.child.Some? ==> p.child.value < p.next)
    && (p.child.Some? && p.spawned ==> p.child.value in p.live || p.child.value in p.dead)
  }

  predicate Restarting(d: Drain) {
    d.AwaitsExit? || d.SawExit? || d.Stopped?
  }

  /** A backoff timer runs only while there is no child and nobody else is about to start one. */
  predicate TimerIdle(s: State, maxCrashes: nat) {
    s.p.timer.Some? ==>
      && s.p.child.None? && s.booted && !s.p.down && !ShuttingDown(s) && !Restarting(s.q.drain)
      && 1 <= s.p.crashes <= maxCrashes
      && s.p.timer.value == s.p.lastExit + BackoffDelay(s.p.crashes)
  }

  predicate Stops(s: State) {
    && (s.q.drain.AwaitsExit? ==> s.p.child == Some(s.q.drain.target) && s.p.spawned)
    && (s.q.drain.SawExit? || s.q.drain.Stopped? ==> s.p.child.None?)
    && (!ShuttingDown(s) ==> (s.p.stopping <==> s.q.drain.AwaitsExit? || s.q.drain.SawExit?))
    && (s.shut.StopAwaitsExit? ==> s.p.child == Some(s.shut.target) && s.p.spawned)
    && (s.shut.StopSawExit? || s.shut.StopAwaitsPort? || s.shut == Gone(false) ==> s.p.child.None?)
  }

  predicate Budget(s: State, maxCrashes: nat) {
    && (s.p.down ==> s.p.child.None? && s.p.timer.None? && s.p.crashes == maxCrashes + 1)
    && (!s.p.down ==> s.p.crashes <= maxCrashes)
    && (!s.booted ==> s.p.child.None? && s.q.drain.Idle? && !s.q.debounce && !s.p.down && !s.q.build && !s.q.restart)
    && (s.booted && !ShuttingDown(s) && s.p.child.None? ==>
          s.p.timer.Some? || s.p.down || s.q.drain.SawExit? || s.q.drain.Stopped?)
  }

  predicate Carries(d: Drain) {
    d == Building(true) || (d.Acting? && d.restart) || Restarting(d)
  }

  predicate Queue(q: Changes, shuttingDown: bool) {
    && (!q.pending.Ignore? <==> q.debounce)
    && ((q.build || q.restart) && !shuttingDown ==> !q.drain.Idle?)
    && (q.waiting != {} ==> q.restart)
    && (q.carried != {} && !shuttingDown ==> Carries(q.drain))
    && (q.drain.Acting? && !q.drain.build ==> q.drain.restart)
  }

  predicate HasFate(q: Changes, a: nat) {
    a in q.waiting || a in q.carried || a in q.served || a in q.dropped
  }

  /** Every restart request made so far has exactly the fates the queue knows; none is lost. */
  ghost predicate Accounted(q: Changes) {
    forall a: nat :: HasFate(q, a) <==> a < q.asks
  }

  ghost predicate Inv(s: State, maxCrashes: nat) {
    && Processes(s.p) && TimerIdle(s, maxCrashes) && Stops(s) && Budget(s, maxCrashes)
    && Queue(s.q, ShuttingDown(s)) && Accounted(s.q)
  }

  // ---- every step keeps them ---------------------------------------------------------------------

  lemma EnqueueAccounts(q: Changes, build: bool, restart: bool, shuttingDown: bool)
    requires Accounted(q)
    ensures Accounted(Enqueue(q, build, restart, shuttingDown))
  {
    var q' := Enqueue(q, build, restart, shuttingDown);
    forall a: nat ensures HasFate(q', a) <==> a < q'.asks {
      assert HasFate(q, a) <==> a < q.asks;
    }
  }

  /** Steps that only move requests from one fate to the next. */
  lemma MovesAccount(q: Changes, q': Changes)
    requires Accounted(q) && q'.asks == q.asks
    requires q.waiting + q.carried + q.served + q.dropped == q'.waiting + q'.carried + q'.served + q'.dropped
    ensures Accounted(q')
  {
    forall a: nat ensures HasFate(q', a) <==> a < q'.asks {
      assert HasFate(q, a) <==> a < q.asks;
      assert HasFate(q, a) <==> a in q.waiting + q.carried + q.served + q.dropped;
      assert HasFate(q', a) <==> a in q'.waiting + q'.carried + q'.served + q'.dropped;
    }
  }

  lemma AccountKeeps(s: State, e: Event, maxCrashes: nat)
    requires Accounted(s.q) && Queue(s.q, ShuttingDown(s)) && Enabled(s, e)
    ensures Accounted(Step(s, e, maxCrashes).q)
  {
    if e.Commits? {
      EnqueueAccounts(s.q, e.build, e.restart, ShuttingDown(s));
    } else if e.Flushes? && !s.q.pending.Ignore? {
      var emptied := s.q.(pending := Ignore, debounce := false);
      MovesAccount(s.q, emptied);
      EnqueueAccounts(emptied, NeedsBuild(s.q.pending), NeedsRestart(s.q.pending), ShuttingDown(s));
    } else {
      MovesAccount(s.q, Step(s, e, maxCrashes).q);
    }
  }

  /** A step of the process side: what is alive, who stops it, and when it comes back. */
  ghost predicate ProcessSide(s: State, maxCrashes: nat) {
    Processes(s.p) && TimerIdle(s, maxCrashes) && Stops(s) && Budget(s, maxCrashes)
  }

  lemma LifeKeeps(s: State, e: Event, maxCrashes: nat)
    requires ProcessSide(s, maxCrashes) && Enabled(s, e)
    requires e.Tick? || e.Boots? || e.Dies? || e.TimerFires?
    ensures ProcessSide(Step(s, e, maxCrashes), maxCrashes)
  {
  }

  lemma ExitKeeps(s: State, id: nat, maxCrashes: nat)
    requires ProcessSide(s, maxCrashes) && Enabled(s, Exits(id))
    ensures ProcessSide(Step(s, Exits(id), maxCrashes), maxCrashes)
  {
  }

  lemma QueueLeavesProcesses(s: State, e: Event, maxCrashes: nat)
    requires ProcessSide(s, maxCrashes) && Queue(s.q, ShuttingDown(s)) && Enabled(s, e)
    requires e.Notes? || e.Flushes? || e.Commits? || e.Loops? || e.BuildEnds?
    ensures ProcessSide(Step(s, e, maxCrashes), maxCrashes)
  {
  }

  lemma StopKeeps(s: State, e: Event, maxCrashes: nat)
    requires ProcessSide(s, maxCrashes) && Enabled(s, e)
    requires e.Acts? || e.StopResumes? || e.StartsAgain? || e.Signals? || e.ShutdownResumes? || e.ShutdownEnds?
    ensures ProcessSide(Step(s, e, maxCrashes), maxCrashes)
  {
  }

  lemma EnqueueKeeps(q: Changes, build: bool, restart: bool, shuttingDown: bool)
    requires Queue(q, shuttingDown)
    ensures Queue(Enqueue(q, build, restart, shuttingDown), shuttingDown)
  {
  }

  lemma PassKeeps(s: State, e: Event, maxCrashes: nat)
    requires Queue(s.q, ShuttingDown(s)) && Enabled(s, e)
    requires e.Loops? || e.BuildEnds? || e.Acts? || e.StopResumes? || e.StartsAgain?
    ensures Queue(Step(s, e, maxCrashes).q, ShuttingDown(s))
  {
  }

  lemma QueueKeeps(s: State, e: Event, maxCrashes: nat)
    requires Queue(s.q, ShuttingDown(s)) && Enabled(s, e)
    ensures Queue(Step(s, e, maxCrashes).q, ShuttingDown(Step(s, e, maxCrashes)))
  {
    if e.Commits? {
      EnqueueKeeps(s.q, e.build, e.restart, ShuttingDown(s));
    } else if e.Flushes? {
      var emptied := s.q.(pending := Ignore, debounce := false);
      EnqueueKeeps(emptied, NeedsBuild(s.q.pending), NeedsRestart(s.q.pending), ShuttingDown(s));
    } else if e.Loops? || e.BuildEnds? || e.Acts? || e.StopResumes? || e.StartsAgain? {
      PassKeeps(s, e, maxCrashes);
    }
  }

  lemma StepKeeps(s: State, e: Event, maxCrashes: nat)
    requires Inv(s, maxCrashes) && Enabled(s, e)
    ensures Inv(Step(s, e, maxCrashes), maxCrashes)
  {
    AccountKeeps(s, e, maxCrashes);
    QueueKeeps(s, e, maxCrashes);
    if e.Tick? || e.Boots? || e.Dies? || e.TimerFires? {
      LifeKeeps(s, e, maxCrashes);
    } else if e.Exits? {
      ExitKeeps(s, e.id, maxCrashes);
    } else if e.Notes? || e.Flushes? || e.Commits? || e.Loops? || e.BuildEnds? {
      QueueLeavesProcesses(s, e, maxCrashes);
    } else {
      StopKeeps(s, e, maxCrashes);
    }
  }

  lemma InitialHolds(maxCrashes: nat)
    ensures Inv(INITIAL, maxCrashes)
  {
  }

  lemma {:induction false} Always(s: State, events: seq<Event>, maxCrashes: nat)
    requires Inv(s, maxCrashes) && Possible(s, events, maxCrashes)
    ensures Inv(After(s, events, maxCrashes), maxCrashes)
    decreases |events|
  {
    if events != [] {
      StepKeeps(s, events[0], maxCrashes);
      Always(Step(s, events[0], maxCrashes), events[1..], maxCrashes);
    }
  }

  // ---- the child process -----------------------------------------------------------------------

  /** Over all interleavings of crashes, backoff timers, planned restarts and shutdown there are
      never two servers, and an ordinary exit of the supervisor leaves none behind. */
  lemma NeverTwoServers(events: seq<Event>, maxCrashes: nat, a: nat, b: nat)
    requires Possible(INITIAL, events, maxCrashes)
    requires a in After(INITIAL, events, maxCrashes).p.live
    ensures b in After(INITIAL, events, maxCrashes).p.live ==> a == b
    ensures After(INITIAL, events, maxCrashes).shut != Gone(false)
  {
    InitialHolds(maxCrashes);
    Always(INITIAL, events, maxCrashes);
  }

  /** While it is up the supervisor never forgets a server that is gone: the server runs, or its
      exit is still to be handled, or a backoff timer is set, or the crash budget is spent, or a
      restart is under way. The one way out is a process that could not be spawned. */
  lemma NeverStranded(events: seq<Event>, maxCrashes: nat)
    requires Possible(INITIAL, events, maxCrashes)
    ensures var s := After(INITIAL, events, maxCrashes);
            s.booted && !ShuttingDown(s) ==>
              || (s.p.child.Some? && (s.p.child.value in s.p.live || s.p.child.value in s.p.dead || !s.p.spawned))
              || s.p.timer.Some? || s.p.down || s.q.drain.SawExit? || s.q.drain.Stopped?
  {
    InitialHolds(maxCrashes);
    Always(INITIAL, events, maxCrashes);
  }

  predicate Starts(s: State, e: Event, maxCrashes: nat)
    requires Enabled(s, e)
  {
    Step(s, e, maxCrashes).p.next != s.p.next
  }

  /** A crash while nobody stops the child either sets the backoff of its place in the row of
      fast exits or, past the budget, sets nothing. */
  lemma CrashBacksOff(s: State, id: nat, maxCrashes: nat)
    requires Inv(s, maxCrashes) && Enabled(s, Exits(id))
    requires s.p.child == Some(id) && !s.p.stopping && !ShuttingDown(s)
    ensures var t := Step(s, Exits(id), maxCrashes).p;
            && t.crashes == (if s.p.now - s.p.startedAt < STABLE_UPTIME_MS then s.p.crashes + 1 else 1)
            && (t.down <==> t.crashes == maxCrashes + 1)
            && (if t.down then t.timer.None?
                else t.timer == Some(s.p.now + BackoffDelay(t.crashes)) && t.lastExit == s.p.now)
  {
  }

  /** Only crashes and planned restarts move the count. */
  lemma CountMoves(s: State, e: Event, maxCrashes: nat)
    requires Inv(s, maxCrashes) && Enabled(s, e)
    ensures Step(s, e, maxCrashes).p.crashes != s.p.crashes ==> e.Exits? || e.StartsAgain?
    ensures e.StartsAgain? && Step(s, e, maxCrashes).p.crashes != s.p.crashes ==> Step(s, e, maxCrashes).p.crashes == 0
    ensures e.Exits? ==> Step(s, e, maxCrashes).p.crashes in {s.p.crashes, s.p.crashes + 1, 1}
  {
  }

  /** The child went down although nobody was stopping it. */
  predicate Crashes(s: State, e: Event) {
    e.Exits? && s.p.child == Some(e.id) && !s.p.stopping && !ShuttingDown(s)
  }

  /** A planned restart gets to its start. */
  predicate Forgives(s: State, e: Event) {
    e.StartsAgain? && !ShuttingDown(s)
  }

  /** The fast exits in a row at the end of a run that began with `row` of them: since the last
      planned restart, and since the last child that had been up for 15 s, its own exit being
      the first of a new row. */
  ghost function FastRow(s: State, events: seq<Event>, maxCrashes: nat, row: nat): nat
    requires Possible(s, events, maxCrashes)
    decreases |events|
  {
    if events == [] then row
    else
      FastRow(Step(s, events[0], maxCrashes), events[1..], maxCrashes,
        if Forgives(s, events[0]) then 0
        else if !Crashes(s, events[0]) then row
        else if s.p.now - s.p.startedAt < STABLE_UPTIME_MS then row + 1
        else 1)
  }

  /** The crash count is that number, after every run. */
  lemma {:induction false} CountIsRow(s: State, events: seq<Event>, maxCrashes: nat)
    requires Possible(s, events, maxCrashes)
    ensures After(s, events, maxCrashes).p.crashes == FastRow(s, events, maxCrashes, s.p.crashes)
    decreases |events|
  {
    if events != [] {
      CountIsRow(Step(s, events[0], maxCrashes), events[1..], maxCrashes);
    }
  }

  /** An automatic restart, the only start a crash leads to, comes at its turn and never before
      its backoff has passed: after the k-th fast exit in a row, BackoffDelay(k) later; and the
      supervisor is down exactly when that row has passed its budget. */
  lemma AutomaticRestartWaits(events: seq<Event>, maxCrashes: nat, ok: bool)
    requires Possible(INITIAL, events, maxCrashes)
    ensures var s, k := After(INITIAL, events, maxCrashes), FastRow(INITIAL, events, maxCrashes, 0);
            && (s.p.down <==> k == maxCrashes + 1) && k <= maxCrashes + 1
            && (Enabled(s, TimerFires(ok)) ==>
                  && Starts(s, TimerFires(ok), maxCrashes)
                  && 1 <= k <= maxCrashes && s.p.now >= s.p.lastExit + BackoffDelay(k))
  {
    InitialHolds(maxCrashes);
    Always(INITIAL, events, maxCrashes);
    CountIsRow(INITIAL, events, maxCrashes);
  }

  predicate IsChange(e: Event) {
    (e.Notes? && !e.action.Ignore?) || e.Commits?
  }

  predicate Quiet(s: State) {
    s.booted && s.p.down && s.p.timer.None? && s.p.child.None? && s.q.drain.Idle? && !s.q.debounce
  }

  lemma DownStaysQuiet(s: State, e: Event, maxCrashes: nat)
    requires Inv(s, maxCrashes) && Enabled(s, e) && Quiet(s) && !IsChange(e)
    ensures Quiet(Step(s, e, maxCrashes)) && !Starts(s, e, maxCrashes)
  {
  }

  /** Once the budget is spent and the queue is empty, nothing starts until the next change. */
  lemma {:induction false} DownUntilChange(s: State, events: seq<Event>, maxCrashes: nat)
    requires Inv(s, maxCrashes) && Possible(s, events, maxCrashes) && Quiet(s)
    requires forall i :: 0 <= i < |events| ==> !IsChange(events[i])
    ensures After(s, events, maxCrashes).p.next == s.p.next && After(s, events, maxCrashes).p.down
    decreases |events|
  {
    if events != [] {
      StepKeeps(s, events[0], maxCrashes);
      DownStaysQuiet(s, events[0], maxCrashes);
      DownUntilChange(Step(s, events[0], maxCrashes), events[1..], maxCrashes);
    }
  }

  lemma ShutdownStartsNothing(s: State, e: Event, maxCrashes: nat)
    requires Inv(s, maxCrashes) && Enabled(s, e) && ShuttingDown(s)
    ensures ShuttingDown(Step(s, e, maxCrashes)) && !Starts(s, e, maxCrashes)
  {
  }

  /** After the first signal no run starts another server. */
  lemma {:induction false} NothingAfterSignal(s: State, events: seq<Event>, maxCrashes: nat)
    requires Inv(s, maxCrashes) && Possible(s, events, maxCrashes) && ShuttingDown(s)
    ensures After(s, events, maxCrashes).p.next == s.p.next
    decreases |events|
  {
    if events != [] {
      StepKeeps(s, events[0], maxCrashes);
      ShutdownStartsNothing(s, events[0], maxCrashes);
      NothingAfterSignal(Step(s, events[0], maxCrashes), events[1..], maxCrashes);
    }
  }

  // ---- the change queue -----------------------------------------------------------------------

  /** No lost wakeup: whatever is pending has a debounce timer, whatever is queued has a running
      drain loop, and once the loop is idle every restart request was served or went with a
      failed build, unless the supervisor is shutting down. */
  lemma NoLostWakeup(events: seq<Event>, maxCrashes: nat)
    requires Possible(INITIAL, events, maxCrashes)
    ensures var s := After(INITIAL, events, maxCrashes);
            && (!s.q.pending.Ignore? ==> s.q.debounce)
            && ((s.q.build || s.q.restart) && s.q.drain.Idle? ==> ShuttingDown(s))
            && (s.q.drain.Idle? && !ShuttingDown(s) ==>
                  forall a: nat :: a < s.q.asks ==> a in s.q.served || a in s.q.dropped)
  {
    InitialHolds(maxCrashes);
    Always(INITIAL, events, maxCrashes);
    var s := After(INITIAL, events, maxCrashes);
    if s.q.drain.Idle? && !ShuttingDown(s) {
      assert s.q.waiting == {} && s.q.carried == {};
      forall a: nat | a < s.q.asks ensures a in s.q.served || a in s.q.dropped {
        assert HasFate(s.q, a);
      }
    }
  }

  predicate Raises(e: Event) {
    e.Flushes? || e.Commits?
  }

  /** Passes a run begins. */
  function Passes(s: State, events: seq<Event>, maxCrashes: nat): nat
    requires Possible(s, events, maxCrashes)
    decreases |events|
  {
    if events == [] then 0
    else
      var t := Step(s, events[0], maxCrashes);
      (if events[0].Loops? && !t.q.drain.Idle? then 1 else 0) + Passes(t, events[1..], maxCrashes)
  }

  /** Changes coalesce: however many were queued, one pass takes them all, and without new ones no
      run begins another. */
  lemma {:induction false} OnePassTakesAll(s: State, events: seq<Event>, maxCrashes: nat)
    requires Possible(s, events, maxCrashes) && forall i :: 0 <= i < |events| ==> !Raises(events[i])
    ensures Passes(s, events, maxCrashes) <= if s.q.build || s.q.restart then 1 else 0
    decreases |events|
  {
    if events != [] {
      assert !Raises(events[0]);
      OnePassTakesAll(Step(s, events[0], maxCrashes), events[1..], maxCrashes);
    }
  }

  /** A request is served only by a server started in that very step, hence after the request;
      it is dropped only when the build taken in the same pass failed; and fates are final. */
  lemma FatesExact(s: State, e: Event, maxCrashes: nat, a: nat)
    requires Inv(s, maxCrashes) && Enabled(s, e)
    ensures var t := Step(s, e, maxCrashes);
            && (a in t.q.served && a !in s.q.served <==> e.StartsAgain? && !ShuttingDown(s) && a in s.q.carried && a !in s.q.served)
            && (a in t.q.served && a !in s.q.served ==> Starts(s, e, maxCrashes) && a < s.q.asks)
            && (a in t.q.dropped && a !in s.q.dropped <==> e == BuildEnds(false) && a in s.q.carried && a !in s.q.dropped)
            && (a in s.q.served ==> a in t.q.served) && (a in s.q.dropped ==> a in t.q.dropped)
  {
    assert HasFate(s.q, a) <==> a < s.q.asks;
  }

  /** A bundle-only pass restarts exactly when the supervisor believes there is no server; a
      child that could not be spawned is taken for one. */
  lemma BundlePassExact(s: State, maxCrashes: nat)
    requires Inv(s, maxCrashes) && Enabled(s, Acts) && !s.q.drain.restart
    ensures Step(s, Acts, maxCrashes).q.drain.Head? <==> s.p.child.Some?
  {
  }

  /** ... so after a failed spawn a bundle change leaves the supervisor idle with no server. */
  lemma SpawnFailureStrands(maxCrashes: nat)
    ensures var events := [Boots(false), Commits(true, false), Loops, BuildEnds(true), Acts, Loops];
            && Possible(INITIAL, events, maxCrashes)
            && var s := After(INITIAL, events, maxCrashes);
               s.q.drain.Idle? && !s.p.down && s.p.live == {} && s.p.timer.None? && !ShuttingDown(s)
  {
    var s1 := Step(INITIAL, Boots(false), maxCrashes);
    var s2 := Step(s1, Commits(true, false), maxCrashes);
    var s3 := Step(s2, Loops, maxCrashes);
    var s4 := Step(s3, BuildEnds(true), maxCrashes);
    var s5 := Step(s4, Acts, maxCrashes);
    var s6 := Step(s5, Loops, maxCrashes);
    RunOn(s6, [], Loops, s5, maxCrashes);
    RunOn(s6, [Loops], Acts, s4, maxCrashes);
    RunOn(s6, [Acts, Loops], BuildEnds(true), s3, maxCrashes);
    RunOn(s6, [BuildEnds(true), Acts, Loops], Loops, s2, maxCrashes);
    RunOn(s6, [Loops, BuildEnds(true), Acts, Loops], Commits(true, false), s1, maxCrashes);
    RunOn(s6, [Commits(true, false), Loops, BuildEnds(true), Acts, Loops], Boots(false), INITIAL, maxCrashes);
  }

  lemma RunOn(end: State, rest: seq<Event>, e: Event, s: State, maxCrashes: nat)
    requires Enabled(s, e) && Possible(Step(s, e, maxCrashes), rest, maxCrashes)
    requires After(Step(s, e, maxCrashes), rest, maxCrashes) == end
    ensures Possible(s, [e] + rest, maxCrashes) && After(s, [e] + rest, maxCrashes) == end
  {
    assert ([e] + rest)[1..] == rest;
  }
}
