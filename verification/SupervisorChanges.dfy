/**
  From a changed file to the work it asks for: over every interleaving no change that was noted
  is lost between the debounce, the queue and the passes that drain it.
 */
module SupervisorChanges {
  import opened Prelude
  import opened SupervisorPlan
  import opened SupervisorModel
  import opened SupervisorSafety

  predicate AsksBuild(e: Event) {
    (e.Notes? && NeedsBuild(e.action)) || (e.Commits? && e.build)
  }

  predicate AsksRestart(e: Event) {
    (e.Notes? && NeedsRestart(e.action)) || (e.Commits? && e.restart)
  }

  /** A build is pending or queued. */
  predicate WantsBuild(q: Changes) {
    NeedsBuild(q.pending) || q.build
  }

  /** A restart is pending, or was requested as number `n` or later. */
  predicate WantsRestart(q: Changes, n: nat) {
    NeedsRestart(q.pending) || q.asks > n
  }

  /** The drain loop takes what is queued. */
  predicate TakesPass(s: State, e: Event) {
    e.Loops? && !ShuttingDown(s) && (s.q.build || s.q.restart)
  }

  lemma MergeKeeps(a: Action, b: Action)
    ensures NeedsBuild(a) || NeedsBuild(b) ==> NeedsBuild(Merge(a, b))
    ensures NeedsRestart(a) || NeedsRestart(b) ==> NeedsRestart(Merge(a, b))
  {
  }

  /** What is asked for is wanted from then on, a restart under a new number. */
  lemma AskedIsWanted(s: State, e: Event, maxCrashes: nat)
    requires Enabled(s, e)
    ensures AsksBuild(e) ==> WantsBuild(Step(s, e, maxCrashes).q)
    ensures AsksRestart(e) ==> WantsRestart(Step(s, e, maxCrashes).q, s.q.asks)
  {
    if e.Notes? {
      MergeKeeps(s.q.pending, e.action);
    }
  }

  /** A wanted build goes on being wanted until a pass takes it, and that pass builds; a wanted
      restart goes on being wanted, and a requested one has its number for good. */
  lemma WantedStays(s: State, e: Event, maxCrashes: nat, n: nat)
    requires Enabled(s, e) && n <= s.q.asks
    ensures WantsBuild(s.q) ==> WantsBuild(Step(s, e, maxCrashes).q) || (TakesPass(s, e) && s.q.build)
    ensures TakesPass(s, e) && s.q.build ==> Step(s, e, maxCrashes).q.drain == Building(s.q.restart)
    ensures TakesPass(s, e) && !s.q.build ==> Step(s, e, maxCrashes).q.drain == Acting(false, true)
    ensures WantsRestart(s.q, n) ==> WantsRestart(Step(s, e, maxCrashes).q, n)
    ensures s.q.asks <= Step(s, e, maxCrashes).q.asks
  {
    if e.Notes? {
      MergeKeeps(s.q.pending, e.action);
    }
  }

  /** Some pass of the run takes the build flag. */
  ghost predicate EverBuilds(s: State, events: seq<Event>, maxCrashes: nat)
    requires Possible(s, events, maxCrashes)
    decreases |events|
  {
    events != [] &&
    ((TakesPass(s, events[0]) && s.q.build) || EverBuilds(Step(s, events[0], maxCrashes), events[1..], maxCrashes))
  }

  lemma {:induction false} WantedOverRuns(s: State, events: seq<Event>, maxCrashes: nat, n: nat)
    requires Possible(s, events, maxCrashes) && n <= s.q.asks
    ensures WantsBuild(s.q) ==> WantsBuild(After(s, events, maxCrashes).q) || EverBuilds(s, events, maxCrashes)
    ensures WantsRestart(s.q, n) ==> WantsRestart(After(s, events, maxCrashes).q, n)
    decreases |events|
  {
    if events != [] {
      WantedStays(s, events[0], maxCrashes, n);
      WantedOverRuns(Step(s, events[0], maxCrashes), events[1..], maxCrashes, n);
    }
  }

  /** No change is lost: whatever was noted or committed after any run, after any further run its
      build is pending, queued, or was taken by a pass, and its restart is pending or a request no
      older than it waits, is carried, was served or was dropped with a failed build. */
  lemma NothingNotedIsLost(before: seq<Event>, e: Event, later: seq<Event>, maxCrashes: nat)
    requires Possible(INITIAL, before, maxCrashes) && Enabled(After(INITIAL, before, maxCrashes), e)
    requires Possible(Step(After(INITIAL, before, maxCrashes), e, maxCrashes), later, maxCrashes)
    ensures var s := After(INITIAL, before, maxCrashes);
            var t := Step(s, e, maxCrashes);
            var u := After(t, later, maxCrashes);
            && (AsksBuild(e) ==> WantsBuild(u.q) || EverBuilds(t, later, maxCrashes))
            && (AsksRestart(e) ==> NeedsRestart(u.q.pending) || (s.q.asks < u.q.asks && HasFate(u.q, s.q.asks)))
  {
    var s := After(INITIAL, before, maxCrashes);
    var t := Step(s, e, maxCrashes);
    InitialHolds(maxCrashes);
    SupervisorSafety.Always(INITIAL, before, maxCrashes);
    StepKeeps(s, e, maxCrashes);
    SupervisorSafety.Always(t, later, maxCrashes);
    AskedIsWanted(s, e, maxCrashes);
    WantedStays(s, e, maxCrashes, s.q.asks);
    WantedOverRuns(t, later, maxCrashes, s.q.asks);
    assert HasFate(After(t, later, maxCrashes).q, s.q.asks) <==> s.q.asks < After(t, later, maxCrashes).q.asks;
  }

  /** Nothing pending, and the drain loop idle outside a shutdown. */
  predicate AtRest(s: State) {
    s.q.pending.Ignore? && s.q.drain.Idle? && !ShuttingDown(s)
  }

  /** So once the supervisor comes to rest, every build asked for before was taken by a pass, and
      every restart was served, or dropped with a failed build. */
  lemma RestMeansDone(before: seq<Event>, e: Event, later: seq<Event>, maxCrashes: nat)
    requires Possible(INITIAL, before, maxCrashes) && Enabled(After(INITIAL, before, maxCrashes), e)
    requires Possible(Step(After(INITIAL, before, maxCrashes), e, maxCrashes), later, maxCrashes)
    requires AtRest(After(Step(After(INITIAL, before, maxCrashes), e, maxCrashes), later, maxCrashes))
    ensures var s := After(INITIAL, before, maxCrashes);
            var t := Step(s, e, maxCrashes);
            var u := After(t, later, maxCrashes);
            && (AsksBuild(e) ==> EverBuilds(t, later, maxCrashes))
            && (AsksRestart(e) ==> s.q.asks in u.q.served || s.q.asks in u.q.dropped)
  {
    var s := After(INITIAL, before, maxCrashes);
    NothingNotedIsLost(before, e, later, maxCrashes);
    InitialHolds(maxCrashes);
    SupervisorSafety.Always(INITIAL, before, maxCrashes);
    StepKeeps(s, e, maxCrashes);
    SupervisorSafety.Always(Step(s, e, maxCrashes), later, maxCrashes);
  }
}
