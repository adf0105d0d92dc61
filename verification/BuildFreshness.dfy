/**
  The build freshness watcher (apps/web/src/buildFreshness.ts): checks after a suspended page
  resumes, bounded retries, and at most one reload.
 */
module BuildFreshness {
  import opened Prelude

  type Build = nat

  /** What stays fixed: this build, whether a reload is offered instead of made, how many retries
      there are, and how often fresh checks may run. */
  datatype Setup = Setup(current: Build, offers: bool, retries: nat, minInterval: nat)

  /** `reloads` and `shown` are what the watcher did; `hidden` is the document's visibility. */
  datatype State = State(
    now: nat, enabled: bool, hidden: bool, disposed: bool, suspended: bool, inFlight: bool, reloadIssued: bool,
    lastCheckAt: int, offered: Option<Build>, retryIndex: nat, retryTimer: bool, reloads: nat, shown: set<Build>)

  function Installed(now: nat, enabled: bool, hidden: bool): State {
    State(now, enabled, hidden, false, hidden, false, false, 0, None, 0, false, 0, {})
  }

  /** An answer comes with the build the address asks for by then, and whether the offer or the
      reload it leads to throws. */
  datatype Event =
    | Tick(elapsed: nat)
    | Toggles(enabled: bool)
    | Hides
    | Shows
    | PageHides
    | PageShows
    | RetryFires
    | Answers(build: Option<Build>, requested: Option<Build>, throws: bool)
    | Fails
    | Accepts(agreed: Build)
    | Disposes

  predicate Enabled(s: State, e: Event) {
    match e
    case RetryFires => s.retryTimer
    case Answers(_, _, _) => s.inFlight
    case Fails => s.inFlight
    case Accepts(agreed) => agreed in s.shown
    case Tick(_) => true
    case Toggles(_) => true
    case Hides => true
    case Shows => true
    case PageHides => true
    case PageShows => true
    case Disposes => true
  }

  /** check() up to its await. */
  function Check(s: State, c: Setup, freshEvent: bool): State {
    if !s.enabled || s.disposed || s.reloadIssued || s.inFlight || s.hidden then s
    else if freshEvent && s.now - s.lastCheckAt < c.minInterval then s
    else s.(lastCheckAt := s.now, inFlight := true,
            retryIndex := if freshEvent then 0 else s.retryIndex,
            retryTimer := if freshEvent then false else s.retryTimer)
  }

  function ScheduleRetry(s: State, c: Setup): State {
    if !s.enabled || s.disposed || s.reloadIssued || s.hidden then s
    else s.(retryIndex := s.retryIndex + 1, retryTimer := s.retryTimer || s.retryIndex < c.retries)
  }

  function Offered(s: State, c: Setup, build: Build, throws: bool): State {
    var t := s.(offered := Some(build), shown := s.shown + {build});
    if throws then ScheduleRetry(t, c) else t
  }

  /** check() from its answer on. */
  function Answer(s: State, c: Setup, build: Option<Build>, requested: Option<Build>, throws: bool): State {
    var t := s.(inFlight := false);
    if !s.enabled then t
    else if build.None? then ScheduleRetry(t, c)
    else
      var u := t.(retryIndex := 0, retryTimer := false);
      if build == Some(c.current) || build == requested then u
      else if !c.offers then u.(reloadIssued := true, reloads := u.reloads + 1)
      else if s.offered == build then u
      else Offered(u, c, build.value, throws)
  }

  function Resume(s: State, c: Setup): State {
    if s.disposed || !s.suspended || s.hidden then s
    else
      var t := s.(suspended := false);
      if s.enabled then Check(t, c, true) else t
  }

  function MarkSuspended(s: State): State {
    if s.disposed then s else s.(suspended := true, retryTimer := false)
  }

  function Step(s: State, c: Setup, e: Event): State
    requires Enabled(s, e)
  {
    match e
    case Tick(elapsed) => s.(now := s.now + elapsed)
    case Toggles(enabled) => s.(enabled := enabled, retryTimer := s.retryTimer && (enabled || s.disposed))
    case Hides => MarkSuspended(s.(hidden := true))
    case Shows => Resume(s.(hidden := false), c)
    case PageHides => MarkSuspended(s)
    case PageShows => Resume(s, c)
    case RetryFires => Check(s.(retryTimer := false), c, false)
    case Answers(build, requested, throws) => Answer(s, c, build, requested, throws)
    case Fails => ScheduleRetry(s.(inFlight := false), c)
    case Accepts(_) => if s.reloadIssued || s.disposed then s else s.(reloadIssued := true, reloads := s.reloads + 1)
    case Disposes => s.(disposed := true, retryTimer := false)
  }

  ghost predicate Possible(s: State, c: Setup, events: seq<Event>)
    decreases |events|
  {
    events == [] || (Enabled(s, events[0]) && Possible(Step(s, c, events[0]), c, events[1..]))
  }

  ghost function After(s: State, c: Setup, events: seq<Event>): State
    requires Possible(s, c, events)
    decreases |events|
  {
    if events == [] then s else After(Step(s, c, events[0]), c, events[1..])
  }

  // ---- invariant ------------------------------------------------------------------------------

  /** One reload at most; a retry waits only between checks and within its budget. */
  predicate Inv(s: State, c: Setup) {
    && s.reloads == (if s.reloadIssued then 1 else 0)
    && (s.retryTimer ==> !s.inFlight && !s.disposed && 1 <= s.retryIndex <= c.retries)
    && s.retryIndex <= c.retries + 1
    && (s.inFlight ==> s.retryIndex <= c.retries)
    && (!c.offers && s.inFlight ==> !s.reloadIssued)
    && (!c.offers ==> s.shown == {})
  }

  lemma StepKeeps(s: State, c: Setup, e: Event)
    requires Inv(s, c) && Enabled(s, e)
    ensures Inv(Step(s, c, e), c)
  {
  }

  lemma {:induction false} Always(s: State, c: Setup, events: seq<Event>)
    requires Inv(s, c) && Possible(s, c, events)
    ensures Inv(After(s, c, events), c)
    decreases |events|
  {
    if events != [] {
      StepKeeps(s, c, events[0]);
      Always(Step(s, c, events[0]), c, events[1..]);
    }
  }

  /** Whatever happens to the page, it is reloaded at most once, and never while no answer named
      a build other than its own. */
  lemma OneReload(now: nat, enabled: bool, hidden: bool, c: Setup, events: seq<Event>)
    requires Possible(Installed(now, enabled, hidden), c, events)
    ensures After(Installed(now, enabled, hidden), c, events).reloads <= 1
    ensures (forall i :: 0 <= i < |events| ==> !IsNews(c, events[i])) ==> After(Installed(now, enabled, hidden), c, events).reloads == 0
  {
    Always(Installed(now, enabled, hidden), c, events);
    if forall i :: 0 <= i < |events| ==> !IsNews(c, events[i]) {
      NoNewsNoReload(Installed(now, enabled, hidden), c, events);
    }
  }

  predicate IsNews(c: Setup, e: Event) {
    e.Answers? && e.build.Some? && e.build != Some(c.current) && e.build != e.requested
  }

  lemma {:induction false} NoNewsNoReload(s: State, c: Setup, events: seq<Event>)
    requires Possible(s, c, events) && s.reloads == 0 && s.shown == {}
    requires forall i :: 0 <= i < |events| ==> !IsNews(c, events[i])
    ensures After(s, c, events).reloads == 0
    decreases |events|
  {
    if events != [] {
      assert !IsNews(c, events[0]);
      NoNewsNoReload(Step(s, c, events[0]), c, events[1..]);
    }
  }

  // ---- retries -----------------------------------------------------------------------------------

  predicate Begins(s: State, c: Setup, e: Event)
    requires Enabled(s, e)
  {
    !s.inFlight && Step(s, c, e).inFlight
  }

  /** Checks begun by retries since the last check a resume began (or the last answer). */
  function RetryChecks(s: State, c: Setup, events: seq<Event>): nat
    requires Possible(s, c, events)
    decreases |events|
  {
    if events == [] then 0
    else (if Begins(s, c, events[0]) then 1 else 0) + RetryChecks(Step(s, c, events[0]), c, events[1..])
  }

  predicate Resumes(e: Event) {
    e.Shows? || e.PageShows? || (e.Answers? && e.build.Some?)
  }

  lemma RetrySpent(s: State, c: Setup, e: Event)
    requires Inv(s, c) && Enabled(s, e) && !Resumes(e)
    ensures (if Begins(s, c, e) then 1 else 0) + RetriesLeft(Step(s, c, e), c) <= RetriesLeft(s, c)
  {
  }

  /** Without a resume or an answer there are never more further checks than retries left. */
  lemma {:induction false} RetriesBounded(s: State, c: Setup, events: seq<Event>)
    requires Inv(s, c) && Possible(s, c, events) && forall i :: 0 <= i < |events| ==> !Resumes(events[i])
    ensures RetryChecks(s, c, events) <= RetriesLeft(s, c)
    decreases |events|
  {
    if events != [] {
      StepKeeps(s, c, events[0]);
      assert !Resumes(events[0]);
      RetrySpent(s, c, events[0]);
      RetriesBounded(Step(s, c, events[0]), c, events[1..]);
    }
  }

  function RetriesLeft(s: State, c: Setup): nat {
    if s.retryTimer then (if s.retryIndex <= c.retries then c.retries - s.retryIndex + 1 else 0)
    else if s.inFlight then (if s.retryIndex <= c.retries then c.retries - s.retryIndex else 0)
    else 0
  }

  // ---- after dispose --------------------------------------------------------------------------------

  /** Disposing stops every further check, but not the one in flight: its answer still reloads
      or offers, exactly when it would have before and freshness is on. */
  lemma DisposedExact(s: State, c: Setup, e: Event)
    requires Inv(s, c) && Enabled(s, e) && s.disposed
    ensures var t := Step(s, c, e);
            && t.disposed && (t.inFlight ==> s.inFlight)
            && (t.reloads != s.reloads <==> !c.offers && s.enabled && IsNews(c, e))
            && (t.offered != s.offered <==> c.offers && s.enabled && IsNews(c, e) && e.build != s.offered)
  {
  }

  /** So once no check is in flight, a disposed watcher does nothing more. */
  lemma {:induction false} DisposedAndIdle(s: State, c: Setup, events: seq<Event>)
    requires Inv(s, c) && Possible(s, c, events) && s.disposed && !s.inFlight
    ensures var t := After(s, c, events); t.reloads == s.reloads && t.shown == s.shown && !t.inFlight
    decreases |events|
  {
    if events != [] {
      StepKeeps(s, c, events[0]);
      DisposedAndIdle(Step(s, c, events[0]), c, events[1..]);
    }
  }

  // ---- as it runs ---------------------------------------------------------------------------------------

  class Watcher {
    const setup: Setup
    /** The page: its clock, its visibility, and whether freshness is on. */
    var now: nat
    var hidden: bool
    var enabled: bool
    var disposed: bool
    var suspended: bool
    var inFlight: bool
    var reloadIssued: bool
    var lastCheckAt: int
    var offeredBuildId: Option<Build>
    var retryIndex: nat
    var retryTimer: bool
    ghost var reloads: nat
    ghost var shown: set<Build>

    ghost function Model(): State
      reads this
    {
      State(now, enabled, hidden, disposed, suspended, inFlight, reloadIssued, lastCheckAt, offeredBuildId, retryIndex,
            retryTimer, reloads, shown)
    }

    /** At most one reload was issued. */
    ghost predicate Valid()
      reads this
      ensures Valid() ==> reloads <= 1
    {
      Inv(Model(), setup)
    }

    twostate predicate Took(e: Event)
      reads this
    {
      Enabled(old(Model()), e) && Model() == Step(old(Model()), setup, e)
    }

    twostate lemma StaysValid(e: Event)
      requires old(Valid()) && Took(e)
      ensures Valid()
    {
      StepKeeps(old(Model()), setup, e);
    }

    constructor (setup: Setup, now: nat, enabled: bool, hidden: bool)
      ensures Model() == Installed(now, enabled, hidden) && this.setup == setup
    {
      this.setup, this.now, this.enabled, this.hidden := setup, now, enabled, hidden;
      disposed, suspended, inFlight, reloadIssued := false, hidden, false, false;
      lastCheckAt, offeredBuildId, retryIndex, retryTimer := 0, None, 0, false;
      reloads, shown := 0, {};
    }

    method BeginCheck(freshEvent: bool)
      modifies this
      ensures Model() == Check(old(Model()), setup, freshEvent)
    {
      if !enabled || disposed || reloadIssued || inFlight || hidden {
        return;
      }
      if freshEvent && now - lastCheckAt < setup.minInterval {
        return;
      }
      if freshEvent {
        retryIndex, retryTimer := 0, false;
      }
      lastCheckAt, inFlight := now, true;
    }

    method Retry()
      modifies this
      ensures Model() == ScheduleRetry(old(Model()), setup)
    {
      if !enabled || disposed || reloadIssued || hidden {
        return;
      }
      if retryIndex < setup.retries {
        retryTimer := true;
      }
      retryIndex := retryIndex + 1;
    }

    method Reload()
      modifies this
      ensures Model() == old(Model()).(reloadIssued := true, reloads := old(reloads) + 1)
    {
      reloadIssued, reloads := true, reloads + 1;
    }

    method Offer(build: Build, throws: bool)
      modifies this
      ensures Model() == Offered(old(Model()), setup, build, throws)
    {
      offeredBuildId := Some(build);
      shown := shown + {build};
      if throws {
        Retry();
      }
    }

    method OnAnswer(build: Option<Build>, requested: Option<Build>, throws: bool)
      requires Enabled(Model(), Answers(build, requested, throws))
      modifies this
      ensures Took(Answers(build, requested, throws))
    {
      inFlight := false;
      if !enabled {
        return;
      }
      if build.None? {
        Retry();
        return;
      }
      retryIndex, retryTimer := 0, false;
      if build == Some(setup.current) || build == requested {
        return;
      }
      if !setup.offers {
        Reload();
      } else if offeredBuildId != build {
        Offer(build.value, throws);
      }
    }

    method OnFailure()
      requires Enabled(Model(), Fails)
      modifies this
      ensures Took(Fails)
    {
      inFlight := false;
      Retry();
    }

    method OnRetryTimer()
      requires Enabled(Model(), RetryFires)
      modifies this
      ensures Took(RetryFires)
    {
      retryTimer := false;
      BeginCheck(false);
    }

    /** The reload an offer carries. */
    method Accept(build: Build)
      requires Enabled(Model(), Accepts(build))
      modifies this
      ensures Took(Accepts(build))
    {
      if reloadIssued || disposed {
        return;
      }
      Reload();
    }

    method ResumePage()
      modifies this
      ensures Model() == Resume(old(Model()), setup)
    {
      if disposed || !suspended || hidden {
        return;
      }
      suspended := false;
      if enabled {
        BeginCheck(true);
      }
    }

    /** The page hides or shows again; `visibility` tells its visibility event from its page event. */
    method OnPage(hiding: bool, visibility: bool)
      modifies this
      ensures Took(if visibility then (if hiding then Hides else Shows) else if hiding then PageHides else PageShows)
    {
      if visibility {
        hidden := hiding;
      }
      if !hiding {
        ResumePage();
      } else if !disposed {
        suspended, retryTimer := true, false;
      }
    }

    method OnFreshnessState(on: bool)
      modifies this
      ensures Took(Toggles(on))
    {
      enabled := on;
      if !on && !disposed {
        retryTimer := false;
      }
    }

    method Dispose()
      modifies this
      ensures Took(Disposes)
    {
      disposed, retryTimer := true, false;
    }
  }
}
