/**
  When the freshness watcher checks, retries, offers and reloads: each exactly on its own
  occasion, and never before the page was suspended.
 */
module FreshnessChecks {
  import opened Prelude
  import opened BuildFreshness

  /** The page can always change, a retry comes from its timer, an answer from its check, and a
      person agrees to what was shown. */
  lemma WorldIsFree(s: State, elapsed: nat, on: bool, build: Option<Build>, requested: Option<Build>, agreed: Build)
    ensures Enabled(s, Tick(elapsed)) && Enabled(s, Toggles(on)) && Enabled(s, Disposes)
    ensures Enabled(s, Hides) && Enabled(s, Shows) && Enabled(s, PageHides) && Enabled(s, PageShows)
    ensures Enabled(s, RetryFires) <==> s.retryTimer
    ensures (Enabled(s, Answers(build, requested, on)) <==> s.inFlight) && (Enabled(s, Fails) <==> s.inFlight)
    ensures Enabled(s, Accepts(agreed)) <==> agreed in s.shown
  {
  }

  // ---- checks ----------------------------------------------------------------------------------

  predicate Leaves(e: Event) {
    e.Hides? || e.PageHides?
  }

  /** The page comes back to a watcher that is not disposed. */
  predicate ComesBack(s: State, e: Event) {
    !s.disposed && s.suspended && (e.Shows? || (e.PageShows? && !s.hidden))
  }

  /** Nothing stands in the way of a check. */
  predicate Free(s: State) {
    s.enabled && !s.disposed && !s.reloadIssued && !s.inFlight
  }

  /** A check begins exactly when a suspended page comes back, not too soon after the last one, or
      when a retry fires on a page that shows; it takes the clock, and a resume its retries anew. */
  lemma CheckExact(s: State, c: Setup, e: Event)
    requires Enabled(s, e)
    ensures Begins(s, c, e) <==>
            Free(s) && ((ComesBack(s, e) && s.now - s.lastCheckAt >= c.minInterval) || (e.RetryFires? && !s.hidden))
    ensures Step(s, c, e).lastCheckAt == if Begins(s, c, e) then s.now else s.lastCheckAt
    ensures Step(s, c, e).inFlight <==> Begins(s, c, e) || (s.inFlight && !e.Answers? && !e.Fails?)
  {
  }

  /** An answer leaves the page and the switch as they are ... */
  lemma AnswerLeavesPage(s: State, c: Setup, build: Option<Build>, requested: Option<Build>, throws: bool)
    ensures var t := Answer(s, c, build, requested, throws);
            && t.suspended == s.suspended && t.hidden == s.hidden && t.enabled == s.enabled
            && t.disposed == s.disposed && t.now == s.now
  {
  }

  /** ... and a page that comes back only stops being suspended. */
  lemma ResumeLeavesPage(s: State, c: Setup)
    ensures var t := Resume(s, c);
            && t.suspended == (s.suspended && (s.disposed || s.hidden)) && t.hidden == s.hidden && t.enabled == s.enabled
            && t.disposed == s.disposed && t.now == s.now
  {
  }

  lemma RetryLeavesPage(s: State, c: Setup)
    ensures var t := ScheduleRetry(s.(inFlight := false), c);
            && t.suspended == s.suspended && t.hidden == s.hidden && t.enabled == s.enabled
            && t.disposed == s.disposed && t.now == s.now
    ensures var t := Check(s.(retryTimer := false), c, false);
            && t.suspended == s.suspended && t.hidden == s.hidden && t.enabled == s.enabled
            && t.disposed == s.disposed && t.now == s.now
  {
  }

  /** What each event leaves of them. */
  lemma PageLaws(s: State, c: Setup, e: Event)
    requires Enabled(s, e)
    ensures e.Answers? || e.Fails? || e.RetryFires? ==>
              var t := Step(s, c, e);
              && t.suspended == s.suspended && t.hidden == s.hidden && t.enabled == s.enabled
              && t.disposed == s.disposed && t.now == s.now
    ensures e.Shows? || e.PageShows? ==>
              var t := Step(s, c, e);
              && t.suspended == (s.suspended && !ComesBack(s, e)) && t.hidden == (s.hidden && !e.Shows?)
              && t.enabled == s.enabled && t.disposed == s.disposed && t.now == s.now
  {
    match e
    case Answers(build, requested, throws) => AnswerLeavesPage(s, c, build, requested, throws);
    case Fails => RetryLeavesPage(s, c);
    case RetryFires => RetryLeavesPage(s, c);
    case Shows => ResumeLeavesPage(s.(hidden := false), c);
    case PageShows => ResumeLeavesPage(s, c);
    case _ =>
  }

  /** Leaving suspends, coming back ends that, and nothing else does either. */
  lemma SuspendedMoves(s: State, c: Setup, e: Event)
    requires Enabled(s, e)
    ensures Step(s, c, e).suspended <==> (Leaves(e) && !s.disposed) || (s.suspended && !ComesBack(s, e))
  {
    PageLaws(s, c, e);
  }

  /** What the watcher is told: visibility and the clock ... */
  lemma PageMoves(s: State, c: Setup, e: Event)
    requires Enabled(s, e)
    ensures Step(s, c, e).hidden <==> e.Hides? || (s.hidden && !e.Shows?)
    ensures Step(s, c, e).now == if e.Tick? then s.now + e.elapsed else s.now
  {
    PageLaws(s, c, e);
  }

  /** ... its switch and its end. */
  lemma SwitchMoves(s: State, c: Setup, e: Event)
    requires Enabled(s, e)
    ensures Step(s, c, e).enabled <==> if e.Toggles? then e.enabled else s.enabled
    ensures Step(s, c, e).disposed <==> s.disposed || e.Disposes?
  {
    PageLaws(s, c, e);
  }

  /** Never during an ordinary boot: a run of a page installed visible that never left begins no
      check, and so does nothing. */
  lemma {:induction false} NoCheckBeforeSuspension(s: State, c: Setup, events: seq<Event>)
    requires !s.suspended && !s.inFlight && !s.retryTimer && s.shown == {} && Possible(s, c, events)
    requires forall i :: 0 <= i < |events| ==> !Leaves(events[i])
    ensures var t := After(s, c, events);
            !t.inFlight && t.lastCheckAt == s.lastCheckAt && t.reloads == s.reloads && t.shown == {}
    decreases |events|
  {
    if events != [] {
      assert !Leaves(events[0]);
      NoCheckBeforeSuspension(Step(s, c, events[0]), c, events[1..]);
    }
  }

  lemma BootChecksNothing(now: nat, enabled: bool, c: Setup, events: seq<Event>)
    requires Possible(Installed(now, enabled, false), c, events)
    requires forall i :: 0 <= i < |events| ==> !Leaves(events[i])
    ensures var t := After(Installed(now, enabled, false), c, events); !t.inFlight && t.reloads == 0 && t.shown == {}
  {
    NoCheckBeforeSuspension(Installed(now, enabled, false), c, events);
  }

  /** Installed on a hidden page it checks when that first shows, unless the clock is too young. */
  lemma HiddenBootChecks(now: nat, c: Setup)
    ensures Begins(Installed(now, true, true), c, Shows) <==> now >= c.minInterval
    ensures !Begins(Installed(now, false, true), c, Shows)
  {
  }

  // ---- what an answer leads to ----------------------------------------------------------------------

  /** The answer names a newer build while freshness is on. */
  predicate Stale(s: State, c: Setup, e: Event) {
    IsNews(c, e) && s.enabled
  }

  predicate Offers(s: State, c: Setup, e: Event) {
    Stale(s, c, e) && c.offers && e.build != s.offered
  }

  predicate Reloads(s: State, c: Setup, e: Event) {
    (Stale(s, c, e) && !c.offers) || (e.Accepts? && !s.reloadIssued && !s.disposed)
  }

  lemma ResumeShowsNothing(s: State, c: Setup)
    ensures Resume(s, c).reloads == s.reloads && Resume(s, c).reloadIssued == s.reloadIssued
    ensures Resume(s, c).offered == s.offered && Resume(s, c).shown == s.shown
  {
  }

  lemma PageShowsNothing(s: State, c: Setup, e: Event)
    requires Enabled(s, e) && !e.Answers? && !e.Accepts?
    ensures Step(s, c, e).reloads == s.reloads && Step(s, c, e).reloadIssued == s.reloadIssued
    ensures Step(s, c, e).offered == s.offered && Step(s, c, e).shown == s.shown
  {
    if e.Shows? {
      ResumeShowsNothing(s.(hidden := false), c);
    } else if e.PageShows? {
      ResumeShowsNothing(s, c);
    }
  }

  /** A reload is made exactly for such an answer where none is offered, or when a person agrees
      to an offer and none was made. */
  lemma ReloadExact(s: State, c: Setup, e: Event)
    requires Inv(s, c) && Enabled(s, e)
    ensures Step(s, c, e).reloads == if Reloads(s, c, e) then s.reloads + 1 else s.reloads
    ensures Step(s, c, e).reloadIssued <==> s.reloadIssued || Reloads(s, c, e)
  {
    if !e.Answers? && !e.Accepts? {
      PageShowsNothing(s, c, e);
    }
  }

  /** An offer is shown exactly for such an answer that is not the one offered last. */
  lemma OfferExact(s: State, c: Setup, e: Event)
    requires Inv(s, c) && Enabled(s, e)
    ensures Step(s, c, e).offered == if Offers(s, c, e) then e.build else s.offered
    ensures Step(s, c, e).shown == if Offers(s, c, e) then s.shown + {e.build.value} else s.shown
  {
    if !e.Answers? && !e.Accepts? {
      PageShowsNothing(s, c, e);
    }
  }

  /** The check came to nothing: it failed, it named no build, or its offer threw. */
  predicate Misses(s: State, c: Setup, e: Event) {
    e.Fails? || (e.Answers? && e.build.None? && s.enabled) || (Offers(s, c, e) && e.throws)
  }

  predicate Knows(s: State, e: Event) {
    e.Answers? && e.build.Some? && s.enabled
  }

  /** Retries taken so far, as this event finds them: a known build starts them anew. */
  function Tried(s: State, e: Event): nat {
    if Knows(s, e) then 0 else s.retryIndex
  }

  predicate MayRetry(s: State) {
    s.enabled && !s.disposed && !s.reloadIssued && !s.hidden
  }

  /** A retry is set exactly when a check came to nothing and one is left; leaving the page,
      switching freshness off, disposing, a known build and a resumed check clear it. */
  lemma RetryExact(s: State, c: Setup, e: Event)
    requires Inv(s, c) && Enabled(s, e)
    ensures var t := Step(s, c, e);
            && t.retryIndex == (if Misses(s, c, e) && MayRetry(s) then Tried(s, e) + 1
                                else if Begins(s, c, e) && !e.RetryFires? then 0
                                else Tried(s, e))
            && (t.retryTimer <==>
                  (Misses(s, c, e) && MayRetry(s) && Tried(s, e) < c.retries)
                  || (s.retryTimer && !e.RetryFires? && !e.Disposes? && !Knows(s, e) && !(Leaves(e) && !s.disposed)
                      && !(e.Toggles? && !e.enabled) && !(Begins(s, c, e) && !e.RetryFires?)))
  {
  }
}
