/**
  Late answers. A continuation whose epoch was superseded, or that arrives after
  disposal, changes nothing a person can see, and what it received is given back.
 */
module ConnectionContinuations {
  import opened Prelude
  import opened ConnectionModel

  // ---- single steps -----------------------------------------------------------------

  lemma SupersededReport(c: Controller, r: Report)
    requires Heard(c, r) && HasEpoch(r) && !Current(c, r.epoch)
    ensures var d := Reported(c, r);
            && d.view == c.view
            && ((r.OnNumeric? || r.OnPairing?) && r.attempt.Ok? ==> r.attempt.value.id in d.cancelled)
            && (r.OnDiscovery? && r.session.Ok? ==> r.session.value !in d.browser.running)
            && (r.OnDiscoveryUpdate? ==> d.browser == c.browser)
  {
  }

  lemma SupersededWork(c: Controller, s: QueueStep)
    requires Awaited(c.link.running, c.link.queue != [], s)
    requires WorkEpoch(c.link, s).None? || !Current(c, WorkEpoch(c.link, s).value)
    ensures Worked(c, s).view == c.view
  {
  }

  lemma EpochlessReport(c: Controller, r: Report)
    requires Heard(c, r) && !HasEpoch(r)
    ensures var v := Reported(c, r).view;
            v == c.view || (r.OnRenamedList? && v == c.view.(trusted := v.trusted) && Ids(v.trusted) == Ids(c.view.trusted))
  {
  }

  /** The continuation belongs to the newest intent. */
  ghost predicate FromNewestIntent(c: Controller, e: Event)
    requires Enabled(c, e) && !e.Ask?
  {
    match e
    case Hear(r) => HasEpoch(r) && Current(c, r.epoch)
    case Work(s) => WorkEpoch(c.link, s).Some? && Current(c, WorkEpoch(c.link, s).value)
  }

  /** Apart from the intents themselves, only a current continuation changes what is shown,
      except that a rename refreshes entries of the list in place. */
  lemma OnlyCurrentShows(c: Controller, e: Event)
    requires Enabled(c, e) && !e.Ask? && !FromNewestIntent(c, e)
    ensures var v := Step(c, e).view;
            v == c.view || (e.Hear? && e.report.OnRenamedList?
                            && v == c.view.(trusted := v.trusted) && Ids(v.trusted) == Ids(c.view.trusted))
  {
    match e
    case Work(s) => SupersededWork(c, s);
    case Hear(r) =>
      if HasEpoch(r) {
        SupersededReport(c, r);
      } else {
        EpochlessReport(c, r);
      }
  }

  // ---- after disposal -------------------------------------------------------------------

  /** Nothing that happens after disposal is ever shown. */
  lemma {:induction false} DisposedIsFinal(c: Controller, run: seq<Event>)
    requires c.disposed && Possible(c, run)
    ensures After(c, run).view == c.view && After(c, run).disposed
    decreases |run|
  {
    if run != [] {
      DisposedIsFinal(Step(c, run[0]), run[1..]);
    }
  }

  // ---- discovery browsers -----------------------------------------------------------------

  /** The only browser running is the one the controller holds. */
  ghost predicate BrowserHeld(c: Controller) {
    && (forall s :: s in c.browser.running ==> c.browser.session == Some(s))
    && (c.disposed ==> c.browser.session == None)
  }

  /** No browser is being started under the current epoch while one is held. */
  ghost predicate OneStarter(c: Controller) {
    && (forall a :: a in c.inflight && a.AwaitDiscovery? ==> a.epoch <= c.epoch)
    && (c.browser.session.Some? ==> AwaitDiscovery(c.epoch) !in c.inflight)
  }

  ghost predicate Browsers(c: Controller) {
    BrowserHeld(c) && OneStarter(c)
  }

  lemma BrowsersAsk(c: Controller, i: Intention)
    requires Browsers(c)
    ensures Browsers(Asked(c, i))
  {
    assert AwaitDiscovery(c.epoch + 1) !in c.inflight;
  }

  lemma BrowsersHear(c: Controller, r: Report)
    requires Browsers(c) && Heard(c, r)
    ensures Browsers(Reported(c, r))
  {
    forall a | a in Reported(c, r).inflight && a.AwaitDiscovery? ensures a in c.inflight {
      assert NextAwait(c, r) != Some(a);
    }
  }

  /** No discovery browser is ever left running unheld; after disposal none runs. */
  lemma {:induction false} NoBrowserLeaks(c: Controller, run: seq<Event>)
    requires Browsers(c) && Possible(c, run)
    ensures BrowserHeld(After(c, run))
    decreases |run|
  {
    if run != [] {
      match run[0] {
        case Ask(i) => BrowsersAsk(c, i);
        case Hear(r) => BrowsersHear(c, r);
        case Work(_) =>
      }
      NoBrowserLeaks(Step(c, run[0]), run[1..]);
    }
  }

  // ---- pairing attempts ----------------------------------------------------------------------

  /** The attempt on screen was not given up. */
  ghost predicate ShownIsOpen(c: Controller) {
    !c.disposed && c.view.attempt.Some? ==> c.view.attempt.value.id !in c.cancelled
  }

  /** An attempt that was cancelled, by the person or because it came too late, never shows. */
  lemma {:induction false} CancelledNeverShows(c: Controller, run: seq<Event>)
    requires ShownIsOpen(c) && Possible(c, run)
    ensures ShownIsOpen(After(c, run))
    decreases |run|
  {
    if run != [] {
      AttemptStep(c, run[0]);
      CancelledNeverShows(Step(c, run[0]), run[1..]);
    }
  }

  lemma AskedAttempt(c: Controller, i: Intention)
    ensures AskedView(c, i).attempt.Some? ==> AskedView(c, i).attempt == c.view.attempt && !i.DoCancelPairing?
    ensures AskedView(c, i).trusted == c.view.trusted
  {
  }

  lemma WorkedAttempt(v: View, l: Link, s: QueueStep)
    requires Awaited(l.running, l.queue != [], s)
    ensures WorkedView(v, l, s).attempt == v.attempt
    ensures forall t :: t in WorkedView(v, l, s).trusted ==> t in v.trusted
  {
  }

  lemma ReportedAttempt(v: View, r: Report)
    requires r.OnList? && r.listing.Ok? ==> |r.listing.value.connected| == |r.listing.value.trusted|
    ensures var w := ReportedView(v, r);
            w.attempt == v.attempt || w.attempt.None?
            || ((r.OnNumeric? || r.OnPairing?) && r.attempt.Ok? && w.attempt.value == r.attempt.value)
    ensures r.OnList? || r.OnRenamedList? || ReportedView(v, r).trusted == v.trusted
  {
  }

  lemma AttemptStep(c: Controller, e: Event)
    requires ShownIsOpen(c) && Enabled(c, e)
    ensures ShownIsOpen(Step(c, e))
  {
    match e
    case Ask(i) => AskedAttempt(c, i);
    case Work(s) => WorkedAttempt(c.view, c.link, s);
    case Hear(r) => ReportedAttempt(c.view, r);
  }

  // ---- forgotten servers -----------------------------------------------------------------------

  ghost predicate Listed(c: Controller, id: Id) {
    exists t :: t in c.view.trusted && t.id == id
  }

  ghost predicate NoReload(run: seq<Event>) {
    forall i :: 0 <= i < |run| ==> !(run[i].Hear? && run[i].report.OnList?)
  }

  /** Forgetting takes the server off the list. */
  lemma ForgetUnlists(c: Controller)
    requires Enabled(c, Work(OnForget(None))) && WorkCurrent(c, OnForget(None))
    ensures !Listed(Worked(c, OnForget(None)), c.link.running.op.id)
    ensures forall id :: id != c.link.running.op.id ==> (Listed(Worked(c, OnForget(None)), id) <==> Listed(c, id))
  {
    var d := Worked(c, OnForget(None));
    forall id | id != c.link.running.op.id && Listed(c, id) ensures Listed(d, id) {
      var t :| t in c.view.trusted && t.id == id;
      assert t in d.view.trusted;
    }
  }

  lemma RenameListsNothingNew(trusted: seq<Connection>, saved: seq<Connection>, t: Connection)
    requires t in Refreshed(trusted, saved)
    ensures exists u :: u in trusted && u.id == t.id
  {
    var r := Refreshed(trusted, saved);
    var k :| 0 <= k < |r| && r[k] == t;
    assert Ids(r)[k] == Ids(trusted)[k];
    assert trusted[k] in trusted;
  }

  lemma StepListsNothingNew(c: Controller, e: Event, id: Id)
    requires Enabled(c, e) && !(e.Hear? && e.report.OnList?) && Listed(Step(c, e), id)
    ensures Listed(c, id)
  {
    var t :| t in Step(c, e).view.trusted && t.id == id;
    match e
    case Ask(i) => AskedAttempt(c, i);
    case Work(s) => WorkedAttempt(c.view, c.link, s);
    case Hear(r) =>
      ReportedAttempt(c.view, r);
      if r.OnRenamedList? && r.saved.Ok? && !c.disposed {
        RenameListsNothingNew(c.view.trusted, r.saved.value, t);
      }
  }

  /** Only a reload lists a server that was not listed: a rename never brings a forgotten one back. */
  lemma {:induction false} ForgottenStaysForgotten(c: Controller, run: seq<Event>, id: Id)
    requires Possible(c, run) && NoReload(run) && !Listed(c, id)
    ensures !Listed(After(c, run), id)
    decreases |run|
  {
    if run != [] {
      if Listed(Step(c, run[0]), id) {
        StepListsNothingNew(c, run[0], id);
      }
      ForgottenStaysForgotten(Step(c, run[0]), run[1..], id);
    }
  }
}
